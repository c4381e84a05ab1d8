/** Money, currencies, balances and records of the budget ledger, with their validators. Amounts are whole cents. */
module FinanceModel {
  import opened PythonText
  import opened Search

  // ---- money and currency --------------------------------------------------------------------------------

  /** What may be passed as an amount. */
  datatype Amount = Number(value: real) | NotANumber | Infinite

  /** Decimals carry 28 digits, so quantising a larger number of cents fails. */
  const LIMIT := 10_000_000_000_000_000_000_000_000_000

  predicate Cents(x: int) { 0 <= x < LIMIT }

  /** Cents, rounded down; negative, non-finite and oversized amounts are refused. */
  function SafeMoney(a: Amount): (r: Option<int>)
    ensures r.Some? <==> a.Number? && 0.0 <= a.value < LIMIT as real / 100.0
    ensures r.Some? ==> Cents(r.value) && r.value as real <= a.value * 100.0 < r.value as real + 1.0
  {
    if a.Number? && a.value >= 0.0 && Cents((a.value * 100.0).Floor) then Some((a.value * 100.0).Floor) else None
  }

  function UpperChar(c: char): char { if 'a' <= c <= 'z' then c - 'a' + 'A' else c }

  function Upper(s: string): (r: string)
    ensures |r| == |s| && forall i | 0 <= i < |s| :: r[i] == UpperChar(s[i])
  { if s == "" then "" else [UpperChar(s[0])] + Upper(s[1..]) }

  function NormalizeCurrency(s: string): string { Upper(Strip(s)) }

  /** Normalising twice changes nothing, so stored currencies survive a reload. */
  lemma NormalizeIdempotent(s: string)
    ensures NormalizeCurrency(NormalizeCurrency(s)) == NormalizeCurrency(s)
  {
    hide Strip, Upper;
    var t := Strip(s);
    StripTrims(s);
    assert Trimmed(Upper(t));
    StripTrims(Upper(t));
    UpperTwice(t);
  }

  lemma UpperTwice(t: string)
    ensures Upper(Upper(t)) == Upper(t)
  {
    var u := Upper(t);
    assert forall i | 0 <= i < |u| :: Upper(u)[i] == u[i];
  }

  // ---- records -------------------------------------------------------------------------------------------

  datatype BudgetStatus = Unset | Available | Exhausted | OverBudget

  datatype Budget = Budget(
    objectiveId: string, currency: string, total: int, allotted: int, reserved: int, committed: int, spent: int,
    available: int, status: BudgetStatus, version: int)

  datatype Allocation = Allocation(
    id: string, objectiveId: string, missionId: string, currency: string, allotted: int, reserved: int, committed: int,
    spent: int, available: int, status: BudgetStatus, version: int)

  datatype ReservationStatus = Active | Released | Converted

  datatype Reservation = Reservation(
    id: string, objectiveId: string, missionId: string, amount: int, currency: string, status: ReservationStatus)

  datatype Commitment = Commitment(
    id: string, objectiveId: string, missionId: string, reservationId: Option<string>, amount: int,
    currency: string, settled: bool)

  datatype Spend = Spend(
    id: string, objectiveId: string, missionId: string, commitmentId: string, amount: int, currency: string)

  datatype EntryType =
    | BudgetCreated | MissionAllocated | ReservationCreated | ReservationReleased | ReservationConverted
    | CommitmentCreated | SpendRecorded

  datatype Entry = Entry(
    objectiveId: string, missionId: Option<string>, kind: EntryType, amount: int, currency: string, related: string)

  datatype State = State(
    objectives: map<string, Budget>, allocations: map<string, Allocation>, reservations: map<string, Reservation>,
    commitments: map<string, Commitment>, spends: map<string, Spend>, ledger: seq<Entry>)

  const EMPTY := State(map[], map[], map[], map[], map[], [])

  // ---- validators: refuse a record, or recompute its derived fields --------------------------------------

  function ObjectiveAvailable(b: Budget): int {
    var derived := b.total - b.allotted - b.reserved - b.committed - b.spent;
    if derived < 0 then 0 else derived
  }

  function DeriveBudget(b: Budget): Budget {
    var derived := b.total - b.allotted - b.reserved - b.committed - b.spent;
    b.(currency := NormalizeCurrency(b.currency), available := ObjectiveAvailable(b),
       status := if derived < 0 then OverBudget else if derived == 0 && b.total > 0 then Exhausted
                 else if b.total > 0 then Available else Unset)
  }

  predicate BudgetOk(b: Budget) {
    && Cents(b.total) && Cents(b.allotted) && Cents(b.reserved) && Cents(b.committed) && Cents(b.spent)
    && b.allotted <= b.total && b.version >= 1
  }

  function MissionAvailable(a: Allocation): int { a.allotted - a.reserved - a.committed - a.spent }

  function DeriveAllocation(a: Allocation): Allocation {
    a.(currency := NormalizeCurrency(a.currency), available := MissionAvailable(a),
       status := if MissionAvailable(a) == 0 && a.allotted > 0 then Exhausted
                 else if a.allotted > 0 then Available else a.status)
  }

  predicate AllocationOk(a: Allocation) {
    && Cents(a.allotted) && Cents(a.reserved) && Cents(a.committed) && Cents(a.spent)
    && MissionAvailable(a) >= 0 && a.version >= 1
  }

  function DeriveReservation(r: Reservation): Reservation { r.(currency := NormalizeCurrency(r.currency)) }

  function DeriveCommitment(c: Commitment): Commitment { c.(currency := NormalizeCurrency(c.currency)) }

  function DeriveSpend(p: Spend): Spend { p.(currency := NormalizeCurrency(p.currency)) }

  predicate Payable(amount: int) { Cents(amount) && amount > 0 }

  /** Every record of a stored state passes its validator. */
  predicate AllValid(s: State) {
    && (forall k | k in s.objectives :: BudgetOk(s.objectives[k]))
    && (forall k | k in s.allocations :: AllocationOk(s.allocations[k]))
    && (forall k | k in s.reservations :: Payable(s.reservations[k].amount))
    && (forall k | k in s.commitments :: Payable(s.commitments[k].amount))
    && (forall k | k in s.spends :: Payable(s.spends[k].amount))
  }

  /** Reading the ledger back: one refused record loses the whole state, which is then taken to be empty. */
  function Reload(s: State): State {
    if !AllValid(s) then EMPTY
    else
      State(map k | k in s.objectives :: DeriveBudget(s.objectives[k]),
            map k | k in s.allocations :: DeriveAllocation(s.allocations[k]),
            map k | k in s.reservations :: DeriveReservation(s.reservations[k]),
            map k | k in s.commitments :: DeriveCommitment(s.commitments[k]),
            map k | k in s.spends :: DeriveSpend(s.spends[k]),
            s.ledger)
  }

  // ---- allocation keys -----------------------------------------------------------------------------------

  function Key(objectiveId: string, missionId: string): string { "alloc_" + objectiveId + "_" + missionId }

  /** The admitted shape of an objective id: `obj_` followed by 8 to 64 lower-case letters and digits. */
  predicate Admitted(o: string) {
    && 12 <= |o| <= 68 && o[..4] == "obj_"
    && forall i | 4 <= i < |o| :: 'a' <= o[i] <= 'z' || '0' <= o[i] <= '9'
  }

  /** Two different pairs share a key exactly when one objective id continues the other across an underscore. */
  lemma KeysCollideExactly(o: string, m: string, p: string, n: string)
    requires |o| <= |p|
    ensures Key(o, m) == Key(p, n) <==>
            (o == p && m == n) || (|o| < |p| && p[..|o|] == o && p[|o|] == '_' && m == p[|o| + 1..] + "_" + n)
  {
    var a, b := o + "_" + m, p + "_" + n;
    assert Key(o, m)[6..] == a && Key(p, n)[6..] == b;
    assert Key(o, m) == "alloc_" + a && Key(p, n) == "alloc_" + b;
    assert a[..|o|] == o && a[|o| + 1..] == m && b[..|o|] == p[..|o|];
    if |o| == |p| {
      assert b[|o| + 1..] == n;
    } else {
      assert a[|o|] == '_' && b[|o|] == p[|o|] && b[|o| + 1..] == p[|o| + 1..] + "_" + n;
      if p[..|o|] == o && p[|o|] == '_' {
        assert p == o + "_" + p[|o| + 1..];
      }
    }
  }

  /** Keys of admitted objectives are unambiguous. */
  lemma AdmittedKeysAreDistinct(o: string, m: string, p: string, n: string)
    requires Admitted(o) && Admitted(p)
    ensures Key(o, m) == Key(p, n) ==> o == p && m == n
  {
    if |o| <= |p| {
      KeysCollideExactly(o, m, p, n);
      assert |o| < |p| ==> p[|o|] != '_';
    } else {
      KeysCollideExactly(p, n, o, m);
      assert o[|p|] != '_';
    }
  }
}
