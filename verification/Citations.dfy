/** The citation registry of the research planner: local citation tags are remapped to global ones across searches. */
module Citations {
  import opened Search

  // ---- keys ------------------------------------------------------------------------------------------------

  function Digits(n: nat): string {
    if n < 10 then [(n as char) + '0'] else Digits(n / 10) + [((n % 10) as char) + '0']
  }

  function Value(s: string): int {
    if s == "" then 0 else Value(s[..|s| - 1]) * 10 + (s[|s| - 1] as int - '0' as int)
  }

  lemma {:induction false} DigitsReadBack(n: nat)
    ensures Digits(n) != "" && Value(Digits(n)) == n
  {
    if n >= 10 {
      DigitsReadBack(n / 10);
      assert Digits(n)[..|Digits(n)| - 1] == Digits(n / 10);
    } else {
      assert Digits(n)[..0] == "";
    }
  }

  /** The `n`-th global key, `[n]`. */
  function KeyOf(n: nat): string { "[" + Digits(n) + "]" }

  lemma KeysDiffer(m: nat, n: nat)
    ensures KeyOf(m) == KeyOf(n) ==> m == n
  {
    DigitsReadBack(m);
    DigitsReadBack(n);
    assert KeyOf(m)[1..|KeyOf(m)| - 1] == Digits(m);
    assert KeyOf(n)[1..|KeyOf(n)| - 1] == Digits(n);
  }

  /** The key of the URL at a position of the registry; positions count from 0, keys from `[1]`. */
  function KeyAt(position: nat): string { KeyOf(position + 1) }

  predicate Numbered(key: string, count: nat) { exists n :: 0 <= n < count && key == KeyAt(n) }

  /** The dictionary numbers the URLs in order and holds nothing else. */
  ghost predicate Numbers(global: map<string, string>, urls: seq<string>) {
    && (forall n | 0 <= n < |urls| :: KeyAt(n) in global && global[KeyAt(n)] == urls[n])
    && (forall k | k in global :: Numbered(k, |urls|))
  }

  lemma NumbersGrow(global: map<string, string>, urls: seq<string>, url: string)
    requires Numbers(global, urls)
    ensures KeyAt(|urls|) !in global && Numbers(global[KeyAt(|urls|) := url], urls + [url])
  {
    hide KeyOf, Digits;
    var key, more := KeyAt(|urls|), urls + [url];
    forall n | 0 <= n < |urls| ensures KeyAt(n) != key {
      KeysDiffer(n + 1, |urls| + 1);
    }
    hide KeyAt;
    forall k | k in global[key := url] ensures Numbered(k, |more|) {
      assert k in global ==> Numbered(k, |urls|);
      assert k == key ==> k == KeyAt(|urls|);
    }
  }

  // ---- the registry ----------------------------------------------------------------------------------------

  predicate Distinct(urls: seq<string>) { forall i, j | 0 <= i < j < |urls| :: urls[i] != urls[j] }

  function Register(urls: seq<string>, url: string): seq<string> { if url in urls then urls else urls + [url] }

  /** The URLs known after a search output's citations were registered, in order of first appearance. */
  function RegisterAll(urls: seq<string>, citations: seq<(string, string)>): seq<string> {
    if citations == [] then urls
    else Register(RegisterAll(urls, citations[..|citations| - 1]), citations[|citations| - 1].1)
  }

  /** Registering only appends: known URLs keep their numbers, every cited URL gets one, and nothing else does. */
  lemma {:induction false} RegisterAllKeeps(urls: seq<string>, citations: seq<(string, string)>)
    requires Distinct(urls)
    ensures var after := RegisterAll(urls, citations);
      && urls <= after && Distinct(after)
      && forall u :: u in after <==> u in urls || exists i | 0 <= i < |citations| :: citations[i].1 == u
  {
    if citations != [] {
      var front := citations[..|citations| - 1];
      RegisterAllKeeps(urls, front);
      var mid, after := RegisterAll(urls, front), RegisterAll(urls, citations);
      forall u ensures u in after <==> u in urls || exists i | 0 <= i < |citations| :: citations[i].1 == u {
        if i :| 0 <= i < |front| && front[i].1 == u {
          assert citations[i].1 == u;
        }
        if i :| 0 <= i < |citations| && citations[i].1 == u {
          assert i < |front| ==> front[i].1 == u;
        }
      }
    }
  }

  /** Any sequence of merges, as the asynchronous searches happen to finish. */
  function RegisterRuns(urls: seq<string>, outputs: seq<seq<(string, string)>>): seq<string> {
    if outputs == [] then urls else RegisterAll(RegisterRuns(urls, outputs[..|outputs| - 1]), outputs[|outputs| - 1])
  }

  /** Across any sequence of merges the registry stays one number per URL and never rebinds a number. */
  lemma {:induction false} NeverRebinds(outputs: seq<seq<(string, string)>>, n: nat)
    requires n <= |outputs|
    ensures Distinct(RegisterRuns([], outputs)) && RegisterRuns([], outputs[..n]) <= RegisterRuns([], outputs)
  {
    if outputs != [] {
      var front := outputs[..|outputs| - 1];
      if n < |outputs| {
        assert front[..n] == outputs[..n];
        NeverRebinds(front, n);
      } else {
        assert outputs[..n] == outputs;
        NeverRebinds(front, |front|);
      }
      RegisterAllKeeps(RegisterRuns([], front), outputs[|outputs| - 1]);
    }
  }

  /** A local key is declared by the citations of its own search output; a later declaration replaces an earlier one. */
  function Declared(citations: seq<(string, string)>): map<string, string> {
    if citations == [] then map[]
    else Declared(citations[..|citations| - 1])[citations[|citations| - 1].0 := citations[|citations| - 1].1]
  }

  datatype Hit = Hit(citation: string, body: string)

  class DeepResearchPlanner {
    var globalCitations: map<string, string>
    var citationCounter: nat
    ghost var urls: seq<string>

    /** The dictionary holds exactly the keys `[1]` to `[n]`, one per known URL. */
    ghost predicate Valid()
      reads this
    {
      Distinct(urls) && citationCounter == |urls| + 1 && Numbers(globalCitations, urls)
    }

    constructor ()
      ensures Valid() && urls == []
    {
      globalCitations, citationCounter, urls := map[], 1, [];
    }

    /** Remapped results cite the URL they cited before; tags their search did not declare are left as they were. */
    method MergeCitations(citations: seq<(string, string)>, results: seq<Hit>) returns (processed: seq<Hit>)
      requires Valid()
      modifies this
      ensures Valid() && urls == RegisterAll(old(urls), citations)
      ensures forall k | k in old(globalCitations) :: k in globalCitations && globalCitations[k] == old(globalCitations)[k]
      ensures |processed| == |results|
      ensures forall i | 0 <= i < |results| ::
                && processed[i].body == results[i].body
                && if results[i].citation in Declared(citations) then
                     processed[i].citation in globalCitations
                     && globalCitations[processed[i].citation] == Declared(citations)[results[i].citation]
                   else processed[i].citation == results[i].citation
    {
      hide Numbers;
      var localToGlobal: map<string, string> := map[];
      assert RegisterAll(urls, []) == urls;
      for i := 0 to |citations|
        invariant Valid() && urls == RegisterAll(old(urls), citations[..i])
        invariant forall k | k in old(globalCitations) :: k in globalCitations && globalCitations[k] == old(globalCitations)[k]
        invariant localToGlobal.Keys == Declared(citations[..i]).Keys
        invariant forall l | l in localToGlobal ::
                    localToGlobal[l] in globalCitations && globalCitations[localToGlobal[l]] == Declared(citations[..i])[l]
      {
        var (local, url) := citations[i];
        assert citations[..i + 1][..i] == citations[..i];
        assert RegisterAll(old(urls), citations[..i + 1]) == Register(urls, url);
        var key := RegisterUrl(url);
        localToGlobal := localToGlobal[local := key];
      }
      assert citations[..|citations|] == citations;
      processed := [];
      for i := 0 to |results|
        invariant |processed| == i
        invariant forall j | 0 <= j < i ::
                    processed[j] == results[j].(citation :=
                      if results[j].citation in localToGlobal then localToGlobal[results[j].citation] else results[j].citation)
      {
        var hit := results[i];
        hit := hit.(citation := if hit.citation in localToGlobal then localToGlobal[hit.citation] else hit.citation);
        processed := processed + [hit];
      }
    }

    /** The global key of a URL, new or found. */
    method RegisterUrl(url: string) returns (key: string)
      requires Valid()
      modifies this
      ensures Valid() && urls == Register(old(urls), url)
      ensures key in globalCitations && globalCitations[key] == url
      ensures forall k | k in old(globalCitations) :: k in globalCitations && globalCitations[k] == old(globalCitations)[k]
    {
      hide KeyOf;
      for n := 1 to citationCounter
        invariant forall m | 0 <= m < n - 1 :: urls[m] != url
      {
        assert KeyAt(n - 1) == KeyOf(n);
        if globalCitations[KeyOf(n)] == url {
          return KeyOf(n);
        }
      }
      key := KeyOf(citationCounter);
      NumbersGrow(globalCitations, urls, url);
      hide Numbers;
      globalCitations := globalCitations[key := url];
      citationCounter := citationCounter + 1;
      urls := urls + [url];
    }
  }
}
