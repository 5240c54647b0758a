/** The oracle of the direct-token lane: what the response counters must be for a registered prefix length. */
module PrefixOracle {
  import opened Wrappers
  import opened Verdicts

  /** The counters of one response and the idle slot's view of the same request. */
  datatype Observation = Observation(
    cacheTokens: int, predictedTokens: int, promptTokens: int, promptWork: int, idle: bool, slotWork: int)

  datatype Case = Case(source: Observation, cacheOn: Observation, cacheOff: Observation)

  /** Prompt lengths and the common prefix length, as registered. */
  datatype Registered = Registered(source: int, cacheOn: int, cacheOff: int, commonPrefix: int)

  /** A dictionary's items in iteration order. */
  type Cases = seq<(string, Case)>

  type Registration = map<string, Registered>

  predicate Covered(value: Cases, reg: Registration) {
    forall i :: 0 <= i < |value| ==> value[i].0 in reg
  }

  predicate NamesDistinct(value: Cases) {
    forall i, j :: 0 <= i < j < |value| ==> value[i].0 != value[j].0
  }

  function ExpectedCache(r: Registered): int {
    if r.commonPrefix == r.cacheOn then r.commonPrefix - 1 else r.commonPrefix
  }

  // -- The verdicts, one by one --------------------------------------------------------------

  /** Every observation with the prompt length registered for it. */
  function Observations(value: Cases, reg: Registration): seq<(Observation, int)>
    requires Covered(value, reg)
  {
    if value == [] then []
    else
      var (name, c) := value[|value| - 1];
      var r := reg[name];
      Observations(value[..|value| - 1], reg) + [(c.source, r.source), (c.cacheOn, r.cacheOn), (c.cacheOff, r.cacheOff)]
  }

  function CommonEntries(obs: seq<(Observation, int)>): seq<Entry> {
    [ ("prefix_predicted_tokens_are_one", forall i :: 0 <= i < |obs| ==> obs[i].0.predictedTokens == 1),
      ("prefix_prompt_accounting_consistent",
        forall i :: 0 <= i < |obs| ==> obs[i].0.cacheTokens + obs[i].0.promptWork == obs[i].0.promptTokens),
      ("prefix_prompt_counts_match_registration", forall i :: 0 <= i < |obs| ==> obs[i].0.promptTokens == obs[i].1),
      ("prefix_prompt_work_views_consistent", forall i :: 0 <= i < |obs| ==> obs[i].0.promptWork == obs[i].0.slotWork),
      ("prefix_slots_idle", forall i :: 0 <= i < |obs| ==> obs[i].0.idle) ]
  }

  const PER_CASE := 5

  const SUFFIXES: seq<string> := [
    "_source_is_cold", "_cache_off_is_cold", "_cache_on_cache_matches_lcp_rule", "_cache_on_work_matches_lcp_rule",
    "_work_relation_matches_divergence"]

  function CaseName(name: string, k: nat): string
    requires k < PER_CASE
  {
    "prefix_" + name + SUFFIXES[k]
  }

  function CaseVerdict(c: Case, r: Registered, k: nat): bool
    requires k < PER_CASE
  {
    var expected := ExpectedCache(r);
    if k == 0 then c.source.cacheTokens == 0 && c.source.promptWork == r.source
    else if k == 1 then c.cacheOff.cacheTokens == 0 && c.cacheOff.promptWork == r.cacheOn
    else if k == 2 then c.cacheOn.cacheTokens == expected
    else if k == 3 then c.cacheOn.promptWork == r.cacheOn - expected
    else if expected > 0 then c.cacheOn.promptWork < c.cacheOff.promptWork
    else c.cacheOn.promptWork == c.cacheOff.promptWork
  }

  function CaseEntries(name: string, c: Case, r: Registered): seq<Entry> {
    seq(PER_CASE, k requires 0 <= k < PER_CASE => (CaseName(name, k), CaseVerdict(c, r, k)))
  }

  function Entries(value: Cases, all: Cases, reg: Registration): seq<Entry>
    requires Covered(value, reg) && Covered(all, reg)
  {
    if value == [] then CommonEntries(Observations(all, reg))
    else
      var (name, c) := value[|value| - 1];
      Entries(value[..|value| - 1], all, reg) + CaseEntries(name, c, reg[name])
  }

  function TokenPrefixInvariants(value: Cases, reg: Registration): map<string, bool>
    requires Covered(value, reg)
  {
    Dict(Entries(value, value, reg))
  }

  // -- The loops that compute them -----------------------------------------------------------

  method ComputeTokenPrefixInvariants(value: Cases, reg: Registration) returns (result: map<string, bool>)
    requires Covered(value, reg)
    ensures result == TokenPrefixInvariants(value, reg)
  {
    var observations: seq<(Observation, int)> := [];
    for n := 0 to |value|
      invariant observations == Observations(value[..n], reg)
    {
      var (name, c) := value[n];
      var registered := reg[name];
      assert value[..n + 1][..n] == value[..n];
      observations := observations
        + [(c.source, registered.source), (c.cacheOn, registered.cacheOn), (c.cacheOff, registered.cacheOff)];
    }
    assert value[..|value|] == value;
    result := Dict(CommonEntries(observations));
    for n := 0 to |value|
      invariant result == Dict(Entries(value[..n], value, reg))
    {
      var (name, c) := value[n];
      assert value[..n + 1][..n] == value[..n];
      DictOfConcat(Entries(value[..n], value, reg), CaseEntries(name, c, reg[name]));
      result := result + Dict(CaseEntries(name, c, reg[name]));
    }
  }

  // -- No two verdicts share a name ----------------------------------------------------------

  lemma CaseNameEnds(name: string, k: nat)
    requires k < PER_CASE
    ensures var s, n := CaseName(name, k), |CaseName(name, k)|;
            && n >= 22
            && (k == 0 ==> s[n - 1] == 'd' && s[n - 9] == 'e')
            && (k == 1 ==> s[n - 1] == 'd' && s[n - 9] == 'f')
            && (k == 2 ==> s[n - 1] == 'e' && s[n - 2] == 'l' && s[n - 3] == 'u' && s[n - 18] == 'e')
            && (k == 3 ==> s[n - 1] == 'e' && s[n - 2] == 'l' && s[n - 3] == 'u' && s[n - 18] == 'k')
            && (k == 4 ==> s[n - 1] == 'e' && s[n - 2] == 'c')
  {
  }

  /** The tail that tells one verdict's name from the others'. */
  lemma CaseNamesDistinct(a: string, j: nat, b: string, k: nat)
    requires j < PER_CASE && k < PER_CASE && CaseName(a, j) == CaseName(b, k)
    ensures j == k && a == b
  {
    var s := CaseName(a, j);
    CaseNameEnds(a, j);
    CaseNameEnds(b, k);
    assert s[7..|s| - |SUFFIXES[j]|] == a;
    assert CaseName(b, k)[7..|s| - |SUFFIXES[k]|] == b;
  }

  lemma CommonNamesDistinct(obs: seq<(Observation, int)>, name: string, k: nat)
    requires k < PER_CASE
    ensures KeysDistinct(CommonEntries(obs))
    ensures forall i :: 0 <= i < 5 ==> CommonEntries(obs)[i].0 != CaseName(name, k)
  {
    CaseNameEnds(name, k);
    var s, n := CaseName(name, k), |CaseName(name, k)|;
    var c := CommonEntries(obs);
    assert |c[0].0| == 31 && |c[1].0| == 35 && |c[2].0| == 39 && |c[3].0| == 35 && |c[4].0| == 17;
    assert c[0].0[31 - 2] == 'n' && c[0].0[31 - 1] == 'e';
    assert c[1].0[35 - 1] == 't' && c[2].0[39 - 1] == 'n' && c[3].0[35 - 1] == 't';
    assert c[1].0[7 + 7] == 'a' && c[3].0[7 + 7] == 'w';
    assert c[4].0[17 - 3] == 'd' && c[4].0[17 - 2] == 'l' && c[4].0[17 - 1] == 'e';
  }

  lemma {:induction false} EntriesLength(value: Cases, all: Cases, reg: Registration)
    requires Covered(value, reg) && Covered(all, reg)
    ensures |Entries(value, all, reg)| == 5 + PER_CASE * |value|
  {
    if value != [] {
      EntriesLength(value[..|value| - 1], all, reg);
    }
  }

  /** Entry `k` is a common one, or verdict `(k - 5) % 5` of case `(k - 5) / 5`. */
  lemma {:induction false} EntryAt(value: Cases, all: Cases, reg: Registration, k: nat)
    requires Covered(value, reg) && Covered(all, reg) && k < 5 + PER_CASE * |value|
    ensures k < |Entries(value, all, reg)|
    ensures k < 5 ==> Entries(value, all, reg)[k] == CommonEntries(Observations(all, reg))[k]
    ensures k >= 5 ==>
      var i, m := (k - 5) / PER_CASE, (k - 5) % PER_CASE;
      i < |value|
      && Entries(value, all, reg)[k]
         == (CaseName(value[i].0, m), CaseVerdict(value[i].1, reg[value[i].0], m))
  {
    EntriesLength(value, all, reg);
    if value != [] {
      var n := |value| - 1;
      var front := value[..n];
      EntriesLength(front, all, reg);
      if k < 5 + PER_CASE * n {
        EntryAt(front, all, reg, k);
      } else {
        assert (k - 5) / PER_CASE == n;
        assert Entries(value, all, reg)[k]
            == CaseEntries(value[n].0, value[n].1, reg[value[n].0])[k - 5 - PER_CASE * n];
      }
    }
  }

  lemma EntryNamesDiffer(value: Cases, reg: Registration, a: nat, b: nat)
    requires Covered(value, reg) && NamesDistinct(value) && a < b < 5 + PER_CASE * |value|
    ensures |Entries(value, value, reg)| == 5 + PER_CASE * |value|
    ensures Entries(value, value, reg)[a].0 != Entries(value, value, reg)[b].0
  {
    EntriesLength(value, value, reg);
    EntryAt(value, value, reg, a);
    EntryAt(value, value, reg, b);
    if b < 5 {
      CommonNamesDistinct(Observations(value, reg), "", 0);
    } else {
      var j, m := (b - 5) / PER_CASE, (b - 5) % PER_CASE;
      if a < 5 {
        CommonNamesDistinct(Observations(value, reg), value[j].0, m);
      } else {
        var i, k := (a - 5) / PER_CASE, (a - 5) % PER_CASE;
        if CaseName(value[i].0, k) == CaseName(value[j].0, m) {
          CaseNamesDistinct(value[i].0, k, value[j].0, m);
        }
      }
    }
  }

  /** Five verdicts for the lane and five for each case, whatever the cases are called. */
  lemma VerdictCount(value: Cases, reg: Registration)
    requires Covered(value, reg) && NamesDistinct(value)
    ensures KeysDistinct(Entries(value, value, reg))
    ensures |TokenPrefixInvariants(value, reg)| == 5 + PER_CASE * |value|
  {
    var e := Entries(value, value, reg);
    EntriesLength(value, value, reg);
    forall a, b | 0 <= a < b < |e|
      ensures e[a].0 != e[b].0
    {
      EntryNamesDiffer(value, reg, a, b);
    }
    DictSize(e);
  }

  // -- What the verdicts together mean -------------------------------------------------------

  /** The one observation a request can leave when `cached` of its `prompt` tokens are reused. */
  function Reusing(prompt: int, cached: int): Observation {
    Observation(cached, 1, prompt, prompt - cached, true, prompt - cached)
  }

  function CaseFor(r: Registered): Case {
    Case(Reusing(r.source, 0), Reusing(r.cacheOn, ExpectedCache(r)), Reusing(r.cacheOff, 0))
  }

  /** A registration that some observation can satisfy. */
  predicate Satisfiable(r: Registered) {
    r.cacheOn == r.cacheOff && ExpectedCache(r) >= 0
  }

  predicate ObservationGood(o: Observation, count: int) {
    && o.predictedTokens == 1 && o.cacheTokens + o.promptWork == o.promptTokens && o.promptTokens == count
    && o.promptWork == o.slotWork && o.idle
  }

  lemma {:induction false} ObservationsLength(value: Cases, reg: Registration)
    requires Covered(value, reg)
    ensures |Observations(value, reg)| == 3 * |value|
  {
    if value != [] {
      ObservationsLength(value[..|value| - 1], reg);
    }
  }

  function Third(name: string, c: Case, reg: Registration, m: nat): (Observation, int)
    requires name in reg && m < 3
  {
    if m == 0 then (c.source, reg[name].source)
    else if m == 1 then (c.cacheOn, reg[name].cacheOn)
    else (c.cacheOff, reg[name].cacheOff)
  }

  lemma {:induction false} ObservationAt(value: Cases, reg: Registration, j: nat)
    requires Covered(value, reg) && j < 3 * |value|
    ensures j < |Observations(value, reg)| && j / 3 < |value|
    ensures Observations(value, reg)[j] == Third(value[j / 3].0, value[j / 3].1, reg, j % 3)
  {
    ObservationsLength(value, reg);
    var n := |value| - 1;
    var front := value[..n];
    ObservationsLength(front, reg);
    if j < 3 * n {
      ObservationAt(front, reg, j);
    } else {
      assert j / 3 == n && j % 3 == j - 3 * n;
    }
  }

  predicate ObservationsGood(c: Case, r: Registered) {
    && ObservationGood(c.source, r.source)
    && ObservationGood(c.cacheOn, r.cacheOn) && ObservationGood(c.cacheOff, r.cacheOff)
  }

  predicate CaseGood(c: Case, r: Registered) {
    && ObservationsGood(c, r)
    && forall k :: 0 <= k < PER_CASE ==> CaseVerdict(c, r, k)
  }

  lemma CaseGoodMeans(c: Case, r: Registered)
    ensures CaseGood(c, r) <==> Satisfiable(r) && c == CaseFor(r)
  {
    assert CaseVerdict(c, r, 0) && CaseVerdict(c, r, 1) && CaseVerdict(c, r, 2)
           && CaseVerdict(c, r, 3) && CaseVerdict(c, r, 4)
           <==> forall k :: 0 <= k < PER_CASE ==> CaseVerdict(c, r, k);
  }

  lemma CommonMeans(value: Cases, reg: Registration)
    requires Covered(value, reg)
    ensures (forall i :: 0 <= i < 5 ==> CommonEntries(Observations(value, reg))[i].1) <==>
      forall i :: 0 <= i < |value| ==> ObservationsGood(value[i].1, reg[value[i].0])
  {
    hide Observations;
    var obs := Observations(value, reg);
    var common := CommonEntries(obs);
    ObservationsLength(value, reg);
    assert (forall i :: 0 <= i < 5 ==> common[i].1) <==>
           common[0].1 && common[1].1 && common[2].1 && common[3].1 && common[4].1;
    assert (common[0].1 && common[1].1 && common[2].1 && common[3].1 && common[4].1) <==>
           forall j :: 0 <= j < |obs| ==> ObservationGood(obs[j].0, obs[j].1);
    if forall i :: 0 <= i < |value| ==> ObservationsGood(value[i].1, reg[value[i].0]) {
      forall j | 0 <= j < |obs|
        ensures ObservationGood(obs[j].0, obs[j].1)
      {
        ObservationAt(value, reg, j);
        assert ObservationsGood(value[j / 3].1, reg[value[j / 3].0]);
      }
    }
    if forall j :: 0 <= j < |obs| ==> ObservationGood(obs[j].0, obs[j].1) {
      forall i | 0 <= i < |value|
        ensures ObservationsGood(value[i].1, reg[value[i].0])
      {
        ObservationAt(value, reg, 3 * i);
        ObservationAt(value, reg, 3 * i + 1);
        ObservationAt(value, reg, 3 * i + 2);
      }
    }
  }

  lemma EntriesGood(value: Cases, reg: Registration)
    requires Covered(value, reg)
    ensures (forall a :: 0 <= a < |Entries(value, value, reg)| ==> Entries(value, value, reg)[a].1) <==>
      forall i :: 0 <= i < |value| ==> CaseGood(value[i].1, reg[value[i].0])
  {
    var e := Entries(value, value, reg);
    EntriesLength(value, value, reg);
    CommonMeans(value, reg);
    if forall a :: 0 <= a < |e| ==> e[a].1 {
      forall i | 0 <= i < 5
        ensures CommonEntries(Observations(value, reg))[i].1
      {
        EntryAt(value, value, reg, i);
        assert e[i].1;
      }
      forall i, k | 0 <= i < |value| && 0 <= k < PER_CASE
        ensures CaseVerdict(value[i].1, reg[value[i].0], k)
      {
        EntryAt(value, value, reg, 5 + PER_CASE * i + k);
        assert e[5 + PER_CASE * i + k].1;
      }
    }
    if forall i :: 0 <= i < |value| ==> CaseGood(value[i].1, reg[value[i].0]) {
      forall a | 0 <= a < |e|
        ensures e[a].1
      {
        EntryAt(value, value, reg, a);
        if a >= 5 {
          assert CaseGood(value[(a - 5) / PER_CASE].1, reg[value[(a - 5) / PER_CASE].0]);
        } else {
          assert CommonEntries(Observations(value, reg))[a].1;
        }
      }
    }
  }

  /** All verdicts are true exactly when every counter of every case has the one value its registration allows. */
  lemma VerdictsDetermineCounters(value: Cases, reg: Registration)
    requires Covered(value, reg) && NamesDistinct(value)
    ensures AllTrue(TokenPrefixInvariants(value, reg)) <==>
      forall i :: 0 <= i < |value| ==> Satisfiable(reg[value[i].0]) && value[i].1 == CaseFor(reg[value[i].0])
  {
    var e := Entries(value, value, reg);
    VerdictCount(value, reg);
    AllTrueOfEntries(e);
    EntriesGood(value, reg);
    forall i | 0 <= i < |value|
      ensures CaseGood(value[i].1, reg[value[i].0]) <==>
        Satisfiable(reg[value[i].0]) && value[i].1 == CaseFor(reg[value[i].0])
    {
      CaseGoodMeans(value[i].1, reg[value[i].0]);
    }
  }

  /** Given the other verdicts the work relation holds exactly when the expected reuse is not negative, which it only is
      for an empty target or a negative prefix length. */
  lemma WorkRelationFollows(c: Case, r: Registered)
    requires forall k :: 0 <= k < 4 ==> CaseVerdict(c, r, k)
    ensures CaseVerdict(c, r, 4) <==> ExpectedCache(r) >= 0
    ensures ExpectedCache(r) < 0 <==> r.commonPrefix < 0 || r.commonPrefix == r.cacheOn == 0
  {
    assert CaseVerdict(c, r, 1) && CaseVerdict(c, r, 3);
  }

  // -- The order of the cases does not matter ------------------------------------------------

  lemma ObservationsWithin(a: Cases, b: Cases, reg: Registration)
    requires Covered(a, reg) && Covered(b, reg) && SameMembers(a, b)
    ensures forall x :: x in Observations(b, reg) ==> x in Observations(a, reg)
  {
    var obs := Observations(b, reg);
    ObservationsLength(b, reg);
    forall j | 0 <= j < |obs|
      ensures obs[j] in Observations(a, reg)
    {
      ObservationAt(b, reg, j);
      assert b[j / 3] in a;
      var i :| 0 <= i < |a| && a[i] == b[j / 3];
      ObservationAt(a, reg, 3 * i + j % 3);
    }
  }

  lemma CommonHolds(a: seq<(Observation, int)>, b: seq<(Observation, int)>, k: nat)
    requires k < 5 && forall x :: x in b ==> x in a
    ensures CommonEntries(a)[k].1 ==> CommonEntries(b)[k].1
  {
    forall j | 0 <= j < |b|
      ensures exists i :: 0 <= i < |a| && a[i] == b[j]
    {
      assert b[j] in a;
    }
  }

  lemma CommonIgnoresOrder(a: Cases, b: Cases, reg: Registration, k: nat)
    requires Covered(a, reg) && Covered(b, reg) && SameMembers(a, b) && k < 5
    ensures CommonEntries(Observations(a, reg))[k] == CommonEntries(Observations(b, reg))[k]
  {
    ObservationsWithin(a, b, reg);
    ObservationsWithin(b, a, reg);
    CommonHolds(Observations(a, reg), Observations(b, reg), k);
    CommonHolds(Observations(b, reg), Observations(a, reg), k);
  }

  lemma EntryWithin(a: Cases, b: Cases, reg: Registration, k: nat) returns (l: nat)
    requires Covered(a, reg) && Covered(b, reg) && SameMembers(a, b) && k < 5 + PER_CASE * |a|
    ensures k < |Entries(a, a, reg)| && l < |Entries(b, b, reg)| && Entries(b, b, reg)[l] == Entries(a, a, reg)[k]
  {
    EntryAt(a, a, reg, k);
    EntriesLength(b, b, reg);
    if k < 5 {
      CommonIgnoresOrder(a, b, reg, k);
      l := k;
      EntryAt(b, b, reg, l);
    } else {
      var i, m := (k - 5) / PER_CASE, (k - 5) % PER_CASE;
      assert a[i] in b;
      var j :| 0 <= j < |b| && b[j] == a[i];
      l := 5 + PER_CASE * j + m;
      EntryAt(b, b, reg, l);
    }
  }

  lemma VerdictsWithin(a: Cases, b: Cases, reg: Registration)
    requires Covered(a, reg) && Covered(b, reg) && NamesDistinct(a) && NamesDistinct(b) && SameMembers(a, b)
    ensures forall name :: name in TokenPrefixInvariants(a, reg) ==>
      && name in TokenPrefixInvariants(b, reg)
      && TokenPrefixInvariants(b, reg)[name] == TokenPrefixInvariants(a, reg)[name]
  {
    var e, f := Entries(a, a, reg), Entries(b, b, reg);
    VerdictCount(a, reg);
    VerdictCount(b, reg);
    EntriesLength(a, a, reg);
    forall name | name in Dict(e)
      ensures name in Dict(f) && Dict(f)[name] == Dict(e)[name]
    {
      var k := DictKey(e, name);
      var l := EntryWithin(a, b, reg, k);
      DictAt(e, k);
      DictAt(f, l);
    }
  }

  /** A permutation of the cases has the same verdicts. */
  lemma VerdictsIgnoreOrder(a: Cases, b: Cases, reg: Registration)
    requires Covered(a, reg) && Covered(b, reg) && NamesDistinct(a) && NamesDistinct(b) && SameMembers(a, b)
    ensures TokenPrefixInvariants(a, reg) == TokenPrefixInvariants(b, reg)
  {
    VerdictsWithin(a, b, reg);
    VerdictsWithin(b, a, reg);
  }
}
