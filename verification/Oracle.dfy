/** The oracles of the completion lanes, and the dictionary that merges all of them. */
module Oracle {
  import opened Wrappers
  import opened Verdicts
  import opened PrefixOracle

  /** The fields of a completion that an oracle looks at. */
  datatype Completion = Completion(
    contentSha: string, tokensSha: string, contentBytes: int, predictedTokens: int, tokenCount: int, promptWork: int)

  datatype Slot = Slot(idle: bool, promptWork: int)

  datatype Observed = Observed(completion: Completion, slot: Slot)

  predicate SameResult(l: Completion, r: Completion) {
    && l.contentSha == r.contentSha && l.tokensSha == r.tokensSha && l.contentBytes == r.contentBytes
    && l.predictedTokens == r.predictedTokens && l.tokenCount == r.tokenCount
  }

  predicate ViewsConsistent(o: Observed) {
    o.completion.promptWork == o.slot.promptWork
  }

  // -- Cache pairing -------------------------------------------------------------------------

  /** `inOrder` lists the four cases as the object lists them. */
  datatype CachePairing = CachePairing(
    coldOn: Observed, repeatOn: Observed, coldOff: Observed, repeatOff: Observed, inOrder: seq<Observed>)

  /** Every result equals the first one listed. */
  predicate AllResultsEqual(cases: seq<Observed>) {
    forall n :: 0 < n < |cases| ==> SameResult(cases[0].completion, cases[n].completion)
  }

  const CACHE_COUNT := 7

  // Here and below a long name is the concatenation of two literals: the solver compares short literals faster.
  function CacheName(k: nat): (name: string)
    requires k < CACHE_COUNT
    ensures |name| > 2 && name[0] == 'c' && name[2] == 'c'
  {
    if k == 0 then "cache_all_results_equal"
    else if k == 1 then "cache_on_response" + "_prompt_work_strictly_reduced"
    else if k == 2 then "cache_on_slot" + "_prompt_work_strictly_reduced"
    else if k == 3 then "cache_off_response_prompt_work_equal"
    else if k == 4 then "cache_off_slot_prompt_work_equal"
    else if k == 5 then "cache_prompt_work_views_consistent"
    else "cache_slots_idle"
  }

  function CacheVerdict(v: CachePairing, k: nat): bool
    requires k < CACHE_COUNT
  {
    if k == 0 then AllResultsEqual(v.inOrder)
    else if k == 1 then v.repeatOn.completion.promptWork < v.coldOn.completion.promptWork
    else if k == 2 then v.repeatOn.slot.promptWork < v.coldOn.slot.promptWork
    else if k == 3 then v.repeatOff.completion.promptWork == v.coldOff.completion.promptWork
    else if k == 4 then v.repeatOff.slot.promptWork == v.coldOff.slot.promptWork
    else if k == 5 then forall n :: 0 <= n < |v.inOrder| ==> ViewsConsistent(v.inOrder[n])
    else forall n :: 0 <= n < |v.inOrder| ==> v.inOrder[n].slot.idle
  }

  function CachePairingEntries(v: CachePairing): seq<Entry> {
    seq(CACHE_COUNT, k requires 0 <= k < CACHE_COUNT => (CacheName(k), CacheVerdict(v, k)))
  }

  /** Which result happens to be listed first does not matter. */
  lemma FirstDoesNotMatter(a: seq<Observed>, b: seq<Observed>)
    requires SameMembers(a, b)
    ensures AllResultsEqual(a) ==> AllResultsEqual(b)
  {
    if AllResultsEqual(a) {
      forall n | 0 < n < |b|
        ensures SameResult(b[0].completion, b[n].completion)
      {
        assert b[0] in a && b[n] in a;
        var i :| 0 <= i < |a| && a[i] == b[0];
        var j :| 0 <= j < |a| && a[j] == b[n];
        assert i > 0 ==> SameResult(a[0].completion, a[i].completion);
        assert j > 0 ==> SameResult(a[0].completion, a[j].completion);
      }
    }
  }

  lemma EveryMember(a: seq<Observed>, b: seq<Observed>)
    requires SameMembers(a, b)
    ensures (forall n :: 0 <= n < |a| ==> ViewsConsistent(a[n])) ==> forall n :: 0 <= n < |b| ==> ViewsConsistent(b[n])
    ensures (forall n :: 0 <= n < |a| ==> a[n].slot.idle) ==> forall n :: 0 <= n < |b| ==> b[n].slot.idle
  {
    forall n | 0 <= n < |b|
      ensures exists i :: 0 <= i < |a| && a[i] == b[n]
    {
      assert b[n] in a;
    }
  }

  lemma CachePairingIgnoresOrder(v: CachePairing, w: CachePairing)
    requires v == w.(inOrder := v.inOrder) && SameMembers(v.inOrder, w.inOrder)
    ensures CachePairingEntries(v) == CachePairingEntries(w)
  {
    FirstDoesNotMatter(v.inOrder, w.inOrder);
    FirstDoesNotMatter(w.inOrder, v.inOrder);
    EveryMember(v.inOrder, w.inOrder);
    EveryMember(w.inOrder, v.inOrder);
  }

  // -- Cancellation --------------------------------------------------------------------------

  datatype Disconnect = Disconnect(activeObserved: bool, firstObserved: bool, firstNonterminal: bool, idleAfter: bool)

  datatype Cancellation = Cancellation(baseline: Observed, reused: Observed, disconnect: Disconnect)

  const CANCELLATION_COUNT := 8

  function CancellationName(k: nat): (name: string)
    requires k < CANCELLATION_COUNT
    ensures |name| > 2 && name[0] == 'c' && name[2] == 'n'
  {
    if k == 0 then "cancel_active_processing_observed"
    else if k == 1 then "cancel_first_event_observed"
    else if k == 2 then "cancel_first_event_nonterminal"
    else if k == 3 then "cancel_idle_after_disconnect"
    else if k == 4 then "cancel_reuse_result_matches_clean_slot"
    else if k == 5 then "cancel_reuse_prompt_work" + "_matches_clean_slot"
    else if k == 6 then "cancel_prompt_work_views_consistent"
    else "cancel_reused_slot_idle"
  }

  function CancellationVerdict(v: Cancellation, k: nat): bool
    requires k < CANCELLATION_COUNT
  {
    if k == 0 then v.disconnect.activeObserved
    else if k == 1 then v.disconnect.firstObserved
    else if k == 2 then v.disconnect.firstNonterminal
    else if k == 3 then v.disconnect.idleAfter
    else if k == 4 then SameResult(v.baseline.completion, v.reused.completion)
    else if k == 5 then v.baseline.completion.promptWork == v.reused.completion.promptWork
    else if k == 6 then ViewsConsistent(v.baseline) && ViewsConsistent(v.reused)
    else v.reused.slot.idle
  }

  function CancellationEntries(v: Cancellation): seq<Entry> {
    seq(CANCELLATION_COUNT, k requires 0 <= k < CANCELLATION_COUNT => (CancellationName(k), CancellationVerdict(v, k)))
  }

  // -- Interleaving --------------------------------------------------------------------------

  datatype Pair = Pair(slot0: Observed, slot1: Observed)

  /** The seven gating flags of one direction, and the results on the slots reused after it. */
  datatype Direction = Direction(
    bothFirstEvents: bool, cancelledIdle: bool, bothIdle: bool,
    observed0: bool, nonterminal0: bool, observed1: bool, nonterminal1: bool, reuses: Pair)

  datatype Interleaving = Interleaving(baselines: Pair, slot0First: Direction, slot1First: Direction)

  const DIRECTION_COUNT := 13

  function DirectionTail(k: nat): (tail: string)
    requires k < DIRECTION_COUNT
  {
    if k == 0 then "_both_first" + "_events_before_disconnect"
    else if k == 1 then "_cancelled_slot_idle_after_first_disconnect"
    else if k == 2 then "_both_idle_after_second_disconnect"
    else if k == 3 then "_slot_0" + "_first_event_observed"
    else if k == 4 then "_slot_0" + "_first_event_nonterminal"
    else if k == 5 then "_slot_1" + "_first_event_observed"
    else if k == 6 then "_slot_1" + "_first_event_nonterminal"
    else if k == 7 then "_result_views_consistent"
    else if k == 8 then "_result_slots_idle"
    else if k == 9 then "_slot_0" + "_reuse_matches_baseline"
    else if k == 10 then "_slot_0" + "_prompt_work_matches_baseline"
    else if k == 11 then "_slot_1" + "_reuse_matches_baseline"
    else "_slot_1" + "_prompt_work_matches_baseline"
  }

  function DirectionName(prefix: string, k: nat): string
    requires k < DIRECTION_COUNT
  {
    prefix + DirectionTail(k)
  }

  function DirectionVerdict(d: Direction, baselines: Pair, k: nat): bool
    requires k < DIRECTION_COUNT
  {
    if k == 0 then d.bothFirstEvents
    else if k == 1 then d.cancelledIdle
    else if k == 2 then d.bothIdle
    else if k == 3 then d.observed0
    else if k == 4 then d.nonterminal0
    else if k == 5 then d.observed1
    else if k == 6 then d.nonterminal1
    else if k == 7 then ViewsConsistent(d.reuses.slot0) && ViewsConsistent(d.reuses.slot1)
    else if k == 8 then d.reuses.slot0.slot.idle && d.reuses.slot1.slot.idle
    else if k == 9 then SameResult(baselines.slot0.completion, d.reuses.slot0.completion)
    else if k == 10 then baselines.slot0.completion.promptWork == d.reuses.slot0.completion.promptWork
    else if k == 11 then SameResult(baselines.slot1.completion, d.reuses.slot1.completion)
    else baselines.slot1.completion.promptWork == d.reuses.slot1.completion.promptWork
  }

  function DirectionEntries(prefix: string, d: Direction, baselines: Pair): seq<Entry> {
    seq(DIRECTION_COUNT,
        k requires 0 <= k < DIRECTION_COUNT => (DirectionName(prefix, k), DirectionVerdict(d, baselines, k)))
  }

  function BaselineEntries(baselines: Pair): seq<Entry> {
    [ ("interleave_baselines_idle", baselines.slot0.slot.idle && baselines.slot1.slot.idle),
      ("interleave_baseline_prompt_work_views_consistent",
        ViewsConsistent(baselines.slot0) && ViewsConsistent(baselines.slot1)) ]
  }

  const SLOT_0_FIRST := "interleave_slot_0_cancelled_first"
  const SLOT_1_FIRST := "interleave_slot_1_cancelled_first"

  function InterleavingEntries(v: Interleaving): seq<Entry> {
    BaselineEntries(v.baselines)
    + DirectionEntries(SLOT_0_FIRST, v.slot0First, v.baselines)
    + DirectionEntries(SLOT_1_FIRST, v.slot1First, v.baselines)
  }

  // -- Save and restore ----------------------------------------------------------------------

  datatype Restored = Restored(restored: Observed, restoredTokens: int)

  datatype StateFile = StateFile(bytes: int, sha: string)

  datatype SaveRestore = SaveRestore(
    source: Observed, same: Restored, restarted: Restored, savedTokens: int,
    before: StateFile, after: StateFile, restartConfirmed: bool)

  const SAVE_COUNT := 14

  function SaveName(k: nat): (name: string)
    requires k < SAVE_COUNT
    ensures |name| > 2 && name[0] in {'s', 'r'}
  {
    if k == 0 then "save_reports_positive_tokens"
    else if k == 1 then "same_process_restore_count_matches_save"
    else if k == 2 then "same_process_restore" + "_result_matches_source"
    else if k == 3 then "same_process_response" + "_prompt_work_strictly_reduced"
    else if k == 4 then "same_process_slot" + "_prompt_work_strictly_reduced"
    else if k == 5 then "restart_restore_count_matches_save"
    else if k == 6 then "restart_restore_result_matches_source"
    else if k == 7 then "restart_response" + "_prompt_work_strictly_reduced"
    else if k == 8 then "restart_slot" + "_prompt_work_strictly_reduced"
    else if k == 9 then "restore_prompt_work_views_consistent"
    else if k == 10 then "restore_slots_idle"
    else if k == 11 then "server_process_restart_confirmed"
    else if k == 12 then "slot_state_file_nonempty"
    else "slot_state_file" + "_unchanged_across_restart"
  }

  function SaveVerdict(v: SaveRestore, k: nat): bool
    requires k < SAVE_COUNT
  {
    var source, same, restarted := v.source, v.same.restored, v.restarted.restored;
    if k == 0 then v.savedTokens > 0
    else if k == 1 then v.same.restoredTokens == v.savedTokens
    else if k == 2 then SameResult(source.completion, same.completion)
    else if k == 3 then same.completion.promptWork < source.completion.promptWork
    else if k == 4 then same.slot.promptWork < source.slot.promptWork
    else if k == 5 then v.restarted.restoredTokens == v.savedTokens
    else if k == 6 then SameResult(source.completion, restarted.completion)
    else if k == 7 then restarted.completion.promptWork < source.completion.promptWork
    else if k == 8 then restarted.slot.promptWork < source.slot.promptWork
    else if k == 9 then ViewsConsistent(source) && ViewsConsistent(same) && ViewsConsistent(restarted)
    else if k == 10 then source.slot.idle && same.slot.idle && restarted.slot.idle
    else if k == 11 then v.restartConfirmed
    else if k == 12 then v.before.bytes > 0
    else v.before == v.after
  }

  function SaveRestoreEntries(v: SaveRestore): seq<Entry> {
    seq(SAVE_COUNT, k requires 0 <= k < SAVE_COUNT => (SaveName(k), SaveVerdict(v, k)))
  }

  // -- All of them ---------------------------------------------------------------------------

  /** Adds a lane's verdicts; a name already taken raises. */
  function Merge(result: Result<map<string, bool>>, values: map<string, bool>): Result<map<string, bool>> {
    if result.Raised? || result.value.Keys * values.Keys != {} then Raised
    else Ok(result.value + values)
  }

  datatype PrefixLane = PrefixLane(value: Cases, registration: Registration)

  datatype Lanes =
    | V1(cache: CachePairing, cancellation: Cancellation, save: SaveRestore)
    | V2(cache: CachePairing, cancellation: Cancellation, interleaving: Interleaving, save: SaveRestore)
    | V3(cache: CachePairing, cancellation: Cancellation, interleaving: Interleaving, save: SaveRestore,
         prefix: PrefixLane)

  function Merged(lanes: seq<map<string, bool>>): Result<map<string, bool>> {
    if lanes == [] then Ok(map[]) else Merge(Merged(lanes[..|lanes| - 1]), lanes[|lanes| - 1])
  }

  lemma {:induction false} RaisesForGood(lanes: seq<map<string, bool>>, n: nat)
    requires n <= |lanes| && Merged(lanes[..n]).Raised?
    ensures Merged(lanes).Raised?
    decreases |lanes| - n
  {
    if n == |lanes| {
      assert lanes[..n] == lanes;
    } else {
      assert lanes[..n + 1][..n] == lanes[..n];
      RaisesForGood(lanes, n + 1);
    }
  }

  ghost predicate PairwiseApart(lanes: seq<map<string, bool>>) {
    forall i, j :: 0 <= i < j < |lanes| ==> lanes[i].Keys * lanes[j].Keys == {}
  }

  lemma {:induction false} MergedHolds(lanes: seq<map<string, bool>>, name: string)
    requires Merged(lanes).Ok?
    ensures name in Merged(lanes).value <==> exists n :: 0 <= n < |lanes| && name in lanes[n]
  {
    if lanes != [] {
      var last := |lanes| - 1;
      MergedHolds(lanes[..last], name);
      assert forall n :: 0 <= n < last ==> lanes[..last][n] == lanes[n];
    }
  }

  lemma LastApart(lanes: seq<map<string, bool>>)
    requires lanes != [] && Merged(lanes[..|lanes| - 1]).Ok?
    ensures Merged(lanes).Ok? <==> forall n :: 0 <= n < |lanes| - 1 ==> lanes[n].Keys * lanes[|lanes| - 1].Keys == {}
  {
    var last := |lanes| - 1;
    var front, merged := lanes[..last], Merged(lanes[..last]).value;
    forall name
      ensures name in merged.Keys <==> exists n :: 0 <= n < last && name in lanes[n]
    {
      MergedHolds(front, name);
      assert forall n :: 0 <= n < last ==> front[n] == lanes[n];
    }
    if merged.Keys * lanes[last].Keys != {} {
      var name := AnyOf(merged.Keys * lanes[last].Keys);
      var n :| 0 <= n < last && name in lanes[n];
      assert name in lanes[n].Keys * lanes[last].Keys;
    } else {
      forall n | 0 <= n < last
        ensures lanes[n].Keys * lanes[last].Keys == {}
      {
        assert forall name :: name in lanes[n] ==> name in merged.Keys;
      }
    }
  }

  /** Merging raises exactly when two lanes share a name. */
  lemma {:induction false} MergedExactly(lanes: seq<map<string, bool>>)
    ensures Merged(lanes).Ok? <==> PairwiseApart(lanes)
  {
    if lanes != [] {
      var last := |lanes| - 1;
      var front := lanes[..last];
      MergedExactly(front);
      assert forall n :: 0 <= n < last ==> front[n] == lanes[n];
      if Merged(front).Ok? {
        LastApart(lanes);
      } else {
        RaisesForGood(lanes, last);
        assert !PairwiseApart(front);
      }
    }
  }

  method MergeLanes(lanes: seq<map<string, bool>>) returns (result: Result<map<string, bool>>)
    ensures result == Merged(lanes)
    ensures result.Ok? <==> PairwiseApart(lanes)
    ensures result.Ok? ==> forall name :: name in result.value <==> exists n :: 0 <= n < |lanes| && name in lanes[n]
  {
    MergedExactly(lanes);
    var merged: map<string, bool> := map[];
    for n := 0 to |lanes|
      invariant Merged(lanes[..n]) == Ok(merged)
    {
      assert lanes[..n + 1][..n] == lanes[..n];
      if merged.Keys * lanes[n].Keys != {} {
        RaisesForGood(lanes, n + 1);
        return Raised;
      }
      merged := merged + lanes[n];
    }
    assert lanes[..|lanes|] == lanes;
    forall name
      ensures name in merged <==> exists n :: 0 <= n < |lanes| && name in lanes[n]
    {
      MergedHolds(lanes, name);
    }
    return Ok(merged);
  }

  /** The lanes a version has, in the order they are merged. */
  function LaneEntries(v: Lanes): seq<seq<Entry>>
    requires v.V3? ==> Covered(v.prefix.value, v.prefix.registration)
  {
    var cache, cancel := CachePairingEntries(v.cache), CancellationEntries(v.cancellation);
    var save := SaveRestoreEntries(v.save);
    match v
    case V1(_, _, _) => [cache, cancel, save]
    case V2(_, _, interleaving, _) => [cache, cancel, InterleavingEntries(interleaving), save]
    case V3(_, _, interleaving, _, prefix) =>
      [cache, cancel, InterleavingEntries(interleaving), save, Entries(prefix.value, prefix.value, prefix.registration)]
  }

  function Dicts(lanes: seq<seq<Entry>>): seq<map<string, bool>> {
    seq(|lanes|, n requires 0 <= n < |lanes| => Dict(lanes[n]))
  }

  function AllInvariants(v: Lanes): Result<map<string, bool>>
    requires v.V3? ==> Covered(v.prefix.value, v.prefix.registration)
  {
    Merged(Dicts(LaneEntries(v)))
  }

  // -- No two lanes share a name -------------------------------------------------------------

  /** What the first and third letter of a name can be in one lane; no third letters means any. */
  datatype Letters = Letters(first: set<char>, third: set<char>)

  predicate SpelledAs(name: string, l: Letters) {
    |name| > 2 && name[0] in l.first && (l.third == {} || name[2] in l.third)
  }

  predicate Spelled(e: seq<Entry>, l: Letters) {
    forall n :: 0 <= n < |e| ==> SpelledAs(e[n].0, l)
  }

  const CACHE := Letters({'c'}, {'c'})
  const CANCEL := Letters({'c'}, {'n'})
  const INTERLEAVE := Letters({'i'}, {})
  const SAVE := Letters({'s', 'r'}, {})
  const PREFIX := Letters({'p'}, {})

  predicate Apart(l: Letters, m: Letters) {
    l.first !! m.first || (l.third != {} && m.third != {} && l.third !! m.third)
  }

  lemma SpelledApart(a: seq<Entry>, l: Letters, b: seq<Entry>, m: Letters)
    requires Spelled(a, l) && Spelled(b, m) && Apart(l, m)
    ensures Dict(a).Keys * Dict(b).Keys == {}
  {
    forall name | name in Dict(a) && name in Dict(b)
      ensures false
    {
      var i := DictKey(a, name);
      var j := DictKey(b, name);
    }
  }

  lemma CacheSpelled(v: CachePairing)
    ensures Spelled(CachePairingEntries(v), CACHE)
  {
  }

  lemma CancellationSpelled(v: Cancellation)
    ensures Spelled(CancellationEntries(v), CANCEL)
  {
  }

  lemma SaveSpelled(v: SaveRestore)
    ensures Spelled(SaveRestoreEntries(v), SAVE)
  {
  }

  lemma DirectionSpelled(prefix: string, d: Direction, baselines: Pair)
    requires |prefix| > 2 && prefix[0] == 'i'
    ensures Spelled(DirectionEntries(prefix, d, baselines), INTERLEAVE)
  {
  }

  lemma InterleavingSpelled(v: Interleaving)
    ensures Spelled(InterleavingEntries(v), INTERLEAVE)
  {
    DirectionSpelled(SLOT_0_FIRST, v.slot0First, v.baselines);
    DirectionSpelled(SLOT_1_FIRST, v.slot1First, v.baselines);
  }

  lemma PrefixSpelled(value: Cases, reg: Registration)
    requires Covered(value, reg)
    ensures Spelled(Entries(value, value, reg), PREFIX)
  {
    var e := Entries(value, value, reg);
    EntriesLength(value, value, reg);
    forall k | 0 <= k < |e|
      ensures |e[k].0| > 2 && e[k].0[0] == 'p'
    {
      EntryAt(value, value, reg, k);
    }
  }

  lemma MergeApart(m: map<string, bool>, d: map<string, bool>)
    requires m.Keys * d.Keys == {}
    ensures Merge(Ok(m), d) == Ok(m + d)
    ensures AllTrue(m + d) <==> AllTrue(m) && AllTrue(d)
  {
    if AllTrue(m + d) {
      forall name | name in m
        ensures m[name]
      {
        assert name in m.Keys * d.Keys <==> name in d;
        assert (m + d)[name];
      }
      forall name | name in d
        ensures d[name]
      {
        assert (m + d)[name];
      }
    }
  }

  lemma {:induction false} MergedApart(lanes: seq<map<string, bool>>)
    requires PairwiseApart(lanes)
    ensures Merged(lanes).Ok?
    ensures forall name :: name in Merged(lanes).value ==> exists n :: 0 <= n < |lanes| && name in lanes[n]
    ensures AllTrue(Merged(lanes).value) <==> forall n :: 0 <= n < |lanes| ==> AllTrue(lanes[n])
  {
    if lanes != [] {
      var n := |lanes| - 1;
      MergedApart(lanes[..n]);
      var m := Merged(lanes[..n]).value;
      forall name | name in m
        ensures name !in lanes[n]
      {
        var i :| 0 <= i < n && name in lanes[..n][i];
        assert name in lanes[i].Keys * lanes[n].Keys <==> name in lanes[n];
      }
      MergeApart(m, lanes[n]);
      assert (forall i :: 0 <= i < |lanes| ==> AllTrue(lanes[i])) <==>
             (forall i :: 0 <= i < n ==> AllTrue(lanes[..n][i])) && AllTrue(lanes[n]);
    }
  }

  function LettersOf(v: Lanes): seq<Letters> {
    match v
    case V1(_, _, _) => [CACHE, CANCEL, SAVE]
    case V2(_, _, _, _) => [CACHE, CANCEL, INTERLEAVE, SAVE]
    case V3(_, _, _, _, _) => [CACHE, CANCEL, INTERLEAVE, SAVE, PREFIX]
  }

  predicate AllSpelled(lanes: seq<seq<Entry>>, letters: seq<Letters>) {
    |letters| == |lanes| && forall n :: 0 <= n < |lanes| ==> Spelled(lanes[n], letters[n])
  }

  lemma AllLanesSpelled(v: Lanes)
    requires v.V3? ==> Covered(v.prefix.value, v.prefix.registration)
    ensures AllSpelled(LaneEntries(v), LettersOf(v))
  {
    CacheSpelled(v.cache);
    CancellationSpelled(v.cancellation);
    SaveSpelled(v.save);
    if !v.V1? {
      InterleavingSpelled(v.interleaving);
    }
    if v.V3? {
      PrefixSpelled(v.prefix.value, v.prefix.registration);
    }
  }

  lemma LettersApart(v: Lanes, i: nat, j: nat)
    requires i < j < |LettersOf(v)|
    ensures Apart(LettersOf(v)[i], LettersOf(v)[j])
  {
  }

  lemma MergedEntries(lanes: seq<seq<Entry>>)
    requires forall i, j :: 0 <= i < j < |lanes| ==> Dict(lanes[i]).Keys * Dict(lanes[j]).Keys == {}
    ensures Merged(Dicts(lanes)).Ok?
    ensures AllTrue(Merged(Dicts(lanes)).value) <==> forall n :: 0 <= n < |lanes| ==> AllTrue(Dict(lanes[n]))
  {
    var dicts := Dicts(lanes);
    assert forall n :: 0 <= n < |lanes| ==> dicts[n] == Dict(lanes[n]);
    MergedApart(dicts);
    if AllTrue(Merged(dicts).value) {
      forall n | 0 <= n < |lanes|
        ensures AllTrue(Dict(lanes[n]))
      {
        assert AllTrue(dicts[n]);
      }
    }
  }

  lemma LanesApart(v: Lanes)
    requires v.V3? ==> Covered(v.prefix.value, v.prefix.registration)
    ensures forall i, j :: 0 <= i < j < |LaneEntries(v)| ==>
      Dict(LaneEntries(v)[i]).Keys * Dict(LaneEntries(v)[j]).Keys == {}
  {
    var lanes, letters := LaneEntries(v), LettersOf(v);
    AllLanesSpelled(v);
    forall i, j | 0 <= i < j < |lanes|
      ensures Dict(lanes[i]).Keys * Dict(lanes[j]).Keys == {}
    {
      LettersApart(v, i, j);
      SpelledApart(lanes[i], letters[i], lanes[j], letters[j]);
    }
  }

  /** Merging the lanes never raises, and the merged verdicts are all true exactly when each lane's are. */
  lemma MergingNeverRaises(v: Lanes)
    requires v.V3? ==> Covered(v.prefix.value, v.prefix.registration)
    ensures AllInvariants(v).Ok?
    ensures AllTrue(AllInvariants(v).value)
       <==> forall n :: 0 <= n < |LaneEntries(v)| ==> AllTrue(Dict(LaneEntries(v)[n]))
  {
    LanesApart(v);
    MergedEntries(LaneEntries(v));
  }

  // -- How many verdicts there are -----------------------------------------------------------

  lemma CacheNameLength(k: nat)
    requires k < CACHE_COUNT
    ensures |CacheName(k)| == [23, 46, 42, 36, 32, 34, 16][k]
  {
  }

  lemma CancellationNameLength(k: nat)
    requires k < CANCELLATION_COUNT
    ensures |CancellationName(k)| == [33, 27, 30, 28, 38, 43, 35, 23][k]
  {
  }

  lemma SaveNameLength(k: nat)
    requires k < SAVE_COUNT
    ensures |SaveName(k)| == [28, 39, 42, 50, 46, 34, 37, 45, 41, 36, 18, 32, 24, 40][k]
  {
    if k < 5 {
      assert |SaveName(k)| == [28, 39, 42, 50, 46][k];
    } else if k < 10 {
      assert |SaveName(k)| == [34, 37, 45, 41, 36][k - 5];
    } else {
      assert |SaveName(k)| == [18, 32, 24, 40][k - 10];
    }
  }

  lemma CacheNamesDistinct(v: CachePairing)
    ensures KeysDistinct(CachePairingEntries(v))
  {
    forall i, j | 0 <= i < j < CACHE_COUNT ensures CacheName(i) != CacheName(j) {
      CacheNameLength(i);
      CacheNameLength(j);
    }
  }

  lemma CancellationNamesDistinct(v: Cancellation)
    ensures KeysDistinct(CancellationEntries(v))
  {
    forall i, j | 0 <= i < j < CANCELLATION_COUNT ensures CancellationName(i) != CancellationName(j) {
      CancellationNameLength(i);
      CancellationNameLength(j);
    }
  }

  lemma SaveNamesDistinct(v: SaveRestore)
    ensures KeysDistinct(SaveRestoreEntries(v))
  {
    hide SaveName, SaveVerdict;
    forall i, j | 0 <= i < j < SAVE_COUNT ensures SaveName(i) != SaveName(j) {
      SaveNameLength(i);
      SaveNameLength(j);
    }
  }

  /** The length of a name and the slot digit in it tell the verdicts of one direction apart. */
  lemma DirectionTailMarks(k: nat)
    requires k < DIRECTION_COUNT
    ensures |DirectionTail(k)| == [36, 43, 34, 28, 31, 28, 31, 24, 18, 30, 36, 30, 36][k]
    ensures k == 0 ==> DirectionTail(k)[6] == 'f'
    ensures k in {3, 4, 9, 10} ==> DirectionTail(k)[6] == '0'
    ensures k in {5, 6, 11, 12} ==> DirectionTail(k)[6] == '1'
  {
  }

  lemma DirectionNamesDistinct(p: string, j: nat, q: string, k: nat)
    requires |p| == |q| && j < DIRECTION_COUNT && k < DIRECTION_COUNT
    requires DirectionName(p, j) == DirectionName(q, k)
    ensures p == q && j == k
  {
    hide DirectionTail;
    DirectionTailMarks(j);
    DirectionTailMarks(k);
    assert DirectionName(p, j)[..|p|] == p && DirectionName(q, k)[..|p|] == q;
    assert DirectionName(p, j)[|p| + 6] == DirectionTail(j)[6] && DirectionName(q, k)[|p| + 6] == DirectionTail(k)[6];
  }

  /** Two stretches of entries without a common name. */
  ghost predicate NamesApart(a: seq<Entry>, b: seq<Entry>) {
    forall i, j :: 0 <= i < |a| && 0 <= j < |b| ==> a[i].0 != b[j].0
  }

  lemma ConcatDistinct(a: seq<Entry>, b: seq<Entry>)
    requires KeysDistinct(a) && KeysDistinct(b) && NamesApart(a, b)
    ensures KeysDistinct(a + b)
  {
  }

  lemma DirectionsDistinct(p: string, q: string, v: Interleaving)
    requires |p| == |q| && p != q
    ensures KeysDistinct(
      DirectionEntries(p, v.slot0First, v.baselines) + DirectionEntries(q, v.slot1First, v.baselines))
  {
    var a, b := DirectionEntries(p, v.slot0First, v.baselines), DirectionEntries(q, v.slot1First, v.baselines);
    forall x, y, j, k |
      x in {p, q} && y in {p, q} && 0 <= j < DIRECTION_COUNT && 0 <= k < DIRECTION_COUNT && (x != y || j != k)
      ensures DirectionName(x, j) != DirectionName(y, k)
    {
      if DirectionName(x, j) == DirectionName(y, k) {
        DirectionNamesDistinct(x, j, y, k);
      }
    }
    ConcatDistinct(a, b);
  }

  lemma DirectionNamesLong(p: string, d: Direction, baselines: Pair)
    ensures forall j :: 0 <= j < DIRECTION_COUNT ==> |DirectionEntries(p, d, baselines)[j].0| > |p| + 17
  {
    forall j | 0 <= j < DIRECTION_COUNT
      ensures |DirectionName(p, j)| > |p| + 17
    {
      DirectionTailMarks(j);
    }
  }

  lemma BaselineNamesShort(baselines: Pair)
    ensures KeysDistinct(BaselineEntries(baselines))
    ensures forall i :: 0 <= i < |BaselineEntries(baselines)| ==> |BaselineEntries(baselines)[i].0| < 50
  {
    var common := BaselineEntries(baselines);
    assert |common[0].0| == 25 && |common[1].0| == 48;
  }

  lemma DirectionPrefixes()
    ensures |SLOT_0_FIRST| == |SLOT_1_FIRST| == 33 && SLOT_0_FIRST != SLOT_1_FIRST
  {
    assert SLOT_0_FIRST[16] != SLOT_1_FIRST[16];
  }

  lemma CommonAndDirections(p: string, q: string, v: Interleaving)
    requires |p| == |q| == 33
    requires KeysDistinct(
      DirectionEntries(p, v.slot0First, v.baselines) + DirectionEntries(q, v.slot1First, v.baselines))
    ensures KeysDistinct(BaselineEntries(v.baselines)
      + DirectionEntries(p, v.slot0First, v.baselines) + DirectionEntries(q, v.slot1First, v.baselines))
  {
    var common := BaselineEntries(v.baselines);
    var a, b := DirectionEntries(p, v.slot0First, v.baselines), DirectionEntries(q, v.slot1First, v.baselines);
    BaselineNamesShort(v.baselines);
    DirectionNamesLong(p, v.slot0First, v.baselines);
    DirectionNamesLong(q, v.slot1First, v.baselines);
    ConcatDistinct(common, a + b);
    assert common + (a + b) == common + a + b;
  }

  lemma InterleavingNamesDistinct(v: Interleaving)
    ensures KeysDistinct(InterleavingEntries(v)) && |InterleavingEntries(v)| == 2 + 2 * DIRECTION_COUNT
  {
    DirectionPrefixes();
    DirectionsDistinct(SLOT_0_FIRST, SLOT_1_FIRST, v);
    CommonAndDirections(SLOT_0_FIRST, SLOT_1_FIRST, v);
  }

  /** The sum of the lanes' sizes. */
  function EntryCount(lanes: seq<seq<Entry>>): nat {
    if lanes == [] then 0 else EntryCount(lanes[..|lanes| - 1]) + |lanes[|lanes| - 1]|
  }

  lemma SizeOfSum(m: map<string, bool>, d: map<string, bool>)
    requires m.Keys * d.Keys == {}
    ensures |m + d| == |m| + |d|
  {
    assert (m + d).Keys == m.Keys + d.Keys;
    assert |(m + d).Keys| == |m.Keys| + |d.Keys|;
  }

  lemma {:induction false} MergedSize(lanes: seq<seq<Entry>>)
    requires forall i, j :: 0 <= i < j < |lanes| ==> Dict(lanes[i]).Keys * Dict(lanes[j]).Keys == {}
    requires forall n :: 0 <= n < |lanes| ==> KeysDistinct(lanes[n])
    ensures Merged(Dicts(lanes)).Ok? && |Merged(Dicts(lanes)).value| == EntryCount(lanes)
  {
    hide Dict, KeysDistinct;
    MergedEntries(lanes);
    if lanes != [] {
      var n := |lanes| - 1;
      MergedSize(lanes[..n]);
      assert Dicts(lanes)[..n] == Dicts(lanes[..n]);
      DictSize(lanes[n]);
      SizeOfSum(Merged(Dicts(lanes[..n])).value, Dict(lanes[n]));
    }
  }

  lemma LaneNamesDistinct(v: Lanes, n: nat)
    requires v.V3? ==> Covered(v.prefix.value, v.prefix.registration) && NamesDistinct(v.prefix.value)
    requires n < |LaneEntries(v)|
    ensures KeysDistinct(LaneEntries(v)[n])
  {
    CacheNamesDistinct(v.cache);
    CancellationNamesDistinct(v.cancellation);
    SaveNamesDistinct(v.save);
    if !v.V1? {
      InterleavingNamesDistinct(v.interleaving);
    }
    if v.V3? {
      VerdictCount(v.prefix.value, v.prefix.registration);
    }
  }

  lemma LaneEntryCount(v: Lanes)
    requires v.V3? ==> Covered(v.prefix.value, v.prefix.registration)
    ensures EntryCount(LaneEntries(v)) == match v
      case V1(_, _, _) => 29
      case V2(_, _, _, _) => 57
      case V3(_, _, _, _, _) => 62 + PER_CASE * |v.prefix.value|
  {
    var e := LaneEntries(v);
    assert |e[0]| == 7 && |e[1]| == 8;
    assert EntryCount(e[..2]) == 15 by {
      assert e[..2][..1] == e[..1] && e[..1][..0] == [];
      assert EntryCount(e[..1]) == 7;
    }
    if v.V1? {
      assert e[..3] == e;
    } else {
      InterleavingNamesDistinct(v.interleaving);
      assert e[..3][..2] == e[..2] && e[..4][..3] == e[..3];
      assert EntryCount(e[..4]) == 57;
      if v.V2? {
        assert e[..4] == e;
      } else {
        EntriesLength(v.prefix.value, v.prefix.value, v.prefix.registration);
        assert e[..5] == e && e[..5][..4] == e[..4];
      }
    }
  }

  /** 29 verdicts, 57 verdicts, or 62 and five for each prefix case: no two lanes or cases share a name. */
  lemma InvariantCount(v: Lanes)
    requires v.V3? ==> Covered(v.prefix.value, v.prefix.registration) && NamesDistinct(v.prefix.value)
    ensures AllInvariants(v).Ok?
    ensures |AllInvariants(v).value| == match v
      case V1(_, _, _) => 29
      case V2(_, _, _, _) => 57
      case V3(_, _, _, _, _) => 62 + PER_CASE * |v.prefix.value|
  {
    var e := LaneEntries(v);
    LanesApart(v);
    forall n | 0 <= n < |e| ensures KeysDistinct(e[n]) {
      LaneNamesDistinct(v, n);
    }
    MergedSize(e);
    LaneEntryCount(v);
  }
}
