/** What the oracles say of a run: which verdicts the schedule guarantees, and which it leaves to observation. */
module ScenarioVerdicts {
  import opened Oracle
  import opened PrefixOracle
  import opened Runner
  import opened Scenarios
  import opened SlotServer
  import opened Verdicts
  import DualStream
  import SingleStream

  // -- Lane by lane --------------------------------------------------------------------------

  lemma CacheVerdicts(v: CachePairing)
    ensures AllTrue(Dict(CachePairingEntries(v))) <==> forall k :: 0 <= k < CACHE_COUNT ==> CacheVerdict(v, k)
  {
    CacheNamesDistinct(v);
    AllTrueOfEntries(CachePairingEntries(v));
    assert forall k :: 0 <= k < CACHE_COUNT ==> CachePairingEntries(v)[k].1 == CacheVerdict(v, k);
  }

  /** The cache lane passes exactly when its prompt has two tokens or more: one is always evaluated again. */
  lemma CacheLaneHolds(v: CachePairing, m: Model, p: seq<CompletionSpec>)
    requires CacheObserved(v, m, p) && PairingAsRegistered(p)
    ensures AllTrue(Dict(CachePairingEntries(v))) <==> |p[0].prompt| >= 2
  {
    CacheVerdicts(v);
    assert CacheVerdict(v, 0) && CacheVerdict(v, 3) && CacheVerdict(v, 4) && CacheVerdict(v, 5) && CacheVerdict(v, 6);
    assert CacheVerdict(v, 1) <==> |p[0].prompt| >= 2;
    assert CacheVerdict(v, 2) <==> |p[0].prompt| >= 2;
  }

  lemma CancellationVerdicts(v: Cancellation)
    ensures AllTrue(Dict(CancellationEntries(v)))
       <==> forall k :: 0 <= k < CANCELLATION_COUNT ==> CancellationVerdict(v, k)
  {
    CancellationNamesDistinct(v);
    AllTrueOfEntries(CancellationEntries(v));
    assert forall k :: 0 <= k < CANCELLATION_COUNT ==> CancellationEntries(v)[k].1 == CancellationVerdict(v, k);
  }

  /** What a run leaves open of a cut-off stream; that its first event was observed is certain. */
  predicate CancelGate(d: Disconnect) {
    d.activeObserved && d.firstNonterminal && d.idleAfter
  }

  /** The cancellation lane passes exactly when the disconnect was observed as intended. */
  lemma CancellationLaneHolds(v: Cancellation, m: Model, baseline: CompletionSpec, reuse: CompletionSpec)
    requires CancellationObserved(v, m, baseline, reuse) && Alike(baseline, reuse)
    ensures AllTrue(Dict(CancellationEntries(v))) <==> CancelGate(v.disconnect)
  {
    CancellationVerdicts(v);
    SingleStream.ReportsObserved(v.disconnect);
    assert CancellationVerdict(v, 4) && CancellationVerdict(v, 5);
    assert CancellationVerdict(v, 6) && CancellationVerdict(v, 7);
    assert CancelGate(v.disconnect) <==>
           CancellationVerdict(v, 0) && CancellationVerdict(v, 1)
           && CancellationVerdict(v, 2) && CancellationVerdict(v, 3);
  }

  predicate StreamsObserved(d: Direction) {
    && d.bothFirstEvents && d.cancelledIdle && d.bothIdle
    && d.observed0 && d.nonterminal0 && d.observed1 && d.nonterminal1
  }

  /** What a run of the protocol leaves open of one direction; the other three flags are certain. */
  predicate StreamsGate(d: Direction) {
    d.cancelledIdle && d.bothIdle && d.nonterminal0 && d.nonterminal1
  }

  /** Of the seven gating flags, a run of the protocol that returns leaves four open; the others it guarantees. */
  lemma ReturnedRunGates(d: Direction, first: nat)
    requires DirectionReported(d, first)
    ensures d.bothFirstEvents && d.observed0 && d.observed1
    ensures StreamsObserved(d) <==> StreamsGate(d)
  {
    var r :| DualStream.Reported(first, r) && d == DirectionOf(r, d.reuses);
    DualStream.ReportsPublished(first, r);
  }

  lemma DirectionHolds(d: Direction, baselines: Pair, m: Model, first: nat, zero: CompletionSpec, one: CompletionSpec)
    requires DirectionObserved(d, m, first, zero, one) && PairCompletes(baselines, m, zero, one)
    ensures (forall k :: 0 <= k < DIRECTION_COUNT ==> DirectionVerdict(d, baselines, k)) <==> StreamsGate(d)
  {
    ReturnedRunGates(d, first);
    assert forall k :: 7 <= k < DIRECTION_COUNT ==> DirectionVerdict(d, baselines, k);
    assert StreamsObserved(d) <==>
           DirectionVerdict(d, baselines, 0) && DirectionVerdict(d, baselines, 1) && DirectionVerdict(d, baselines, 2)
           && DirectionVerdict(d, baselines, 3) && DirectionVerdict(d, baselines, 4)
           && DirectionVerdict(d, baselines, 5)
           && DirectionVerdict(d, baselines, 6);
  }

  lemma EntriesInParts(v: Interleaving)
    ensures |InterleavingEntries(v)| == 2 + 2 * DIRECTION_COUNT
    ensures forall i :: 0 <= i < 2 ==> InterleavingEntries(v)[i].1 == BaselineEntries(v.baselines)[i].1
    ensures forall k :: 0 <= k < DIRECTION_COUNT ==>
      InterleavingEntries(v)[2 + k].1 == DirectionVerdict(v.slot0First, v.baselines, k)
    ensures forall k :: 0 <= k < DIRECTION_COUNT ==>
      InterleavingEntries(v)[2 + DIRECTION_COUNT + k].1 == DirectionVerdict(v.slot1First, v.baselines, k)
    ensures forall i :: 2 <= i < 2 + DIRECTION_COUNT ==>
      InterleavingEntries(v)[i].1 == DirectionVerdict(v.slot0First, v.baselines, i - 2)
    ensures forall i :: 2 + DIRECTION_COUNT <= i < 2 + 2 * DIRECTION_COUNT ==>
      InterleavingEntries(v)[i].1 == DirectionVerdict(v.slot1First, v.baselines, i - 2 - DIRECTION_COUNT)
  {
  }

  lemma InterleavingVerdicts(v: Interleaving)
    ensures AllTrue(Dict(InterleavingEntries(v))) <==>
      && BaselineEntries(v.baselines)[0].1 && BaselineEntries(v.baselines)[1].1
      && (forall k :: 0 <= k < DIRECTION_COUNT ==> DirectionVerdict(v.slot0First, v.baselines, k))
      && (forall k :: 0 <= k < DIRECTION_COUNT ==> DirectionVerdict(v.slot1First, v.baselines, k))
  {
    InterleavingNamesDistinct(v);
    var e := InterleavingEntries(v);
    AllTrueOfEntries(e);
    EntriesInParts(v);
    if forall i :: 0 <= i < |e| ==> e[i].1 {
      forall k | 0 <= k < DIRECTION_COUNT
        ensures DirectionVerdict(v.slot0First, v.baselines, k) && DirectionVerdict(v.slot1First, v.baselines, k)
      {
        assert e[2 + k].1 && e[2 + DIRECTION_COUNT + k].1;
      }
      assert e[0].1 && e[1].1;
    }
  }

  /** The interleaving lane passes exactly when, in both orders of disconnecting, the two idle polls succeeded and
      both first events were nonterminal. */
  lemma InterleavingLaneHolds(v: Interleaving, m: Model, zero: CompletionSpec, one: CompletionSpec)
    requires InterleavingObserved(v, m, zero, one)
    ensures AllTrue(Dict(InterleavingEntries(v))) <==> StreamsGate(v.slot0First) && StreamsGate(v.slot1First)
  {
    InterleavingVerdicts(v);
    DirectionHolds(v.slot0First, v.baselines, m, 0, zero, one);
    DirectionHolds(v.slot1First, v.baselines, m, 1, zero, one);
  }

  lemma SaveVerdicts(v: SaveRestore)
    ensures AllTrue(Dict(SaveRestoreEntries(v))) <==> forall k :: 0 <= k < SAVE_COUNT ==> SaveVerdict(v, k)
  {
    SaveNamesDistinct(v);
    AllTrueOfEntries(SaveRestoreEntries(v));
    assert forall k :: 0 <= k < SAVE_COUNT ==> SaveRestoreEntries(v)[k].1 == SaveVerdict(v, k);
  }

  ghost predicate NonemptyFiles(m: Model) {
    forall saved: Tokens :: saved != [] ==> m.file(saved).bytes > 0
  }

  /** The save-and-restore lane passes exactly when its prompt has two tokens or more. */
  lemma SaveLaneHolds(v: SaveRestore, m: Model, source: CompletionSpec, same: CompletionSpec, after: CompletionSpec)
    requires SaveObserved(v, m, source, same, after) && SaveAsRegistered(source, same, after) && NonemptyFiles(m)
    ensures AllTrue(Dict(SaveRestoreEntries(v))) <==> |source.prompt| >= 2
  {
    SaveVerdicts(v);
    var file: Tokens :| SavedThrough(v, m, source, same, after, file);
    assert file != [];
    assert SaveVerdict(v, 3) <==> |source.prompt| >= 2;
    forall k | 0 <= k < SAVE_COUNT
      ensures SaveVerdict(v, k) <==> k !in {3, 4, 7, 8} || |source.prompt| >= 2
    {
    }
  }

  // -- The whole run -------------------------------------------------------------------------

  /** What only the streams can show. */
  predicate Gated(lanes: Lanes)
    requires lanes.V3?
  {
    && CancelGate(lanes.cancellation.disconnect)
    && StreamsGate(lanes.interleaving.slot0First) && StreamsGate(lanes.interleaving.slot1First)
  }

  predicate PrefixesRegistered(cases: seq<PrefixCase>) {
    forall c :: c in cases ==> RightlyRegistered(c) && !ExtendsByTwo(c.source.prompt, c.cacheOn.prompt)
  }

  lemma AllFive(e: seq<seq<Entry>>)
    requires |e| == 5
    ensures (forall n :: 0 <= n < |e| ==> AllTrue(Dict(e[n]))) <==>
      AllTrue(Dict(e[0])) && AllTrue(Dict(e[1])) && AllTrue(Dict(e[2])) && AllTrue(Dict(e[3])) && AllTrue(Dict(e[4]))
  {
  }

  lemma FiveLanes(lanes: Lanes)
    requires lanes.V3? && Covered(lanes.prefix.value, lanes.prefix.registration)
    ensures (forall n :: 0 <= n < |LaneEntries(lanes)| ==> AllTrue(Dict(LaneEntries(lanes)[n]))) <==>
      && AllTrue(Dict(CachePairingEntries(lanes.cache))) && AllTrue(Dict(CancellationEntries(lanes.cancellation)))
      && AllTrue(Dict(InterleavingEntries(lanes.interleaving))) && AllTrue(Dict(SaveRestoreEntries(lanes.save)))
      && AllTrue(TokenPrefixInvariants(lanes.prefix.value, lanes.prefix.registration))
  {
    hide Dict, AllTrue, CachePairingEntries, CancellationEntries, InterleavingEntries, SaveRestoreEntries, Entries;
    AllFive(LaneEntries(lanes));
  }

  /** Against the assumed server every run of the schedule passes every verdict of its oracle, exactly when what the
      streams leave open was observed as intended and the two cached prompts have two tokens or more. */
  lemma RunSatisfiesOracle(lanes: Lanes, m: Model, s: Schedule)
    requires AsRegistered(s) && IsRunOf(lanes, m, s) && NonemptyFiles(m) && PrefixesRegistered(s.prefix)
    ensures Covered(lanes.prefix.value, lanes.prefix.registration)
    ensures AllInvariants(lanes).Ok?
    ensures AllTrue(AllInvariants(lanes).value) <==>
      Gated(lanes) && |s.pairing[0].prompt| >= 2 && |s.saveSource.prompt| >= 2
  {
    LaneSatisfiesOracle(s.prefix, lanes.prefix.value);
    MergingNeverRaises(lanes);
    CacheLaneHolds(lanes.cache, m, s.pairing);
    CancellationLaneHolds(lanes.cancellation, m, s.cancelBaseline, s.cancelReuse);
    InterleavingLaneHolds(lanes.interleaving, m, s.zero, s.one);
    SaveLaneHolds(lanes.save, m, s.saveSource, s.saveSame, s.saveAfter);
    FiveLanes(lanes);
  }
}
