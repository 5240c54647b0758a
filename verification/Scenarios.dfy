/** The scenario functions, the schedule that runs them, and the verdicts on what they observe. */
module Scenarios {
  import opened Wrappers
  import opened Adapter
  import opened Oracle
  import opened PrefixOracle
  import opened Runner
  import opened ServerLifecycle
  import opened SlotServer
  import DualStream
  import SingleStream

  // -- Cache pairing -------------------------------------------------------------------------

  function NamesOf(cases: seq<CompletionSpec>): seq<string> {
    seq(|cases|, i requires 0 <= i < |cases| => cases[i].name)
  }

  predicate OnePrompt(cases: seq<CompletionSpec>, prompt: Tokens) {
    forall i :: 0 <= i < |cases| ==> cases[i].prompt == prompt
  }

  predicate SlotUsed(cases: seq<CompletionSpec>, slot: nat) {
    exists j :: 0 <= j < |cases| && cases[j].slot == slot
  }

  /** What case `i` reuses when all cases share their prompt: all but a token on a slot that has seen it. */
  function CachedAt(cases: seq<CompletionSpec>, i: nat): int
    requires i < |cases|
  {
    if cases[i].cachePrompt && SlotUsed(cases[..i], cases[i].slot) then |cases[i].prompt| - 1 else 0
  }

  /** A slot holds the prompt and more if a case has used it, and nothing otherwise. */
  ghost predicate Holds(slots: seq<Tokens>, cases: seq<CompletionSpec>, prompt: Tokens)
    requires |slots| == SLOT_COUNT
  {
    forall slot :: 0 <= slot < SLOT_COUNT ==> if SlotUsed(cases, slot) then prompt <= slots[slot] else slots[slot] == []
  }

  lemma NextCase(cases: seq<CompletionSpec>, n: nat, prompt: Tokens, slots: seq<Tokens>, generated: Tokens)
    requires n < |cases| && |slots| == SLOT_COUNT && cases[n].slot < SLOT_COUNT && prompt != []
    requires OnePrompt(cases, prompt) && Holds(slots, cases[..n], prompt)
    ensures CachedAt(cases, n) == if cases[n].cachePrompt then Reuse(slots[cases[n].slot], prompt) else 0
    ensures Holds(slots[cases[n].slot := prompt + generated], cases[..n + 1], prompt)
  {
    var slot := cases[n].slot;
    if SlotUsed(cases[..n], slot) {
      ReuseOfItself(prompt, slots[slot][|prompt|..]);
      assert slots[slot] == prompt + slots[slot][|prompt|..];
    } else {
      ReuseOfNothing(prompt);
    }
    assert cases[..n + 1] == cases[..n] + [cases[n]];
    forall x
      ensures SlotUsed(cases[..n + 1], x) <==> SlotUsed(cases[..n], x) || x == slot
    {
      if SlotUsed(cases[..n], x) {
        var j :| 0 <= j < n && cases[..n][j].slot == x;
        assert cases[..n + 1][j].slot == x;
      }
      assert cases[..n + 1][n].slot == slot;
    }
  }

  function EraseSteps(prefix: string): seq<Step> {
    [Step(prefix + ".erase_slot_0", Erase(0)), Step(prefix + ".erase_slot_1", Erase(1))]
  }

  function PairingSteps(cases: seq<CompletionSpec>): seq<Step> {
    seq(|cases|, i requires 0 <= i < |cases| => Step("cache_pairing." + cases[i].name, Complete(cases[i])))
  }

  function PairSteps(cases: seq<CompletionSpec>): seq<Step> {
    EraseSteps("cache_pairing") + PairingSteps(cases)
  }

  method EraseSlots(client: Client, prefix: string, trace: seq<string>) returns (r: Result<seq<string>>)
    requires client.Valid()
    modifies client`slots, client`calls
    ensures client.Valid()
    ensures r.Ok? ==> client.slots == [[], []]
    ensures r.Ok? ==> Performed(EraseSteps(prefix), old(client.calls), client.calls, trace, r.value)
  {
    var erased := client.Erase(0);
    if erased.Raised? { return Raised; }
    var t := trace + [prefix + ".erase_slot_0"];
    erased := client.Erase(1);
    if erased.Raised? { return Raised; }
    return Ok(t + [prefix + ".erase_slot_1"]);
  }

  type Pairing = seq<(string, Observed)>

  /** The first `n` cases' observations, given what a shared prompt makes each case reuse. */
  predicate PairsObserved(value: Pairing, m: Model, cases: seq<CompletionSpec>, n: nat) {
    && n <= |value| && n <= |cases|
    && forall i :: 0 <= i < n ==> Completes(value[i].1, m, cases[i], CachedAt(cases, i))
  }

  /** The cases one after another, on slots that start out empty. */
  method RunCases(client: Client, cases: seq<CompletionSpec>, ghost prompt: Tokens, trace: seq<string>)
    returns (r: Result<(Pairing, seq<string>)>)
    requires client.Valid() && client.slots == [[], []] && forall c :: c in cases ==> c.slot < SLOT_COUNT
    modifies client`slots, client`work, client`calls
    ensures client.Valid()
    ensures r.Ok? ==> Performed(PairingSteps(cases), old(client.calls), client.calls, trace, r.value.1)
    ensures r.Ok? ==> |r.value.0| == |cases| && forall i :: 0 <= i < |cases| ==> r.value.0[i].0 == cases[i].name
    ensures r.Ok? && OnePrompt(cases, prompt) ==> PairsObserved(r.value.0, client.model, cases, |cases|)
  {
    hide Completes, CachedAt;
    var t := trace;
    var result: Pairing := [];
    for n := 0 to |cases|
      invariant client.Valid()
      invariant Performed(PairingSteps(cases)[..n], old(client.calls), client.calls, trace, t)
      invariant |result| == n && forall i :: 0 <= i < n ==> result[i].0 == cases[i].name
      invariant OnePrompt(cases, prompt) ==> Holds(client.slots, cases[..n], prompt)
      invariant OnePrompt(cases, prompt) ==> PairsObserved(result, client.model, cases, n)
    {
      ghost var before := client.slots;
      var o, generated := client.Complete(cases[n]);
      if o.Raised? { return Raised; }
      if OnePrompt(cases, prompt) {
        NextCase(cases, n, prompt, before, generated);
      }
      result := result + [(cases[n].name, o.value)];
      t := t + ["cache_pairing." + cases[n].name];
      assert PairingSteps(cases)[..n + 1] == PairingSteps(cases)[..n] + [PairingSteps(cases)[n]];
    }
    assert PairingSteps(cases)[..|cases|] == PairingSteps(cases);
    return Ok((result, t));
  }

  method PairCaches(client: Client, cases: seq<CompletionSpec>, ghost prompt: Tokens, trace: seq<string>)
    returns (r: Result<(Pairing, seq<string>)>)
    requires client.Valid() && forall c :: c in cases ==> c.slot < SLOT_COUNT
    modifies client`slots, client`work, client`calls
    ensures client.Valid()
    ensures r.Ok? ==> Performed(PairSteps(cases), old(client.calls), client.calls, trace, r.value.1)
    ensures r.Ok? ==> |r.value.0| == |cases| && forall i :: 0 <= i < |cases| ==> r.value.0[i].0 == cases[i].name
    ensures r.Ok? && OnePrompt(cases, prompt) ==> PairsObserved(r.value.0, client.model, cases, |cases|)
  {
    hide Performed, EraseSteps, PairingSteps, OnePrompt, PairsObserved;
    var erased := EraseSlots(client, "cache_pairing", trace);
    if erased.Raised? { return Raised; }
    ghost var between := client.calls;
    r := RunCases(client, cases, prompt, erased.value);
    if r.Ok? {
      PerformedBoth(EraseSteps("cache_pairing"), PairingSteps(cases),
                    old(client.calls), between, client.calls, trace, erased.value, r.value.1);
    }
  }

  // -- Cancellation --------------------------------------------------------------------------

  /** A request that must not reuse anything, on the given slot. */
  predicate Uncached(spec: CompletionSpec, slot: nat) {
    spec.slot == slot && !spec.cachePrompt
  }

  function CancelSteps(baseline: CompletionSpec, reuse: CompletionSpec): seq<Step> {
    [ Step("cancellation_reuse.clean_baseline", Complete(baseline)),
      Step("cancellation_reuse.disconnect", Stream),
      Step("cancellation_reuse.reused_slot", Complete(reuse)) ]
  }

  function CancellationSteps(baseline: CompletionSpec, reuse: CompletionSpec): seq<Step> {
    EraseSteps("cancellation_reuse") + CancelSteps(baseline, reuse)
  }

  /** What a cancellation lane can observe. */
  ghost predicate CancellationObserved(v: Cancellation, m: Model, baseline: CompletionSpec, reuse: CompletionSpec) {
    && Completes(v.baseline, m, baseline, 0) && Completes(v.reused, m, reuse, 0)
    && SingleStream.Reported(v.disconnect)
  }

  method CancellationReuse(client: Client, baseline: CompletionSpec, reuse: CompletionSpec, trace: seq<string>)
    returns (r: Result<(Cancellation, seq<string>)>)
    requires client.Valid() && Uncached(baseline, 1) && Uncached(reuse, 0)
    modifies client`slots, client`work, client`calls
    ensures client.Valid()
    ensures r.Ok? ==> Performed(CancellationSteps(baseline, reuse), old(client.calls), client.calls, trace, r.value.1)
    ensures r.Ok? ==> CancellationObserved(r.value.0, client.model, baseline, reuse)
  {
    hide SingleStream.Reported, Completes;
    r := Raised;
    var erased := EraseSlots(client, "cancellation_reuse", trace);
    if erased.Raised? { return; }
    ghost var between := client.calls;
    var clean, _ := client.Complete(baseline);
    if clean.Raised? { return; }
    var t := erased.value + ["cancellation_reuse.clean_baseline"];
    var disconnect := client.StreamThenDisconnect();
    if disconnect.Raised? { return; }
    t := t + ["cancellation_reuse.disconnect"];
    var reused, _ := client.Complete(reuse);
    if reused.Raised? { return; }
    t := t + ["cancellation_reuse.reused_slot"];
    assert Performed(CancelSteps(baseline, reuse), between, client.calls, erased.value, t);
    PerformedBoth(EraseSteps("cancellation_reuse"), CancelSteps(baseline, reuse),
                  old(client.calls), between, client.calls, trace, erased.value, t);
    r := Ok((Cancellation(clean.value, reused.value, disconnect.value), t));
  }

  // -- Interleaving --------------------------------------------------------------------------

  const BASELINES: seq<string> := ["slot_0", "slot_1"]

  const DIRECTIONS: seq<string> := ["slot_0_cancelled_first", "slot_1_cancelled_first"]

  function BaselineSteps(zero: CompletionSpec, one: CompletionSpec): seq<Step> {
    [ Step("interleaving_isolation.baselines." + BASELINES[0], Complete(zero)),
      Step("interleaving_isolation.baselines." + BASELINES[1], Complete(one)) ]
  }

  function DirectionSteps(first: nat, zero: CompletionSpec, one: CompletionSpec): seq<Step>
    requires first < SLOT_COUNT
  {
    [ Step("interleaving_isolation." + DIRECTIONS[first] + ".dual_stream_disconnect", DualStreams(first)),
      Step("interleaving_isolation." + DIRECTIONS[first] + "." + BASELINES[0] + "_reuse", Complete(zero)),
      Step("interleaving_isolation." + DIRECTIONS[first] + "." + BASELINES[1] + "_reuse", Complete(one)) ]
  }

  function InterleavingSteps(zero: CompletionSpec, one: CompletionSpec): seq<Step> {
    EraseSteps("interleaving_isolation") + BaselineSteps(zero, one)
    + (EraseSteps("interleaving_isolation") + DirectionSteps(0, zero, one))
    + (EraseSteps("interleaving_isolation") + DirectionSteps(1, zero, one))
  }

  /** Both baselines' completions, with nothing reused. */
  predicate PairCompletes(p: Pair, m: Model, zero: CompletionSpec, one: CompletionSpec) {
    Completes(p.slot0, m, zero, 0) && Completes(p.slot1, m, one, 0)
  }

  /** The record of a returned protocol run, with the completions made after it. */
  function DirectionOf(r: DualStream.Report, reuses: Pair): Direction {
    Direction(r.flags.bothFirstEvents, r.flags.cancelledIdle, r.flags.bothIdle,
              r.observed0, r.nonterminal0, r.observed1, r.nonterminal1, reuses)
  }

  /** The flags of one direction are those that some run of the protocol reports. */
  ghost predicate DirectionReported(d: Direction, first: nat) {
    exists r :: DualStream.Reported(first, r) && d == DirectionOf(r, d.reuses)
  }

  ghost predicate DirectionObserved(d: Direction, m: Model, first: nat, zero: CompletionSpec, one: CompletionSpec) {
    DirectionReported(d, first) && PairCompletes(d.reuses, m, zero, one)
  }

  lemma DirectionFrom(r: DualStream.Report, p: Pair, m: Model, first: nat, zero: CompletionSpec, one: CompletionSpec)
    requires DualStream.Reported(first, r) && Completes(p.slot0, m, zero, 0) && Completes(p.slot1, m, one, 0)
    ensures DirectionObserved(DirectionOf(r, p), m, first, zero, one)
  {
    hide DualStream.Reported, Completes;
  }

  method InterleavingDirection(client: Client, first: nat, zero: CompletionSpec, one: CompletionSpec,
                               trace: seq<string>)
    returns (r: Result<(Direction, seq<string>)>)
    requires client.Valid() && Uncached(zero, 0) && Uncached(one, 1) && first < SLOT_COUNT
    modifies client`slots, client`work, client`calls
    ensures client.Valid()
    ensures r.Ok? ==> Performed(DirectionSteps(first, zero, one), old(client.calls), client.calls, trace, r.value.1)
    ensures r.Ok? ==> DirectionObserved(r.value.0, client.model, first, zero, one)
  {
    hide DualStream.Reported, Completes, DirectionObserved, DirectionOf;
    r := Raised;
    var report := client.DualStreamDisconnect(first);
    if report.Raised? { return; }
    var t := trace + ["interleaving_isolation." + DIRECTIONS[first] + ".dual_stream_disconnect"];
    var ofZero, _ := client.Complete(zero);
    if ofZero.Raised? { return; }
    t := t + ["interleaving_isolation." + DIRECTIONS[first] + "." + BASELINES[0] + "_reuse"];
    var ofOne, _ := client.Complete(one);
    if ofOne.Raised? { return; }
    t := t + ["interleaving_isolation." + DIRECTIONS[first] + "." + BASELINES[1] + "_reuse"];
    DirectionFrom(report.value, Pair(ofZero.value, ofOne.value), client.model, first, zero, one);
    r := Ok((DirectionOf(report.value, Pair(ofZero.value, ofOne.value)), t));
  }

  /** One direction on slots that were just erased. */
  method ErasedDirection(client: Client, first: nat, zero: CompletionSpec, one: CompletionSpec, trace: seq<string>)
    returns (r: Result<(Direction, seq<string>)>)
    requires client.Valid() && Uncached(zero, 0) && Uncached(one, 1) && first < SLOT_COUNT
    modifies client`slots, client`work, client`calls
    ensures client.Valid()
    ensures r.Ok? ==>
      Performed(EraseSteps("interleaving_isolation") + DirectionSteps(first, zero, one),
                old(client.calls), client.calls, trace, r.value.1)
    ensures r.Ok? ==> DirectionObserved(r.value.0, client.model, first, zero, one)
  {
    hide Performed, EraseSteps, DirectionSteps, DirectionObserved;
    var erased := EraseSlots(client, "interleaving_isolation", trace);
    if erased.Raised? { return Raised; }
    ghost var between := client.calls;
    r := InterleavingDirection(client, first, zero, one, erased.value);
    if r.Ok? {
      PerformedBoth(EraseSteps("interleaving_isolation"), DirectionSteps(first, zero, one),
                    old(client.calls), between, client.calls, trace, erased.value, r.value.1);
    }
  }

  /** Both baselines, on slots that were just erased. */
  method Baselines(client: Client, zero: CompletionSpec, one: CompletionSpec, trace: seq<string>)
    returns (r: Result<(Pair, seq<string>)>)
    requires client.Valid() && Uncached(zero, 0) && Uncached(one, 1)
    modifies client`slots, client`work, client`calls
    ensures client.Valid()
    ensures r.Ok? ==>
      Performed(EraseSteps("interleaving_isolation") + BaselineSteps(zero, one),
                old(client.calls), client.calls, trace, r.value.1)
    ensures r.Ok? ==> PairCompletes(r.value.0, client.model, zero, one)
  {
    var erased := EraseSlots(client, "interleaving_isolation", trace);
    if erased.Raised? { return Raised; }
    ghost var between := client.calls;
    var first, _ := client.Complete(zero);
    if first.Raised? { return Raised; }
    var t := erased.value + ["interleaving_isolation.baselines." + BASELINES[0]];
    var second, _ := client.Complete(one);
    if second.Raised? { return Raised; }
    t := t + ["interleaving_isolation.baselines." + BASELINES[1]];
    assert Performed(BaselineSteps(zero, one), between, client.calls, erased.value, t);
    PerformedBoth(EraseSteps("interleaving_isolation"), BaselineSteps(zero, one),
                  old(client.calls), between, client.calls, trace, erased.value, t);
    return Ok((Pair(first.value, second.value), t));
  }

  /** What an interleaving lane can observe. */
  ghost predicate InterleavingObserved(v: Interleaving, m: Model, zero: CompletionSpec, one: CompletionSpec) {
    && PairCompletes(v.baselines, m, zero, one)
    && DirectionObserved(v.slot0First, m, 0, zero, one) && DirectionObserved(v.slot1First, m, 1, zero, one)
  }

  lemma InterleavingPerformed(zero: CompletionSpec, one: CompletionSpec, c: seq<Call>, d: seq<Call>, e: seq<Call>,
                              f: seq<Call>,
                              t: seq<string>, u: seq<string>, v: seq<string>, w: seq<string>)
    requires Performed(EraseSteps("interleaving_isolation") + BaselineSteps(zero, one), c, d, t, u)
    requires Performed(EraseSteps("interleaving_isolation") + DirectionSteps(0, zero, one), d, e, u, v)
    requires Performed(EraseSteps("interleaving_isolation") + DirectionSteps(1, zero, one), e, f, v, w)
    ensures Performed(InterleavingSteps(zero, one), c, f, t, w)
  {
    hide Performed, EraseSteps, BaselineSteps, DirectionSteps;
    var erase := EraseSteps("interleaving_isolation");
    PerformedBoth(erase + BaselineSteps(zero, one), erase + DirectionSteps(0, zero, one), c, d, e, t, u, v);
    PerformedBoth(erase + BaselineSteps(zero, one) + (erase + DirectionSteps(0, zero, one)),
                  erase + DirectionSteps(1, zero, one), c, e, f, t, v, w);
  }

  method InterleavingIsolation(client: Client, zero: CompletionSpec, one: CompletionSpec, trace: seq<string>)
    returns (r: Result<(Interleaving, seq<string>)>)
    requires client.Valid() && Uncached(zero, 0) && Uncached(one, 1)
    modifies client`slots, client`work, client`calls
    ensures client.Valid()
    ensures r.Ok? ==> Performed(InterleavingSteps(zero, one), old(client.calls), client.calls, trace, r.value.1)
    ensures r.Ok? ==> InterleavingObserved(r.value.0, client.model, zero, one)
  {
    hide Performed, InterleavingSteps, DirectionObserved, PairCompletes;
    r := Raised;
    var baselines := Baselines(client, zero, one, trace);
    if baselines.Raised? { return; }
    ghost var afterBaselines := client.calls;
    var zeroFirst := ErasedDirection(client, 0, zero, one, baselines.value.1);
    if zeroFirst.Raised? { return; }
    ghost var afterZero := client.calls;
    var oneFirst := ErasedDirection(client, 1, zero, one, zeroFirst.value.1);
    if oneFirst.Raised? { return; }
    InterleavingPerformed(zero, one, old(client.calls), afterBaselines, afterZero, client.calls,
                          trace, baselines.value.1, zeroFirst.value.1, oneFirst.value.1);
    r := Ok((Interleaving(baselines.value.0, zeroFirst.value.0, oneFirst.value.0), oneFirst.value.1));
  }

  // -- Save and restore ----------------------------------------------------------------------

  /** A cache-on request on the given slot. */
  predicate CachedOn(spec: CompletionSpec, slot: nat) {
    spec.slot == slot && spec.cachePrompt
  }

  /** What the first server contributes to the save-and-restore lane. */
  datatype Saved = Saved(source: Observed, same: Restored, savedTokens: int)

  function KeepSteps(source: CompletionSpec, same: CompletionSpec): seq<Step> {
    [ Step("save_restore.source", Complete(source)),
      Step("save_restore.save_slot_0", Save(0)),
      Step("save_restore.restore_slot_1", Restore(1)),
      Step("save_restore.same_process.restored", Complete(same)) ]
  }

  function SaveSteps(source: CompletionSpec, same: CompletionSpec): seq<Step> {
    EraseSteps("save_restore") + KeepSteps(source, same)
  }

  /** A prompt restored from a file of these tokens: all of it but one token is reused. */
  predicate RestoresFrom(r: Restored, m: Model, spec: CompletionSpec, file: Tokens) {
    Completes(r.restored, m, spec, |spec.prompt| - 1) && r.restoredTokens == |file|
  }

  predicate SavedAs(saved: Saved, m: Model, source: CompletionSpec, same: CompletionSpec, file: Tokens) {
    && source.prompt <= file && saved.savedTokens == |file|
    && Completes(saved.source, m, source, 0) && RestoresFrom(saved.same, m, same, file)
  }

  method SaveRestoreSameProcess(client: Client, source: CompletionSpec, same: CompletionSpec, trace: seq<string>)
    returns (r: Result<(Saved, seq<string>)>)
    requires client.Valid() && CachedOn(source, 0) && CachedOn(same, 1) && same.prompt == source.prompt
    modifies client`slots, client`work, client`saved, client`calls
    ensures client.Valid()
    ensures r.Ok? ==> Performed(SaveSteps(source, same), old(client.calls), client.calls, trace, r.value.1)
    ensures r.Ok? ==> SavedAs(r.value.0, client.model, source, same, client.saved)
  {
    r := Raised;
    var erased := EraseSlots(client, "save_restore", trace);
    if erased.Raised? { return; }
    ghost var between := client.calls;
    var first, generated := client.Complete(source);
    if first.Raised? { return; }
    ReuseOfNothing(source.prompt);
    var t := erased.value + ["save_restore.source"];
    var count := client.Save(0);
    if count.Raised? { return; }
    t := t + ["save_restore.save_slot_0"];
    var restored := client.Restore(1);
    if restored.Raised? { return; }
    t := t + ["save_restore.restore_slot_1"];
    ReuseOfItself(source.prompt, generated);
    var again, _ := client.Complete(same);
    if again.Raised? { return; }
    t := t + ["save_restore.same_process.restored"];
    assert Performed(KeepSteps(source, same), between, client.calls, erased.value, t);
    PerformedBoth(EraseSteps("save_restore"), KeepSteps(source, same),
                  old(client.calls), between, client.calls, trace, erased.value, t);
    r := Ok((Saved(first.value, Restored(again.value, restored.value), count.value), t));
  }

  function RestartSteps(spec: CompletionSpec): seq<Step> {
    [ Step("save_restore.erase_slot_0", Erase(0)),
      Step("save_restore.restore_slot_0", Restore(0)),
      Step("save_restore.after_restart.restored", Complete(spec)) ]
  }

  method RestoreAfterRestart(client: Client, spec: CompletionSpec, trace: seq<string>)
    returns (r: Result<(Restored, seq<string>)>)
    requires client.Valid() && CachedOn(spec, 0) && spec.prompt <= client.saved
    modifies client`slots, client`work, client`calls
    ensures client.Valid()
    ensures r.Ok? ==> Performed(RestartSteps(spec), old(client.calls), client.calls, trace, r.value.1)
    ensures r.Ok? ==> RestoresFrom(r.value.0, client.model, spec, client.saved)
  {
    r := Raised;
    var erased := client.Erase(0);
    if erased.Raised? { return; }
    var t := trace + ["save_restore.erase_slot_0"];
    var restored := client.Restore(0);
    if restored.Raised? { return; }
    t := t + ["save_restore.restore_slot_0"];
    var o, _ := client.Complete(spec);
    if o.Raised? { return; }
    ReuseOfItself(spec.prompt, client.saved[|spec.prompt|..]);
    assert client.saved == spec.prompt + client.saved[|spec.prompt|..];
    t := t + ["save_restore.after_restart.restored"];
    r := Ok((Restored(o.value, restored.value), t));
  }

  // -- The schedule --------------------------------------------------------------------------

  /** Everything that is registered about one run. */
  datatype Schedule = Schedule(
    pairing: seq<CompletionSpec>, cancelBaseline: CompletionSpec, cancelReuse: CompletionSpec,
    zero: CompletionSpec, one: CompletionSpec, prefix: seq<PrefixCase>,
    saveSource: CompletionSpec, saveSame: CompletionSpec, saveAfter: CompletionSpec)

  predicate Alike(a: CompletionSpec, b: CompletionSpec) {
    a.prompt == b.prompt && a.nPredict == b.nPredict
  }

  /** The four registered cases; a list of another length may hold anything. */
  predicate PairingAsRegistered(p: seq<CompletionSpec>) {
    |p| == 4 ==>
      && CachedOn(p[0], 0) && CachedOn(p[1], 0) && Uncached(p[2], 1) && Uncached(p[3], 1)
      && Alike(p[0], p[1]) && Alike(p[0], p[2]) && Alike(p[0], p[3])
  }

  predicate SaveAsRegistered(source: CompletionSpec, same: CompletionSpec, after: CompletionSpec) {
    && CachedOn(source, 0) && CachedOn(same, 1) && CachedOn(after, 0)
    && Alike(source, same) && Alike(source, after)
  }

  predicate AsRegistered(s: Schedule) {
    && PairingAsRegistered(s.pairing) && (forall c :: c in s.pairing ==> c.slot < SLOT_COUNT)
    && Uncached(s.cancelBaseline, 1) && Uncached(s.cancelReuse, 0) && Alike(s.cancelBaseline, s.cancelReuse)
    && Uncached(s.zero, 0) && Uncached(s.one, 1)
    && CaseNamesDiffer(s.prefix) && (forall c :: c in s.prefix ==> LaneShaped(c))
    && SaveAsRegistered(s.saveSource, s.saveSame, s.saveAfter)
  }

  /** What a cache lane can observe. */
  predicate CacheObserved(v: CachePairing, m: Model, p: seq<CompletionSpec>) {
    && |p| == 4
    && Completes(v.coldOn, m, p[0], 0) && Completes(v.repeatOn, m, p[1], |p[0].prompt| - 1)
    && Completes(v.coldOff, m, p[2], 0) && Completes(v.repeatOff, m, p[3], 0)
    && v.inOrder == [v.coldOn, v.repeatOn, v.coldOff, v.repeatOff]
  }

  /** A save-and-restore lane through a file of these tokens. */
  predicate SavedThrough(v: SaveRestore, m: Model, source: CompletionSpec, same: CompletionSpec, after: CompletionSpec,
                         file: Tokens)
  {
    && source.prompt <= file && v.before == v.after == m.file(file) && v.savedTokens == |file|
    && Completes(v.source, m, source, 0)
    && RestoresFrom(v.same, m, same, file) && RestoresFrom(v.restarted, m, after, file)
    && v.restartConfirmed
  }

  ghost predicate SaveObserved(v: SaveRestore, m: Model, source: CompletionSpec, same: CompletionSpec,
                               after: CompletionSpec)
  {
    exists file: Tokens :: SavedThrough(v, m, source, same, after, file)
  }

  /** What a run of the schedule can observe, lane by lane. */
  ghost predicate IsRunOf(lanes: Lanes, m: Model, s: Schedule) {
    && lanes.V3?
    && CacheObserved(lanes.cache, m, s.pairing)
    && CancellationObserved(lanes.cancellation, m, s.cancelBaseline, s.cancelReuse)
    && InterleavingObserved(lanes.interleaving, m, s.zero, s.one)
    && IsObserved(lanes.prefix.value, s.prefix) && lanes.prefix.registration == RegistrationOf(s.prefix)
    && SaveObserved(lanes.save, m, s.saveSource, s.saveSame, s.saveAfter)
  }

  /** What the first server's scenarios return. */
  datatype First = First(
    pairing: Pairing, cancellation: Cancellation, interleaving: Interleaving, prefix: Cases, saved: Saved)

  function EarlySteps(s: Schedule): seq<Step> {
    PairSteps(s.pairing) + CancellationSteps(s.cancelBaseline, s.cancelReuse) + InterleavingSteps(s.zero, s.one)
  }

  function FirstSteps(s: Schedule): seq<Step> {
    EarlySteps(s) + TokenPrefixSteps(s.prefix) + SaveSteps(s.saveSource, s.saveSame)
  }

  function CacheLane(p: Pairing): CachePairing {
    if |p| == 4 then CachePairing(p[0].1, p[1].1, p[2].1, p[3].1, [p[0].1, p[1].1, p[2].1, p[3].1])
    else
      var none := Observed(Completion("", "", 0, 0, 0, 0), Slot(false, 0));
      CachePairing(none, none, none, none, [])
  }

  lemma RegisteredReuses(p: seq<CompletionSpec>)
    requires |p| == 4 && PairingAsRegistered(p)
    ensures OnePrompt(p, p[0].prompt)
    ensures CachedAt(p, 0) == CachedAt(p, 2) == CachedAt(p, 3) == 0 && CachedAt(p, 1) == |p[0].prompt| - 1
  {
    assert p[..1][0].slot == 0;
  }

  method PairRegistered(client: Client, p: seq<CompletionSpec>, trace: seq<string>)
    returns (r: Result<(Pairing, seq<string>)>)
    requires client.Valid() && PairingAsRegistered(p) && forall c :: c in p ==> c.slot < SLOT_COUNT
    modifies client`slots, client`work, client`calls
    ensures client.Valid()
    ensures r.Ok? ==> Performed(PairSteps(p), old(client.calls), client.calls, trace, r.value.1)
    ensures r.Ok? && |p| == 4 ==> CacheObserved(CacheLane(r.value.0), client.model, p)
  {
    hide Performed, PairSteps, Completes, OnePrompt, CachedAt;
    r := PairCaches(client, p, if p == [] then [] else p[0].prompt, trace);
    if r.Ok? && |p| == 4 {
      RegisteredReuses(p);
    }
  }

  /** The three completion lanes that come first. */
  method EarlyLanes(client: Client, s: Schedule, trace: seq<string>)
    returns (r: Result<(Pairing, Cancellation, Interleaving, seq<string>)>)
    requires client.Valid() && AsRegistered(s)
    modifies client`slots, client`work, client`calls
    ensures client.Valid()
    ensures r.Ok? ==> Performed(EarlySteps(s), old(client.calls), client.calls, trace, r.value.3)
    ensures r.Ok? && |s.pairing| == 4 ==> CacheObserved(CacheLane(r.value.0), client.model, s.pairing)
    ensures r.Ok? ==> CancellationObserved(r.value.1, client.model, s.cancelBaseline, s.cancelReuse)
    ensures r.Ok? ==> InterleavingObserved(r.value.2, client.model, s.zero, s.one)
  {
    hide Performed, PairSteps, CancellationSteps, InterleavingSteps;
    hide CacheObserved, CancellationObserved, InterleavingObserved, CacheLane;
    var pairing := PairRegistered(client, s.pairing, trace);
    if pairing.Raised? { return Raised; }
    ghost var c := client.calls;
    var cancellation := CancellationReuse(client, s.cancelBaseline, s.cancelReuse, pairing.value.1);
    if cancellation.Raised? { return Raised; }
    ghost var d := client.calls;
    var interleaving := InterleavingIsolation(client, s.zero, s.one, cancellation.value.1);
    if interleaving.Raised? { return Raised; }
    PerformedBoth(PairSteps(s.pairing), CancellationSteps(s.cancelBaseline, s.cancelReuse),
                  old(client.calls), c, d, trace, pairing.value.1, cancellation.value.1);
    PerformedBoth(PairSteps(s.pairing) + CancellationSteps(s.cancelBaseline, s.cancelReuse),
                  InterleavingSteps(s.zero, s.one), old(client.calls), d, client.calls,
                  trace, cancellation.value.1, interleaving.value.1);
    return Ok((pairing.value.0, cancellation.value.0, interleaving.value.0, interleaving.value.1));
  }

  ghost predicate FirstObserved(f: First, m: Model, s: Schedule, file: Tokens) {
    && (|s.pairing| == 4 ==> CacheObserved(CacheLane(f.pairing), m, s.pairing))
    && CancellationObserved(f.cancellation, m, s.cancelBaseline, s.cancelReuse)
    && InterleavingObserved(f.interleaving, m, s.zero, s.one)
    && IsObserved(f.prefix, s.prefix)
    && SavedAs(f.saved, m, s.saveSource, s.saveSame, file)
  }

  method FirstServer(client: Client, s: Schedule, trace: seq<string>) returns (r: Result<(First, seq<string>)>)
    requires client.Valid() && AsRegistered(s)
    modifies client`slots, client`work, client`saved, client`calls
    ensures client.Valid()
    ensures r.Ok? ==> Performed(FirstSteps(s), old(client.calls), client.calls, trace, r.value.1)
    ensures r.Ok? ==> FirstObserved(r.value.0, client.model, s, client.saved)
  {
    hide Performed, EarlySteps, TokenPrefixSteps, SaveSteps, LaneShaped;
    hide CacheObserved, CancellationObserved, InterleavingObserved, IsObserved, SavedAs, CacheLane;
    var early := EarlyLanes(client, s, trace);
    if early.Raised? { return Raised; }
    ghost var c := client.calls;
    var prefix := TokenPrefixDivergence(client, s.prefix, early.value.3);
    if prefix.Raised? { return Raised; }
    ghost var d := client.calls;
    var saved := SaveRestoreSameProcess(client, s.saveSource, s.saveSame, prefix.value.1);
    if saved.Raised? { return Raised; }
    PerformedBoth(EarlySteps(s), TokenPrefixSteps(s.prefix),
                  old(client.calls), c, d, trace, early.value.3, prefix.value.1);
    PerformedBoth(EarlySteps(s) + TokenPrefixSteps(s.prefix), SaveSteps(s.saveSource, s.saveSame),
                  old(client.calls), d, client.calls, trace, prefix.value.1, saved.value.1);
    return Ok((First(early.value.0, early.value.1, early.value.2, prefix.value.0, saved.value.0), saved.value.1));
  }

  // -- The two servers -----------------------------------------------------------------------

  /** The first server in its `with` block: it is stopped whatever its scenarios do. */
  method FirstBlock(os: Os, process: ServerProcess, m: Model, s: Schedule)
    returns (r: Result<(First, seq<string>, Tokens)>, ghost calls: seq<Call>, ghost stop: Stopping)
    requires os.Valid() && process.process == None && os.live * os.roots == {} && os.peak <= 1 && AsRegistered(s)
    modifies os, process
    ensures os.Valid() && os.peak <= 1
    ensures HandlesAfter(old(os.OpenHandles()), os.OpenHandles(), stop) && (stop.killRaised ==> r.Raised?)
    ensures r.Ok? ==> process.process == None && os.live * os.roots == {}
    ensures r.Ok? ==> Performed(FirstSteps(s), [], calls, ["start_server_1"], r.value.1)
    ensures r.Ok? ==> FirstObserved(r.value.0, m, s, r.value.2)
  {
    hide AsRegistered, Performed, FirstSteps, FirstObserved;
    calls := [];
    var started;
    started, stop := process.Start(os);
    if started.Raised? { return Raised, calls, stop; }
    os.Elapse();
    var client := new Client(m, []);
    var body := FirstServer(client, s, ["start_server_1"]);
    calls := client.calls;
    os.Elapse();
    var stopped;
    ghost var attended;
    stopped, attended, stop := process.Stop(os);
    if body.Raised? || stopped.Raised? { return Raised, calls, stop; }
    return Ok((body.value.0, body.value.1, client.saved)), calls, stop;
  }

  /** The second server in its `with` block; it finds the first one's slot state file. */
  method SecondBlock(os: Os, process: ServerProcess, m: Model, spec: CompletionSpec, file: Tokens, trace: seq<string>)
    returns (r: Result<(Restored, seq<string>, Tokens)>, ghost calls: seq<Call>, ghost stop: Stopping)
    requires os.Valid() && process.process == None && os.live * os.roots == {} && os.peak <= 1
    requires CachedOn(spec, 0) && spec.prompt <= file
    modifies os, process
    ensures os.Valid() && os.peak <= 1
    ensures HandlesAfter(old(os.OpenHandles()), os.OpenHandles(), stop) && (stop.killRaised ==> r.Raised?)
    ensures r.Ok? ==> process.process == None && os.live * os.roots == {}
    ensures r.Ok? ==> Performed(RestartSteps(spec), [], calls, trace + ["start_server_2"], r.value.1)
    ensures r.Ok? ==> RestoresFrom(r.value.0, m, spec, file) && r.value.2 == file
  {
    hide Performed, RestartSteps, RestoresFrom;
    calls := [];
    var started;
    started, stop := process.Start(os);
    if started.Raised? { return Raised, calls, stop; }
    os.Elapse();
    var client := new Client(m, file);
    var body := RestoreAfterRestart(client, spec, trace + ["start_server_2"]);
    calls := client.calls;
    os.Elapse();
    var stopped;
    ghost var attended;
    stopped, attended, stop := process.Stop(os);
    if body.Raised? || stopped.Raised? { return Raised, calls, stop; }
    return Ok((body.value.0, body.value.1, client.saved)), calls, stop;
  }

  datatype Outcome = Finished(lanes: Lanes) | CallRaised | OrderDiffered

  const BETWEEN: seq<string> := ["stop_server_1", "hash_slot_state_before_restart"]

  const AFTER: seq<string> := ["stop_server_2", "hash_slot_state_after_restart"]

  /** The trace of a whole run. */
  function RunTrace(s: Schedule): seq<string> {
    ["start_server_1"] + TraceOf(FirstSteps(s))
    + (BETWEEN + (["start_server_2"] + TraceOf(RestartSteps(s.saveAfter)) + AFTER))
  }

  function Collected(s: Schedule, f: First, before: StateFile, restarted: Restored, after: StateFile,
                     confirmed: bool): Lanes
  {
    var save := SaveRestore(f.saved.source, f.saved.same, restarted, f.saved.savedTokens, before, after, confirmed);
    V3(CacheLane(f.pairing), f.cancellation, f.interleaving, save, PrefixLane(f.prefix, RegistrationOf(s.prefix)))
  }

  lemma CollectedIsRun(m: Model, s: Schedule, f: First, file: Tokens, restarted: Restored)
    requires |s.pairing| == 4 && FirstObserved(f, m, s, file) && RestoresFrom(restarted, m, s.saveAfter, file)
    ensures IsRunOf(Collected(s, f, m.file(file), restarted, m.file(file), true), m, s)
  {
    hide CacheObserved, CancellationObserved, InterleavingObserved, IsObserved;
    var v := Collected(s, f, m.file(file), restarted, m.file(file), true).save;
    assert SavedThrough(v, m, s.saveSource, s.saveSame, s.saveAfter, file);
  }

  // -- The trace -----------------------------------------------------------------------------

  function OpeningOrder(names: seq<string>): seq<string> {
    ["cache_pairing" + ".erase_slot_0", "cache_pairing" + ".erase_slot_1"]
    + PairingOrder(names)
    + ["cancellation_reuse" + ".erase_slot_0", "cancellation_reuse" + ".erase_slot_1",
       "cancellation_reuse.clean_baseline", "cancellation_reuse.disconnect", "cancellation_reuse.reused_slot"]
  }

  const SAVING_ORDER: seq<string> := [
    "save_restore" + ".erase_slot_0", "save_restore" + ".erase_slot_1", "save_restore.source",
    "save_restore.save_slot_0", "save_restore.restore_slot_1", "save_restore.same_process.restored"]

  const RESTART_ORDER: seq<string> := [
    "save_restore.erase_slot_0", "save_restore.restore_slot_0", "save_restore.after_restart.restored"]

  lemma OrderInParts(names: seq<string>)
    ensures ProcessOrderV1(names)[..8 + |names|] == ["start_server_1"] + OpeningOrder(names)
    ensures ProcessOrderV1(names)[8 + |names|..]
         == SAVING_ORDER + BETWEEN + (["start_server_2"] + RESTART_ORDER + AFTER)
  {
  }

  lemma LanesTraced(s: Schedule)
    ensures TraceOf(PairSteps(s.pairing)) + TraceOf(CancellationSteps(s.cancelBaseline, s.cancelReuse))
         == OpeningOrder(NamesOf(s.pairing))
    ensures TraceOf(InterleavingSteps(s.zero, s.one)) == INTERLEAVING_PROCESS_ORDER
    ensures TraceOf(SaveSteps(s.saveSource, s.saveSame)) == SAVING_ORDER
    ensures TraceOf(RestartSteps(s.saveAfter)) == RESTART_ORDER
  {
    assert TraceOf(PairingSteps(s.pairing)) == PairingOrder(NamesOf(s.pairing));
    StepsAppend(EraseSteps("cache_pairing"), PairingSteps(s.pairing));
  }

  lemma FirstTraced(s: Schedule)
    ensures TraceOf(FirstSteps(s))
         == OpeningOrder(NamesOf(s.pairing)) + INTERLEAVING_PROCESS_ORDER + TokenPrefixOrder(s.prefix) + SAVING_ORDER
  {
    LanesTraced(s);
    TokenPrefixTraced(s.prefix);
    hide TraceOf, PairSteps, CancellationSteps, InterleavingSteps, TokenPrefixSteps, SaveSteps;
    var a, b := PairSteps(s.pairing), CancellationSteps(s.cancelBaseline, s.cancelReuse);
    StepsAppend(a, b);
    StepsAppend(a + b, InterleavingSteps(s.zero, s.one));
    StepsAppend(EarlySteps(s), TokenPrefixSteps(s.prefix));
    StepsAppend(EarlySteps(s) + TokenPrefixSteps(s.prefix), SaveSteps(s.saveSource, s.saveSame));
  }

  lemma Regroup(a: seq<string>, b: seq<string>, c: seq<string>, d: seq<string>, e: seq<string>, f: seq<string>)
    ensures a + (b + c + d + e) + f == (a + b) + c + d + (e + f)
  {
  }

  lemma TracedAsExecuted(s: Schedule)
    ensures RunTrace(s) == Executed(NamesOf(s.pairing), s.prefix)
  {
    var names := NamesOf(s.pairing);
    OrderInParts(names);
    FirstTraced(s);
    LanesTraced(s);
    hide TraceOf, FirstSteps, RestartSteps, OpeningOrder, TokenPrefixOrder, ProcessOrderV1, NamesOf;
    var closing := BETWEEN + (["start_server_2"] + RESTART_ORDER + AFTER);
    Regroup(["start_server_1"], OpeningOrder(names), INTERLEAVING_PROCESS_ORDER, TokenPrefixOrder(s.prefix),
            SAVING_ORDER, closing);
    assert SAVING_ORDER + BETWEEN + (["start_server_2"] + RESTART_ORDER + AFTER) == SAVING_ORDER + closing;
  }

  /** The trace check, and what is collected when it passes. */
  method Conclude(s: Schedule, f: First, before: StateFile, restarted: Restored, after: StateFile, confirmed: bool,
                  trace: seq<string>)
    returns (outcome: Outcome)
    requires trace == RunTrace(s)
    ensures outcome == if |s.pairing| != 4 then OrderDiffered
                       else Finished(Collected(s, f, before, restarted, after, confirmed))
    ensures outcome.Finished? <==> trace == ProcessOrder(NamesOf(s.pairing), s.prefix)
  {
    hide RunTrace, ProcessOrder, Executed, Collected;
    TracedAsExecuted(s);
    OrderMatchesFourPairings(NamesOf(s.pairing), s.prefix);
    if trace != ProcessOrder(NamesOf(s.pairing), s.prefix) {
      return OrderDiffered;
    }
    return Finished(Collected(s, f, before, restarted, after, confirmed));
  }

  /** The requests that a whole run makes of either server. */
  datatype Requests = Requests(first: seq<Call>, second: seq<Call>)

  function RequestsOf(s: Schedule): Requests {
    Requests(CallsOf(FirstSteps(s)), CallsOf(RestartSteps(s.saveAfter)))
  }

  lemma SavedPrompt(f: First, m: Model, s: Schedule, file: Tokens)
    requires AsRegistered(s) && FirstObserved(f, m, s, file)
    ensures CachedOn(s.saveAfter, 0) && s.saveAfter.prompt <= file
  {
  }

  lemma TraceTogether(s: Schedule, t: seq<string>, u: seq<string>, firstCalls: seq<Call>, secondCalls: seq<Call>)
    requires Performed(FirstSteps(s), [], firstCalls, ["start_server_1"], t)
    requires Performed(RestartSteps(s.saveAfter), [], secondCalls, t + BETWEEN + ["start_server_2"], u)
    ensures u + AFTER == RunTrace(s)
    ensures firstCalls == CallsOf(FirstSteps(s)) && secondCalls == CallsOf(RestartSteps(s.saveAfter))
  {
    hide TraceOf, CallsOf, FirstSteps, RestartSteps;
  }

  /** The whole run, with everything that may raise on the way. */
  method RunScenarios(os: Os, windows: bool, m: Model, s: Schedule)
    returns (outcome: Outcome, ghost trace: seq<string>, ghost requests: Requests, ghost stop: Stopping)
    requires os.Valid() && os.live * os.roots == {} && os.peak <= 1 && AsRegistered(s)
    modifies os
    ensures os.peak <= 1
    ensures HandlesAfter(old(os.OpenHandles()), os.OpenHandles(), stop) && (stop.killRaised ==> outcome.CallRaised?)
    ensures !outcome.CallRaised? ==> os.live * os.roots == {}
    ensures !outcome.CallRaised? ==> trace == RunTrace(s) && requests == RequestsOf(s)
    ensures outcome.Finished? ==> |s.pairing| == 4 && trace == ProcessOrder(NamesOf(s.pairing), s.prefix)
    ensures outcome.OrderDiffered? ==> |s.pairing| != 4 && trace != ProcessOrder(NamesOf(s.pairing), s.prefix)
    ensures outcome.Finished? ==> IsRunOf(outcome.lanes, m, s)
  {
    hide AsRegistered, Performed, FirstSteps, RestartSteps, FirstObserved;
    hide RestoresFrom, IsRunOf, RunTrace, ProcessOrder;
    outcome, trace, requests := CallRaised, [], Requests([], []);
    var first := new ServerProcess(windows);
    var second := new ServerProcess(windows);
    var ran;
    ghost var firstCalls;
    ran, firstCalls, stop := FirstBlock(os, first, m, s);
    if ran.Raised? { return; }
    SavedPrompt(ran.value.0, m, s, ran.value.2);
    var confirmed := first.process == None;
    if * { return; }
    var before := m.file(ran.value.2);
    var again;
    ghost var secondCalls;
    again, secondCalls, stop := SecondBlock(os, second, m, s.saveAfter, ran.value.2, ran.value.1 + BETWEEN);
    if again.Raised? { return; }
    confirmed := confirmed && second.process == None;
    if * { return; }
    var after := m.file(again.value.2);
    trace, requests := again.value.1 + AFTER, Requests(firstCalls, secondCalls);
    TraceTogether(s, ran.value.1, again.value.1, firstCalls, secondCalls);
    outcome := Conclude(s, ran.value.0, before, again.value.0, after, confirmed, again.value.1 + AFTER);
    if outcome.Finished? {
      CollectedIsRun(m, s, ran.value.0, ran.value.2, again.value.0);
    }
  }

  /** In what a run asks of the first server, every prefix source and every cache-off target follows an erasure of
      slot 0 with nothing in between. */
  lemma PrefixRequestsFollowErasures(s: Schedule, n: nat)
    requires n < |s.prefix|
    ensures var k := |EarlySteps(s)| + 5 * n;
            && k + 5 <= |CallsOf(FirstSteps(s))|
            && CallsOf(FirstSteps(s))[k..k + 5]
               == [Erase(0), Prefill(s.prefix[n].source), Prefill(s.prefix[n].cacheOn),
                   Erase(0), Prefill(s.prefix[n].cacheOff)]
  {
    var k := |EarlySteps(s)|;
    CallsOfCase(s.prefix, n);
    var prefix := CallsOf(TokenPrefixSteps(s.prefix));
    assert CallsOf(FirstSteps(s))[k + 5 * n..k + 5 * n + 5] == prefix[5 * n..5 * n + 5];
  }
}
