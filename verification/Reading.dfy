/** The lookups by which the oracles reach into an evidence object; each raises when it does not find what it needs. */
module Reading {
  import opened Wrappers
  import opened Json
  import opened Oracle
  import opened PrefixOracle

  // -- Single lookups ------------------------------------------------------------------------

  function At(j: Json, key: string): Result<Json> {
    if Has(j, key) then Ok(Get(j, key)) else Raised
  }

  function StrAt(j: Json, key: string): Result<string> {
    if Has(j, key) && Get(j, key).Str? then Ok(Get(j, key).s) else Raised
  }

  function IntAt(j: Json, key: string): Result<int> {
    if Has(j, key) && Get(j, key).Int? then Ok(Get(j, key).i) else Raised
  }

  function BoolAt(j: Json, key: string): Result<bool> {
    if Has(j, key) && Get(j, key).Bool? then Ok(Get(j, key).b) else Raised
  }

  /** A registered count: the registration is compared by `==`, so it may be written as any equal number. */
  function CountAt(j: Json, key: string): Result<int> {
    if Has(j, key) && IsNumber(Get(j, key)) && Number(Get(j, key)) == Number(Get(j, key)).Floor as real
    then Ok(Number(Get(j, key)).Floor) else Raised
  }

  // -- Records -------------------------------------------------------------------------------

  function ReadCompletion(j: Json): Result<Completion> {
    var contentSha :- StrAt(j, "content_sha256");
    var tokensSha :- StrAt(j, "tokens_sha256");
    var contentBytes :- IntAt(j, "content_bytes");
    var predictedTokens :- IntAt(j, "predicted_tokens");
    var tokenCount :- IntAt(j, "token_count");
    var promptWork :- IntAt(j, "prompt_work");
    Ok(Completion(contentSha, tokensSha, contentBytes, predictedTokens, tokenCount, promptWork))
  }

  function ReadSlot(j: Json): Result<Slot> {
    var idle :- BoolAt(j, "idle");
    var promptWork :- IntAt(j, "prompt_work");
    Ok(Slot(idle, promptWork))
  }

  function ReadObserved(j: Json): Result<Observed> {
    var c :- At(j, "completion");
    var completion :- ReadCompletion(c);
    var s :- At(j, "idle_slot");
    var slot :- ReadSlot(s);
    Ok(Observed(completion, slot))
  }

  function ObservedAt(j: Json, key: string): Result<Observed> {
    var o :- At(j, key);
    ReadObserved(o)
  }

  /** Every value of the object, in key order. */
  function ReadValues(j: Json, keys: seq<string>): (r: Result<seq<Observed>>)
    ensures r.Ok? ==> |r.value| == |keys|
  {
    if keys == [] then Ok([])
    else
      var front :- ReadValues(j, keys[..|keys| - 1]);
      var last :- ObservedAt(j, keys[|keys| - 1]);
      Ok(front + [last])
  }

  function ReadCachePairing(j: Json): Result<CachePairing> {
    var coldOn :- ObservedAt(j, "cold_cache_on");
    var repeatOn :- ObservedAt(j, "repeat_cache_on");
    var coldOff :- ObservedAt(j, "cold_cache_off");
    var repeatOff :- ObservedAt(j, "repeat_cache_off");
    var inOrder :- ReadValues(j, if j.Obj? then j.order else []);
    Ok(CachePairing(coldOn, repeatOn, coldOff, repeatOff, inOrder))
  }

  function ReadDisconnect(j: Json): Result<Disconnect> {
    var active :- BoolAt(j, "active_processing_observed");
    var first :- BoolAt(j, "first_event_observed");
    var nonterminal :- BoolAt(j, "first_event_nonterminal");
    var idle :- BoolAt(j, "idle_after_disconnect");
    Ok(Disconnect(active, first, nonterminal, idle))
  }

  function ReadCancellation(j: Json): Result<Cancellation> {
    var baseline :- ObservedAt(j, "clean_baseline");
    var reused :- ObservedAt(j, "reused_slot");
    var d :- At(j, "disconnect");
    var disconnect :- ReadDisconnect(d);
    Ok(Cancellation(baseline, reused, disconnect))
  }

  function ReadPair(j: Json): Result<Pair> {
    var slot0 :- ObservedAt(j, "slot_0");
    var slot1 :- ObservedAt(j, "slot_1");
    Ok(Pair(slot0, slot1))
  }

  function PairAt(j: Json, key: string): Result<Pair> {
    var x :- At(j, key);
    ReadPair(x)
  }

  function ReadDirection(j: Json): Result<Direction> {
    var bothFirst :- BoolAt(j, "both_first_events_before_disconnect");
    var cancelledIdle :- BoolAt(j, "cancelled_slot_idle_after_first_disconnect");
    var bothIdle :- BoolAt(j, "both_idle_after_second_disconnect");
    var observed0 :- BoolAt(j, "slot_0_first_event_observed");
    var nonterminal0 :- BoolAt(j, "slot_0_first_event_nonterminal");
    var observed1 :- BoolAt(j, "slot_1_first_event_observed");
    var nonterminal1 :- BoolAt(j, "slot_1_first_event_nonterminal");
    var reuses :- PairAt(j, "reuses");
    Ok(Direction(bothFirst, cancelledIdle, bothIdle, observed0, nonterminal0, observed1, nonterminal1, reuses))
  }

  function DirectionAt(j: Json, key: string): Result<Direction> {
    var x :- At(j, key);
    ReadDirection(x)
  }

  function ReadInterleaving(j: Json): Result<Interleaving> {
    var baselines :- PairAt(j, "baselines");
    var slot0First :- DirectionAt(j, "slot_0_cancelled_first");
    var slot1First :- DirectionAt(j, "slot_1_cancelled_first");
    Ok(Interleaving(baselines, slot0First, slot1First))
  }

  function ReadRestored(j: Json): Result<Restored> {
    var restored :- ObservedAt(j, "restored");
    var tokens :- IntAt(j, "restored_tokens");
    Ok(Restored(restored, tokens))
  }

  function RestoredAt(j: Json, key: string): Result<Restored> {
    var x :- At(j, key);
    ReadRestored(x)
  }

  function ReadStateFile(j: Json): Result<StateFile> {
    var size :- IntAt(j, "bytes");
    var sha :- StrAt(j, "sha256");
    Ok(StateFile(size, sha))
  }

  function StateFileAt(j: Json, key: string): Result<StateFile> {
    var x :- At(j, key);
    ReadStateFile(x)
  }

  function ReadSaveRestore(j: Json): Result<SaveRestore> {
    var source :- ObservedAt(j, "source");
    var same :- RestoredAt(j, "same_process");
    var restarted :- RestoredAt(j, "after_restart");
    var savedTokens :- IntAt(j, "saved_tokens");
    var before :- StateFileAt(j, "slot_state_before_restart");
    var after :- StateFileAt(j, "slot_state_after_restart");
    var confirmed :- BoolAt(j, "process_restart_confirmed");
    Ok(SaveRestore(source, same, restarted, savedTokens, before, after, confirmed))
  }

  // -- The direct-token lane and its registration --------------------------------------------

  function ReadObservation(j: Json): Result<Observation> {
    var p :- At(j, "prefill");
    var cacheTokens :- IntAt(p, "cache_tokens");
    var predictedTokens :- IntAt(p, "predicted_tokens");
    var promptTokens :- IntAt(p, "prompt_tokens");
    var promptWork :- IntAt(p, "prompt_work");
    var s :- At(j, "idle_slot");
    var slot :- ReadSlot(s);
    Ok(Observation(cacheTokens, predictedTokens, promptTokens, promptWork, slot.idle, slot.promptWork))
  }

  function PrefillAt(j: Json, key: string): Result<Observation> {
    var x :- At(j, key);
    ReadObservation(x)
  }

  function ReadCase(j: Json): Result<Case> {
    var source :- PrefillAt(j, "source");
    var cacheOn :- PrefillAt(j, "cache_on_target");
    var cacheOff :- PrefillAt(j, "cache_off_target");
    Ok(Case(source, cacheOn, cacheOff))
  }

  function PromptTokens(j: Json, key: string): Result<int> {
    var spec :- At(j, key);
    var prompt :- At(spec, "prompt");
    CountAt(prompt, "tokens")
  }

  function ReadRegistered(j: Json): Result<Registered> {
    var source :- PromptTokens(j, "source");
    var cacheOn :- PromptTokens(j, "cache_on_target");
    var cacheOff :- PromptTokens(j, "cache_off_target");
    var commonPrefix :- CountAt(j, "common_prefix_tokens");
    Ok(Registered(source, cacheOn, cacheOff, commonPrefix))
  }

  function CaseAt(j: Json, name: string): Result<Case> {
    var c :- At(j, name);
    ReadCase(c)
  }

  function RegisteredAt(reg: Json, name: string): Result<Registered> {
    var r :- At(reg, name);
    ReadRegistered(r)
  }

  function CaseReader(j: Json): string -> Result<Case> {
    name => CaseAt(j, name)
  }

  function RegisteredReader(reg: Json): string -> Result<Registered> {
    name => RegisteredAt(reg, name)
  }

  /** The items of the lane in key order, each with the registration looked up under its name. */
  function ReadCases(caseAt: string -> Result<Case>, registeredAt: string -> Result<Registered>, names: seq<string>)
    : (r: Result<PrefixLane>)
    ensures r.Ok? ==> Covered(r.value.value, r.value.registration) && |r.value.value| == |names|
  {
    if names == [] then Ok(PrefixLane([], map[]))
    else
      var front :- ReadCases(caseAt, registeredAt, names[..|names| - 1]);
      var name := names[|names| - 1];
      var c :- caseAt(name);
      var registered :- registeredAt(name);
      Ok(PrefixLane(front.value + [(name, c)], front.registration[name := registered]))
  }

  function ReadPrefixLane(j: Json, registration: Json): (r: Result<PrefixLane>)
    ensures r.Ok? ==> Covered(r.value.value, r.value.registration)
  {
    if !j.Obj? then Raised
    else
      var reg :- At(registration, "token_prefix_divergence");
      ReadCases(CaseReader(j), RegisteredReader(reg), j.order)
  }

  // -- The evidence --------------------------------------------------------------------------

  datatype Version = Version1 | Version2 | Version3

  predicate LanesReady(v: Lanes) {
    v.V3? ==> Covered(v.prefix.value, v.prefix.registration)
  }

  function CacheIn(j: Json): Result<CachePairing> {
    var c :- At(j, "cache_pairing");
    ReadCachePairing(c)
  }

  function CancellationIn(j: Json): Result<Cancellation> {
    var c :- At(j, "cancellation_reuse");
    ReadCancellation(c)
  }

  function InterleavingIn(j: Json): Result<Interleaving> {
    var i :- At(j, "interleaving_isolation");
    ReadInterleaving(i)
  }

  function SaveIn(j: Json): Result<SaveRestore> {
    var s :- At(j, "save_restore");
    ReadSaveRestore(s)
  }

  function PrefixIn(j: Json): (r: Result<PrefixLane>)
    ensures r.Ok? ==> Covered(r.value.value, r.value.registration)
  {
    var p :- At(j, "token_prefix_divergence");
    var g :- At(j, "registration");
    ReadPrefixLane(p, g)
  }

  /** The lanes a version has. */
  function Assemble(version: Version, c: Result<CachePairing>, d: Result<Cancellation>, i: Result<Interleaving>,
                    s: Result<SaveRestore>, p: Result<PrefixLane>): (r: Result<Lanes>)
    requires p.Ok? ==> Covered(p.value.value, p.value.registration)
    ensures r.Ok? ==> LanesReady(r.value)
  {
    var cache :- c;
    var cancellation :- d;
    var save :- s;
    if version.Version1? then Ok(V1(cache, cancellation, save))
    else
      var interleaving :- i;
      if version.Version2? then Ok(V2(cache, cancellation, interleaving, save))
      else
        var prefix :- p;
        Ok(V3(cache, cancellation, interleaving, save, prefix))
  }

  function ReadLanes(j: Json, version: Version): (r: Result<Lanes>)
    ensures r.Ok? ==> LanesReady(r.value)
  {
    Assemble(version, CacheIn(j), CancellationIn(j), InterleavingIn(j), SaveIn(j), PrefixIn(j))
  }
}
