/** From the schedule to the verified bundle. */
module EndToEnd {
  import opened Wrappers
  import opened Adapter
  import opened Bundle
  import opened Bytes
  import opened Building
  import opened Evidence
  import opened EvidenceBuilding
  import opened Json
  import opened Oracle
  import opened PrefixOracle
  import opened Reading
  import opened Registration
  import opened Runner
  import opened Scenarios
  import opened ScenarioVerdicts
  import opened SlotServer
  import opened Sorting
  import opened Verdicts
  import DualStream
  import SingleStream

  // -- What the adapter returns has the shape that validation demands -------------------------

  /** The hash is a digest, whatever is hashed. */
  ghost predicate DigestsPrinted(lib: Library) {
    forall raw: bytes :: IsDigest(lib.sha256(raw))
  }

  /** Whatever a server answers: a completion that passes the adapter's checks passes the validator's. */
  lemma ReturnedCompletionConforms(response: Json, lib: Library)
    requires DigestsPrinted(lib) && CompletionOf(response, lib).Ok?
    ensures var r := CompletionOf(response, lib).value;
            r.responseCached >= 0 && Conforms(CompletionJson(r.completion, r.responseCached), COMPLETION)
  {
    var r := CompletionOf(response, lib).value;
    assert CompletionWritable(r.completion) && r.responseCached >= 0;
    hide Conforms, Rules, ConformsWell, CompletionJson, CompletionOf, CompletionWritable;
    ConformityFollowsTheRules();
    CompletionFits(ConformsWell(), r.completion, r.responseCached);
    WhatFitsConforms(CompletionJson(r.completion, r.responseCached), COMPLETION);
  }

  lemma {:induction false} ViewNonNegative(values: seq<Json>, slot: int)
    requires ViewFrom(values, slot).Ok?
    ensures ViewFrom(values, slot).value.promptWork >= 0
  {
    if IntAt(values[0], "id") != Ok(slot) {
      ViewNonNegative(values[1..], slot);
    }
  }

  function WithView(c: Counters, v: Slot): Observation {
    Observation(c.cacheTokens, c.predictedTokens, c.promptTokens, c.promptWork, v.idle, v.promptWork)
  }

  /** So do the counters of a prefill, with a slot's view. */
  lemma ReturnedPrefillConforms(response: Json, slots: Json, slot: int)
    requires PrefillOf(response).Ok? && ViewOf(slots, slot).Ok?
    ensures Conforms(PrefillJson(WithView(PrefillOf(response).value, ViewOf(slots, slot).value)), OBSERVATION)
  {
    var o := WithView(PrefillOf(response).value, ViewOf(slots, slot).value);
    ViewNonNegative(slots.items, slot);
    assert PrefillWritable(o);
    hide Conforms, Rules, ConformsWell, PrefillJson, PrefillOf, ViewOf, WithView, PrefillWritable;
    ConformityFollowsTheRules();
    PrefillFits(ConformsWell(), o);
    WhatFitsConforms(PrefillJson(o), OBSERVATION);
  }

  /** A save or a restore of no tokens is the one count that the adapter returns and the validator refuses. */
  lemma SavedCountConforms(response: Json, slot: int)
    requires SavedCount(response, slot).Ok?
    ensures Conforms(Int(SavedCount(response, slot).value), Positive) <==> SavedCount(response, slot) != Ok(0)
  {
  }

  // -- What a run observes can be written down -----------------------------------------------

  /** Hashes are digests, and a slot with tokens is saved to a nonempty file. */
  ghost predicate ModelWritable(m: Model) {
    && DigestsPrinted(m.lib)
    && (forall saved: Tokens :: saved != [] ==> StateFileWritable(m.file(saved)))
  }

  lemma CompletedWritable(o: Observed, m: Model, spec: CompletionSpec, cached: int)
    requires ModelWritable(m) && Completes(o, m, spec, cached) && cached <= |spec.prompt|
    ensures ObservedWritable(o)
  {
  }

  lemma PairCompletedWritable(p: Pair, m: Model, zero: CompletionSpec, one: CompletionSpec)
    requires ModelWritable(m) && PairCompletes(p, m, zero, one)
    ensures PairWritable(p)
  {
    CompletedWritable(p.slot0, m, zero, 0);
    CompletedWritable(p.slot1, m, one, 0);
  }

  lemma CompletionLanesWritable(lanes: Lanes, m: Model, s: Schedule)
    requires ModelWritable(m) && AsRegistered(s) && IsRunOf(lanes, m, s)
    ensures InRegisteredOrder(lanes.cache) && CacheWritable(lanes.cache)
    ensures ObservedWritable(lanes.cancellation.baseline) && ObservedWritable(lanes.cancellation.reused)
    ensures InterleavingWritable(lanes.interleaving)
  {
    hide ModelWritable, Completes, ObservedWritable, IsObserved, SaveObserved, DirectionReported, OnePrompt;
    CompletedWritable(lanes.cache.coldOn, m, s.pairing[0], 0);
    CompletedWritable(lanes.cache.repeatOn, m, s.pairing[1], |s.pairing[0].prompt| - 1);
    CompletedWritable(lanes.cache.coldOff, m, s.pairing[2], 0);
    CompletedWritable(lanes.cache.repeatOff, m, s.pairing[3], 0);
    CompletedWritable(lanes.cancellation.baseline, m, s.cancelBaseline, 0);
    CompletedWritable(lanes.cancellation.reused, m, s.cancelReuse, 0);
    PairCompletedWritable(lanes.interleaving.baselines, m, s.zero, s.one);
    PairCompletedWritable(lanes.interleaving.slot0First.reuses, m, s.zero, s.one);
    PairCompletedWritable(lanes.interleaving.slot1First.reuses, m, s.zero, s.one);
  }

  lemma SaveLaneWritable(v: SaveRestore, m: Model, source: CompletionSpec, same: CompletionSpec, after: CompletionSpec)
    requires ModelWritable(m) && SaveAsRegistered(source, same, after) && SaveObserved(v, m, source, same, after)
    ensures SaveWritable(v)
  {
    var file: Tokens :| SavedThrough(v, m, source, same, after, file);
    assert |file| > 0;
    CompletedWritable(v.source, m, source, 0);
    CompletedWritable(v.same.restored, m, same, |same.prompt| - 1);
    CompletedWritable(v.restarted.restored, m, after, |after.prompt| - 1);
  }

  lemma ReuseBounded(cached: Tokens, prompt: Tokens)
    requires prompt != []
    ensures 0 <= Reuse(cached, prompt) < |prompt|
  {
  }

  lemma PrefixLaneWritable(value: Cases, cases: seq<PrefixCase>)
    requires IsObserved(value, cases)
    ensures PrefixWritable(value)
  {
    forall i | 0 <= i < |value|
      ensures CaseWritable(value[i].1)
    {
      var generated :| value[i].1 == ObservedCase(cases[i], generated);
      ReuseBounded(cases[i].source.prompt + generated, cases[i].cacheOn.prompt);
    }
  }

  // -- The registration it is written down with ----------------------------------------------

  lemma {:induction false} RegistrationKeys(cases: seq<PrefixCase>)
    ensures forall name :: name in RegistrationOf(cases) <==> name in PrefixNamesOf(cases)
  {
    if cases != [] {
      var n := |cases| - 1;
      RegistrationKeys(cases[..n]);
      assert PrefixNamesOf(cases) == PrefixNamesOf(cases[..n]) + [cases[n].name];
    }
  }

  lemma RegisteredUnder(registration: Json, cases: seq<PrefixCase>, name: string)
    requires CaseNamesDiffer(cases) && PinsRegister(registration, cases) && name in RegistrationOf(cases)
    ensures RegisteredAt(Get(registration, "token_prefix_divergence"), name) == Ok(RegistrationOf(cases)[name])
  {
    RegistrationKeys(cases);
    var i :| 0 <= i < |cases| && PrefixNamesOf(cases)[i] == name;
    RegistrationAt(cases, i);
  }

  lemma NamesObserved(value: Cases, cases: seq<PrefixCase>)
    requires CaseNamesDiffer(cases) && IsObserved(value, cases)
    ensures LaneNames(value) == PrefixNamesOf(cases) && NamesDistinct(value)
  {
    hide CaseObserved;
  }

  lemma LaneRegistered(lane: PrefixLane, registration: Json, cases: seq<PrefixCase>)
    requires CaseNamesDiffer(cases) && PinsRegister(registration, cases)
    requires IsObserved(lane.value, cases) && lane.registration == RegistrationOf(cases)
    ensures NamesRegistered(lane.value) && RegistersLane(registration, lane)
  {
    hide RegistrationOf, RegisteredAt, IsObserved, CaseNamesDiffer, Register, PrefixName, NamesDistinct, LaneNames;
    NamesObserved(lane.value, cases);
    RegistrationKeys(cases);
    forall name | name in lane.registration
      ensures RegisteredAt(Get(registration, "token_prefix_divergence"), name) == Ok(lane.registration[name])
    {
      RegisteredUnder(registration, cases, name);
    }
  }

  // -- The theorems --------------------------------------------------------------------------

  /** A registered schedule against a well-behaved model, and pins that register it. */
  ghost predicate Conditions(m: Model, s: Schedule, p: VersionPins) {
    && AsRegistered(s) && ModelWritable(m) && PrefixesRegistered(s.prefix)
    && PinsWellFormed(p) && PlatformsNamed(p) && PinsRegister(p.registration, s.prefix)
  }

  /** What the runner makes of the lanes of a run: their verdicts in some order, the platform and the revision. */
  ghost predicate DraftOf(d: Draft, m: Model, s: Schedule, p: VersionPins) {
    && IsRunOf(d.lanes, m, s) && LanesReady(d.lanes) && AllInvariants(d.lanes) == Ok(d.verdicts)
    && IsListing(d.order, d.verdicts) && d.runtime in p.runtimes && IsRevision(d.revision)
  }

  lemma WritableFilesNonempty(m: Model)
    requires ModelWritable(m)
    ensures NonemptyFiles(m)
  {
    forall saved: Tokens | saved != []
      ensures m.file(saved).bytes > 0
    {
      assert StateFileWritable(m.file(saved));
    }
  }

  /** What the streams leave open was observed as intended, and the two cached prompts have two tokens or more. */
  predicate AsIntended(lanes: Lanes, s: Schedule) {
    lanes.V3? && Gated(lanes) && s.pairing != [] && |s.pairing[0].prompt| >= 2 && |s.saveSource.prompt| >= 2
  }

  lemma RunPasses(d: Draft, m: Model, s: Schedule, p: VersionPins)
    requires Conditions(m, s, p) && DraftOf(d, m, s, p)
    ensures AllTrue(d.verdicts) == AsIntended(d.lanes, s)
  {
    hide AsRegistered, ModelWritable, PrefixesRegistered, PinsWellFormed, PlatformsNamed, PinsRegister, IsListing;
    hide AllInvariants, AllTrue, NonemptyFiles, Gated, Covered, IsRevision;
    WritableFilesNonempty(m);
    RunSatisfiesOracle(d.lanes, m, s);
    assert |s.pairing| == 4;
  }

  lemma RunIsWritable(lanes: Lanes, m: Model, s: Schedule)
    requires ModelWritable(m) && AsRegistered(s) && IsRunOf(lanes, m, s)
    ensures LanesWritable(lanes)
  {
    hide ModelWritable, CacheObserved, CancellationObserved, InterleavingObserved, SaveObserved, IsObserved;
    hide CacheWritable, ObservedWritable, InterleavingWritable, SaveWritable;
    hide PrefixWritable, InRegisteredOrder, SaveAsRegistered;
    CompletionLanesWritable(lanes, m, s);
    SaveLaneWritable(lanes.save, m, s.saveSource, s.saveSame, s.saveAfter);
    PrefixLaneWritable(lanes.prefix.value, s.prefix);
  }

  lemma RunParts(lanes: Lanes, m: Model, s: Schedule)
    requires IsRunOf(lanes, m, s)
    ensures lanes.V3? && IsObserved(lanes.prefix.value, s.prefix)
    ensures lanes.prefix.registration == RegistrationOf(s.prefix)
  {
  }

  lemma RunIsSubmittable(d: Draft, m: Model, s: Schedule, p: VersionPins)
    requires Conditions(m, s, p) && DraftOf(d, m, s, p)
    ensures Submittable(d, p)
  {
    RunParts(d.lanes, m, s);
    hide ModelWritable, PrefixesRegistered, PinsWellFormed, PlatformsNamed;
    hide PinsRegister, IsListing, IsRunOf, LanesWritable;
    hide NamesRegistered, RegistersLane, AllInvariants, IsRevision, IsObserved, PairingAsRegistered, SaveAsRegistered;
    RunIsWritable(d.lanes, m, s);
    LaneRegistered(d.lanes.prefix, p.registration, s.prefix);
  }

  /** The evidence of a run, whatever is written down that no oracle reads, is accepted exactly when what the streams
      leave open was observed as intended and the two cached prompts have two tokens or more; nothing else that the
      server answers within its model can make validation fail. */
  lemma RunIsAccepted(d: Draft, m: Model, s: Schedule, pins: Pins)
    requires Conditions(m, s, pins.v3) && DraftOf(d, m, s, pins.v3)
    ensures Judged(d, pins, AsIntended(d.lanes, s))
  {
    hide AsRegistered, ModelWritable, PrefixesRegistered, PinsWellFormed, PlatformsNamed, PinsRegister;
    hide DraftOf, Submittable, Judged, AsIntended, AllTrue;
    RunPasses(d, m, s, pins.v3);
    RunIsSubmittable(d, m, s, pins.v3);
    BuiltEvidenceValidates(d, pins);
  }

  lemma RegisteredNames(name: string)
    ensures PrefixName(name) <==> name in PrefixNamesOf(RegisteredCases())
  {
    var names := PrefixNamesOf(RegisteredCases());
    assert names == ["exact", "shared_prefix", "first_token_divergence"];
    assert names[0] in names && names[1] in names && names[2] in names;
  }

  /** The three registered cases and a registration that is built from them meet the conditions on both. */
  lemma RegisteredCasesRegister(earlier: Json, sha: Tokens -> string)
    requires earlier.Obj? && WellFormed(earlier)
    ensures PrefixesRegistered(RegisteredCases())
    ensures WellFormed(RegisteredScenarios(earlier, RegisteredCases(), sha))
    ensures PinsRegister(RegisteredScenarios(earlier, RegisteredCases(), sha), RegisteredCases())
  {
    RegisteredCasesAreSound();
    forall name
      ensures PrefixName(name) <==> name in PrefixNamesOf(RegisteredCases())
    {
      RegisteredNames(name);
    }
    RegistrationListsItsCases(earlier, RegisteredCases(), sha);
    RegisteredScenariosWellFormed(earlier, RegisteredCases(), sha);
  }

  /** Pins with the registration that is built from the three registered cases. */
  ghost predicate PinsRegistered(p: VersionPins, earlier: Json, sha: Tokens -> string) {
    && earlier.Obj? && WellFormed(earlier) && p.registration == RegisteredScenarios(earlier, RegisteredCases(), sha)
    && WellFormed(p.producer) && WellFormed(p.fixture) && WellFormed(p.transport)
    && RuntimesWellFormed(p) && PlatformsNamed(p)
  }

  /** The same with nothing left to assume of the prefix cases: the three registered ones, and the registration built
      from them. */
  lemma RegisteredRunIsAccepted(d: Draft, m: Model, s: Schedule, pins: Pins, earlier: Json, sha: Tokens -> string)
    requires AsRegistered(s) && s.prefix == RegisteredCases() && ModelWritable(m)
    requires PinsRegistered(pins.v3, earlier, sha) && DraftOf(d, m, s, pins.v3)
    ensures Judged(d, pins, AsIntended(d.lanes, s))
  {
    hide WellFormed, AsRegistered, ModelWritable, PlatformsNamed, DraftOf, RegisteredScenarios, RegisteredCases;
    hide PrefixesRegistered, PinsRegister, Judged, AsIntended, RuntimesWellFormed;
    RegisteredCasesRegister(earlier, sha);
    RunIsAccepted(d, m, s, pins);
  }

  lemma SoundJudges(check: Validator, j: Json)
    requires Sound(check) && WellFormed(j)
    ensures Judges(check, j)
  {
  }

  /** The bundle that is staged for such evidence verifies within the size limits, and reports 77 verdicts. */
  lemma AcceptedRunVerifies(j: Json, verdicts: map<string, bool>, pins: Pins, codec: Codec)
    requires Strict(codec) && Carries(codec, j) && AllPlatformsNamed(pins) && AllPinsFinite(pins) && WellFormed(j)
    requires ValidateEvidence(j, pins) == Accepted(Version3, verdicts)
    ensures Report(j).Ok? && Report(j).value.invariantCount == 77
    ensures VerifyBundle(Staged(j, codec), ValidatorFor(pins), codec)
         == if WithinLimits(j, codec) then Report(j) else Raised
  {
    hide Strict, Carries, AllPlatformsNamed, AllPinsFinite, WellFormed, ValidateEvidence, Sound;
    hide VerifyBundle, Staged, WithinLimits, Report;
    ValidatorIsSound(pins);
    assert Judges(ValidatorFor(pins), j) by { SoundJudges(ValidatorFor(pins), j); }
    StagedVerifies(j, ValidatorFor(pins), codec);
  }

  // -- The conditions can be met -------------------------------------------------------------

  function Zeros(): string {
    seq(64, i => '0')
  }

  /** A server that always generates the one token 0, and a hash that is always zero. */
  function PlainModel(): Model {
    Model((prompt, n) => Answer("", [0]), file => StateFile(1, Zeros()),
          Library(text => Some([]), tokens => [], raw => Zeros()))
  }

  function PlainSpec(slot: nat, cachePrompt: bool): CompletionSpec {
    CompletionSpec("", slot, [1, 2], cachePrompt, 8)
  }

  function PlainSchedule(): Schedule {
    Schedule([PlainSpec(0, true), PlainSpec(0, true), PlainSpec(1, false), PlainSpec(1, false)],
             PlainSpec(1, false), PlainSpec(0, false), PlainSpec(0, false), PlainSpec(1, false), RegisteredCases(),
             PlainSpec(0, true), PlainSpec(1, true), PlainSpec(0, true))
  }

  function PlainVersionPins(): VersionPins {
    VersionPins(RegisteredScenarios(Obj(map[], []), RegisteredCases(), prompt => Zeros()), Null, Null,
                [Obj(map["asset_platform" := Str("")], ["asset_platform"])], Null)
  }

  function PlainDirection(): Direction {
    var o := Completed(PlainModel(), PlainSpec(0, false), 0);
    Direction(true, true, true, true, true, true, true, Pair(o, o))
  }

  function PlainLanes(): Lanes {
    var m := PlainModel();
    var cold, warm := Completed(m, PlainSpec(0, false), 0), Completed(m, PlainSpec(0, false), 1);
    var restored, file := Restored(warm, 2), StateFile(1, Zeros());
    V3(CachePairing(cold, warm, cold, cold, [cold, warm, cold, cold]),
       Cancellation(cold, cold, Disconnect(true, true, true, true)),
       Interleaving(Pair(cold, cold), PlainDirection(), PlainDirection()),
       SaveRestore(cold, restored, restored, 2, file, file, true),
       PrefixLane(MisleadingObservation(RegisteredCases()), RegistrationOf(RegisteredCases())))
  }

  lemma PlainDirectionObserved(first: nat)
    requires first < 2
    ensures DirectionObserved(PlainDirection(), PlainModel(), first, PlainSpec(0, false), PlainSpec(1, false))
  {
    var r := DualStream.SomeReport(first, false, false);
    assert PlainDirection() == DirectionOf(r, PlainDirection().reuses);
  }

  lemma PlainPrefix()
    ensures IsObserved(MisleadingObservation(RegisteredCases()), RegisteredCases())
  {
    MisleadingIsObserved(RegisteredCases());
  }

  lemma PlainInterleaving()
    ensures InterleavingObserved(PlainLanes().interleaving, PlainModel(), PlainSpec(0, false), PlainSpec(1, false))
  {
    PlainDirectionObserved(0);
    PlainDirectionObserved(1);
    hide DirectionObserved, MisleadingObservation, RegistrationOf, RegisteredCases;
  }

  lemma PlainSave()
    ensures SaveObserved(PlainLanes().save, PlainModel(), PlainSpec(0, true), PlainSpec(1, true), PlainSpec(0, true))
  {
    hide MisleadingObservation, RegistrationOf, RegisteredCases, PlainDirection;
    var source, same := PlainSpec(0, true), PlainSpec(1, true);
    assert SavedThrough(PlainLanes().save, PlainModel(), source, same, source, [1, 2]);
  }

  lemma PlainCancellation()
    ensures CancellationObserved(PlainLanes().cancellation, PlainModel(), PlainSpec(1, false), PlainSpec(0, false))
  {
    hide MisleadingObservation, RegistrationOf, RegisteredCases, PlainDirection, SingleStream.Reported;
    SingleStream.SomeReport(false);
  }

  lemma PlainLanesAreARun()
    ensures IsRunOf(PlainLanes(), PlainModel(), PlainSchedule())
  {
    hide InterleavingObserved, SaveObserved, IsObserved, MisleadingObservation, CancellationObserved;
    hide RegistrationOf, RegisteredCases, PlainDirection;
    PlainCancellation();
    PlainInterleaving();
    PlainSave();
    PlainPrefix();
  }

  lemma PlainScheduleRegistered()
    ensures AsRegistered(PlainSchedule())
  {
    hide RegisteredCases;
    RegisteredCasesAreSound();
    assert forall c :: c in PlainSchedule().pairing ==> c.slot < SLOT_COUNT;
  }

  lemma PlainPins()
    ensures PinsWellFormed(PlainVersionPins()) && PlatformsNamed(PlainVersionPins())
    ensures PinsRegister(PlainVersionPins().registration, RegisteredCases()) && PrefixesRegistered(RegisteredCases())
  {
    hide RegisteredScenarios, RegisteredCases, PinsRegister, PrefixesRegistered;
    assert WellFormed(Obj(map[], []));
    RegisteredCasesRegister(Obj(map[], []), prompt => Zeros());
    var runtime := PlainVersionPins().runtimes[0];
    assert StrAt(runtime, "asset_platform") == Ok("") && WellFormed(runtime);
  }

  lemma PlainConditions()
    ensures Conditions(PlainModel(), PlainSchedule(), PlainVersionPins())
  {
    PlainScheduleRegistered();
    PlainPins();
    hide AsRegistered, PinsWellFormed, PlatformsNamed, PinsRegister;
    hide PrefixesRegistered, PlainVersionPins, RegisteredCases;
  }

  lemma ListOf(names: set<string>) returns (order: seq<string>)
    ensures NoDuplicates(order) && forall name :: name in order <==> name in names
  {
    order := [];
    if names != {} {
      var name := AnyOf(names);
      var rest := ListOf(names - {name});
      order := rest + [name];
    }
  }

  /** Every finite dictionary can be listed. */
  lemma ListingExists(verdicts: map<string, bool>) returns (order: seq<string>)
    ensures IsListing(order, verdicts)
  {
    order := ListOf(verdicts.Keys);
  }

  /** A draft of these lanes. */
  lemma DraftExists(lanes: Lanes, m: Model, s: Schedule, p: VersionPins) returns (d: Draft)
    requires IsRunOf(lanes, m, s) && LanesReady(lanes) && AllInvariants(lanes).Ok? && p.runtimes != []
    ensures DraftOf(d, m, s, p) && d.lanes == lanes
  {
    hide IsRunOf, AllInvariants;
    var verdicts := AllInvariants(lanes).value;
    var order := ListingExists(verdicts);
    var none := PairUnread(0, 0);
    var sampled := DirectionUnread(false, false, none);
    var unread := Unread(CacheUnread(0, 0, 0, 0), CancellationUnread(0, 0), InterleavingUnread(none, sampled, sampled),
                         SaveUnread(0, 0, 0));
    d := Draft(lanes, unread, verdicts, order, p.runtimes[0], "UNCOMMITTED");
  }

  lemma RunHasVerdicts(lanes: Lanes, m: Model, s: Schedule, p: VersionPins)
    requires Conditions(m, s, p) && IsRunOf(lanes, m, s)
    ensures LanesReady(lanes) && AllInvariants(lanes).Ok?
  {
    hide AsRegistered, ModelWritable, PrefixesRegistered, PinsWellFormed, PlatformsNamed, PinsRegister, NonemptyFiles;
    hide AllInvariants, AllTrue, Gated, Covered;
    WritableFilesNonempty(m);
    RunSatisfiesOracle(lanes, m, s);
  }

  lemma PlainIntended()
    ensures AsIntended(PlainLanes(), PlainSchedule()) && PlainVersionPins().runtimes != []
  {
  }

  // -- The library's hypotheses can be met ---------------------------------------------------

  /** The manifest of a file `e` and the projection, with digests that are all zero. */
  function SmallManifest(j: Json): Json {
    Manifest("e", JunitOf(j), Codec(x => "", s => None, s => Zeros()))
  }

  /** A library that prints one value in one letter and anything else in another. */
  function TwoTexts(j: Json, a: Json, b: Json): Codec {
    Codec(x => if x == j then "e" else "m",
          s => if s == "e" then Some(a) else if s == "m" then Some(b) else None,
          s => Zeros())
  }

  lemma TwoTextsStrict(j: Json, a: Json, b: Json)
    requires WellFormed(a) && WellFormed(b)
    ensures Strict(TwoTexts(j, a, b))
  {
    hide WellFormed;
    assert LowerHex(Zeros(), 64);
  }

  lemma TwoTextsCarry(j: Json, m: Json)
    ensures RoundTrips(TwoTexts(j, Canonical(j), Canonical(m)), j)
    ensures RoundTrips(TwoTexts(j, Canonical(j), Canonical(m)), m)
  {
    hide Canonical;
  }

  function SmallLibrary(j: Json): Codec {
    TwoTexts(j, Canonical(j), Canonical(SmallManifest(j)))
  }

  lemma SmallManifestWritten(j: Json)
    ensures EvidenceText(j, SmallLibrary(j)) == "e"
    ensures Manifest("e", JunitOf(j), SmallLibrary(j)) == SmallManifest(j)
    ensures |ManifestText(j, SmallLibrary(j))| == 1
  {
    hide Canonical, JunitOf;
  }

  /** For every evidence value there is a library as it is assumed to be, and its bundle is within the limits. */
  lemma SmallLibraryServes(j: Json)
    requires WellFormed(j)
    ensures Strict(SmallLibrary(j)) && Carries(SmallLibrary(j), j) && WithinLimits(j, SmallLibrary(j))
  {
    var m := SmallManifest(j);
    SmallManifestWritten(j);
    ManifestOf("e", JunitOf(j), Codec(x => "", s => None, s => Zeros()));
    CanonicalWellFormed(j);
    CanonicalWellFormed(m);
    TwoTextsStrict(j, Canonical(j), Canonical(m));
    TwoTextsCarry(j, m);
    hide Manifest, JunitOf, Canonical, SmallManifest, WellFormed, TwoTexts, Strict, RoundTrips, ManifestText;
    hide EvidenceText;
  }

  /** The staged bundle verifies, with a library as it is assumed to be, and reports 77 verdicts. */
  ghost predicate BundleVerifies(j: Json, pins: Pins, codec: Codec) {
    && Strict(codec) && Carries(codec, j)
    && var r := VerifyBundle(Staged(j, codec), ValidatorFor(pins), codec);
       r.Ok? && r.value.invariantCount == 77
  }

  lemma AcceptedBundleExists(j: Json, verdicts: map<string, bool>, pins: Pins)
    requires AllPlatformsNamed(pins) && AllPinsFinite(pins) && WellFormed(j)
    requires ValidateEvidence(j, pins) == Accepted(Version3, verdicts)
    ensures BundleVerifies(j, pins, SmallLibrary(j))
  {
    hide AllPlatformsNamed, AllPinsFinite, WellFormed, ValidateEvidence;
    hide Strict, Carries, SmallLibrary, VerifyBundle, Staged, WithinLimits, Report;
    SmallLibraryServes(j);
    AcceptedRunVerifies(j, verdicts, pins, SmallLibrary(j));
  }

  lemma PlainPinsFinite()
    ensures PinsFinite(PlainVersionPins())
  {
    RegisteredCasesAreSound();
    RegisteredScenariosFinite(Obj(map[], []), RegisteredCases(), prompt => Zeros());
    hide RegisteredScenarios, RegisteredCases;
    var runtime := PlainVersionPins().runtimes[0];
    assert Finite(runtime);
  }

  ghost predicate EvidenceVerifies(d: Draft, pins: Pins, codec: Codec) {
    d.lanes.V3? && BundleVerifies(EvidenceOf(d, pins.v3), pins, codec)
  }

  lemma AcceptedDraftVerifies(d: Draft, pins: Pins) returns (codec: Codec)
    requires AllPlatformsNamed(pins) && AllPinsFinite(pins) && Judged(d, pins, true)
    ensures EvidenceVerifies(d, pins, codec)
  {
    hide AllPlatformsNamed, AllPinsFinite, WellFormed, ValidateEvidence, BundleVerifies, SmallLibrary, EvidenceOf;
    var j := EvidenceOf(d, pins.v3);
    codec := SmallLibrary(j);
    AcceptedBundleExists(j, d.verdicts, pins);
  }

  /** And all together: for some model, schedule, pins and library the evidence of a run is accepted, and the bundle
      that is staged for it verifies with 77 verdicts. */
  lemma VerifiedRunExists()
    ensures exists d: Draft, m: Model, s: Schedule, pins: Pins, codec: Codec ::
              && Conditions(m, s, pins.v3) && DraftOf(d, m, s, pins.v3)
              && Judged(d, pins, true) && EvidenceVerifies(d, pins, codec)
  {
    PlainConditions();
    PlainLanesAreARun();
    PlainIntended();
    PlainPins();
    PlainPinsFinite();
    hide PlainModel, PlainSchedule, PlainVersionPins, PlainLanes, Conditions, IsRunOf, AsIntended, DraftOf;
    hide LanesReady, AllInvariants, PinsFinite, PlatformsNamed, EvidenceVerifies, Judged;
    var m, s, p, lanes := PlainModel(), PlainSchedule(), PlainVersionPins(), PlainLanes();
    RunHasVerdicts(lanes, m, s, p);
    var d := DraftExists(lanes, m, s, p);
    var pins := Pins(p, p, p);
    RunIsAccepted(d, m, s, pins);
    var codec := AcceptedDraftVerifies(d, pins);
  }

  /** In particular for some model, schedule and pins a run is accepted. */
  lemma AcceptedRunExists()
    ensures exists d: Draft, m: Model, s: Schedule, pins: Pins ::
              Conditions(m, s, pins.v3) && DraftOf(d, m, s, pins.v3) && Judged(d, pins, true)
  {
    hide Conditions, DraftOf, Judged, EvidenceVerifies;
    VerifiedRunExists();
  }
}
