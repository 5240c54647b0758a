/** What an evidence object must look like, and the validation that recomputes its verdicts. */
module Evidence {
  import opened Wrappers
  import opened Json
  import opened KeyOrder
  import opened Verdicts
  import opened Oracle
  import opened PrefixOracle
  import opened Reading
  import opened Sorting

  // -- Shapes --------------------------------------------------------------------------------

  const COMPLETION_FIELDS := [
    Field("content_bytes", NonNegative), Field("content_sha256", Digest), Field("predicted_tokens", Positive),
    Field("prompt_work", NonNegative), Field("response_cached_tokens", NonNegative), Field("token_count", Positive),
    Field("tokens_sha256", Digest)]

  const COMPLETION := SameCount(Exact(COMPLETION_FIELDS), "token_count", "predicted_tokens")

  const SLOT := Exact([Field("idle", Boolean), Field("prompt_work", NonNegative)])

  const OBSERVED := Exact([Field("completion", COMPLETION), Field("idle_slot", SLOT)])

  const CACHE_PAIRING := Exact([
    Field("cold_cache_off", OBSERVED), Field("cold_cache_on", OBSERVED),
    Field("repeat_cache_off", OBSERVED), Field("repeat_cache_on", OBSERVED)])

  const DISCONNECT := Exact([
    Field("active_processing_observed", Boolean), Field("first_event_nonterminal", Boolean),
    Field("first_event_observed", Boolean), Field("idle_after_disconnect", Boolean)])

  const CANCELLATION := Exact([
    Field("clean_baseline", OBSERVED), Field("disconnect", DISCONNECT), Field("reused_slot", OBSERVED)])

  const PAIR := Exact([Field("slot_0", OBSERVED), Field("slot_1", OBSERVED)])

  const DIRECTION := Exact([
    Field("both_idle_after_second_disconnect", Boolean), Field("both_first_events_before_disconnect", Boolean),
    Field("both_processing_observed", Boolean), Field("cancelled_slot_idle_after_first_disconnect", Boolean),
    Field("reuses", PAIR), Field("slot_0_first_event_nonterminal", Boolean),
    Field("slot_0_first_event_observed", Boolean), Field("slot_1_first_event_nonterminal", Boolean),
    Field("slot_1_first_event_observed", Boolean), Field("survivor_active_after_first_disconnect", Boolean)])

  const INTERLEAVING := Exact([
    Field("baselines", PAIR), Field("slot_0_cancelled_first", DIRECTION), Field("slot_1_cancelled_first", DIRECTION)])

  const PREFILL := Exact([
    Field("cache_tokens", NonNegative), Field("predicted_tokens", NonNegative),
    Field("prompt_tokens", NonNegative), Field("prompt_work", NonNegative)])

  const OBSERVATION := Exact([Field("idle_slot", SLOT), Field("prefill", PREFILL)])

  const PREFIX_CASE := Exact([
    Field("cache_off_target", OBSERVATION), Field("cache_on_target", OBSERVATION), Field("source", OBSERVATION)])

  const TOKEN_PREFIX := Exact([
    Field("exact", PREFIX_CASE), Field("first_token_divergence", PREFIX_CASE), Field("shared_prefix", PREFIX_CASE)])

  const RESTORED := Exact([Field("restored", OBSERVED), Field("restored_tokens", Positive)])

  const STATE_FILE := Exact([Field("bytes", Positive), Field("sha256", Digest)])

  const SAVE_RESTORE := Exact([
    Field("after_restart", RESTORED), Field("process_restart_confirmed", Boolean), Field("same_process", RESTORED),
    Field("saved_tokens", Positive), Field("slot_state_after_restart", STATE_FILE),
    Field("slot_state_before_restart", STATE_FILE), Field("source", OBSERVED)])

  // -- Whatever has its shape can be read ----------------------------------------------------

  lemma FieldIn(j: Json, fields: seq<Field>, n: nat)
    requires Conforms(j, Exact(fields)) && n < |fields|
    ensures Has(j, fields[n].name) && Conforms(Get(j, fields[n].name), fields[n].shape)
  {
  }

  lemma CompletionReads(j: Json)
    requires Conforms(j, COMPLETION)
    ensures ReadCompletion(j).Ok?
  {
    FieldIn(j, COMPLETION_FIELDS, 0);
    FieldIn(j, COMPLETION_FIELDS, 1);
    FieldIn(j, COMPLETION_FIELDS, 2);
    FieldIn(j, COMPLETION_FIELDS, 3);
    FieldIn(j, COMPLETION_FIELDS, 5);
    FieldIn(j, COMPLETION_FIELDS, 6);
  }

  lemma SlotReads(j: Json)
    requires Conforms(j, SLOT)
    ensures ReadSlot(j).Ok?
  {
    FieldIn(j, SLOT.fields, 0);
    FieldIn(j, SLOT.fields, 1);
  }

  lemma ObservedReads(j: Json)
    requires Conforms(j, OBSERVED)
    ensures ReadObserved(j).Ok?
  {
    FieldIn(j, OBSERVED.fields, 0);
    FieldIn(j, OBSERVED.fields, 1);
    CompletionReads(Get(j, "completion"));
    SlotReads(Get(j, "idle_slot"));
  }

  lemma ObservedIn(j: Json, fields: seq<Field>, n: nat)
    requires Conforms(j, Exact(fields)) && n < |fields| && fields[n].shape == OBSERVED
    ensures ObservedAt(j, fields[n].name).Ok?
  {
    FieldIn(j, fields, n);
    ObservedReads(Get(j, fields[n].name));
  }

  lemma CacheCasesRead(j: Json)
    requires Conforms(j, CACHE_PAIRING)
    ensures ObservedAt(j, "cold_cache_on").Ok? && ObservedAt(j, "repeat_cache_on").Ok?
    ensures ObservedAt(j, "cold_cache_off").Ok? && ObservedAt(j, "repeat_cache_off").Ok?
  {
    ObservedIn(j, CACHE_PAIRING.fields, 0);
    ObservedIn(j, CACHE_PAIRING.fields, 1);
    ObservedIn(j, CACHE_PAIRING.fields, 2);
    ObservedIn(j, CACHE_PAIRING.fields, 3);
  }

  lemma CacheFields(n: nat)
    requires n < |CACHE_PAIRING.fields|
    ensures CACHE_PAIRING.fields[n].shape == OBSERVED
  {
  }

  lemma FieldOf(j: Json, fields: seq<Field>, key: string) returns (n: nat)
    requires Conforms(j, Exact(fields)) && key in j.fields
    ensures n < |fields| && fields[n].name == key
  {
    assert key in FieldNames(fields);
    n :| 0 <= n < |fields| && fields[n].name == key;
  }

  lemma CacheValueReads(j: Json, key: string)
    requires Conforms(j, CACHE_PAIRING) && key in j.fields
    ensures ObservedAt(j, key).Ok?
  {
    var n := FieldOf(j, CACHE_PAIRING.fields, key);
    CacheFields(n);
    ObservedIn(j, CACHE_PAIRING.fields, n);
  }

  lemma CachedValuesRead(j: Json)
    requires WellFormed(j) && Conforms(j, CACHE_PAIRING)
    ensures ReadValues(j, j.order).Ok?
  {
    forall n | 0 <= n < |j.order|
      ensures ObservedAt(j, j.order[n]).Ok?
    {
      assert j.order[n] in j.order;
      CacheValueReads(j, j.order[n]);
    }
    ValuesRead(j, j.order);
  }

  lemma CachePairingReads(j: Json)
    requires WellFormed(j) && Conforms(j, CACHE_PAIRING)
    ensures ReadCachePairing(j).Ok?
  {
    CacheCasesRead(j);
    CachedValuesRead(j);
  }

  lemma CacheNamesToldApart(j: Json)
    requires Conforms(j, CACHE_PAIRING)
    ensures AllToldApart(j)
  {
    forall key | key in j.fields
      ensures ToldApart(key)
    {
      assert key in FieldNames(CACHE_PAIRING.fields);
    }
  }

  lemma DisconnectReads(j: Json)
    requires Conforms(j, DISCONNECT)
    ensures ReadDisconnect(j).Ok?
  {
    FieldIn(j, DISCONNECT.fields, 0);
    FieldIn(j, DISCONNECT.fields, 1);
    FieldIn(j, DISCONNECT.fields, 2);
    FieldIn(j, DISCONNECT.fields, 3);
  }

  lemma CancellationReads(j: Json)
    requires Conforms(j, CANCELLATION)
    ensures ReadCancellation(j).Ok?
  {
    ObservedIn(j, CANCELLATION.fields, 0);
    ObservedIn(j, CANCELLATION.fields, 2);
    FieldIn(j, CANCELLATION.fields, 1);
    DisconnectReads(Get(j, "disconnect"));
  }

  lemma PairReads(j: Json)
    requires Conforms(j, PAIR)
    ensures ReadPair(j).Ok?
  {
    ObservedIn(j, PAIR.fields, 0);
    ObservedIn(j, PAIR.fields, 1);
  }

  lemma PairIn(j: Json, fields: seq<Field>, n: nat)
    requires Conforms(j, Exact(fields)) && n < |fields| && fields[n].shape == PAIR
    ensures PairAt(j, fields[n].name).Ok?
  {
    FieldIn(j, fields, n);
    PairReads(Get(j, fields[n].name));
  }

  lemma DirectionReads(j: Json)
    requires Conforms(j, DIRECTION)
    ensures ReadDirection(j).Ok?
  {
    FieldIn(j, DIRECTION.fields, 0);
    FieldIn(j, DIRECTION.fields, 1);
    FieldIn(j, DIRECTION.fields, 3);
    FieldIn(j, DIRECTION.fields, 4);
    FieldIn(j, DIRECTION.fields, 5);
    FieldIn(j, DIRECTION.fields, 6);
    FieldIn(j, DIRECTION.fields, 7);
    FieldIn(j, DIRECTION.fields, 8);
    PairReads(Get(j, "reuses"));
  }

  lemma DirectionIn(j: Json, fields: seq<Field>, n: nat)
    requires Conforms(j, Exact(fields)) && n < |fields| && fields[n].shape == DIRECTION
    ensures DirectionAt(j, fields[n].name).Ok?
  {
    FieldIn(j, fields, n);
    DirectionReads(Get(j, fields[n].name));
  }

  lemma InterleavingReads(j: Json)
    requires Conforms(j, INTERLEAVING)
    ensures ReadInterleaving(j).Ok?
  {
    PairIn(j, INTERLEAVING.fields, 0);
    DirectionIn(j, INTERLEAVING.fields, 1);
    DirectionIn(j, INTERLEAVING.fields, 2);
  }

  lemma RestoredReads(j: Json)
    requires Conforms(j, RESTORED)
    ensures ReadRestored(j).Ok?
  {
    ObservedIn(j, RESTORED.fields, 0);
    FieldIn(j, RESTORED.fields, 1);
  }

  lemma StateFileReads(j: Json)
    requires Conforms(j, STATE_FILE)
    ensures ReadStateFile(j).Ok?
  {
    FieldIn(j, STATE_FILE.fields, 0);
    FieldIn(j, STATE_FILE.fields, 1);
  }

  lemma SavedCountsRead(j: Json)
    requires Conforms(j, SAVE_RESTORE)
    ensures BoolAt(j, "process_restart_confirmed").Ok? && IntAt(j, "saved_tokens").Ok? && ObservedAt(j, "source").Ok?
  {
    FieldIn(j, SAVE_RESTORE.fields, 1);
    FieldIn(j, SAVE_RESTORE.fields, 3);
    FieldIn(j, SAVE_RESTORE.fields, 6);
    ObservedReads(Get(j, "source"));
  }

  lemma SavedRunsRead(j: Json)
    requires Conforms(j, SAVE_RESTORE)
    ensures RestoredAt(j, "after_restart").Ok? && RestoredAt(j, "same_process").Ok?
  {
    FieldIn(j, SAVE_RESTORE.fields, 0);
    FieldIn(j, SAVE_RESTORE.fields, 2);
    RestoredReads(Get(j, "after_restart"));
    RestoredReads(Get(j, "same_process"));
  }

  lemma SavedFilesRead(j: Json)
    requires Conforms(j, SAVE_RESTORE)
    ensures StateFileAt(j, "slot_state_after_restart").Ok? && StateFileAt(j, "slot_state_before_restart").Ok?
  {
    FieldIn(j, SAVE_RESTORE.fields, 4);
    FieldIn(j, SAVE_RESTORE.fields, 5);
    StateFileReads(Get(j, "slot_state_after_restart"));
    StateFileReads(Get(j, "slot_state_before_restart"));
  }

  lemma SaveRestoreReads(j: Json)
    requires Conforms(j, SAVE_RESTORE)
    ensures ReadSaveRestore(j).Ok?
  {
    SavedCountsRead(j);
    SavedRunsRead(j);
    SavedFilesRead(j);
  }

  lemma ObservationReads(j: Json)
    requires Conforms(j, OBSERVATION)
    ensures ReadObservation(j).Ok?
  {
    FieldIn(j, OBSERVATION.fields, 0);
    FieldIn(j, OBSERVATION.fields, 1);
    SlotReads(Get(j, "idle_slot"));
    var p := Get(j, "prefill");
    FieldIn(p, PREFILL.fields, 0);
    FieldIn(p, PREFILL.fields, 1);
    FieldIn(p, PREFILL.fields, 2);
    FieldIn(p, PREFILL.fields, 3);
  }

  lemma PrefillIn(j: Json, fields: seq<Field>, n: nat)
    requires Conforms(j, Exact(fields)) && n < |fields| && fields[n].shape == OBSERVATION
    ensures PrefillAt(j, fields[n].name).Ok?
  {
    FieldIn(j, fields, n);
    ObservationReads(Get(j, fields[n].name));
  }

  lemma CaseReads(j: Json)
    requires Conforms(j, PREFIX_CASE)
    ensures ReadCase(j).Ok?
  {
    PrefillIn(j, PREFIX_CASE.fields, 0);
    PrefillIn(j, PREFIX_CASE.fields, 1);
    PrefillIn(j, PREFIX_CASE.fields, 2);
  }

  predicate PrefixName(name: string) {
    name == "exact" || name == "first_token_divergence" || name == "shared_prefix"
  }

  lemma PrefixNames(j: Json, name: string)
    requires Conforms(j, TOKEN_PREFIX) && name in j.fields
    ensures PrefixName(name) && ToldApart(name) && CaseAt(j, name).Ok?
  {
    assert name in FieldNames(TOKEN_PREFIX.fields);
    var n :| 0 <= n < 3 && TOKEN_PREFIX.fields[n].name == name;
    FieldIn(j, TOKEN_PREFIX.fields, n);
    CaseReads(Get(j, name));
  }

  /** The oracle finds the count of every registered prompt in this registration. */
  ghost predicate RegistrationReads(registration: Json) {
    && Has(registration, "token_prefix_divergence")
    && forall name | PrefixName(name) :: RegisteredAt(Get(registration, "token_prefix_divergence"), name).Ok?
  }

  lemma PrefixLaneReads(j: Json, registration: Json)
    requires WellFormed(j) && Conforms(j, TOKEN_PREFIX) && RegistrationReads(registration)
    ensures ReadPrefixLane(j, registration).Ok?
  {
    var reg := Get(registration, "token_prefix_divergence");
    forall name | name in j.order
      ensures CaseAt(j, name).Ok? && RegisteredAt(reg, name).Ok?
    {
      PrefixNames(j, name);
    }
    CasesRead(CaseReader(j), RegisteredReader(reg), j.order);
  }

  // -- Comparing by value --------------------------------------------------------------------

  /** The oracle finds the same counts in a registration that is merely equal: `4 == 4.0` and `1 == True`. */
  lemma EqualCounts(a: Json, b: Json, key: string)
    requires PyEq(a, b)
    ensures Has(a, key) <==> Has(b, key)
    ensures Has(a, key) ==> PyEq(Get(a, key), Get(b, key))
    ensures CountAt(a, key) == CountAt(b, key)
  {
    if Has(a, key) {
      assert key in a.fields.Keys;
    }
  }

  lemma EqualPromptTokens(a: Json, b: Json, key: string)
    requires PyEq(a, b)
    ensures PromptTokens(a, key) == PromptTokens(b, key)
  {
    EqualCounts(a, b, key);
    if Has(a, key) {
      EqualCounts(Get(a, key), Get(b, key), "prompt");
      if Has(Get(a, key), "prompt") {
        EqualCounts(Get(Get(a, key), "prompt"), Get(Get(b, key), "prompt"), "tokens");
      }
    }
  }

  lemma EqualRegistered(a: Json, b: Json, name: string)
    requires PyEq(a, b)
    ensures RegisteredAt(a, name) == RegisteredAt(b, name)
  {
    EqualCounts(a, b, name);
    if Has(a, name) {
      EqualPromptTokens(Get(a, name), Get(b, name), "source");
      EqualPromptTokens(Get(a, name), Get(b, name), "cache_on_target");
      EqualPromptTokens(Get(a, name), Get(b, name), "cache_off_target");
      EqualCounts(Get(a, name), Get(b, name), "common_prefix_tokens");
    }
  }

  lemma EqualRegistrationReads(a: Json, b: Json)
    requires PyEq(a, b) && RegistrationReads(b)
    ensures RegistrationReads(a)
  {
    EqualCounts(a, b, "token_prefix_divergence");
    forall name | PrefixName(name)
      ensures RegisteredAt(Get(a, "token_prefix_divergence"), name).Ok?
    {
      EqualRegistered(Get(a, "token_prefix_divergence"), Get(b, "token_prefix_divergence"), name);
    }
  }

  // -- Validation ----------------------------------------------------------------------------

  /** The constants that one evidence version is compared with. */
  datatype VersionPins = VersionPins(
    registration: Json, producer: Json, fixture: Json, runtimes: seq<Json>, transport: Json)

  datatype Pins = Pins(v1: VersionPins, v2: VersionPins, v3: VersionPins) {
    function For(version: Version): VersionPins {
      match version
      case Version1 => v1
      case Version2 => v2
      case Version3 => v3
    }
  }

  const BOUNDARY := Exact([
    Field("absolute_paths_included", False), Field("generated_text_included", False),
    Field("hostnames_included", False), Field("performance_claim_included", False),
    Field("ports_included", False), Field("raw_server_logs_included", False),
    Field("raw_token_lists_included", False)])

  function EvidenceFields(version: Version, p: VersionPins): seq<Field> {
    [ Field("cache_pairing", CACHE_PAIRING), Field("cancellation_reuse", CANCELLATION),
      Field("save_restore", SAVE_RESTORE), Field("registration", OneOf([p.registration])),
      Field("runtime", OneOf(p.runtimes)), Field("invariants", Anything),
      Field("boundary", BOUNDARY), Field("fixture", OneOf([p.fixture])), Field("producer", OneOf([p.producer])),
      Field("schema", Anything), Field("source_revision", Revision), Field("transport", OneOf([p.transport])) ]
    + (if version.Version1? then [] else [Field("interleaving_isolation", INTERLEAVING)])
    + (if version.Version3? then [Field("token_prefix_divergence", TOKEN_PREFIX)] else [])
  }

  function SchemaName(version: Version): string {
    "cache-invariant-evidence-" + (match version case Version1 => "v1" case Version2 => "v2" case Version3 => "v3")
  }

  function SchemaOf(j: Json): Option<Version> {
    if !(Has(j, "schema") && Get(j, "schema").Str?) then None
    else if Get(j, "schema").s == SchemaName(Version1) then Some(Version1)
    else if Get(j, "schema").s == SchemaName(Version2) then Some(Version2)
    else if Get(j, "schema").s == SchemaName(Version3) then Some(Version3)
    else None
  }

  /** Exactly the computed names, each with a genuine Boolean of the computed value. */
  predicate Stores(stored: Json, computed: map<string, bool>) {
    && stored.Obj? && stored.fields.Keys == computed.Keys
    && forall name :: name in computed ==> stored.fields[name] == Bool(computed[name])
  }

  /** `Rejected` is a check that refuses, `Unhashable` the TypeError of looking up a list or an object in a set or in a
      dictionary, and `Crashed` any other exception from a blind lookup. */
  datatype Outcome = Accepted(version: Version, verdicts: map<string, bool>) | Rejected | Unhashable | Crashed

  /** The names that a runtime record must have before its platform is looked up. */
  const RUNTIME := Exact([
    Field("adapter", Anything), Field("asset_platform", Anything), Field("asset_sha256", Anything),
    Field("configured_context_total", Anything), Field("cpu_only", Anything), Field("offline", Anything),
    Field("release", Anything), Field("server_sha256", Anything), Field("slot_count", Anything),
    Field("source_commit", Anything), Field("version_line", Anything)])

  /** What has been checked by then. */
  function HeadFields(version: Version, p: VersionPins): seq<Field> {
    [ Field("cache_pairing", Anything), Field("cancellation_reuse", Anything),
      Field("save_restore", Anything), Field("registration", OneOf([p.registration])),
      Field("runtime", RUNTIME), Field("invariants", Anything),
      Field("boundary", Anything), Field("fixture", OneOf([p.fixture])), Field("producer", OneOf([p.producer])),
      Field("schema", Anything), Field("source_revision", Revision), Field("transport", Anything) ]
    + (if version.Version1? then [] else [Field("interleaving_isolation", Anything)])
    + (if version.Version3? then [Field("token_prefix_divergence", Anything)] else [])
  }

  predicate Hashable(j: Json) {
    !j.Arr? && !j.Obj?
  }

  predicate UnhashableAt(j: Json, key: string) {
    Has(j, key) && !Hashable(Get(j, key))
  }

  /** The platform is looked up, and cannot be. */
  predicate UnhashablePlatform(j: Json, version: Version, p: VersionPins) {
    Conforms(j, Exact(HeadFields(version, p))) && Has(j, "runtime") && UnhashableAt(Get(j, "runtime"), "asset_platform")
  }

  predicate WellShaped(j: Json, version: Version, pins: Pins) {
    Conforms(j, Exact(EvidenceFields(version, pins.For(version))))
  }

  function Recompute(j: Json, version: Version): Result<Result<map<string, bool>>> {
    var lanes :- ReadLanes(j, version);
    Ok(AllInvariants(lanes))
  }

  /** The stored verdicts against the recomputed ones. */
  function Judge(stored: Json, version: Version, recomputed: Result<map<string, bool>>): Outcome {
    if recomputed.Ok? && Stores(stored, recomputed.value) && AllTrue(recomputed.value)
    then Accepted(version, recomputed.value)
    else Rejected
  }

  function Decide(version: Version, shaped: bool, recomputed: Result<Result<map<string, bool>>>,
                  stored: Result<Json>): Outcome
  {
    if !shaped then Rejected
    else if recomputed.Raised? || stored.Raised? then Crashed
    else Judge(stored.value, version, recomputed.value)
  }

  function ValidateEvidence(j: Json, pins: Pins): Outcome {
    match SchemaOf(j)
    case None => if UnhashableAt(j, "schema") then Unhashable else Rejected
    case Some(version) =>
      if UnhashablePlatform(j, version, pins.For(version)) then Unhashable
      else Decide(version, WellShaped(j, version, pins), Recompute(j, version), At(j, "invariants"))
  }

  /** The oracle can read the registration it is pinned to. */
  ghost predicate PinsReadable(pins: Pins) {
    RegistrationReads(pins.v3.registration)
  }

  predicate PlatformsNamed(p: VersionPins) {
    forall n :: 0 <= n < |p.runtimes| ==> StrAt(p.runtimes[n], "asset_platform").Ok?
  }

  predicate AllPlatformsNamed(pins: Pins) {
    PlatformsNamed(pins.v1) && PlatformsNamed(pins.v2) && PlatformsNamed(pins.v3)
  }

  lemma EvidenceLanes(j: Json, version: Version, p: VersionPins)
    requires Conforms(j, Exact(EvidenceFields(version, p)))
    ensures Has(j, "cache_pairing") && Conforms(Get(j, "cache_pairing"), CACHE_PAIRING)
    ensures Has(j, "cancellation_reuse") && Conforms(Get(j, "cancellation_reuse"), CANCELLATION)
    ensures Has(j, "save_restore") && Conforms(Get(j, "save_restore"), SAVE_RESTORE)
  {
    var fields := EvidenceFields(version, p);
    FieldIn(j, fields, 0);
    FieldIn(j, fields, 1);
    FieldIn(j, fields, 2);
  }

  lemma EvidencePins(j: Json, version: Version, p: VersionPins)
    requires Conforms(j, Exact(EvidenceFields(version, p)))
    ensures Has(j, "registration") && PyEq(Get(j, "registration"), p.registration)
    ensures Has(j, "runtime") && exists n :: 0 <= n < |p.runtimes| && PyEq(Get(j, "runtime"), p.runtimes[n])
    ensures Has(j, "invariants")
  {
    var fields := EvidenceFields(version, p);
    FieldIn(j, fields, 3);
    FieldIn(j, fields, 4);
    FieldIn(j, fields, 5);
  }

  lemma EvidenceNewLanes(j: Json, version: Version, p: VersionPins)
    requires Conforms(j, Exact(EvidenceFields(version, p)))
    ensures !version.Version1? ==>
      Has(j, "interleaving_isolation") && Conforms(Get(j, "interleaving_isolation"), INTERLEAVING)
    ensures version.Version3? ==>
      Has(j, "token_prefix_divergence") && Conforms(Get(j, "token_prefix_divergence"), TOKEN_PREFIX)
  {
    var fields := EvidenceFields(version, p);
    if !version.Version1? {
      FieldIn(j, fields, 12);
    }
    if version.Version3? {
      FieldIn(j, fields, 13);
    }
  }

  lemma EqualPlatform(a: Json, b: Json)
    requires PyEq(a, b) && StrAt(b, "asset_platform").Ok?
    ensures StrAt(a, "asset_platform").Ok?
  {
    EqualCounts(a, b, "asset_platform");
  }

  lemma PlatformRead(j: Json, version: Version, p: VersionPins)
    requires Conforms(j, Exact(EvidenceFields(version, p))) && PlatformsNamed(p)
    ensures Has(j, "runtime") && StrAt(Get(j, "runtime"), "asset_platform").Ok?
    ensures !UnhashablePlatform(j, version, p)
  {
    EvidencePins(j, version, p);
    var n :| 0 <= n < |p.runtimes| && PyEq(Get(j, "runtime"), p.runtimes[n]);
    EqualPlatform(Get(j, "runtime"), p.runtimes[n]);
  }

  // -- Every lookup of the oracle finds what it needs ----------------------------------------

  lemma OldLanesRead(j: Json, version: Version, p: VersionPins)
    requires WellFormed(j) && Conforms(j, Exact(EvidenceFields(version, p)))
    ensures CacheIn(j).Ok? && CancellationIn(j).Ok? && SaveIn(j).Ok?
  {
    hide Conforms, EvidenceFields, ReadCachePairing, ReadCancellation, ReadSaveRestore;
    EvidenceLanes(j, version, p);
    CachePairingReads(Get(j, "cache_pairing"));
    CancellationReads(Get(j, "cancellation_reuse"));
    SaveRestoreReads(Get(j, "save_restore"));
  }

  lemma PrefixLaneIn(j: Json, p: VersionPins)
    requires WellFormed(j) && Conforms(j, Exact(EvidenceFields(Version3, p))) && RegistrationReads(p.registration)
    ensures PrefixIn(j).Ok?
  {
    hide Conforms, EvidenceFields, ReadPrefixLane, PyEq, RegistrationReads;
    EvidencePins(j, Version3, p);
    EvidenceNewLanes(j, Version3, p);
    EqualRegistrationReads(Get(j, "registration"), p.registration);
    PrefixLaneReads(Get(j, "token_prefix_divergence"), Get(j, "registration"));
  }

  lemma LanesRead(j: Json, version: Version, p: VersionPins)
    requires WellFormed(j) && Conforms(j, Exact(EvidenceFields(version, p)))
    requires version.Version3? ==> RegistrationReads(p.registration)
    ensures ReadLanes(j, version).Ok?
  {
    hide Conforms, EvidenceFields, WellFormed, CacheIn, CancellationIn, SaveIn, PrefixIn, ReadInterleaving;
    OldLanesRead(j, version, p);
    EvidenceNewLanes(j, version, p);
    if !version.Version1? {
      InterleavingReads(Get(j, "interleaving_isolation"));
    }
    if version.Version3? {
      PrefixLaneIn(j, p);
    }
  }

  lemma WellShapedReads(j: Json, version: Version, pins: Pins)
    requires WellFormed(j) && WellShaped(j, version, pins) && PinsReadable(pins)
    ensures Recompute(j, version).Ok? && Has(j, "invariants")
  {
    hide Conforms, EvidenceFields, WellFormed, ReadLanes, AllInvariants, RegistrationReads;
    LanesRead(j, version, pins.For(version));
    EvidencePins(j, version, pins.For(version));
  }

  /** Whatever the value, validation refuses it or returns; no lookup fails. */
  lemma NeverCrashes(j: Json, pins: Pins)
    requires WellFormed(j) && PinsReadable(pins)
    ensures !ValidateEvidence(j, pins).Crashed?
  {
    hide WellFormed, WellShaped, Recompute, UnhashablePlatform, UnhashableAt, SchemaOf;
    if SchemaOf(j).Some? && WellShaped(j, SchemaOf(j).value, pins) {
      WellShapedReads(j, SchemaOf(j).value, pins);
    }
  }

  // -- The two lookups that can be handed an unhashable value --------------------------------

  /** The TypeError is raised exactly for an unhashable schema, and for an unhashable platform that is reached under a
      known schema. */
  lemma UnhashableExactly(j: Json, pins: Pins)
    ensures ValidateEvidence(j, pins) == Unhashable <==>
      (UnhashableAt(j, "schema") ||
       (SchemaOf(j).Some? && UnhashablePlatform(j, SchemaOf(j).value, pins.For(SchemaOf(j).value))))
  {
    hide UnhashablePlatform, Recompute, WellShaped;
  }

  /** A schema that is a list is looked up in a set, which is a TypeError and no refusal. */
  lemma SchemaListIsUnhashable(items: seq<Json>, pins: Pins)
    ensures ValidateEvidence(Obj(map["schema" := Arr(items)], ["schema"]), pins) == Unhashable
  {
    hide Decide, Recompute, WellShaped, UnhashablePlatform;
    var j := Obj(map["schema" := Arr(items)], ["schema"]);
    assert Has(j, "schema") && Get(j, "schema") == Arr(items);
  }

  predicate RuntimesRegistered(p: VersionPins) {
    forall n :: 0 <= n < |p.runtimes| ==> p.runtimes[n].Obj? && p.runtimes[n].fields.Keys == FieldNames(RUNTIME.fields)
  }

  /** The same evidence with another platform. */
  function WithPlatform(j: Json, platform: Json): Json
    requires Has(j, "runtime") && Get(j, "runtime").Obj?
  {
    var runtime := Get(j, "runtime");
    Obj(j.fields["runtime" := Obj(runtime.fields["asset_platform" := platform], runtime.order)], j.order)
  }

  lemma RuntimeNamed(j: Json, version: Version, p: VersionPins)
    requires Conforms(j, Exact(EvidenceFields(version, p))) && RuntimesRegistered(p)
    ensures Has(j, "runtime") && Get(j, "runtime").Obj? && Get(j, "runtime").fields.Keys == FieldNames(RUNTIME.fields)
  {
    EvidencePins(j, version, p);
    var n :| 0 <= n < |p.runtimes| && PyEq(Get(j, "runtime"), p.runtimes[n]);
  }

  lemma AnyRuntimeConforms(r: Json)
    requires r.Obj? && r.fields.Keys == FieldNames(RUNTIME.fields)
    ensures Conforms(r, RUNTIME) && Has(r, "asset_platform")
  {
    assert forall n :: 0 <= n < 11 ==> RUNTIME.fields[n].shape == Anything;
    assert forall n :: 0 <= n < 11 ==> RUNTIME.fields[n].name in FieldNames(RUNTIME.fields);
    assert RUNTIME.fields[1].name == "asset_platform";
  }

  /** The head of the checks asks no more than the whole, except of the runtime. */
  lemma HeadField(version: Version, p: VersionPins, n: nat)
    requires n < |EvidenceFields(version, p)|
    ensures |HeadFields(version, p)| == |EvidenceFields(version, p)|
    ensures HeadFields(version, p)[n].name == EvidenceFields(version, p)[n].name
    ensures n != 4 && HeadFields(version, p)[n].shape != Anything ==>
      HeadFields(version, p)[n].shape == EvidenceFields(version, p)[n].shape
    ensures n == 4 ==> HeadFields(version, p)[n] == Field("runtime", RUNTIME)
    ensures |HeadFields(version, p)[n].name| == 7 ==> n == 4 || HeadFields(version, p)[n].name[0] == 'f'
  {
  }

  lemma HeadNames(version: Version, p: VersionPins)
    ensures |HeadFields(version, p)| == |EvidenceFields(version, p)|
    ensures FieldNames(HeadFields(version, p)) == FieldNames(EvidenceFields(version, p))
  {
    var h, e := HeadFields(version, p), EvidenceFields(version, p);
    HeadField(version, p, 0);
    assert forall n :: 0 <= n < |h| ==> h[n].name == e[n].name by {
      forall n | 0 <= n < |h| ensures h[n].name == e[n].name { HeadField(version, p, n); }
    }
    assert forall n :: 0 <= n < |h| ==> h[n].name in FieldNames(e) by {
      forall n | 0 <= n < |h| ensures h[n].name in FieldNames(e) { assert e[n].name in FieldNames(e); }
    }
    forall k | k in FieldNames(e)
      ensures k in FieldNames(h)
    {
      var n :| 0 <= n < |e| && e[n].name == k;
      assert h[n].name == k;
    }
  }

  lemma OtherFieldsKept(j: Json, platform: Json, key: string)
    requires Has(j, "runtime") && Get(j, "runtime").Obj? && (|key| == 7 ==> key[0] == 'f')
    ensures At(WithPlatform(j, platform), key) == At(j, key)
  {
    assert |"runtime"| == 7 && "runtime"[0] == 'r';
  }

  lemma AnythingConforms(j: Json)
    ensures Conforms(j, Anything)
  {
  }

  lemma HeadPassesAt(j: Json, version: Version, p: VersionPins, platform: Json, n: nat)
    requires Conforms(j, Exact(EvidenceFields(version, p))) && RuntimesRegistered(p)
    requires Has(j, "runtime") && Get(j, "runtime").Obj? && n < |HeadFields(version, p)|
    ensures var k, f := WithPlatform(j, platform), HeadFields(version, p)[n];
            Has(k, f.name) && Conforms(Get(k, f.name), f.shape)
  {
    hide HeadFields, EvidenceFields, Conforms, RuntimesRegistered, FieldNames;
    HeadNames(version, p);
    HeadField(version, p, n);
    FieldIn(j, EvidenceFields(version, p), n);
    if n == 4 {
      RuntimeNamed(j, version, p);
      var r, platformed := Get(j, "runtime"), Get(WithPlatform(j, platform), "runtime");
      AnyRuntimeConforms(r);
      assert platformed.fields.Keys == r.fields.Keys;
      AnyRuntimeConforms(platformed);
    } else {
      OtherFieldsKept(j, platform, HeadFields(version, p)[n].name);
      AnythingConforms(Get(j, HeadFields(version, p)[n].name));
    }
  }

  lemma ExactlyConforms(k: Json, fields: seq<Field>)
    requires k.Obj? && k.fields.Keys == FieldNames(fields)
    requires forall n :: 0 <= n < |fields| ==>
      Has(k, fields[n].name) && Conforms(Get(k, fields[n].name), fields[n].shape)
    ensures Conforms(k, Exact(fields))
  {
  }

  lemma HeadPasses(j: Json, version: Version, p: VersionPins, platform: Json)
    requires Conforms(j, Exact(EvidenceFields(version, p))) && RuntimesRegistered(p)
    requires Has(j, "runtime") && Get(j, "runtime").Obj?
    ensures Conforms(WithPlatform(j, platform), Exact(HeadFields(version, p)))
  {
    var k, h := WithPlatform(j, platform), HeadFields(version, p);
    HeadNames(version, p);
    assert k.fields.Keys == j.fields.Keys;
    assert j.fields.Keys == FieldNames(EvidenceFields(version, p));
    hide HeadFields, EvidenceFields, Conforms, RuntimesRegistered, FieldNames, WithPlatform;
    forall n | 0 <= n < |h|
      ensures Has(k, h[n].name) && Conforms(Get(k, h[n].name), h[n].shape)
    {
      HeadPassesAt(j, version, p, platform, n);
    }
    ExactlyConforms(k, h);
  }

  /** Evidence that differs from acceptable evidence in its platform being a list gets as far as that lookup, and is a
      TypeError there. */
  lemma PlatformListIsUnhashable(j: Json, version: Version, pins: Pins, items: seq<Json>)
    requires SchemaOf(j) == Some(version) && WellShaped(j, version, pins) && RuntimesRegistered(pins.For(version))
    ensures Has(j, "runtime") && Get(j, "runtime").Obj?
    ensures ValidateEvidence(WithPlatform(j, Arr(items)), pins) == Unhashable
  {
    hide HeadFields, EvidenceFields, Conforms, Decide, Recompute;
    RuntimeNamed(j, version, pins.For(version));
    HeadPasses(j, version, pins.For(version), Arr(items));
    assert |"schema"| == 6 && |"runtime"| == 7;
  }

  // -- Key order and unread fields -----------------------------------------------------------

  lemma PrefixNamesToldApart(j: Json)
    requires Conforms(j, TOKEN_PREFIX)
    ensures AllToldApart(j)
  {
    forall key | key in j.fields
      ensures ToldApart(key)
    {
      PrefixNames(j, key);
    }
  }

  lemma LaneNamesToldApart(j: Json, version: Version, p: VersionPins)
    requires Conforms(j, Exact(EvidenceFields(version, p)))
    ensures AllToldApartUnder(j, "cache_pairing")
    ensures (version.Version3? ==> AllToldApartUnder(j, "token_prefix_divergence"))
  {
    EvidenceLanes(j, version, p);
    CacheNamesToldApart(Get(j, "cache_pairing"));
    EvidenceNewLanes(j, version, p);
    if version.Version3? {
      PrefixNamesToldApart(Get(j, "token_prefix_divergence"));
    }
  }

  lemma SameRecompute(a: Json, b: Json, version: Version, pins: Pins, ignored: set<string>)
    requires WellFormed(a) && WellFormed(b) && Agree(a, b, ignored) && ignored <= UNREAD
    requires WellShaped(a, version, pins) && Recompute(a, version).Ok?
    ensures Recompute(a, version) == Recompute(b, version)
  {
    hide Conforms, EvidenceFields, WellFormed, Agree, ReadLanes, AllInvariants, SameLanes, AllToldApartUnder;
    LaneNamesToldApart(a, version, pins.For(version));
    LanesAgree(a, b, version, ignored);
    LanesUnique(a, version);
    LanesUnique(b, version);
    SameLanesSameVerdicts(ReadLanes(a, version).value, ReadLanes(b, version).value);
  }

  lemma SameJudgement(s: Json, t: Json, version: Version, recomputed: Result<map<string, bool>>)
    requires Agree(s, t, {})
    ensures Judge(s, version, recomputed) == Judge(t, version, recomputed)
  {
    if s.Obj? && recomputed.Ok? && s.fields.Keys == recomputed.value.Keys {
      forall name | name in recomputed.value
        ensures s.fields[name] == Bool(recomputed.value[name]) <==> t.fields[name] == Bool(recomputed.value[name])
      {
        assert name in s.fields && name !in {};
        assert Agree(s.fields[name], t.fields[name], {});
      }
    }
  }

  lemma PlainAt(a: Json, b: Json, key: string)
    requires Agree(a, b, {})
    ensures Has(a, key) <==> Has(b, key)
    ensures Has(a, key) ==> Agree(Get(a, key), Get(b, key), {})
  {
    assert key !in {};
  }

  lemma SameDecision(version: Version, shaped: bool, r: Result<Result<map<string, bool>>>, q: Result<Result<map<string,
                     bool>>>,
                     s: Result<Json>, t: Result<Json>)
    requires shaped ==> r == q
    requires s.Ok? == t.Ok? && (s.Ok? ==> Agree(s.value, t.value, {}))
    ensures Decide(version, shaped, r, s) == Decide(version, shaped, q, t)
  {
    if shaped && r.Ok? && s.Ok? {
      SameJudgement(s.value, t.value, version, r.value);
    }
  }

  lemma SameSchema(a: Json, b: Json)
    requires Agree(a, b, {})
    ensures SchemaOf(a) == SchemaOf(b)
  {
    PlainAt(a, b, "schema");
  }

  lemma SameShape(a: Json, b: Json, version: Version, pins: Pins)
    requires Agree(a, b, {})
    ensures WellShaped(a, version, pins) == WellShaped(b, version, pins)
  {
    ShapeIgnoresOrder(a, b, Exact(EvidenceFields(version, pins.For(version))));
  }

  lemma ReorderedRecompute(a: Json, b: Json, version: Version, pins: Pins)
    requires WellFormed(a) && WellFormed(b) && Agree(a, b, {}) && Agree(b, a, {})
    requires WellShaped(a, version, pins) && WellShaped(b, version, pins)
    ensures Recompute(a, version) == Recompute(b, version)
  {
    hide Conforms, EvidenceFields, WellFormed, Agree, Recompute;
    if Recompute(a, version).Ok? {
      SameRecompute(a, b, version, pins, {});
    } else if Recompute(b, version).Ok? {
      SameRecompute(b, a, version, pins, {});
    }
  }

  lemma SameVersionSameOutcome(a: Json, b: Json, version: Version, pins: Pins)
    requires WellFormed(a) && WellFormed(b) && Agree(a, b, {})
    ensures Decide(version, WellShaped(a, version, pins), Recompute(a, version), At(a, "invariants"))
         == Decide(version, WellShaped(b, version, pins), Recompute(b, version), At(b, "invariants"))
  {
    hide Conforms, EvidenceFields, WellFormed, Agree, Recompute, Decide;
    AgreeSymmetric(a, b, {});
    SameShape(a, b, version, pins);
    if WellShaped(a, version, pins) {
      ReorderedRecompute(a, b, version, pins);
    }
    PlainAt(a, b, "invariants");
    SameDecision(version, WellShaped(a, version, pins), Recompute(a, version), Recompute(b, version),
                 At(a, "invariants"), At(b, "invariants"));
  }

  lemma SameUnhashable(a: Json, b: Json, key: string)
    requires Agree(a, b, {})
    ensures UnhashableAt(a, key) == UnhashableAt(b, key)
  {
    PlainAt(a, b, key);
  }

  lemma SameUnhashablePlatform(a: Json, b: Json, version: Version, p: VersionPins)
    requires Agree(a, b, {})
    ensures UnhashablePlatform(a, version, p) == UnhashablePlatform(b, version, p)
  {
    hide Conforms, HeadFields, UnhashableAt;
    ShapeIgnoresOrder(a, b, Exact(HeadFields(version, p)));
    PlainAt(a, b, "runtime");
    if Has(a, "runtime") {
      SameUnhashable(Get(a, "runtime"), Get(b, "runtime"), "asset_platform");
    }
  }

  /** Reordering the keys of any object anywhere in the value leaves the outcome as it is. */
  lemma KeyOrderIsIgnored(a: Json, b: Json, pins: Pins)
    requires WellFormed(a) && WellFormed(b) && Agree(a, b, {})
    ensures ValidateEvidence(a, pins) == ValidateEvidence(b, pins)
  {
    hide WellFormed, Agree, SchemaOf, UnhashableAt, UnhashablePlatform, Decide, WellShaped, Recompute, At;
    SameSchema(a, b);
    SameUnhashable(a, b, "schema");
    if SchemaOf(a).Some? {
      SameVersionSameOutcome(a, b, SchemaOf(a).value, pins);
      SameUnhashablePlatform(a, b, SchemaOf(a).value, pins.For(SchemaOf(a).value));
    }
  }

  /** What is read back after writing with sorted keys is judged as what was written. */
  lemma CanonicalValidates(j: Json, pins: Pins)
    requires WellFormed(j)
    ensures ValidateEvidence(Canonical(j), pins) == ValidateEvidence(j, pins)
  {
    CanonicalAgrees(j);
    CanonicalWellFormed(j);
    KeyOrderIsIgnored(j, Canonical(j), pins);
  }

  lemma UnreadRecompute(a: Json, b: Json, version: Version, pins: Pins)
    requires WellFormed(a) && WellFormed(b) && PinsReadable(pins) && Agree(a, b, UNREAD) && WellShaped(a, version, pins)
    ensures Recompute(a, version) == Recompute(b, version)
  {
    hide Conforms, EvidenceFields, WellFormed, Agree, Recompute;
    WellShapedReads(a, version, pins);
    SameRecompute(a, b, version, pins, UNREAD);
  }

  lemma UnreadJudgement(s: Json, t: Json, version: Version, lanes: Lanes)
    requires Agree(s, t, UNREAD) && LanesReady(lanes)
    ensures Judge(s, version, AllInvariants(lanes)) == Judge(t, version, AllInvariants(lanes))
  {
    hide AllInvariants;
    if s.Obj? && AllInvariants(lanes).Ok? && s.fields.Keys == AllInvariants(lanes).value.Keys {
      var verdicts := AllInvariants(lanes).value;
      forall name | name in verdicts
        ensures s.fields[name] == Bool(verdicts[name]) <==> t.fields[name] == Bool(verdicts[name])
      {
        VerdictIsRead(lanes, name);
        assert name in s.fields && Agree(s.fields[name], t.fields[name], UNREAD);
      }
    }
  }

  lemma UnreadDecision(a: Json, b: Json, version: Version, pins: Pins)
    requires WellFormed(a) && WellFormed(b) && PinsReadable(pins) && Agree(a, b, UNREAD) && WellShaped(a, version, pins)
    ensures Decide(version, true, Recompute(a, version), At(a, "invariants"))
         == Decide(version, true, Recompute(b, version), At(b, "invariants"))
  {
    hide WellFormed, Conforms, EvidenceFields, AllInvariants, ReadLanes, Agree, Judge, RegistrationReads;
    UnreadRecompute(a, b, version, pins);
    WellShapedReads(a, version, pins);
    AtAgrees(a, b, UNREAD, "invariants");
    UnreadJudgement(Get(a, "invariants"), Get(b, "invariants"), version, ReadLanes(a, version).value);
  }

  /** Values that differ, besides key order, under the three unread keys only are judged alike while they keep their
      shape. */
  lemma UnreadFieldsAreIgnored(a: Json, b: Json, version: Version, pins: Pins)
    requires WellFormed(a) && WellFormed(b) && PinsReadable(pins) && AllPlatformsNamed(pins) && Agree(a, b, UNREAD)
    requires SchemaOf(a) == SchemaOf(b) == Some(version)
    requires WellShaped(a, version, pins) && WellShaped(b, version, pins)
    ensures ValidateEvidence(a, pins) == ValidateEvidence(b, pins)
  {
    hide WellFormed, Agree, Conforms, UnhashablePlatform, Recompute, EvidenceFields, Decide, At, RegistrationReads;
    UnreadDecision(a, b, version, pins);
    PlatformRead(a, version, pins.For(version));
    PlatformRead(b, version, pins.For(version));
  }

  // -- What acceptance means -----------------------------------------------------------------

  lemma {:induction false} DistinctCount(s: seq<string>, keys: set<string>)
    requires NoDuplicates(s) && forall k :: k in s <==> k in keys
    ensures |keys| == |s|
  {
    if s != [] {
      var n := |s| - 1;
      DistinctCount(s[..n], keys - {s[n]});
      assert s == s[..n] + [s[n]];
    } else {
      assert keys == {};
    }
  }

  lemma AcceptedMeans(j: Json, pins: Pins)
    requires ValidateEvidence(j, pins).Accepted?
    ensures var version, verdicts := ValidateEvidence(j, pins).version, ValidateEvidence(j, pins).verdicts;
            && SchemaOf(j) == Some(version) && WellShaped(j, version, pins)
            && Recompute(j, version) == Ok(Ok(verdicts)) && AllTrue(verdicts)
            && Has(j, "invariants") && Stores(Get(j, "invariants"), verdicts)
  {
    hide Conforms, EvidenceFields, Recompute, Stores, AllTrue, UnhashablePlatform, UnhashableAt;
  }

  lemma ThreeNames()
    ensures |{"exact", "first_token_divergence", "shared_prefix"}| == 3
  {
    assert |"exact"| == 5 && |"first_token_divergence"| == 22 && |"shared_prefix"| == 13;
  }

  lemma ThreeKeys(j: Json)
    requires WellFormed(j) && Conforms(j, TOKEN_PREFIX)
    ensures j.Obj? && NoDuplicates(j.order)
    ensures forall name :: PrefixName(name) <==> name in j.order
  {
    FieldIn(j, TOKEN_PREFIX.fields, 0);
    FieldIn(j, TOKEN_PREFIX.fields, 1);
    FieldIn(j, TOKEN_PREFIX.fields, 2);
    forall name
      ensures PrefixName(name) <==> name in j.order
    {
      if name in j.order {
        PrefixNames(j, name);
      }
    }
  }

  lemma CountOfThree(order: seq<string>)
    requires NoDuplicates(order) && forall name :: PrefixName(name) <==> name in order
    ensures |order| == 3
  {
    ThreeNames();
    DistinctCount(order, {"exact", "first_token_divergence", "shared_prefix"});
  }

  lemma ThreeCases(j: Json)
    requires WellFormed(j) && Conforms(j, TOKEN_PREFIX)
    ensures |j.order| == 3
    ensures forall name :: PrefixName(name) <==> name in j.order
  {
    hide Conforms, WellFormed, NoDuplicates;
    ThreeKeys(j);
    CountOfThree(j.order);
  }

  lemma PrefixCaseCount(j: Json, p: VersionPins)
    requires WellFormed(j) && Conforms(j, Exact(EvidenceFields(Version3, p))) && PrefixIn(j).Ok?
    ensures |PrefixIn(j).value.value| == 3
  {
    EvidenceNewLanes(j, Version3, p);
    ThreeCases(Get(j, "token_prefix_divergence"));
  }

  predicate OfVersion(lanes: Lanes, version: Version) {
    match version
    case Version1 => lanes.V1?
    case Version2 => lanes.V2?
    case Version3 => lanes.V3?
  }

  lemma Assembled(version: Version, c: Result<CachePairing>, d: Result<Cancellation>, i: Result<Interleaving>,
                  s: Result<SaveRestore>, p: Result<PrefixLane>)
    requires p.Ok? ==> Covered(p.value.value, p.value.registration)
    requires Assemble(version, c, d, i, s, p).Ok?
    ensures OfVersion(Assemble(version, c, d, i, s, p).value, version)
    ensures version.Version3? ==> Ok(Assemble(version, c, d, i, s, p).value.prefix) == p
  {
  }

  lemma LanesOfVersion(j: Json, version: Version, p: VersionPins)
    requires WellFormed(j) && Conforms(j, Exact(EvidenceFields(version, p))) && ReadLanes(j, version).Ok?
    ensures OfVersion(ReadLanes(j, version).value, version)
    ensures version.Version3? ==> |ReadLanes(j, version).value.prefix.value| == 3
  {
    Assembled(version, CacheIn(j), CancellationIn(j), InterleavingIn(j), SaveIn(j), PrefixIn(j));
    if version.Version3? {
      PrefixCaseCount(j, p);
    }
  }

  function VerdictTotal(version: Version): nat {
    match version
    case Version1 => 29
    case Version2 => 57
    case Version3 => 77
  }

  lemma LanesCount(lanes: Lanes, version: Version)
    requires LanesReady(lanes) && LaneNamesUnique(lanes) && OfVersion(lanes, version)
    requires lanes.V3? ==> |lanes.prefix.value| == 3
    ensures AllInvariants(lanes).Ok? && |AllInvariants(lanes).value| == VerdictTotal(version)
  {
    InvariantCount(lanes);
  }

  lemma RecomputedCount(j: Json, version: Version, pins: Pins)
    requires WellFormed(j) && WellShaped(j, version, pins) && Recompute(j, version).Ok?
    ensures Recompute(j, version).value.Ok?
    ensures |Recompute(j, version).value.value| == VerdictTotal(version)
  {
    hide Conforms, EvidenceFields, WellFormed, ReadLanes, AllInvariants, LaneNamesUnique, OfVersion;
    LanesOfVersion(j, version, pins.For(version));
    LanesUnique(j, version);
    LanesCount(ReadLanes(j, version).value, version);
  }

  /** Accepted evidence stores exactly the recomputed verdicts: all true, and as many as its version promises. */
  lemma AcceptedCount(j: Json, pins: Pins)
    requires WellFormed(j) && ValidateEvidence(j, pins).Accepted?
    ensures |ValidateEvidence(j, pins).verdicts| == VerdictTotal(ValidateEvidence(j, pins).version)
  {
    hide Conforms, EvidenceFields, WellFormed, Recompute, Stores, AllTrue, ValidateEvidence, VerdictTotal;
    AcceptedMeans(j, pins);
    RecomputedCount(j, ValidateEvidence(j, pins).version, pins);
  }

  // -- The counters of accepted evidence -----------------------------------------------------

  lemma TrueLanesPinCounters(lanes: Lanes)
    requires LanesReady(lanes) && LaneNamesUnique(lanes) && lanes.V3?
    requires AllInvariants(lanes).Ok? && AllTrue(AllInvariants(lanes).value)
    ensures forall i :: 0 <= i < |lanes.prefix.value| ==>
      lanes.prefix.value[i].1 == CaseFor(lanes.prefix.registration[lanes.prefix.value[i].0])
  {
    MergingNeverRaises(lanes);
    assert AllTrue(Dict(LaneEntries(lanes)[4]));
    VerdictsDetermineCounters(lanes.prefix.value, lanes.prefix.registration);
  }

  lemma LaneCases(j: Json, registration: Json, name: string)
    requires WellFormed(j) && Conforms(j, TOKEN_PREFIX) && PrefixName(name) && ReadPrefixLane(j, registration).Ok?
    ensures name in ReadPrefixLane(j, registration).value.registration
    ensures RegisteredAt(Get(registration, "token_prefix_divergence"), name)
         == Ok(ReadPrefixLane(j, registration).value.registration[name])
    ensures exists i | 0 <= i < |ReadPrefixLane(j, registration).value.value| ::
      ReadPrefixLane(j, registration).value.value[i].0 == name
      && CaseAt(j, name) == Ok(ReadPrefixLane(j, registration).value.value[i].1)
  {
    ThreeCases(j);
    var reg := Get(registration, "token_prefix_divergence");
    CasesRead(CaseReader(j), RegisteredReader(reg), j.order);
    var v := ReadPrefixLane(j, registration).value;
    var i :| 0 <= i < |j.order| && j.order[i] == name;
    assert v.value[i].0 == name && CaseReader(j)(name) == Ok(v.value[i].1);
  }

  lemma CountersOfLane(lanes: Lanes, j: Json, registration: Json, name: string)
    requires LanesReady(lanes) && LaneNamesUnique(lanes) && lanes.V3?
    requires AllInvariants(lanes).Ok? && AllTrue(AllInvariants(lanes).value)
    requires WellFormed(j) && Conforms(j, TOKEN_PREFIX) && PrefixName(name)
    requires ReadPrefixLane(j, registration) == Ok(lanes.prefix)
    ensures Has(registration, "token_prefix_divergence")
    ensures RegisteredAt(Get(registration, "token_prefix_divergence"), name).Ok?
    ensures CaseAt(j, name) == Ok(CaseFor(RegisteredAt(Get(registration, "token_prefix_divergence"), name).value))
  {
    TrueLanesPinCounters(lanes);
    LaneCases(j, registration, name);
  }

  lemma CountersOfEvidence(j: Json, p: VersionPins, name: string)
    requires WellFormed(j) && Conforms(j, Exact(EvidenceFields(Version3, p))) && PrefixName(name)
    requires ReadLanes(j, Version3).Ok?
    requires AllInvariants(ReadLanes(j, Version3).value).Ok?
    requires AllTrue(AllInvariants(ReadLanes(j, Version3).value).value)
    ensures Has(j, "token_prefix_divergence") && Has(j, "registration")
    ensures Has(Get(j, "registration"), "token_prefix_divergence")
    ensures RegisteredAt(Get(Get(j, "registration"), "token_prefix_divergence"), name).Ok?
    ensures CaseAt(Get(j, "token_prefix_divergence"), name)
         == Ok(CaseFor(RegisteredAt(Get(Get(j, "registration"), "token_prefix_divergence"), name).value))
  {
    hide Conforms, EvidenceFields, AllInvariants, AllTrue, CacheIn;
    hide CancellationIn, InterleavingIn, SaveIn, CaseAt, CaseFor;
    EvidenceNewLanes(j, Version3, p);
    LanesOfVersion(j, Version3, p);
    LanesUnique(j, Version3);
    Assembled(Version3, CacheIn(j), CancellationIn(j), InterleavingIn(j), SaveIn(j), PrefixIn(j));
    CountersOfLane(ReadLanes(j, Version3).value, Get(j, "token_prefix_divergence"), Get(j, "registration"), name);
  }

  lemma PinnedRegistered(a: Json, b: Json, name: string)
    requires PyEq(a, b) && Has(a, "token_prefix_divergence")
    ensures Has(b, "token_prefix_divergence")
    ensures RegisteredAt(Get(a, "token_prefix_divergence"), name)
         == RegisteredAt(Get(b, "token_prefix_divergence"), name)
  {
    EqualCounts(a, b, "token_prefix_divergence");
    EqualRegistered(Get(a, "token_prefix_divergence"), Get(b, "token_prefix_divergence"), name);
  }

  /** In accepted evidence every counter of the direct-token lane has the one value that the pinned lengths allow. */
  lemma AcceptedCounters(j: Json, pins: Pins, name: string)
    requires WellFormed(j) && PinsReadable(pins) && PrefixName(name)
    requires ValidateEvidence(j, pins).Accepted? && ValidateEvidence(j, pins).version == Version3
    ensures Has(j, "token_prefix_divergence")
    ensures CaseAt(Get(j, "token_prefix_divergence"), name)
         == Ok(CaseFor(RegisteredAt(Get(pins.v3.registration, "token_prefix_divergence"), name).value))
  {
    hide Conforms, EvidenceFields, WellFormed, AllInvariants, AllTrue, CaseAt;
    hide CaseFor, RegisteredAt, PyEq, Stores, ValidateEvidence, ReadLanes;
    AcceptedMeans(j, pins);
    CountersOfEvidence(j, pins.v3, name);
    EvidencePins(j, Version3, pins.v3);
    PinnedRegistered(Get(j, "registration"), pins.v3.registration, name);
  }

  // -- Evidence that stores its own verdicts -------------------------------------------------

  /** The verdicts as an object that lists them in this order. */
  function VerdictObject(verdicts: map<string, bool>, order: seq<string>): Json {
    Obj(map name | name in verdicts :: Bool(verdicts[name]), order)
  }

  function Storing(j: Json, verdicts: map<string, bool>, order: seq<string>): Json
    requires j.Obj?
  {
    Obj(j.fields["invariants" := VerdictObject(verdicts, order)], j.order)
  }

  lemma StoringKeepsOthers(j: Json, verdicts: map<string, bool>, order: seq<string>, key: string)
    requires j.Obj? && |key| != 10
    ensures At(Storing(j, verdicts, order), key) == At(j, key)
  {
    assert |"invariants"| == 10;
  }

  lemma StoringKeepsLanes(j: Json, verdicts: map<string, bool>, order: seq<string>, version: Version)
    requires j.Obj?
    ensures ReadLanes(Storing(j, verdicts, order), version) == ReadLanes(j, version)
  {
    StoringKeepsOthers(j, verdicts, order, "cache_pairing");
    StoringKeepsOthers(j, verdicts, order, "cancellation_reuse");
    StoringKeepsOthers(j, verdicts, order, "save_restore");
    StoringKeepsOthers(j, verdicts, order, "interleaving_isolation");
    StoringKeepsOthers(j, verdicts, order, "token_prefix_divergence");
    StoringKeepsOthers(j, verdicts, order, "registration");
  }

  /** Of all fields only the stored verdicts have a name of ten letters, and their shape is free. */
  lemma InvariantsField(version: Version, p: VersionPins, n: nat)
    requires n < |EvidenceFields(version, p)|
    ensures |EvidenceFields(version, p)[n].name| == 10 <==> n == 5
    ensures EvidenceFields(version, p)[5] == Field("invariants", Anything)
  {
  }

  lemma StoringKeepsShape(j: Json, verdicts: map<string, bool>, order: seq<string>, version: Version, p: VersionPins)
    requires Conforms(j, Exact(EvidenceFields(version, p)))
    ensures Conforms(Storing(j, verdicts, order), Exact(EvidenceFields(version, p)))
  {
    var fields, k := EvidenceFields(version, p), Storing(j, verdicts, order);
    InvariantsField(version, p, 5);
    FieldIn(j, fields, 5);
    assert k.fields.Keys == j.fields.Keys;
    forall n | 0 <= n < |fields|
      ensures Has(k, fields[n].name) && Conforms(k.fields[fields[n].name], fields[n].shape)
    {
      InvariantsField(version, p, n);
      FieldIn(j, fields, n);
      if n != 5 {
        StoringKeepsOthers(j, verdicts, order, fields[n].name);
      }
    }
  }

  lemma StoresItsOwn(verdicts: map<string, bool>, order: seq<string>)
    ensures Stores(VerdictObject(verdicts, order), verdicts)
  {
    assert VerdictObject(verdicts, order).fields.Keys == verdicts.Keys;
  }

  lemma JudgingItsOwn(verdicts: map<string, bool>, order: seq<string>, version: Version)
    ensures Judge(VerdictObject(verdicts, order), version, Ok(verdicts))
         == if AllTrue(verdicts) then Accepted(version, verdicts) else Rejected
  {
    StoresItsOwn(verdicts, order);
  }

  lemma StoringKeepsSchema(j: Json, verdicts: map<string, bool>, order: seq<string>)
    requires j.Obj?
    ensures SchemaOf(Storing(j, verdicts, order)) == SchemaOf(j)
  {
    StoringKeepsOthers(j, verdicts, order, "schema");
  }

  lemma StoringKeepsParts(j: Json, version: Version, pins: Pins, verdicts: map<string, bool>, order: seq<string>)
    requires WellShaped(j, version, pins) && Recompute(j, version) == Ok(Ok(verdicts))
    ensures WellShaped(Storing(j, verdicts, order), version, pins)
    ensures Recompute(Storing(j, verdicts, order), version) == Ok(Ok(verdicts))
    ensures At(Storing(j, verdicts, order), "invariants") == Ok(VerdictObject(verdicts, order))
  {
    hide Conforms, EvidenceFields, ReadLanes, AllInvariants, VerdictObject;
    EvidencePins(j, version, pins.For(version));
    StoringKeepsShape(j, verdicts, order, version, pins.For(version));
    StoringKeepsLanes(j, verdicts, order, version);
  }

  /** Well-shaped evidence that stores its own recomputed verdicts is accepted exactly when they are all true. */
  lemma OwnVerdictsValidate(j: Json, version: Version, pins: Pins, verdicts: map<string, bool>, order: seq<string>)
    requires SchemaOf(j) == Some(version) && WellShaped(j, version, pins) && Recompute(j, version) == Ok(Ok(verdicts))
    requires AllPlatformsNamed(pins)
    ensures ValidateEvidence(Storing(j, verdicts, order), pins)
         == if AllTrue(verdicts) then Accepted(version, verdicts) else Rejected
  {
    hide Storing, Conforms, Recompute, UnhashablePlatform, EvidenceFields, Stores, VerdictObject, AllTrue;
    var k := Storing(j, verdicts, order);
    StoringKeepsSchema(j, verdicts, order);
    StoringKeepsParts(j, version, pins, verdicts, order);
    PlatformRead(k, version, pins.For(version));
    JudgingItsOwn(verdicts, order, version);
  }

  // -- Accepted evidence can be printed ------------------------------------------------------

  predicate PinsFinite(p: VersionPins) {
    && Finite(p.registration) && Finite(p.producer) && Finite(p.fixture) && Finite(p.transport)
    && forall n :: 0 <= n < |p.runtimes| ==> Finite(p.runtimes[n])
  }

  predicate AllPinsFinite(pins: Pins) {
    PinsFinite(pins.v1) && PinsFinite(pins.v2) && PinsFinite(pins.v3)
  }

  lemma ObservedClosed()
    ensures Closed(OBSERVED) && Closed(PAIR) && Closed(DIRECTION) && Closed(RESTORED)
  {
    assert Closed(COMPLETION) && Closed(SLOT);
  }

  lemma LanesClosed()
    ensures Closed(CACHE_PAIRING) && Closed(CANCELLATION) && Closed(INTERLEAVING) && Closed(SAVE_RESTORE)
  {
    ObservedClosed();
    assert Closed(DISCONNECT) && Closed(STATE_FILE);
  }

  lemma PrefixClosed()
    ensures Closed(TOKEN_PREFIX)
  {
    assert Closed(SLOT) && Closed(PREFILL);
    assert Closed(OBSERVATION);
    assert Closed(PREFIX_CASE);
  }

  lemma PinsClosed(p: VersionPins)
    requires PinsFinite(p)
    ensures Closed(OneOf([p.registration])) && Closed(OneOf(p.runtimes)) && Closed(OneOf([p.fixture]))
    ensures Closed(OneOf([p.producer])) && Closed(OneOf([p.transport])) && Closed(Revision) && Closed(BOUNDARY)
  {
  }

  lemma EvidenceClosed(version: Version, p: VersionPins, n: nat)
    requires n < |EvidenceFields(version, p)| && n != 5 && n != 9 && PinsFinite(p)
    ensures Closed(EvidenceFields(version, p)[n].shape)
  {
    hide Closed;
    LanesClosed();
    PrefixClosed();
    PinsClosed(p);
  }

  lemma StoresFinite(stored: Json, verdicts: map<string, bool>)
    requires Stores(stored, verdicts)
    ensures Finite(stored)
  {
    forall k | k in stored.fields
      ensures Finite(stored.fields[k])
    {
      assert k in verdicts;
    }
  }

  lemma ShapedFinite(j: Json, version: Version, p: VersionPins)
    requires Conforms(j, Exact(EvidenceFields(version, p))) && PinsFinite(p)
    requires Has(j, "invariants") && Finite(Get(j, "invariants")) && Has(j, "schema") && Get(j, "schema").Str?
    ensures Finite(j)
  {
    var fields := EvidenceFields(version, p);
    InvariantsField(version, p, 5);
    assert fields[9].name == "schema";
    forall k | k in j.fields
      ensures Finite(j.fields[k])
    {
      var n := FieldOf(j, fields, k);
      FieldIn(j, fields, n);
      if n != 5 && n != 9 {
        EvidenceClosed(version, p, n);
        ClosedMeansFinite(j.fields[k], fields[n].shape);
      }
    }
  }

  /** Whatever is accepted holds no infinity, so it can be printed. */
  lemma AcceptedFinite(j: Json, pins: Pins)
    requires ValidateEvidence(j, pins).Accepted? && AllPinsFinite(pins)
    ensures Finite(j)
  {
    hide Conforms, EvidenceFields, Finite, Stores;
    AcceptedMeans(j, pins);
    var version := ValidateEvidence(j, pins).version;
    StoresFinite(Get(j, "invariants"), ValidateEvidence(j, pins).verdicts);
    ShapedFinite(j, version, pins.For(version));
  }
}
