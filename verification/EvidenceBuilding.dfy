/** The evidence of a run: its lanes are read back from it unchanged, and it is accepted when its verdicts are true. */
module EvidenceBuilding {
  import opened Wrappers
  import opened Building
  import opened Evidence
  import opened Json
  import opened KeyOrder
  import opened Oracle
  import opened PrefixOracle
  import opened Reading
  import opened Sorting
  import opened Verdicts

  // -- Lanes in any key order ----------------------------------------------------------------

  function CacheKeys(): seq<string> {
    ["cold_cache_on", "repeat_cache_on", "cold_cache_off", "repeat_cache_off"]
  }

  lemma CacheKeysDistinct()
    ensures NoDuplicates(CacheKeys())
    ensures forall k :: k in CacheKeys() <==> k in FieldNames(CACHE_PAIRING.fields)
  {
    var n := CacheKeys();
    assert |n[0]| == 13 && |n[1]| == 15 && |n[2]| == 14 && |n[3]| == 16;
    var f := CACHE_PAIRING.fields;
    assert f[0].name == n[2] && f[1].name == n[0] && f[2].name == n[3] && f[3].name == n[1];
    forall k | k in n
      ensures k in FieldNames(f)
    {
    }
  }

  function CacheValues(v: CachePairing, u: CacheUnread): (values: seq<Json>)
    ensures |values| == 4
  {
    [ ObservedJson(v.coldOn, u.coldOn), ObservedJson(v.repeatOn, u.repeatOn),
      ObservedJson(v.coldOff, u.coldOff), ObservedJson(v.repeatOff, u.repeatOff) ]
  }

  /** The cache lane, keys in the order in which its requests were made. */
  function CacheJson(v: CachePairing, u: CacheUnread): Json {
    ObjectOf(CacheKeys(), CacheValues(v, u))
  }

  predicate InRegisteredOrder(v: CachePairing) {
    v.inOrder == [v.coldOn, v.repeatOn, v.coldOff, v.repeatOff]
  }

  predicate CacheWritable(v: CachePairing) {
    && ObservedWritable(v.coldOn) && ObservedWritable(v.repeatOn)
    && ObservedWritable(v.coldOff) && ObservedWritable(v.repeatOff)
  }

  lemma CacheFits(fit: Fit, v: CachePairing, u: CacheUnread)
    requires Rules(fit) && CacheWritable(v)
    ensures fit(CacheJson(v, u), CACHE_PAIRING)
  {
    CacheKeysDistinct();
    ObservedFits(fit, v.coldOn, u.coldOn);
    ObservedFits(fit, v.repeatOn, u.repeatOn);
    ObservedFits(fit, v.coldOff, u.coldOff);
    ObservedFits(fit, v.repeatOff, u.repeatOff);
    assert UniformRule(fit, CacheKeys(), CacheValues(v, u), CACHE_PAIRING.fields, OBSERVED);
  }

  lemma CacheAt(v: CachePairing, u: CacheUnread, n: nat)
    requires n < 4 && InRegisteredOrder(v)
    ensures ObservedAt(CacheJson(v, u), CacheKeys()[n]) == Ok(v.inOrder[n])
  {
    CacheKeysDistinct();
    ObjectAt(CacheKeys(), CacheValues(v, u), n);
    ObservedRoundTrip(v.inOrder[n], [u.coldOn, u.repeatOn, u.coldOff, u.repeatOff][n]);
  }

  lemma ValuesListed(j: Json, keys: seq<string>, os: seq<Observed>)
    requires |os| == |keys| && forall n :: 0 <= n < |keys| ==> ObservedAt(j, keys[n]) == Ok(os[n])
    ensures ReadValues(j, keys) == Ok(os)
  {
    ValuesRead(j, keys);
    assert ReadValues(j, keys).value == os;
  }

  lemma CacheValuesRead(v: CachePairing, u: CacheUnread)
    requires InRegisteredOrder(v)
    ensures ReadValues(CacheJson(v, u), CacheKeys()) == Ok(v.inOrder)
  {
    var j, keys := CacheJson(v, u), CacheKeys();
    forall n | 0 <= n < |keys|
      ensures ObservedAt(j, keys[n]) == Ok(v.inOrder[n])
    {
      CacheAt(v, u, n);
    }
    ValuesListed(j, keys, v.inOrder);
  }

  lemma CacheRoundTrip(v: CachePairing, u: CacheUnread)
    requires InRegisteredOrder(v)
    ensures ReadCachePairing(CacheJson(v, u)) == Ok(v)
  {
    CacheAt(v, u, 0);
    CacheAt(v, u, 1);
    CacheAt(v, u, 2);
    CacheAt(v, u, 3);
    CacheValuesRead(v, u);
  }

  function LaneNames(value: Cases): seq<string> {
    seq(|value|, i requires 0 <= i < |value| => value[i].0)
  }

  function CaseValues(value: Cases): seq<Json> {
    seq(|value|, i requires 0 <= i < |value| => CaseJson(value[i].1))
  }

  /** The direct-token lane, keys in the order of its cases. */
  function PrefixJson(value: Cases): Json {
    ObjectOf(LaneNames(value), CaseValues(value))
  }

  /** The three registered names, in any order. */
  ghost predicate NamesRegistered(value: Cases) {
    NamesDistinct(value) && forall name :: PrefixName(name) <==> name in LaneNames(value)
  }

  predicate PrefixWritable(value: Cases) {
    forall i :: 0 <= i < |value| ==> CaseWritable(value[i].1)
  }

  lemma PrefixFields(name: string)
    ensures PrefixName(name) <==> name in FieldNames(TOKEN_PREFIX.fields)
  {
    var f := TOKEN_PREFIX.fields;
    assert f[0].name == "exact" && f[1].name == "first_token_divergence" && f[2].name == "shared_prefix";
    if PrefixName(name) {
      assert f[0].name in FieldNames(f) && f[1].name in FieldNames(f) && f[2].name in FieldNames(f);
    }
  }

  lemma PrefixFits(fit: Fit, value: Cases)
    requires Rules(fit) && NamesRegistered(value) && PrefixWritable(value)
    ensures fit(PrefixJson(value), TOKEN_PREFIX)
  {
    hide CaseJson, CaseWritable, CountRule, PinRule, RecRule, PrefixName, Conforms;
    forall k
      ensures k in LaneNames(value) <==> k in FieldNames(TOKEN_PREFIX.fields)
    {
      PrefixFields(k);
    }
    forall i | 0 <= i < |value|
      ensures fit(CaseValues(value)[i], PREFIX_CASE)
    {
      CaseFits(fit, value[i].1);
    }
    assert UniformRule(fit, LaneNames(value), CaseValues(value), TOKEN_PREFIX.fields, PREFIX_CASE);
  }

  /** The registration lists the lengths that the lane was run with. */
  ghost predicate RegistersLane(registration: Json, lane: PrefixLane) {
    && Has(registration, "token_prefix_divergence")
    && (forall name :: name in lane.registration <==> name in LaneNames(lane.value))
    && forall name :: name in lane.registration ==>
         RegisteredAt(Get(registration, "token_prefix_divergence"), name) == Ok(lane.registration[name])
  }

  lemma PrefixRoundTrip(lane: PrefixLane, registration: Json)
    requires NamesDistinct(lane.value) && RegistersLane(registration, lane)
    ensures ReadPrefixLane(PrefixJson(lane.value), registration) == Ok(lane)
  {
    hide CaseJson, ReadCase, ReadRegistered, ReadCases;
    var reg := Get(registration, "token_prefix_divergence");
    var names, j := LaneNames(lane.value), PrefixJson(lane.value);
    forall n | 0 <= n < |names|
      ensures CaseReader(j)(names[n]) == Ok(lane.value[n].1) && RegisteredReader(reg)(names[n]).Ok?
    {
      ObjectAt(names, CaseValues(lane.value), n);
      CaseRoundTrip(lane.value[n].1);
      assert names[n] in lane.registration;
    }
    CasesRead(CaseReader(j), RegisteredReader(reg), names);
    var read := ReadCases(CaseReader(j), RegisteredReader(reg), names).value;
    assert read.value == lane.value;
    assert read.registration == lane.registration;
  }

  // -- The evidence --------------------------------------------------------------------------

  lemma BoundaryNames()
    ensures NoDuplicates(Names(BOUNDARY.fields))
  {
    var n := Names(BOUNDARY.fields);
    assert |n[0]| == 23 && |n[1]| == 23 && |n[2]| == 18 && |n[3]| == 26 && |n[4]| == 14 && |n[5]| == 24 && |n[6]| == 24;
    assert n[0][0] == 'a' && n[1][0] == 'g' && n[5][4] == 's' && n[6][4] == 't';
  }

  function Falses(): (values: seq<Json>)
    ensures |values| == 7 && forall n :: 0 <= n < 7 ==> values[n] == Bool(false)
  {
    seq(7, n => Bool(false))
  }

  function BoundaryJson(): Json {
    Rec(BOUNDARY.fields, Falses())
  }

  lemma BoundaryFits(fit: Fit)
    requires Rules(fit)
    ensures fit(BoundaryJson(), BOUNDARY)
  {
    BoundaryNames();
    assert forall n :: 0 <= n < 7 ==> BOUNDARY.fields[n].shape == False;
    assert RecRule(fit, BOUNDARY.fields, Falses());
  }

  lemma EvidenceNames(p: VersionPins)
    ensures |EvidenceFields(Version3, p)| == 14 && NoDuplicates(Names(EvidenceFields(Version3, p)))
  {
    var n := Names(EvidenceFields(Version3, p));
    assert |n[0]| == 13 && |n[1]| == 18 && |n[2]| == 12 && |n[3]| == 12 && |n[4]| == 7 && |n[5]| == 10 && |n[6]| == 8;
    assert |n[7]| == 7 && |n[8]| == 8 && |n[9]| == 6 && |n[10]| == 15 && |n[11]| == 9 && |n[12]| == 22 && |n[13]| == 23;
    assert n[2][0] == 's' && n[3][0] == 'r' && n[4][0] == 'r' && n[7][0] == 'f' && n[6][0] == 'b' && n[8][0] == 'p';
  }

  /** Everything that goes into the evidence of a run, already written down. */
  datatype Parts = Parts(
    cache: Json, cancellation: Json, interleaving: Json, save: Json, prefix: Json,
    stored: Json, runtime: Json, revision: string)

  function EvidenceValues(x: Parts, p: VersionPins): (values: seq<Json>)
    ensures |values| == 14
  {
    [ x.cache, x.cancellation, x.save, p.registration, x.runtime, x.stored,
      BoundaryJson(), p.fixture, p.producer, Str(SchemaName(Version3)), Str(x.revision), p.transport,
      x.interleaving, x.prefix ]
  }

  function EvidenceJson(x: Parts, p: VersionPins): Json {
    EvidenceNames(p);
    Rec(EvidenceFields(Version3, p), EvidenceValues(x, p))
  }

  lemma EvidenceAt(x: Parts, p: VersionPins, n: nat)
    requires n < 14
    ensures |EvidenceFields(Version3, p)| == 14
    ensures At(EvidenceJson(x, p), EvidenceFields(Version3, p)[n].name) == Ok(EvidenceValues(x, p)[n])
  {
    EvidenceNames(p);
    RecAt(EvidenceFields(Version3, p), EvidenceValues(x, p), n);
  }

  lemma OldLanesWritten(x: Parts, p: VersionPins)
    ensures At(EvidenceJson(x, p), "cache_pairing") == Ok(x.cache)
    ensures At(EvidenceJson(x, p), "cancellation_reuse") == Ok(x.cancellation)
    ensures At(EvidenceJson(x, p), "save_restore") == Ok(x.save)
  {
    EvidenceAt(x, p, 0);
    EvidenceAt(x, p, 1);
    EvidenceAt(x, p, 2);
  }

  lemma NewLanesWritten(x: Parts, p: VersionPins)
    ensures At(EvidenceJson(x, p), "registration") == Ok(p.registration)
    ensures At(EvidenceJson(x, p), "interleaving_isolation") == Ok(x.interleaving)
    ensures At(EvidenceJson(x, p), "token_prefix_divergence") == Ok(x.prefix)
  {
    EvidenceAt(x, p, 3);
    EvidenceAt(x, p, 12);
    EvidenceAt(x, p, 13);
  }

  lemma HeadWritten(x: Parts, p: VersionPins)
    ensures At(EvidenceJson(x, p), "invariants") == Ok(x.stored)
    ensures At(EvidenceJson(x, p), "schema") == Ok(Str(SchemaName(Version3)))
  {
    EvidenceAt(x, p, 5);
    EvidenceAt(x, p, 9);
  }

  lemma SchemaRead(j: Json)
    requires At(j, "schema") == Ok(Str(SchemaName(Version3)))
    ensures SchemaOf(j) == Some(Version3)
  {
    assert SchemaName(Version1)[26] == '1' && SchemaName(Version2)[26] == '2' && SchemaName(Version3)[26] == '3';
  }

  /** `x` writes down these lanes. */
  predicate Reads(x: Parts, p: VersionPins, lanes: Lanes) {
    && lanes.V3?
    && ReadCachePairing(x.cache) == Ok(lanes.cache) && ReadCancellation(x.cancellation) == Ok(lanes.cancellation)
    && ReadInterleaving(x.interleaving) == Ok(lanes.interleaving) && ReadSaveRestore(x.save) == Ok(lanes.save)
    && ReadPrefixLane(x.prefix, p.registration) == Ok(lanes.prefix)
  }

  lemma OldLanesReadBack(x: Parts, p: VersionPins, lanes: Lanes)
    requires Reads(x, p, lanes)
    ensures CacheIn(EvidenceJson(x, p)) == Ok(lanes.cache)
    ensures CancellationIn(EvidenceJson(x, p)) == Ok(lanes.cancellation)
    ensures SaveIn(EvidenceJson(x, p)) == Ok(lanes.save)
  {
    OldLanesWritten(x, p);
  }

  lemma NewLanesReadBack(x: Parts, p: VersionPins, lanes: Lanes)
    requires Reads(x, p, lanes)
    ensures InterleavingIn(EvidenceJson(x, p)) == Ok(lanes.interleaving)
    ensures PrefixIn(EvidenceJson(x, p)) == Ok(lanes.prefix)
  {
    NewLanesWritten(x, p);
  }

  lemma LanesTogether(j: Json, lanes: Lanes)
    requires lanes.V3? && CacheIn(j) == Ok(lanes.cache) && CancellationIn(j) == Ok(lanes.cancellation)
    requires SaveIn(j) == Ok(lanes.save) && InterleavingIn(j) == Ok(lanes.interleaving)
    requires PrefixIn(j) == Ok(lanes.prefix)
    ensures ReadLanes(j, Version3) == Ok(lanes)
  {
    hide CacheIn, CancellationIn, SaveIn, InterleavingIn, PrefixIn;
  }

  lemma LanesReadBack(x: Parts, p: VersionPins, lanes: Lanes)
    requires Reads(x, p, lanes)
    ensures ReadLanes(EvidenceJson(x, p), Version3) == Ok(lanes)
  {
    OldLanesReadBack(x, p, lanes);
    NewLanesReadBack(x, p, lanes);
    LanesTogether(EvidenceJson(x, p), lanes);
  }

  // -- It has the shape that validation demands ----------------------------------------------

  predicate PartsFit(fit: Fit, x: Parts) {
    && fit(x.cache, CACHE_PAIRING) && fit(x.cancellation, CANCELLATION) && fit(x.interleaving, INTERLEAVING)
    && fit(x.save, SAVE_RESTORE) && fit(x.prefix, TOKEN_PREFIX) && fit(x.stored, Anything)
  }

  predicate PinsFit(fit: Fit, x: Parts, p: VersionPins) {
    && fit(p.registration, OneOf([p.registration])) && fit(x.runtime, OneOf(p.runtimes))
    && fit(p.fixture, OneOf([p.fixture]))
    && fit(p.producer, OneOf([p.producer])) && fit(p.transport, OneOf([p.transport]))
  }

  lemma EvidenceFits(fit: Fit, x: Parts, p: VersionPins)
    requires Rules(fit) && PartsFit(fit, x) && PinsFit(fit, x, p) && IsRevision(x.revision)
    ensures fit(EvidenceJson(x, p), Exact(EvidenceFields(Version3, p)))
  {
    EvidenceNames(p);
    BoundaryFits(fit);
    assert WellFormed(Str(SchemaName(Version3)));
    assert RecRule(fit, EvidenceFields(Version3, p), EvidenceValues(x, p));
  }

  // -- The rules hold of conformity itself ---------------------------------------------------

  lemma RecordRuleHolds(fields: seq<Field>, values: seq<Json>)
    ensures RecRule(ConformsWell(), fields, values)
  {
    if |fields| == |values| && NoDuplicates(Names(fields))
       && (forall n :: 0 <= n < |fields| ==> ConformsWell()(values[n], fields[n].shape)) {
      ObjectConforms(fields, values);
      ObjectWellFormed(Names(fields), values);
    }
  }

  lemma UniformConforms(names: seq<string>, values: seq<Json>, fields: seq<Field>, shape: Shape)
    requires |names| == |values| && NoDuplicates(names) && forall k :: k in names <==> k in FieldNames(fields)
    requires forall n :: 0 <= n < |fields| ==> fields[n].shape == shape
    requires forall n :: 0 <= n < |values| ==> Conforms(values[n], shape)
    ensures Conforms(ObjectOf(names, values), Exact(fields))
  {
    var j := ObjectOf(names, values);
    FieldMapKeys(names, values);
    assert j.fields.Keys == FieldNames(fields);
    forall n | 0 <= n < |fields|
      ensures Has(j, fields[n].name) && Conforms(j.fields[fields[n].name], fields[n].shape)
    {
      assert fields[n].name in FieldNames(fields);
      var m :| 0 <= m < |names| && names[m] == fields[n].name;
      FieldMapAt(names, values, m);
    }
  }

  lemma UniformRuleHolds(names: seq<string>, values: seq<Json>, fields: seq<Field>, shape: Shape)
    ensures UniformRule(ConformsWell(), names, values, fields, shape)
  {
    if && |names| == |values| && NoDuplicates(names) && (forall k :: k in names <==> k in FieldNames(fields))
       && (forall n :: 0 <= n < |fields| ==> fields[n].shape == shape)
       && (forall n :: 0 <= n < |values| ==> ConformsWell()(values[n], shape)) {
      ObjectWellFormed(names, values);
      UniformConforms(names, values, fields, shape);
    }
  }

  lemma {:induction false} EqualsItself(j: Json)
    ensures PyEq(j, j)
  {
    match j
    case Obj(fields, _) =>
      forall k | k in fields ensures PyEq(fields[k], fields[k]) { EqualsItself(fields[k]); }
    case Arr(items) =>
      forall n | 0 <= n < |items| ensures PyEq(items[n], items[n]) { EqualsItself(items[n]); }
    case _ =>
  }

  lemma PinRuleHolds(pins: seq<Json>, n: nat)
    ensures PinRule(ConformsWell(), pins, n)
  {
    if n < |pins| && WellFormed(pins[n]) {
      EqualsItself(pins[n]);
      assert Conforms(pins[n], OneOf(pins));
    }
  }

  lemma LeafRulesHold()
    ensures forall b :: ConformsWell()(Bool(b), Boolean)
    ensures forall i :: i >= 0 ==> ConformsWell()(Int(i), NonNegative)
    ensures forall i :: i > 0 ==> ConformsWell()(Int(i), Positive)
    ensures forall s :: IsDigest(s) ==> ConformsWell()(Str(s), Digest)
    ensures forall s :: IsRevision(s) ==> ConformsWell()(Str(s), Revision)
    ensures forall j :: WellFormed(j) ==> ConformsWell()(j, Anything)
    ensures ConformsWell()(Bool(false), False)
  {
    forall b ensures ConformsWell()(Bool(b), Boolean) {
      assert Conforms(Bool(b), Boolean) && WellFormed(Bool(b));
    }
    forall i | i >= 0 ensures ConformsWell()(Int(i), NonNegative) {
      assert Conforms(Int(i), NonNegative) && WellFormed(Int(i));
    }
    forall i | i > 0 ensures ConformsWell()(Int(i), Positive) {
      assert Conforms(Int(i), Positive) && WellFormed(Int(i));
    }
    forall s | IsDigest(s) ensures ConformsWell()(Str(s), Digest) {
      assert Conforms(Str(s), Digest) && WellFormed(Str(s));
    }
    forall s | IsRevision(s) ensures ConformsWell()(Str(s), Revision) {
      assert Conforms(Str(s), Revision) && WellFormed(Str(s));
    }
    forall j | WellFormed(j) ensures ConformsWell()(j, Anything) {
      assert Conforms(j, Anything);
    }
  }

  lemma CountRuleHolds(j: Json, inner: Shape, left: string, right: string)
    ensures CountRule(ConformsWell(), j, inner, left, right)
  {
  }

  lemma WhatFitsConforms(j: Json, shape: Shape)
    requires ConformsWell()(j, shape)
    ensures Conforms(j, shape) && WellFormed(j)
  {
  }

  lemma ConformityFollowsTheRules()
    ensures Rules(ConformsWell())
  {
    forall fields, values ensures RecRule(ConformsWell(), fields, values) {
      RecordRuleHolds(fields, values);
    }
    forall names, values, fields, shape ensures UniformRule(ConformsWell(), names, values, fields, shape) {
      UniformRuleHolds(names, values, fields, shape);
    }
    forall pins, n: nat ensures PinRule(ConformsWell(), pins, n) {
      PinRuleHolds(pins, n);
    }
    forall j, inner, left, right ensures CountRule(ConformsWell(), j, inner, left, right) {
      CountRuleHolds(j, inner, left, right);
    }
    LeafRulesHold();
  }

  // -- Evidence of a run ---------------------------------------------------------------------

  predicate LanesWritable(lanes: Lanes) {
    && lanes.V3? && InRegisteredOrder(lanes.cache) && CacheWritable(lanes.cache)
    && ObservedWritable(lanes.cancellation.baseline) && ObservedWritable(lanes.cancellation.reused)
    && InterleavingWritable(lanes.interleaving) && SaveWritable(lanes.save) && PrefixWritable(lanes.prefix.value)
  }

  ghost predicate RuntimesWellFormed(p: VersionPins) {
    forall n :: 0 <= n < |p.runtimes| ==> WellFormed(p.runtimes[n])
  }

  ghost predicate PinsWellFormed(p: VersionPins) {
    && WellFormed(p.registration) && WellFormed(p.producer) && WellFormed(p.fixture) && WellFormed(p.transport)
    && RuntimesWellFormed(p)
  }

  function PartsOf(lanes: Lanes, u: Unread, stored: Json, runtime: Json, revision: string): Parts
    requires lanes.V3?
  {
    Parts(CacheJson(lanes.cache, u.cache), CancellationJson(lanes.cancellation, u.cancellation),
          InterleavingJson(lanes.interleaving, u.interleaving), SaveJson(lanes.save, u.save),
          PrefixJson(lanes.prefix.value), stored, runtime, revision)
  }

  lemma PartsOfRead(lanes: Lanes, u: Unread, stored: Json, runtime: Json, revision: string, p: VersionPins)
    requires lanes.V3? && InRegisteredOrder(lanes.cache)
    requires NamesDistinct(lanes.prefix.value) && RegistersLane(p.registration, lanes.prefix)
    ensures Reads(PartsOf(lanes, u, stored, runtime, revision), p, lanes)
  {
    CacheRoundTrip(lanes.cache, u.cache);
    CancellationRoundTrip(lanes.cancellation, u.cancellation);
    InterleavingRoundTrip(lanes.interleaving, u.interleaving);
    SaveRoundTrip(lanes.save, u.save);
    PrefixRoundTrip(lanes.prefix, p.registration);
  }

  lemma PartsOfFit(fit: Fit, lanes: Lanes, u: Unread, stored: Json, runtime: Json, revision: string)
    requires Rules(fit) && LanesWritable(lanes) && NamesRegistered(lanes.prefix.value) && WellFormed(stored)
    ensures PartsFit(fit, PartsOf(lanes, u, stored, runtime, revision))
  {
    CacheFits(fit, lanes.cache, u.cache);
    CancellationFits(fit, lanes.cancellation, u.cancellation);
    InterleavingFits(fit, lanes.interleaving, u.interleaving);
    SaveFits(fit, lanes.save, u.save);
    PrefixFits(fit, lanes.prefix.value);
  }

  lemma PinsOfFit(fit: Fit, x: Parts, p: VersionPins)
    requires Rules(fit) && PinsWellFormed(p) && x.runtime in p.runtimes
    ensures PinsFit(fit, x, p)
  {
    var n :| 0 <= n < |p.runtimes| && p.runtimes[n] == x.runtime;
    assert PinRule(fit, [p.registration], 0) && PinRule(fit, p.runtimes, n) && PinRule(fit, [p.fixture], 0);
    assert PinRule(fit, [p.producer], 0) && PinRule(fit, [p.transport], 0);
  }

  /** A listing of the verdicts' names. */
  ghost predicate IsListing(order: seq<string>, verdicts: map<string, bool>) {
    NoDuplicates(order) && forall name :: name in order <==> name in verdicts
  }

  lemma VerdictObjectWellFormed(verdicts: map<string, bool>, order: seq<string>)
    requires IsListing(order, verdicts)
    ensures WellFormed(VerdictObject(verdicts, order))
  {
  }

  /** The observed lanes and what goes with them: what no oracle reads, the verdicts and the order in which they are
      listed, platform and revision. */
  datatype Draft = Draft(
    lanes: Lanes, unread: Unread, verdicts: map<string, bool>, order: seq<string>, runtime: Json, revision: string)

  /** What the runner hands to the bundle writer. */
  function EvidenceOf(d: Draft, p: VersionPins): Json
    requires d.lanes.V3?
  {
    EvidenceJson(PartsOf(d.lanes, d.unread, VerdictObject(d.verdicts, d.order), d.runtime, d.revision), p)
  }

  lemma EvidenceConforms(d: Draft, p: VersionPins)
    requires LanesWritable(d.lanes) && NamesRegistered(d.lanes.prefix.value) && IsListing(d.order, d.verdicts)
    requires PinsWellFormed(p) && d.runtime in p.runtimes && IsRevision(d.revision)
    ensures WellFormed(EvidenceOf(d, p))
    ensures Conforms(EvidenceOf(d, p), Exact(EvidenceFields(Version3, p)))
  {
    var fit := ConformsWell();
    var stored := VerdictObject(d.verdicts, d.order);
    var x := PartsOf(d.lanes, d.unread, stored, d.runtime, d.revision);
    ConformityFollowsTheRules();
    VerdictObjectWellFormed(d.verdicts, d.order);
    PartsOfFit(fit, d.lanes, d.unread, stored, d.runtime, d.revision);
    PinsOfFit(fit, x, p);
    EvidenceFits(fit, x, p);
  }

  lemma EvidenceReadBack(d: Draft, p: VersionPins)
    requires d.lanes.V3? && InRegisteredOrder(d.lanes.cache)
    requires NamesDistinct(d.lanes.prefix.value) && RegistersLane(p.registration, d.lanes.prefix)
    ensures ReadLanes(EvidenceOf(d, p), Version3) == Ok(d.lanes)
    ensures At(EvidenceOf(d, p), "invariants") == Ok(VerdictObject(d.verdicts, d.order))
    ensures SchemaOf(EvidenceOf(d, p)) == Some(Version3)
  {
    var x := PartsOf(d.lanes, d.unread, VerdictObject(d.verdicts, d.order), d.runtime, d.revision);
    PartsOfRead(d.lanes, d.unread, VerdictObject(d.verdicts, d.order), d.runtime, d.revision, p);
    LanesReadBack(x, p, d.lanes);
    HeadWritten(x, p);
    SchemaRead(EvidenceJson(x, p));
  }

  lemma RecomputedFrom(j: Json, lanes: Lanes, verdicts: map<string, bool>)
    requires LanesReady(lanes) && ReadLanes(j, Version3) == Ok(lanes) && AllInvariants(lanes) == Ok(verdicts)
    ensures Recompute(j, Version3) == Ok(Ok(verdicts))
  {
  }

  lemma Decided(j: Json, pins: Pins, shaped: bool, recomputed: Result<Result<map<string, bool>>>, stored: Result<Json>)
    requires SchemaOf(j) == Some(Version3) && shaped == WellShaped(j, Version3, pins)
    requires !UnhashablePlatform(j, Version3, pins.v3)
    requires recomputed == Recompute(j, Version3) && stored == At(j, "invariants")
    ensures ValidateEvidence(j, pins) == Decide(Version3, shaped, recomputed, stored)
  {
    hide Recompute, UnhashablePlatform, SchemaOf, WellShaped, At, Decide;
  }

  lemma ShapeOfVersion(j: Json, pins: Pins)
    ensures WellShaped(j, Version3, pins) == Conforms(j, Exact(EvidenceFields(Version3, pins.v3)))
  {
  }

  lemma BuiltRecomputed(d: Draft, p: VersionPins)
    requires d.lanes.V3? && InRegisteredOrder(d.lanes.cache)
    requires NamesDistinct(d.lanes.prefix.value) && RegistersLane(p.registration, d.lanes.prefix)
    requires LanesReady(d.lanes) && AllInvariants(d.lanes) == Ok(d.verdicts)
    ensures Recompute(EvidenceOf(d, p), Version3) == Ok(Ok(d.verdicts))
    ensures At(EvidenceOf(d, p), "invariants") == Ok(VerdictObject(d.verdicts, d.order))
    ensures SchemaOf(EvidenceOf(d, p)) == Some(Version3)
  {
    EvidenceReadBack(d, p);
    RecomputedFrom(EvidenceOf(d, p), d.lanes, d.verdicts);
  }

  /** A draft with writable lanes, the lengths they were run with, their verdicts, and what else is compared with
      pins. */
  ghost predicate Submittable(d: Draft, p: VersionPins) {
    && LanesWritable(d.lanes) && NamesRegistered(d.lanes.prefix.value) && RegistersLane(p.registration, d.lanes.prefix)
    && LanesReady(d.lanes) && AllInvariants(d.lanes) == Ok(d.verdicts) && IsListing(d.order, d.verdicts)
    && d.runtime in p.runtimes && IsRevision(d.revision)
  }

  lemma SubmittableShapes(d: Draft, p: VersionPins)
    requires Submittable(d, p) && PinsWellFormed(p)
    ensures WellFormed(EvidenceOf(d, p))
    ensures Conforms(EvidenceOf(d, p), Exact(EvidenceFields(Version3, p)))
  {
    hide LanesWritable, NamesRegistered, RegistersLane, LanesReady, AllInvariants;
    hide IsListing, PinsWellFormed, WellFormed, Conforms;
    EvidenceConforms(d, p);
  }

  lemma SubmittableReadsBack(d: Draft, p: VersionPins)
    requires Submittable(d, p)
    ensures d.lanes.V3? && Recompute(EvidenceOf(d, p), Version3) == Ok(Ok(d.verdicts))
    ensures At(EvidenceOf(d, p), "invariants") == Ok(VerdictObject(d.verdicts, d.order))
    ensures SchemaOf(EvidenceOf(d, p)) == Some(Version3)
  {
    hide RegistersLane, LanesReady, AllInvariants, IsListing, Recompute;
    hide At, SchemaOf, EvidenceOf, CacheWritable, SaveWritable;
    BuiltRecomputed(d, p);
  }

  /** The evidence of a draft is well-formed, and accepted exactly when `passes`. */
  ghost predicate Judged(d: Draft, pins: Pins, passes: bool) {
    && d.lanes.V3? && WellFormed(EvidenceOf(d, pins.v3))
    && ValidateEvidence(EvidenceOf(d, pins.v3), pins) == if passes then Accepted(Version3, d.verdicts) else Rejected
  }

  lemma SubmittedDecided(j: Json, d: Draft, pins: Pins)
    requires Conforms(j, Exact(EvidenceFields(Version3, pins.v3))) && PlatformsNamed(pins.v3)
    requires Recompute(j, Version3) == Ok(Ok(d.verdicts)) && SchemaOf(j) == Some(Version3)
    requires At(j, "invariants") == Ok(VerdictObject(d.verdicts, d.order))
    ensures ValidateEvidence(j, pins) == if AllTrue(d.verdicts) then Accepted(Version3, d.verdicts) else Rejected
  {
    hide Conforms, EvidenceFields, At, VerdictObject, AllTrue, SchemaOf, WellShaped;
    hide UnhashablePlatform, PlatformsNamed, Recompute, ValidateEvidence;
    ShapeOfVersion(j, pins);
    PlatformRead(j, Version3, pins.v3);
    Decided(j, pins, true, Ok(Ok(d.verdicts)), Ok(VerdictObject(d.verdicts, d.order)));
    JudgingItsOwn(d.verdicts, d.order, Version3);
  }

  /** The evidence of such a draft is well-shaped, its lanes are read back as they were observed, and it is accepted
      exactly when all of its own verdicts are true. */
  lemma BuiltEvidenceValidates(d: Draft, pins: Pins)
    requires Submittable(d, pins.v3) && PinsWellFormed(pins.v3) && PlatformsNamed(pins.v3)
    ensures Judged(d, pins, AllTrue(d.verdicts))
  {
    hide Submittable, Conforms, WellFormed, EvidenceOf, EvidenceFields, At, VerdictObject;
    hide PlatformsNamed, PinsWellFormed, Recompute, ValidateEvidence, AllTrue, SchemaOf;
    SubmittableShapes(d, pins.v3);
    SubmittableReadsBack(d, pins.v3);
    SubmittedDecided(EvidenceOf(d, pins.v3), d, pins);
  }
}
