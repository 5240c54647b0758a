/** The evidence that a run writes down, and that the oracles read back from it what was observed. */
module Building {
  import opened Wrappers
  import opened Evidence
  import opened Json
  import opened Oracle
  import opened PrefixOracle
  import opened Reading
  import opened Sorting

  // -- Objects from names and values ---------------------------------------------------------

  function FieldMap(names: seq<string>, values: seq<Json>): map<string, Json>
    requires |names| == |values|
  {
    if names == [] then map[]
    else FieldMap(names[..|names| - 1], values[..|values| - 1])[names[|names| - 1] := values[|values| - 1]]
  }

  /** An object literal: keys in the order given. */
  function ObjectOf(names: seq<string>, values: seq<Json>): Json
    requires |names| == |values|
  {
    Obj(FieldMap(names, values), names)
  }

  lemma {:induction false} FieldMapKeys(names: seq<string>, values: seq<Json>)
    requires |names| == |values|
    ensures forall k :: k in FieldMap(names, values) <==> k in names
  {
    if names != [] {
      var n := |names| - 1;
      FieldMapKeys(names[..n], values[..n]);
      assert names == names[..n] + [names[n]];
    }
  }

  lemma {:induction false} FieldMapAt(names: seq<string>, values: seq<Json>, n: nat)
    requires |names| == |values| && NoDuplicates(names) && n < |names|
    ensures names[n] in FieldMap(names, values) && FieldMap(names, values)[names[n]] == values[n]
  {
    var last := |names| - 1;
    if n < last {
      FieldMapAt(names[..last], values[..last], n);
      assert names[n] != names[last];
    }
  }

  lemma ObjectAt(names: seq<string>, values: seq<Json>, n: nat)
    requires |names| == |values| && NoDuplicates(names) && n < |names|
    ensures Has(ObjectOf(names, values), names[n]) && Get(ObjectOf(names, values), names[n]) == values[n]
  {
    FieldMapAt(names, values, n);
  }

  lemma ObjectWellFormed(names: seq<string>, values: seq<Json>)
    requires |names| == |values| && NoDuplicates(names) && forall n :: 0 <= n < |values| ==> WellFormed(values[n])
    ensures WellFormed(ObjectOf(names, values))
  {
    FieldMapKeys(names, values);
    forall k | k in names
      ensures WellFormed(FieldMap(names, values)[k])
    {
      var n :| 0 <= n < |names| && names[n] == k;
      FieldMapAt(names, values, n);
    }
  }

  lemma ObjectFinite(names: seq<string>, values: seq<Json>)
    requires |names| == |values| && NoDuplicates(names) && forall n :: 0 <= n < |values| ==> Finite(values[n])
    ensures Finite(ObjectOf(names, values))
  {
    FieldMapKeys(names, values);
    forall k | k in names
      ensures Finite(FieldMap(names, values)[k])
    {
      var n :| 0 <= n < |names| && names[n] == k;
      FieldMapAt(names, values, n);
    }
  }

  function Names(fields: seq<Field>): seq<string> {
    seq(|fields|, n requires 0 <= n < |fields| => fields[n].name)
  }

  /** Values of the right shapes under the names of a shape conform to it. */
  lemma ObjectConforms(fields: seq<Field>, values: seq<Json>)
    requires |fields| == |values| && NoDuplicates(Names(fields))
    requires forall n :: 0 <= n < |fields| ==> Conforms(values[n], fields[n].shape)
    ensures Conforms(ObjectOf(Names(fields), values), Exact(fields))
  {
    var names := Names(fields);
    var j := ObjectOf(names, values);
    FieldMapKeys(names, values);
    forall k
      ensures k in j.fields.Keys <==> k in FieldNames(fields)
    {
      if k in names {
        var n :| 0 <= n < |names| && names[n] == k;
        assert fields[n].name == k;
      }
      if k in FieldNames(fields) {
        var n :| 0 <= n < |fields| && fields[n].name == k;
        assert names[n] == k;
      }
    }
    assert j.fields.Keys == FieldNames(fields);
    forall n | 0 <= n < |fields|
      ensures Has(j, fields[n].name) && Conforms(j.fields[fields[n].name], fields[n].shape)
    {
      assert names[n] == fields[n].name;
      FieldMapAt(names, values, n);
    }
  }

  /** An object with the names of a shape. */
  function Rec(fields: seq<Field>, values: seq<Json>): Json
    requires |fields| == |values|
  {
    ObjectOf(Names(fields), values)
  }

  lemma RecAt(fields: seq<Field>, values: seq<Json>, n: nat)
    requires |fields| == |values| && NoDuplicates(Names(fields)) && n < |fields|
    ensures Has(Rec(fields, values), fields[n].name) && Get(Rec(fields, values), fields[n].name) == values[n]
  {
    ObjectAt(Names(fields), values, n);
  }

  // -- Fitting a shape -----------------------------------------------------------------------

  /** A stand-in for conformity, of which the records need no more than these rules. */
  type Fit = (Json, Shape) -> bool

  ghost predicate RecRule(fit: Fit, fields: seq<Field>, values: seq<Json>) {
    && |fields| == |values| && NoDuplicates(Names(fields))
    && (forall n :: 0 <= n < |fields| ==> fit(values[n], fields[n].shape))
    ==> fit(Rec(fields, values), Exact(fields))
  }

  ghost predicate CountRule(fit: Fit, j: Json, inner: Shape, left: string, right: string) {
    fit(j, inner) && Has(j, left) && Has(j, right) && Get(j, left).Int? && Get(j, left) == Get(j, right)
    ==> fit(j, SameCount(inner, left, right))
  }

  /** An object in any key order whose fields share one shape. */
  ghost predicate UniformRule(fit: Fit, names: seq<string>, values: seq<Json>, fields: seq<Field>, shape: Shape) {
    && |names| == |values| && NoDuplicates(names) && (forall k :: k in names <==> k in FieldNames(fields))
    && (forall n :: 0 <= n < |fields| ==> fields[n].shape == shape)
    && (forall n :: 0 <= n < |values| ==> fit(values[n], shape))
    ==> fit(ObjectOf(names, values), Exact(fields))
  }

  ghost predicate PinRule(fit: Fit, pins: seq<Json>, n: nat) {
    n < |pins| && WellFormed(pins[n]) ==> fit(pins[n], OneOf(pins))
  }

  predicate IsRevision(s: string) {
    s == "UNCOMMITTED" || LowerHex(s, 40)
  }

  predicate IsDigest(s: string) {
    LowerHex(s, 64)
  }

  ghost predicate Rules(fit: Fit) {
    && (forall fields, values {:trigger RecRule(fit, fields, values)} :: RecRule(fit, fields, values))
    && (forall j, inner, left, right {:trigger CountRule(fit, j, inner, left, right)} ::
          CountRule(fit, j, inner, left, right))
    && (forall b {:trigger fit(Bool(b), Boolean)} :: fit(Bool(b), Boolean))
    && (forall i {:trigger fit(Int(i), NonNegative)} :: i >= 0 ==> fit(Int(i), NonNegative))
    && (forall i {:trigger fit(Int(i), Positive)} :: i > 0 ==> fit(Int(i), Positive))
    && (forall s {:trigger fit(Str(s), Digest)} :: IsDigest(s) ==> fit(Str(s), Digest))
    && (forall names, values, fields, shape {:trigger UniformRule(fit, names, values, fields, shape)} ::
          UniformRule(fit, names, values, fields, shape))
    && (forall pins, n: nat {:trigger PinRule(fit, pins, n)} :: PinRule(fit, pins, n))
    && fit(Bool(false), False)
    && (forall s {:trigger fit(Str(s), Revision)} :: IsRevision(s) ==> fit(Str(s), Revision))
    && (forall j {:trigger fit(j, Anything)} :: WellFormed(j) ==> fit(j, Anything))
  }

  ghost function ConformsWell(): Fit {
    (j, shape) => Conforms(j, shape) && WellFormed(j)
  }

  // -- What the adapter and the hashes guarantee of the values -------------------------------

  predicate CompletionWritable(c: Completion) {
    && c.contentBytes >= 0 && IsDigest(c.contentSha) && IsDigest(c.tokensSha)
    && c.predictedTokens == c.tokenCount > 0 && c.promptWork >= 0
  }

  predicate ObservedWritable(o: Observed) {
    CompletionWritable(o.completion) && o.slot.promptWork >= 0
  }

  predicate PairWritable(p: Pair) {
    ObservedWritable(p.slot0) && ObservedWritable(p.slot1)
  }

  predicate InterleavingWritable(v: Interleaving) {
    PairWritable(v.baselines) && PairWritable(v.slot0First.reuses) && PairWritable(v.slot1First.reuses)
  }

  predicate RestoredWritable(r: Restored) {
    ObservedWritable(r.restored) && r.restoredTokens > 0
  }

  predicate StateFileWritable(f: StateFile) {
    f.bytes > 0 && IsDigest(f.sha)
  }

  predicate SaveWritable(v: SaveRestore) {
    && ObservedWritable(v.source) && RestoredWritable(v.same) && RestoredWritable(v.restarted) && v.savedTokens > 0
    && StateFileWritable(v.before) && StateFileWritable(v.after)
  }

  predicate PrefillWritable(o: Observation) {
    o.cacheTokens >= 0 && o.predictedTokens >= 0 && o.promptTokens >= 0 && o.promptWork >= 0 && o.slotWork >= 0
  }

  predicate CaseWritable(c: Case) {
    PrefillWritable(c.source) && PrefillWritable(c.cacheOn) && PrefillWritable(c.cacheOff)
  }

  // -- What is written down although no oracle looks at it -----------------------------------

  datatype CacheUnread = CacheUnread(coldOn: nat, repeatOn: nat, coldOff: nat, repeatOff: nat)

  datatype CancellationUnread = CancellationUnread(baseline: nat, reused: nat)

  datatype PairUnread = PairUnread(slot0: nat, slot1: nat)

  datatype DirectionUnread = DirectionUnread(bothProcessing: bool, survivorActive: bool, reuses: PairUnread)

  datatype InterleavingUnread = InterleavingUnread(
    baselines: PairUnread, slot0First: DirectionUnread, slot1First: DirectionUnread)

  datatype SaveUnread = SaveUnread(source: nat, same: nat, restarted: nat)

  /** The cached-token count of every completion's response, and the two sampled flags of either direction. */
  datatype Unread = Unread(
    cache: CacheUnread, cancellation: CancellationUnread, interleaving: InterleavingUnread, save: SaveUnread)

  // -- Completions and slots -----------------------------------------------------------------

  lemma CompletionNames()
    ensures NoDuplicates(Names(COMPLETION_FIELDS))
  {
    var n := Names(COMPLETION_FIELDS);
    assert |n[0]| == 13 && |n[1]| == 14 && |n[2]| == 16 && |n[3]| == 11 && |n[4]| == 22 && |n[5]| == 11 && |n[6]| == 13;
    assert n[0][0] == 'c' && n[6][0] == 't' && n[3][0] == 'p' && n[5][0] == 't';
  }

  function CompletionValues(c: Completion, cached: nat): (values: seq<Json>)
    ensures |values| == 7
  {
    [Int(c.contentBytes), Str(c.contentSha), Int(c.predictedTokens),
     Int(c.promptWork), Int(cached), Int(c.tokenCount),
     Str(c.tokensSha)]
  }

  /** A completion as it is written, with the count that no oracle reads. */
  function CompletionJson(c: Completion, cached: nat): Json {
    Rec(COMPLETION_FIELDS, CompletionValues(c, cached))
  }

  lemma CompletionRoundTrip(c: Completion, cached: nat)
    ensures ReadCompletion(CompletionJson(c, cached)) == Ok(c)
  {
    CompletionNames();
    RecAt(COMPLETION_FIELDS, CompletionValues(c, cached), 0);
    RecAt(COMPLETION_FIELDS, CompletionValues(c, cached), 1);
    RecAt(COMPLETION_FIELDS, CompletionValues(c, cached), 2);
    RecAt(COMPLETION_FIELDS, CompletionValues(c, cached), 3);
    RecAt(COMPLETION_FIELDS, CompletionValues(c, cached), 5);
    RecAt(COMPLETION_FIELDS, CompletionValues(c, cached), 6);
  }

  lemma CompletionFits(fit: Fit, c: Completion, cached: nat)
    requires Rules(fit) && CompletionWritable(c)
    ensures fit(CompletionJson(c, cached), COMPLETION)
  {
    CompletionNames();
    assert RecRule(fit, COMPLETION_FIELDS, CompletionValues(c, cached));
    RecAt(COMPLETION_FIELDS, CompletionValues(c, cached), 2);
    RecAt(COMPLETION_FIELDS, CompletionValues(c, cached), 5);
    assert CountRule(fit, CompletionJson(c, cached), Exact(COMPLETION_FIELDS), "token_count", "predicted_tokens");
  }

  lemma SlotNames()
    ensures NoDuplicates(Names(SLOT.fields))
  {
    var n := Names(SLOT.fields);
    assert |n[0]| == 4 && |n[1]| == 11;
  }

  function SlotValues(s: Slot): (values: seq<Json>)
    ensures |values| == 2
  {
    [Bool(s.idle), Int(s.promptWork)]
  }

  function SlotJson(s: Slot): Json {
    Rec(SLOT.fields, SlotValues(s))
  }

  lemma SlotRoundTrip(s: Slot)
    ensures ReadSlot(SlotJson(s)) == Ok(s)
  {
    SlotNames();
    RecAt(SLOT.fields, SlotValues(s), 0);
    RecAt(SLOT.fields, SlotValues(s), 1);
  }

  lemma SlotFits(fit: Fit, s: Slot)
    requires Rules(fit) && s.promptWork >= 0
    ensures fit(SlotJson(s), SLOT)
  {
    SlotNames();
    assert RecRule(fit, SLOT.fields, SlotValues(s));
  }

  lemma ObservedNames()
    ensures NoDuplicates(Names(OBSERVED.fields))
  {
    var n := Names(OBSERVED.fields);
    assert |n[0]| == 10 && |n[1]| == 9;
  }

  function ObservedValues(o: Observed, cached: nat): (values: seq<Json>)
    ensures |values| == 2
  {
    [CompletionJson(o.completion, cached), SlotJson(o.slot)]
  }

  function ObservedJson(o: Observed, cached: nat): Json {
    Rec(OBSERVED.fields, ObservedValues(o, cached))
  }

  lemma ObservedRoundTrip(o: Observed, cached: nat)
    ensures ReadObserved(ObservedJson(o, cached)) == Ok(o)
  {
    ObservedNames();
    RecAt(OBSERVED.fields, ObservedValues(o, cached), 0);
    RecAt(OBSERVED.fields, ObservedValues(o, cached), 1);
    CompletionRoundTrip(o.completion, cached);
    SlotRoundTrip(o.slot);
  }

  lemma ObservedFits(fit: Fit, o: Observed, cached: nat)
    requires Rules(fit) && ObservedWritable(o)
    ensures fit(ObservedJson(o, cached), OBSERVED)
  {
    ObservedNames();
    CompletionFits(fit, o.completion, cached);
    SlotFits(fit, o.slot);
    assert RecRule(fit, OBSERVED.fields, ObservedValues(o, cached));
  }

  // -- Cancellation and interleaving ---------------------------------------------------------

  lemma DisconnectNames()
    ensures NoDuplicates(Names(DISCONNECT.fields))
  {
    var n := Names(DISCONNECT.fields);
    assert |n[0]| == 26 && |n[1]| == 23 && |n[2]| == 20 && |n[3]| == 21;
  }

  function DisconnectValues(d: Disconnect): (values: seq<Json>)
    ensures |values| == 4
  {
    [Bool(d.activeObserved), Bool(d.firstNonterminal), Bool(d.firstObserved),
     Bool(d.idleAfter)]
  }

  function DisconnectJson(d: Disconnect): Json {
    Rec(DISCONNECT.fields, DisconnectValues(d))
  }

  lemma DisconnectRoundTrip(d: Disconnect)
    ensures ReadDisconnect(DisconnectJson(d)) == Ok(d)
  {
    DisconnectNames();
    RecAt(DISCONNECT.fields, DisconnectValues(d), 0);
    RecAt(DISCONNECT.fields, DisconnectValues(d), 1);
    RecAt(DISCONNECT.fields, DisconnectValues(d), 2);
    RecAt(DISCONNECT.fields, DisconnectValues(d), 3);
  }

  lemma DisconnectFits(fit: Fit, d: Disconnect)
    requires Rules(fit)
    ensures fit(DisconnectJson(d), DISCONNECT)
  {
    DisconnectNames();
    assert RecRule(fit, DISCONNECT.fields, DisconnectValues(d));
  }

  lemma CancellationNames()
    ensures NoDuplicates(Names(CANCELLATION.fields))
  {
    var n := Names(CANCELLATION.fields);
    assert |n[0]| == 14 && |n[1]| == 10 && |n[2]| == 11;
  }

  function CancellationValues(v: Cancellation, u: CancellationUnread): (values: seq<Json>)
    ensures |values| == 3
  {
    [ObservedJson(v.baseline, u.baseline), DisconnectJson(v.disconnect), ObservedJson(v.reused, u.reused)]
  }

  function CancellationJson(v: Cancellation, u: CancellationUnread): Json {
    Rec(CANCELLATION.fields, CancellationValues(v, u))
  }

  lemma CancellationRoundTrip(v: Cancellation, u: CancellationUnread)
    ensures ReadCancellation(CancellationJson(v, u)) == Ok(v)
  {
    CancellationNames();
    RecAt(CANCELLATION.fields, CancellationValues(v, u), 0);
    RecAt(CANCELLATION.fields, CancellationValues(v, u), 1);
    RecAt(CANCELLATION.fields, CancellationValues(v, u), 2);
    ObservedRoundTrip(v.baseline, u.baseline);
    DisconnectRoundTrip(v.disconnect);
    ObservedRoundTrip(v.reused, u.reused);
  }

  lemma CancellationFits(fit: Fit, v: Cancellation, u: CancellationUnread)
    requires Rules(fit) && ObservedWritable(v.baseline) && ObservedWritable(v.reused)
    ensures fit(CancellationJson(v, u), CANCELLATION)
  {
    CancellationNames();
    ObservedFits(fit, v.baseline, u.baseline);
    DisconnectFits(fit, v.disconnect);
    ObservedFits(fit, v.reused, u.reused);
    assert RecRule(fit, CANCELLATION.fields, CancellationValues(v, u));
  }

  lemma PairNames()
    ensures NoDuplicates(Names(PAIR.fields))
  {
    var n := Names(PAIR.fields);
    assert n[0][5] == '0' && n[1][5] == '1';
  }

  function PairValues(p: Pair, u: PairUnread): (values: seq<Json>)
    ensures |values| == 2
  {
    [ObservedJson(p.slot0, u.slot0), ObservedJson(p.slot1, u.slot1)]
  }

  function PairJson(p: Pair, u: PairUnread): Json {
    Rec(PAIR.fields, PairValues(p, u))
  }

  lemma PairRoundTrip(p: Pair, u: PairUnread)
    ensures ReadPair(PairJson(p, u)) == Ok(p)
  {
    PairNames();
    RecAt(PAIR.fields, PairValues(p, u), 0);
    RecAt(PAIR.fields, PairValues(p, u), 1);
    ObservedRoundTrip(p.slot0, u.slot0);
    ObservedRoundTrip(p.slot1, u.slot1);
  }

  lemma PairFits(fit: Fit, p: Pair, u: PairUnread)
    requires Rules(fit) && PairWritable(p)
    ensures fit(PairJson(p, u), PAIR)
  {
    PairNames();
    ObservedFits(fit, p.slot0, u.slot0);
    ObservedFits(fit, p.slot1, u.slot1);
    assert RecRule(fit, PAIR.fields, PairValues(p, u));
  }

  lemma DirectionNames()
    ensures NoDuplicates(Names(DIRECTION.fields))
  {
    var n := Names(DIRECTION.fields);
    assert |n[0]| == 33 && |n[1]| == 35 && |n[2]| == 24 && |n[3]| == 42 && |n[4]| == 6;
    assert |n[5]| == 30 && |n[6]| == 27 && |n[7]| == 30 && |n[8]| == 27 && |n[9]| == 38;
    assert n[5][5] == '0' && n[6][5] == '0' && n[7][5] == '1' && n[8][5] == '1';
  }

  function DirectionValues(d: Direction, u: DirectionUnread): (values: seq<Json>)
    ensures |values| == 10
  {
    [Bool(d.bothIdle), Bool(d.bothFirstEvents), Bool(u.bothProcessing),
     Bool(d.cancelledIdle), PairJson(d.reuses, u.reuses), Bool(d.nonterminal0),
     Bool(d.observed0), Bool(d.nonterminal1), Bool(d.observed1),
     Bool(u.survivorActive)]
  }

  /** One direction, with the two sampled flags that no oracle reads. */
  function DirectionJson(d: Direction, u: DirectionUnread): Json {
    Rec(DIRECTION.fields, DirectionValues(d, u))
  }

  lemma DirectionFlagsRead(d: Direction, u: DirectionUnread)
    ensures var j := DirectionJson(d, u);
            && BoolAt(j, "both_first_events_before_disconnect") == Ok(d.bothFirstEvents)
            && BoolAt(j, "cancelled_slot_idle_after_first_disconnect") == Ok(d.cancelledIdle)
            && BoolAt(j, "both_idle_after_second_disconnect") == Ok(d.bothIdle)
            && PairAt(j, "reuses") == Ok(d.reuses)
  {
    DirectionNames();
    RecAt(DIRECTION.fields, DirectionValues(d, u), 0);
    RecAt(DIRECTION.fields, DirectionValues(d, u), 1);
    RecAt(DIRECTION.fields, DirectionValues(d, u), 3);
    RecAt(DIRECTION.fields, DirectionValues(d, u), 4);
    PairRoundTrip(d.reuses, u.reuses);
  }

  lemma DirectionEventsRead(d: Direction, u: DirectionUnread)
    ensures var j := DirectionJson(d, u);
            && BoolAt(j, "slot_0_first_event_observed") == Ok(d.observed0)
            && BoolAt(j, "slot_0_first_event_nonterminal") == Ok(d.nonterminal0)
            && BoolAt(j, "slot_1_first_event_observed") == Ok(d.observed1)
            && BoolAt(j, "slot_1_first_event_nonterminal") == Ok(d.nonterminal1)
  {
    DirectionNames();
    RecAt(DIRECTION.fields, DirectionValues(d, u), 5);
    RecAt(DIRECTION.fields, DirectionValues(d, u), 6);
    RecAt(DIRECTION.fields, DirectionValues(d, u), 7);
    RecAt(DIRECTION.fields, DirectionValues(d, u), 8);
  }

  lemma DirectionRoundTrip(d: Direction, u: DirectionUnread)
    ensures ReadDirection(DirectionJson(d, u)) == Ok(d)
  {
    DirectionFlagsRead(d, u);
    DirectionEventsRead(d, u);
  }

  lemma DirectionFits(fit: Fit, d: Direction, u: DirectionUnread)
    requires Rules(fit) && PairWritable(d.reuses)
    ensures fit(DirectionJson(d, u), DIRECTION)
  {
    hide PairJson, PairWritable, UniformRule, PinRule, CountRule, Conforms;
    DirectionNames();
    PairFits(fit, d.reuses, u.reuses);
    assert RecRule(fit, DIRECTION.fields, DirectionValues(d, u));
  }

  lemma InterleavingNames()
    ensures NoDuplicates(Names(INTERLEAVING.fields))
  {
    var n := Names(INTERLEAVING.fields);
    assert |n[0]| == 9 && |n[1]| == 22 && |n[2]| == 22 && n[1][5] == '0' && n[2][5] == '1';
  }

  function InterleavingValues(v: Interleaving, u: InterleavingUnread): (values: seq<Json>)
    ensures |values| == 3
  {
    [ PairJson(v.baselines, u.baselines),
      DirectionJson(v.slot0First, u.slot0First), DirectionJson(v.slot1First, u.slot1First) ]
  }

  function InterleavingJson(v: Interleaving, u: InterleavingUnread): Json {
    Rec(INTERLEAVING.fields, InterleavingValues(v, u))
  }

  lemma InterleavingRoundTrip(v: Interleaving, u: InterleavingUnread)
    ensures ReadInterleaving(InterleavingJson(v, u)) == Ok(v)
  {
    InterleavingNames();
    RecAt(INTERLEAVING.fields, InterleavingValues(v, u), 0);
    RecAt(INTERLEAVING.fields, InterleavingValues(v, u), 1);
    RecAt(INTERLEAVING.fields, InterleavingValues(v, u), 2);
    PairRoundTrip(v.baselines, u.baselines);
    DirectionRoundTrip(v.slot0First, u.slot0First);
    DirectionRoundTrip(v.slot1First, u.slot1First);
  }

  lemma InterleavingFits(fit: Fit, v: Interleaving, u: InterleavingUnread)
    requires Rules(fit) && InterleavingWritable(v)
    ensures fit(InterleavingJson(v, u), INTERLEAVING)
  {
    InterleavingNames();
    PairFits(fit, v.baselines, u.baselines);
    DirectionFits(fit, v.slot0First, u.slot0First);
    DirectionFits(fit, v.slot1First, u.slot1First);
    assert RecRule(fit, INTERLEAVING.fields, InterleavingValues(v, u));
  }

  // -- Save and restore ----------------------------------------------------------------------

  lemma RestoredNames()
    ensures NoDuplicates(Names(RESTORED.fields))
  {
    var n := Names(RESTORED.fields);
    assert |n[0]| == 8 && |n[1]| == 15;
  }

  function RestoredValues(r: Restored, cached: nat): (values: seq<Json>)
    ensures |values| == 2
  {
    [ObservedJson(r.restored, cached), Int(r.restoredTokens)]
  }

  function RestoredJson(r: Restored, cached: nat): Json {
    Rec(RESTORED.fields, RestoredValues(r, cached))
  }

  lemma RestoredRoundTrip(r: Restored, cached: nat)
    ensures ReadRestored(RestoredJson(r, cached)) == Ok(r)
  {
    RestoredNames();
    RecAt(RESTORED.fields, RestoredValues(r, cached), 0);
    RecAt(RESTORED.fields, RestoredValues(r, cached), 1);
    ObservedRoundTrip(r.restored, cached);
  }

  lemma RestoredFits(fit: Fit, r: Restored, cached: nat)
    requires Rules(fit) && RestoredWritable(r)
    ensures fit(RestoredJson(r, cached), RESTORED)
  {
    RestoredNames();
    ObservedFits(fit, r.restored, cached);
    assert RecRule(fit, RESTORED.fields, RestoredValues(r, cached));
  }

  lemma StateFileNames()
    ensures NoDuplicates(Names(STATE_FILE.fields))
  {
    var n := Names(STATE_FILE.fields);
    assert |n[0]| == 5 && |n[1]| == 6;
  }

  function StateFileValues(f: StateFile): (values: seq<Json>)
    ensures |values| == 2
  {
    [Int(f.bytes), Str(f.sha)]
  }

  function StateFileJson(f: StateFile): Json {
    Rec(STATE_FILE.fields, StateFileValues(f))
  }

  lemma StateFileRoundTrip(f: StateFile)
    ensures ReadStateFile(StateFileJson(f)) == Ok(f)
  {
    StateFileNames();
    RecAt(STATE_FILE.fields, StateFileValues(f), 0);
    RecAt(STATE_FILE.fields, StateFileValues(f), 1);
  }

  lemma StateFileFits(fit: Fit, f: StateFile)
    requires Rules(fit) && StateFileWritable(f)
    ensures fit(StateFileJson(f), STATE_FILE)
  {
    StateFileNames();
    assert RecRule(fit, STATE_FILE.fields, StateFileValues(f));
  }

  lemma SaveNames()
    ensures NoDuplicates(Names(SAVE_RESTORE.fields))
  {
    var n := Names(SAVE_RESTORE.fields);
    assert |n[0]| == 13 && |n[1]| == 25 && |n[2]| == 12 && |n[3]| == 12 && |n[4]| == 24 && |n[5]| == 25 && |n[6]| == 6;
    assert n[1][0] == 'p' && n[5][0] == 's' && n[2][2] == 'm' && n[3][2] == 'v';
  }

  function SaveValues(v: SaveRestore, u: SaveUnread): (values: seq<Json>)
    ensures |values| == 7
  {
    [RestoredJson(v.restarted, u.restarted), Bool(v.restartConfirmed), RestoredJson(v.same, u.same),
     Int(v.savedTokens), StateFileJson(v.after), StateFileJson(v.before),
     ObservedJson(v.source, u.source)]
  }

  function SaveJson(v: SaveRestore, u: SaveUnread): Json {
    Rec(SAVE_RESTORE.fields, SaveValues(v, u))
  }

  lemma SaveRoundTrip(v: SaveRestore, u: SaveUnread)
    ensures ReadSaveRestore(SaveJson(v, u)) == Ok(v)
  {
    SaveNames();
    RecAt(SAVE_RESTORE.fields, SaveValues(v, u), 0);
    RecAt(SAVE_RESTORE.fields, SaveValues(v, u), 1);
    RecAt(SAVE_RESTORE.fields, SaveValues(v, u), 2);
    RecAt(SAVE_RESTORE.fields, SaveValues(v, u), 3);
    RecAt(SAVE_RESTORE.fields, SaveValues(v, u), 4);
    RecAt(SAVE_RESTORE.fields, SaveValues(v, u), 5);
    RecAt(SAVE_RESTORE.fields, SaveValues(v, u), 6);
    RestoredRoundTrip(v.restarted, u.restarted);
    RestoredRoundTrip(v.same, u.same);
    StateFileRoundTrip(v.after);
    StateFileRoundTrip(v.before);
    ObservedRoundTrip(v.source, u.source);
  }

  lemma SaveFits(fit: Fit, v: SaveRestore, u: SaveUnread)
    requires Rules(fit) && SaveWritable(v)
    ensures fit(SaveJson(v, u), SAVE_RESTORE)
  {
    SaveNames();
    RestoredFits(fit, v.restarted, u.restarted);
    RestoredFits(fit, v.same, u.same);
    StateFileFits(fit, v.after);
    StateFileFits(fit, v.before);
    ObservedFits(fit, v.source, u.source);
    assert RecRule(fit, SAVE_RESTORE.fields, SaveValues(v, u));
  }

  // -- The direct-token lane -----------------------------------------------------------------

  lemma CountersNames()
    ensures NoDuplicates(Names(PREFILL.fields))
  {
    var n := Names(PREFILL.fields);
    assert |n[0]| == 12 && |n[1]| == 16 && |n[2]| == 13 && |n[3]| == 11;
  }

  function CountersValues(o: Observation): (values: seq<Json>)
    ensures |values| == 4
  {
    [Int(o.cacheTokens), Int(o.predictedTokens), Int(o.promptTokens),
     Int(o.promptWork)]
  }

  function CountersJson(o: Observation): Json {
    Rec(PREFILL.fields, CountersValues(o))
  }

  lemma CountersFits(fit: Fit, o: Observation)
    requires Rules(fit) && PrefillWritable(o)
    ensures fit(CountersJson(o), PREFILL)
  {
    CountersNames();
    assert RecRule(fit, PREFILL.fields, CountersValues(o));
  }

  lemma CountersRead(o: Observation)
    ensures IntAt(CountersJson(o), "cache_tokens") == Ok(o.cacheTokens)
    ensures IntAt(CountersJson(o), "predicted_tokens") == Ok(o.predictedTokens)
    ensures IntAt(CountersJson(o), "prompt_tokens") == Ok(o.promptTokens)
    ensures IntAt(CountersJson(o), "prompt_work") == Ok(o.promptWork)
  {
    CountersNames();
    RecAt(PREFILL.fields, CountersValues(o), 0);
    RecAt(PREFILL.fields, CountersValues(o), 1);
    RecAt(PREFILL.fields, CountersValues(o), 2);
    RecAt(PREFILL.fields, CountersValues(o), 3);
  }

  lemma PrefillNames()
    ensures NoDuplicates(Names(OBSERVATION.fields))
  {
    var n := Names(OBSERVATION.fields);
    assert |n[0]| == 9 && |n[1]| == 7;
  }

  function PrefillValues(o: Observation): (values: seq<Json>)
    ensures |values| == 2
  {
    [SlotJson(Slot(o.idle, o.slotWork)), CountersJson(o)]
  }

  function PrefillJson(o: Observation): Json {
    Rec(OBSERVATION.fields, PrefillValues(o))
  }

  lemma PrefillRoundTrip(o: Observation)
    ensures ReadObservation(PrefillJson(o)) == Ok(o)
  {
    PrefillNames();
    RecAt(OBSERVATION.fields, PrefillValues(o), 0);
    RecAt(OBSERVATION.fields, PrefillValues(o), 1);
    SlotRoundTrip(Slot(o.idle, o.slotWork));
    CountersRead(o);
  }

  lemma PrefillFits(fit: Fit, o: Observation)
    requires Rules(fit) && PrefillWritable(o)
    ensures fit(PrefillJson(o), OBSERVATION)
  {
    PrefillNames();
    SlotFits(fit, Slot(o.idle, o.slotWork));
    CountersFits(fit, o);
    assert RecRule(fit, OBSERVATION.fields, PrefillValues(o));
  }

  lemma CaseNames()
    ensures NoDuplicates(Names(PREFIX_CASE.fields))
  {
    var n := Names(PREFIX_CASE.fields);
    assert |n[0]| == 16 && |n[1]| == 15 && |n[2]| == 6;
  }

  function CaseValues(c: Case): (values: seq<Json>)
    ensures |values| == 3
  {
    [PrefillJson(c.cacheOff), PrefillJson(c.cacheOn), PrefillJson(c.source)]
  }

  function CaseJson(c: Case): Json {
    Rec(PREFIX_CASE.fields, CaseValues(c))
  }

  lemma CaseRoundTrip(c: Case)
    ensures ReadCase(CaseJson(c)) == Ok(c)
  {
    CaseNames();
    RecAt(PREFIX_CASE.fields, CaseValues(c), 0);
    RecAt(PREFIX_CASE.fields, CaseValues(c), 1);
    RecAt(PREFIX_CASE.fields, CaseValues(c), 2);
    PrefillRoundTrip(c.cacheOff);
    PrefillRoundTrip(c.cacheOn);
    PrefillRoundTrip(c.source);
  }

  lemma CaseFits(fit: Fit, c: Case)
    requires Rules(fit) && CaseWritable(c)
    ensures fit(CaseJson(c), PREFIX_CASE)
  {
    CaseNames();
    PrefillFits(fit, c.cacheOff);
    PrefillFits(fit, c.cacheOn);
    PrefillFits(fit, c.source);
    assert RecRule(fit, PREFIX_CASE.fields, CaseValues(c));
  }
}
