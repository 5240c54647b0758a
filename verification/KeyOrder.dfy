/** What the oracles read does not depend on key order, nor on the three keys that no oracle looks up. */
module KeyOrder {
  import opened Wrappers
  import opened Json
  import opened Verdicts
  import opened Oracle
  import opened PrefixOracle
  import opened Reading

  const UNREAD: set<string> := {
    "response_cached_tokens", "both_processing_observed", "survivor_active_after_first_disconnect"}

  /** Not an unread key, as its length or its first letter shows. */
  predicate ToldApart(key: string) {
    |key| != 38 && (|key| == 22 ==> key[0] != 'r') && (|key| == 24 ==> key[0] != 'b')
  }

  lemma ToldApartIsRead(key: string)
    requires ToldApart(key)
    ensures key !in UNREAD
  {
    assert |"response_cached_tokens"| == 22 && "response_cached_tokens"[0] == 'r';
    assert |"both_processing_observed"| == 24 && "both_processing_observed"[0] == 'b';
    assert |"survivor_active_after_first_disconnect"| == 38;
  }

  lemma AtAgrees(a: Json, b: Json, ignored: set<string>, key: string)
    requires Agree(a, b, ignored) && ignored <= UNREAD && ToldApart(key)
    ensures At(a, key).Ok? <==> At(b, key).Ok?
    ensures At(a, key).Ok? ==> Agree(At(a, key).value, At(b, key).value, ignored)
    ensures IntAt(a, key) == IntAt(b, key) && StrAt(a, key) == StrAt(b, key) && BoolAt(a, key) == BoolAt(b, key)
    ensures CountAt(a, key) == CountAt(b, key)
  {
    ToldApartIsRead(key);
    if Has(a, key) {
      assert key in a.fields && key !in ignored;
      assert Agree(a.fields[key], b.fields[key], ignored);
    }
  }

  lemma CompletionAgrees(a: Json, b: Json, ignored: set<string>)
    requires Agree(a, b, ignored) && ignored <= UNREAD
    ensures ReadCompletion(a) == ReadCompletion(b)
  {
    AtAgrees(a, b, ignored, "content_sha256");
    AtAgrees(a, b, ignored, "tokens_sha256");
    AtAgrees(a, b, ignored, "content_bytes");
    AtAgrees(a, b, ignored, "predicted_tokens");
    AtAgrees(a, b, ignored, "token_count");
    AtAgrees(a, b, ignored, "prompt_work");
  }

  lemma SlotAgrees(a: Json, b: Json, ignored: set<string>)
    requires Agree(a, b, ignored) && ignored <= UNREAD
    ensures ReadSlot(a) == ReadSlot(b)
  {
    AtAgrees(a, b, ignored, "idle");
    AtAgrees(a, b, ignored, "prompt_work");
  }

  lemma ObservedAgrees(a: Json, b: Json, ignored: set<string>, key: string)
    requires Agree(a, b, ignored) && ignored <= UNREAD && ToldApart(key)
    ensures ObservedAt(a, key) == ObservedAt(b, key)
  {
    AtAgrees(a, b, ignored, key);
    if At(a, key).Ok? {
      var x, y := At(a, key).value, At(b, key).value;
      AtAgrees(x, y, ignored, "completion");
      AtAgrees(x, y, ignored, "idle_slot");
      if Has(x, "completion") {
        CompletionAgrees(Get(x, "completion"), Get(y, "completion"), ignored);
      }
      if Has(x, "idle_slot") {
        SlotAgrees(Get(x, "idle_slot"), Get(y, "idle_slot"), ignored);
      }
    }
  }

  // -- Reading every value of an object ------------------------------------------------------

  /** Reading all values succeeds when each can be read, and lists them by key. */
  lemma {:induction false} ValuesRead(j: Json, keys: seq<string>)
    ensures ReadValues(j, keys).Ok? <==> forall n :: 0 <= n < |keys| ==> ObservedAt(j, keys[n]).Ok?
    ensures ReadValues(j, keys).Ok? ==>
      |ReadValues(j, keys).value| == |keys| &&
      forall n :: 0 <= n < |keys| ==> ReadValues(j, keys).value[n] == ObservedAt(j, keys[n]).value
  {
    if keys != [] {
      var n := |keys| - 1;
      ValuesRead(j, keys[..n]);
      assert forall i :: 0 <= i < n ==> keys[..n][i] == keys[i];
    }
  }

  lemma ValuesInOrder(a: Json, k: seq<string>, b: Json, l: seq<string>)
    requires SameMembers(k, l) && forall n :: 0 <= n < |l| ==> ObservedAt(a, l[n]) == ObservedAt(b, l[n])
    requires ReadValues(a, k).Ok?
    ensures ReadValues(b, l).Ok?
    ensures forall x :: x in ReadValues(b, l).value ==> x in ReadValues(a, k).value
  {
    ValuesRead(a, k);
    ValuesRead(b, l);
    forall n | 0 <= n < |l|
      ensures ObservedAt(b, l[n]).Ok? && ObservedAt(b, l[n]).value in ReadValues(a, k).value
    {
      assert l[n] in k;
      var i :| 0 <= i < |k| && k[i] == l[n];
      assert ReadValues(a, k).value[i] == ObservedAt(a, k[i]).value;
    }
  }

  lemma OrdersAgree(a: Json, b: Json, ignored: set<string>)
    requires WellFormed(a) && WellFormed(b) && Agree(a, b, ignored) && a.Obj?
    ensures SameMembers(a.order, b.order)
  {
  }

  /** No key of the object is an unread one. */
  predicate AllToldApart(j: Json) {
    j.Obj? ==> forall key :: key in j.fields ==> ToldApart(key)
  }

  ghost predicate SameCachePairing(v: CachePairing, w: CachePairing) {
    v == w.(inOrder := v.inOrder) && SameMembers(v.inOrder, w.inOrder)
  }

  lemma CachedValuesAgree(a: Json, b: Json, ignored: set<string>)
    requires WellFormed(a) && WellFormed(b) && Agree(a, b, ignored) && ignored <= UNREAD && AllToldApart(a)
    requires a.Obj? && ReadValues(a, a.order).Ok?
    ensures ReadValues(b, b.order).Ok? && SameMembers(ReadValues(a, a.order).value, ReadValues(b, b.order).value)
  {
    OrdersAgree(a, b, ignored);
    forall key | key in a.order
      ensures ObservedAt(a, key) == ObservedAt(b, key)
    {
      ObservedAgrees(a, b, ignored, key);
    }
    ValuesInOrder(a, a.order, b, b.order);
    ValuesInOrder(b, b.order, a, a.order);
  }

  lemma CachePairingAgrees(a: Json, b: Json, ignored: set<string>)
    requires WellFormed(a) && WellFormed(b) && Agree(a, b, ignored) && ignored <= UNREAD && AllToldApart(a)
    requires ReadCachePairing(a).Ok?
    ensures ReadCachePairing(b).Ok? && SameCachePairing(ReadCachePairing(a).value, ReadCachePairing(b).value)
  {
    ObservedAgrees(a, b, ignored, "cold_cache_on");
    ObservedAgrees(a, b, ignored, "repeat_cache_on");
    ObservedAgrees(a, b, ignored, "cold_cache_off");
    ObservedAgrees(a, b, ignored, "repeat_cache_off");
    CachedValuesAgree(a, b, ignored);
  }

  // -- The other records ---------------------------------------------------------------------

  lemma CancellationAgrees(a: Json, b: Json, ignored: set<string>)
    requires Agree(a, b, ignored) && ignored <= UNREAD
    ensures ReadCancellation(a) == ReadCancellation(b)
  {
    ObservedAgrees(a, b, ignored, "clean_baseline");
    ObservedAgrees(a, b, ignored, "reused_slot");
    AtAgrees(a, b, ignored, "disconnect");
    if Has(a, "disconnect") {
      var x, y := Get(a, "disconnect"), Get(b, "disconnect");
      AtAgrees(x, y, ignored, "active_processing_observed");
      AtAgrees(x, y, ignored, "first_event_observed");
      AtAgrees(x, y, ignored, "first_event_nonterminal");
      AtAgrees(x, y, ignored, "idle_after_disconnect");
    }
  }

  lemma PairAgrees(a: Json, b: Json, ignored: set<string>)
    requires Agree(a, b, ignored) && ignored <= UNREAD
    ensures ReadPair(a) == ReadPair(b)
  {
    ObservedAgrees(a, b, ignored, "slot_0");
    ObservedAgrees(a, b, ignored, "slot_1");
  }

  lemma PairAtAgrees(a: Json, b: Json, ignored: set<string>, key: string)
    requires Agree(a, b, ignored) && ignored <= UNREAD && ToldApart(key)
    ensures PairAt(a, key) == PairAt(b, key)
  {
    AtAgrees(a, b, ignored, key);
    if Has(a, key) {
      PairAgrees(Get(a, key), Get(b, key), ignored);
    }
  }

  lemma DirectionAgrees(a: Json, b: Json, ignored: set<string>)
    requires Agree(a, b, ignored) && ignored <= UNREAD
    ensures ReadDirection(a) == ReadDirection(b)
  {
    AtAgrees(a, b, ignored, "both_first_events_before_disconnect");
    AtAgrees(a, b, ignored, "cancelled_slot_idle_after_first_disconnect");
    AtAgrees(a, b, ignored, "both_idle_after_second_disconnect");
    AtAgrees(a, b, ignored, "slot_0_first_event_observed");
    AtAgrees(a, b, ignored, "slot_0_first_event_nonterminal");
    AtAgrees(a, b, ignored, "slot_1_first_event_observed");
    AtAgrees(a, b, ignored, "slot_1_first_event_nonterminal");
    PairAtAgrees(a, b, ignored, "reuses");
  }

  lemma DirectionAtAgrees(a: Json, b: Json, ignored: set<string>, key: string)
    requires Agree(a, b, ignored) && ignored <= UNREAD && ToldApart(key)
    ensures DirectionAt(a, key) == DirectionAt(b, key)
  {
    AtAgrees(a, b, ignored, key);
    if Has(a, key) {
      DirectionAgrees(Get(a, key), Get(b, key), ignored);
    }
  }

  lemma InterleavingAgrees(a: Json, b: Json, ignored: set<string>)
    requires Agree(a, b, ignored) && ignored <= UNREAD
    ensures ReadInterleaving(a) == ReadInterleaving(b)
  {
    PairAtAgrees(a, b, ignored, "baselines");
    DirectionAtAgrees(a, b, ignored, "slot_0_cancelled_first");
    DirectionAtAgrees(a, b, ignored, "slot_1_cancelled_first");
  }

  lemma RestoredAgrees(a: Json, b: Json, ignored: set<string>)
    requires Agree(a, b, ignored) && ignored <= UNREAD
    ensures ReadRestored(a) == ReadRestored(b)
  {
    ObservedAgrees(a, b, ignored, "restored");
    AtAgrees(a, b, ignored, "restored_tokens");
  }

  lemma RestoredAtAgrees(a: Json, b: Json, ignored: set<string>, key: string)
    requires Agree(a, b, ignored) && ignored <= UNREAD && ToldApart(key)
    ensures RestoredAt(a, key) == RestoredAt(b, key)
  {
    AtAgrees(a, b, ignored, key);
    if Has(a, key) {
      RestoredAgrees(Get(a, key), Get(b, key), ignored);
    }
  }

  lemma StateFileAgrees(a: Json, b: Json, ignored: set<string>)
    requires Agree(a, b, ignored) && ignored <= UNREAD
    ensures ReadStateFile(a) == ReadStateFile(b)
  {
    AtAgrees(a, b, ignored, "bytes");
    AtAgrees(a, b, ignored, "sha256");
  }

  lemma StateFileAtAgrees(a: Json, b: Json, ignored: set<string>, key: string)
    requires Agree(a, b, ignored) && ignored <= UNREAD && ToldApart(key)
    ensures StateFileAt(a, key) == StateFileAt(b, key)
  {
    AtAgrees(a, b, ignored, key);
    if Has(a, key) {
      StateFileAgrees(Get(a, key), Get(b, key), ignored);
    }
  }

  lemma SaveRestoreAgrees(a: Json, b: Json, ignored: set<string>)
    requires Agree(a, b, ignored) && ignored <= UNREAD
    ensures ReadSaveRestore(a) == ReadSaveRestore(b)
  {
    ObservedAgrees(a, b, ignored, "source");
    RestoredAtAgrees(a, b, ignored, "same_process");
    RestoredAtAgrees(a, b, ignored, "after_restart");
    AtAgrees(a, b, ignored, "saved_tokens");
    StateFileAtAgrees(a, b, ignored, "slot_state_before_restart");
    StateFileAtAgrees(a, b, ignored, "slot_state_after_restart");
    AtAgrees(a, b, ignored, "process_restart_confirmed");
  }

  lemma ObservationAgrees(a: Json, b: Json, ignored: set<string>)
    requires Agree(a, b, ignored) && ignored <= UNREAD
    ensures ReadObservation(a) == ReadObservation(b)
  {
    AtAgrees(a, b, ignored, "prefill");
    AtAgrees(a, b, ignored, "idle_slot");
    if Has(a, "prefill") {
      var x, y := Get(a, "prefill"), Get(b, "prefill");
      AtAgrees(x, y, ignored, "cache_tokens");
      AtAgrees(x, y, ignored, "predicted_tokens");
      AtAgrees(x, y, ignored, "prompt_tokens");
      AtAgrees(x, y, ignored, "prompt_work");
    }
    if Has(a, "idle_slot") {
      SlotAgrees(Get(a, "idle_slot"), Get(b, "idle_slot"), ignored);
    }
  }

  lemma PrefillAtAgrees(a: Json, b: Json, ignored: set<string>, key: string)
    requires Agree(a, b, ignored) && ignored <= UNREAD && ToldApart(key)
    ensures PrefillAt(a, key) == PrefillAt(b, key)
  {
    AtAgrees(a, b, ignored, key);
    if Has(a, key) {
      ObservationAgrees(Get(a, key), Get(b, key), ignored);
    }
  }

  lemma CaseAgrees(a: Json, b: Json, ignored: set<string>)
    requires Agree(a, b, ignored) && ignored <= UNREAD
    ensures ReadCase(a) == ReadCase(b)
  {
    PrefillAtAgrees(a, b, ignored, "source");
    PrefillAtAgrees(a, b, ignored, "cache_on_target");
    PrefillAtAgrees(a, b, ignored, "cache_off_target");
  }

  lemma PromptTokensAgree(a: Json, b: Json, ignored: set<string>, key: string)
    requires Agree(a, b, ignored) && ignored <= UNREAD && ToldApart(key)
    ensures PromptTokens(a, key) == PromptTokens(b, key)
  {
    AtAgrees(a, b, ignored, key);
    if Has(a, key) {
      AtAgrees(Get(a, key), Get(b, key), ignored, "prompt");
      if Has(Get(a, key), "prompt") {
        AtAgrees(Get(Get(a, key), "prompt"), Get(Get(b, key), "prompt"), ignored, "tokens");
      }
    }
  }

  lemma RegisteredAgrees(a: Json, b: Json, ignored: set<string>, name: string)
    requires Agree(a, b, ignored) && ignored <= UNREAD && ToldApart(name)
    ensures RegisteredAt(a, name) == RegisteredAt(b, name)
  {
    AtAgrees(a, b, ignored, name);
    if Has(a, name) {
      var x, y := Get(a, name), Get(b, name);
      PromptTokensAgree(x, y, ignored, "source");
      PromptTokensAgree(x, y, ignored, "cache_on_target");
      PromptTokensAgree(x, y, ignored, "cache_off_target");
      AtAgrees(x, y, ignored, "common_prefix_tokens");
    }
  }

  lemma CaseAtAgrees(a: Json, b: Json, ignored: set<string>, name: string)
    requires Agree(a, b, ignored) && ignored <= UNREAD && ToldApart(name)
    ensures CaseAt(a, name) == CaseAt(b, name)
  {
    AtAgrees(a, b, ignored, name);
    if Has(a, name) {
      CaseAgrees(Get(a, name), Get(b, name), ignored);
    }
  }

  // -- Reading every case --------------------------------------------------------------------

  type CaseFinder = string -> Result<Case>

  type RegisteredFinder = string -> Result<Registered>

  /** The lane read under these names: the case and the registration found under each. */
  ghost predicate ReadUnder(v: PrefixLane, f: CaseFinder, g: RegisteredFinder, names: seq<string>) {
    && |v.value| == |names|
    && (forall n :: 0 <= n < |names| ==> v.value[n].0 == names[n] && f(names[n]) == Ok(v.value[n].1))
    && (forall x :: x in v.registration <==> x in names)
    && (forall x :: x in v.registration ==> g(x) == Ok(v.registration[x]))
  }

  lemma ReadUnderExtends(v: PrefixLane, f: CaseFinder, g: RegisteredFinder, names: seq<string>, name: string)
    requires ReadUnder(v, f, g, names) && f(name).Ok? && g(name).Ok?
    ensures ReadUnder(
      PrefixLane(v.value + [(name, f(name).value)], v.registration[name := g(name).value]), f, g, names + [name])
  {
    var longer := names + [name];
    forall x
      ensures x in longer <==> x in names || x == name
    {
    }
  }

  lemma LastCaseRead(f: CaseFinder, g: RegisteredFinder, front: seq<string>, name: string)
    ensures ReadCases(f, g, front + [name]).Ok? <==> ReadCases(f, g, front).Ok? && f(name).Ok? && g(name).Ok?
    ensures ReadCases(f, g, front + [name]).Ok? ==>
      var v := ReadCases(f, g, front).value;
      ReadCases(f, g, front + [name]).value
      == PrefixLane(v.value + [(name, f(name).value)], v.registration[name := g(name).value])
  {
    assert (front + [name])[..|front|] == front;
  }

  lemma NoCasesRead(f: CaseFinder, g: RegisteredFinder)
    ensures ReadCases(f, g, []).Ok? && ReadUnder(ReadCases(f, g, []).value, f, g, [])
  {
  }

  lemma {:induction false} CasesRead(f: CaseFinder, g: RegisteredFinder, names: seq<string>)
    ensures ReadCases(f, g, names).Ok? <==> forall n :: 0 <= n < |names| ==> f(names[n]).Ok? && g(names[n]).Ok?
    ensures ReadCases(f, g, names).Ok? ==> ReadUnder(ReadCases(f, g, names).value, f, g, names)
  {
    hide ReadUnder, ReadCases;
    if names == [] {
      NoCasesRead(f, g);
    } else {
      var front, name := names[..|names| - 1], names[|names| - 1];
      assert names == front + [name];
      CasesRead(f, g, front);
      LastCaseRead(f, g, front, name);
      assert forall i :: 0 <= i < |front| ==> front[i] == names[i];
      if ReadCases(f, g, names).Ok? {
        ReadUnderExtends(ReadCases(f, g, front).value, f, g, front, name);
      }
    }
  }

  ghost predicate SamePrefixLane(v: PrefixLane, w: PrefixLane) {
    SameMembers(v.value, w.value) && v.registration == w.registration
  }

  ghost predicate FindersAgree(f: CaseFinder, g: RegisteredFinder, h: CaseFinder, i: RegisteredFinder,
                               names: seq<string>)
  {
    forall x :: x in names ==> f(x) == h(x) && g(x) == i(x)
  }

  lemma ReadUnderInOrder(v: PrefixLane, f: CaseFinder, g: RegisteredFinder, k: seq<string>,
                     w: PrefixLane, h: CaseFinder, i: RegisteredFinder, l: seq<string>)
    requires SameMembers(k, l) && FindersAgree(f, g, h, i, k)
    requires ReadUnder(v, f, g, k) && ReadUnder(w, h, i, l)
    ensures forall x :: x in w.value ==> x in v.value
    ensures w.registration == v.registration
  {
    forall n | 0 <= n < |l|
      ensures w.value[n] in v.value
    {
      assert l[n] in k;
      var m :| 0 <= m < |k| && k[m] == l[n];
      assert v.value[m] == w.value[n];
    }
  }

  lemma CasesInOrder(f: CaseFinder, g: RegisteredFinder, k: seq<string>, h: CaseFinder, i: RegisteredFinder,
                     l: seq<string>)
    requires SameMembers(k, l) && FindersAgree(f, g, h, i, k)
    requires ReadCases(f, g, k).Ok?
    ensures ReadCases(h, i, l).Ok? && SamePrefixLane(ReadCases(f, g, k).value, ReadCases(h, i, l).value)
  {
    CasesRead(f, g, k);
    CasesRead(h, i, l);
    forall n | 0 <= n < |l|
      ensures h(l[n]).Ok? && i(l[n]).Ok?
    {
      assert l[n] in k;
      var m :| 0 <= m < |k| && k[m] == l[n];
      assert f(k[m]).Ok? && g(k[m]).Ok?;
    }
    var v, w := ReadCases(f, g, k).value, ReadCases(h, i, l).value;
    ReadUnderInOrder(v, f, g, k, w, h, i, l);
    ReadUnderInOrder(w, h, i, l, v, f, g, k);
  }

  lemma FindersOf(a: Json, r: Json, b: Json, s: Json, ignored: set<string>, names: seq<string>)
    requires Agree(a, b, ignored) && Agree(r, s, ignored) && ignored <= UNREAD
    requires forall x :: x in names ==> ToldApart(x)
    ensures FindersAgree(CaseReader(a), RegisteredReader(r), CaseReader(b), RegisteredReader(s), names)
  {
    forall name | name in names
      ensures CaseAt(a, name) == CaseAt(b, name) && RegisteredAt(r, name) == RegisteredAt(s, name)
    {
      CaseAtAgrees(a, b, ignored, name);
      RegisteredAgrees(r, s, ignored, name);
    }
  }

  lemma PrefixLaneAgrees(a: Json, r: Json, b: Json, s: Json, ignored: set<string>)
    requires WellFormed(a) && WellFormed(b) && Agree(a, b, ignored) && Agree(r, s, ignored) && ignored <= UNREAD
    requires AllToldApart(a)
    requires ReadPrefixLane(a, r).Ok?
    ensures ReadPrefixLane(b, s).Ok? && SamePrefixLane(ReadPrefixLane(a, r).value, ReadPrefixLane(b, s).value)
  {
    AtAgrees(r, s, ignored, "token_prefix_divergence");
    var x, y := Get(r, "token_prefix_divergence"), Get(s, "token_prefix_divergence");
    OrdersAgree(a, b, ignored);
    FindersOf(a, x, b, y, ignored, a.order);
    CasesInOrder(CaseReader(a), RegisteredReader(x), a.order, CaseReader(b), RegisteredReader(y), b.order);
  }

  lemma PrefixLaneDistinct(a: Json, r: Json)
    requires WellFormed(a) && ReadPrefixLane(a, r).Ok?
    ensures NamesDistinct(ReadPrefixLane(a, r).value.value)
  {
    CasesRead(CaseReader(a), RegisteredReader(Get(r, "token_prefix_divergence")), a.order);
  }

  // -- No verdict has an unread name ---------------------------------------------------------

  lemma {:induction false} MergedKey(lanes: seq<map<string, bool>>, name: string) returns (n: nat)
    requires Merged(lanes).Ok? && name in Merged(lanes).value
    ensures n < |lanes| && name in lanes[n]
  {
    var last := |lanes| - 1;
    if name in lanes[last] {
      n := last;
    } else {
      n := MergedKey(lanes[..last], name);
    }
  }

  lemma SpelledIsRead(name: string, l: Letters)
    requires SpelledAs(name, l) && l in {CACHE, CANCEL, INTERLEAVE, PREFIX}
    ensures name !in UNREAD
  {
    assert "response_cached_tokens"[0] == 'r' && "both_processing_observed"[0] == 'b';
    assert "survivor_active_after_first_disconnect"[0] == 's';
  }

  lemma SaveNameIsRead(k: nat)
    requires k < SAVE_COUNT
    ensures SaveName(k) !in UNREAD
  {
    SaveNameLength(k);
    assert |"response_cached_tokens"| == 22 && |"survivor_active_after_first_disconnect"| == 38;
    assert "both_processing_observed"[0] == 'b' && SpelledAs(SaveName(k), SAVE);
  }

  lemma LaneVerdictIsRead(v: Lanes, n: nat, i: nat)
    requires LanesReady(v) && n < |LaneEntries(v)| && i < |LaneEntries(v)[n]|
    ensures LaneEntries(v)[n][i].0 !in UNREAD
  {
    hide CachePairingEntries, CancellationEntries, InterleavingEntries, Entries, SaveVerdict, SpelledAs;
    AllLanesSpelled(v);
    assert Spelled(LaneEntries(v)[n], LettersOf(v)[n]);
    if LettersOf(v)[n] == SAVE {
      assert LaneEntries(v)[n] == SaveRestoreEntries(v.save);
      SaveNameIsRead(i);
    } else {
      SpelledIsRead(LaneEntries(v)[n][i].0, LettersOf(v)[n]);
    }
  }

  lemma VerdictIsRead(v: Lanes, name: string)
    requires LanesReady(v) && AllInvariants(v).Ok? && name in AllInvariants(v).value
    ensures name !in UNREAD
  {
    hide LaneEntries, Merged, Dict;
    var n := MergedKey(Dicts(LaneEntries(v)), name);
    var i := DictKey(LaneEntries(v)[n], name);
    LaneVerdictIsRead(v, n, i);
  }

  // -- All lanes -----------------------------------------------------------------------------

  ghost predicate SameLanes(v: Lanes, w: Lanes) {
    && SameCachePairing(v.cache, w.cache) && v.cancellation == w.cancellation && v.save == w.save
    && match v {
         case V1(_, _, _) => w.V1?
         case V2(_, _, _, _) => w.V2? && v.interleaving == w.interleaving
         case V3(_, _, _, _, _) => w.V3? && v.interleaving == w.interleaving && SamePrefixLane(v.prefix, w.prefix)
       }
  }

  predicate LaneNamesUnique(v: Lanes) {
    v.V3? ==> NamesDistinct(v.prefix.value)
  }

  lemma SameLanesSameDicts(v: Lanes, w: Lanes, n: nat)
    requires SameLanes(v, w) && LanesReady(v) && LanesReady(w) && LaneNamesUnique(v) && LaneNamesUnique(w)
    requires n < |LaneEntries(v)|
    ensures |LaneEntries(w)| == |LaneEntries(v)| && Dict(LaneEntries(v)[n]) == Dict(LaneEntries(w)[n])
  {
    CachePairingIgnoresOrder(v.cache, w.cache);
    if v.V3? && n == 4 {
      assert SameMembers(v.prefix.value, w.prefix.value);
      VerdictsIgnoreOrder(v.prefix.value, w.prefix.value, v.prefix.registration);
    }
  }

  /** Lanes that differ in key order only have the same verdicts. */
  lemma SameLanesSameVerdicts(v: Lanes, w: Lanes)
    requires SameLanes(v, w) && LanesReady(v) && LanesReady(w) && LaneNamesUnique(v) && LaneNamesUnique(w)
    ensures AllInvariants(v) == AllInvariants(w)
  {
    forall n | 0 <= n < |LaneEntries(v)|
      ensures Dict(LaneEntries(v)[n]) == Dict(LaneEntries(w)[n])
    {
      SameLanesSameDicts(v, w, n);
    }
    assert |LaneEntries(v)| == |LaneEntries(w)|;
    assert Dicts(LaneEntries(v)) == Dicts(LaneEntries(w));
  }

  predicate AllToldApartUnder(j: Json, key: string) {
    Has(j, key) ==> AllToldApart(Get(j, key))
  }

  lemma CacheInAgrees(a: Json, b: Json, ignored: set<string>)
    requires WellFormed(a) && WellFormed(b) && Agree(a, b, ignored) && ignored <= UNREAD
    requires AllToldApartUnder(a, "cache_pairing")
    ensures CacheIn(a).Ok? ==> CacheIn(b).Ok? && SameCachePairing(CacheIn(a).value, CacheIn(b).value)
  {
    AtAgrees(a, b, ignored, "cache_pairing");
    if CacheIn(a).Ok? {
      CachePairingAgrees(Get(a, "cache_pairing"), Get(b, "cache_pairing"), ignored);
    }
  }

  lemma CancellationInAgrees(a: Json, b: Json, ignored: set<string>)
    requires Agree(a, b, ignored) && ignored <= UNREAD
    ensures CancellationIn(a) == CancellationIn(b)
  {
    AtAgrees(a, b, ignored, "cancellation_reuse");
    if Has(a, "cancellation_reuse") {
      CancellationAgrees(Get(a, "cancellation_reuse"), Get(b, "cancellation_reuse"), ignored);
    }
  }

  lemma InterleavingInAgrees(a: Json, b: Json, ignored: set<string>)
    requires Agree(a, b, ignored) && ignored <= UNREAD
    ensures InterleavingIn(a) == InterleavingIn(b)
  {
    AtAgrees(a, b, ignored, "interleaving_isolation");
    if Has(a, "interleaving_isolation") {
      InterleavingAgrees(Get(a, "interleaving_isolation"), Get(b, "interleaving_isolation"), ignored);
    }
  }

  lemma SaveInAgrees(a: Json, b: Json, ignored: set<string>)
    requires Agree(a, b, ignored) && ignored <= UNREAD
    ensures SaveIn(a) == SaveIn(b)
  {
    AtAgrees(a, b, ignored, "save_restore");
    if Has(a, "save_restore") {
      SaveRestoreAgrees(Get(a, "save_restore"), Get(b, "save_restore"), ignored);
    }
  }

  lemma PrefixInAgrees(a: Json, b: Json, ignored: set<string>)
    requires WellFormed(a) && WellFormed(b) && Agree(a, b, ignored) && ignored <= UNREAD
    requires AllToldApartUnder(a, "token_prefix_divergence")
    ensures PrefixIn(a).Ok? ==> PrefixIn(b).Ok? && SamePrefixLane(PrefixIn(a).value, PrefixIn(b).value)
  {
    AtAgrees(a, b, ignored, "token_prefix_divergence");
    AtAgrees(a, b, ignored, "registration");
    if PrefixIn(a).Ok? {
      PrefixLaneAgrees(Get(a, "token_prefix_divergence"), Get(a, "registration"),
                       Get(b, "token_prefix_divergence"), Get(b, "registration"), ignored);
    }
  }

  lemma PrefixInDistinct(a: Json)
    requires WellFormed(a) && PrefixIn(a).Ok?
    ensures NamesDistinct(PrefixIn(a).value.value)
  {
    PrefixLaneDistinct(Get(a, "token_prefix_divergence"), Get(a, "registration"));
  }

  lemma LanesUnique(a: Json, version: Version)
    requires WellFormed(a) && ReadLanes(a, version).Ok?
    ensures LaneNamesUnique(ReadLanes(a, version).value)
  {
    hide CacheIn, CancellationIn, InterleavingIn, SaveIn, PrefixIn, WellFormed, NamesDistinct;
    if version.Version3? {
      PrefixInDistinct(a);
    }
  }

  lemma LanesAgree(a: Json, b: Json, version: Version, ignored: set<string>)
    requires WellFormed(a) && WellFormed(b) && Agree(a, b, ignored) && ignored <= UNREAD
    requires AllToldApartUnder(a, "cache_pairing")
    requires (version.Version3? ==> AllToldApartUnder(a, "token_prefix_divergence"))
    requires ReadLanes(a, version).Ok?
    ensures ReadLanes(b, version).Ok? && SameLanes(ReadLanes(a, version).value, ReadLanes(b, version).value)
  {
    hide CacheIn, CancellationIn, InterleavingIn, SaveIn, PrefixIn, SameCachePairing, SamePrefixLane,
         AllToldApartUnder, WellFormed, Agree;
    CacheInAgrees(a, b, ignored);
    CancellationInAgrees(a, b, ignored);
    InterleavingInAgrees(a, b, ignored);
    SaveInAgrees(a, b, ignored);
    if version.Version3? {
      PrefixInAgrees(a, b, ignored);
    }
  }
}
