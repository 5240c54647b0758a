/** The direct-token lane against the server, and the registered process order. */
module Runner {
  import opened Wrappers
  import opened PrefixOracle
  import opened SlotServer
  import opened Verdicts

  /** The registered rule, from the prompts alone. */
  function RegisteredReuse(source: Tokens, target: Tokens): int {
    ExpectedCache(Registered(|source|, |target|, |target|, Lcp(source, target)))
  }

  predicate ExtendsByTwo(source: Tokens, target: Tokens) {
    source <= target && |target| >= |source| + 2
  }

  lemma ReuseAfterSuffix(source: Tokens, suffix: Tokens, target: Tokens)
    requires target != [] && !ExtendsByTwo(source, target)
    ensures Reuse(source + suffix, target) == RegisteredReuse(source, target)
  {
    var cached := source + suffix;
    var n, m := Lcp(source, target), Lcp(cached, target);
    if n < |source| {
      assert cached[..n] == source[..n];
      LcpUnique(cached, target, n);
    } else {
      assert source == source[..n] == target[..n];
      SamePrefix(source, target, n);
      assert m >= n;
    }
  }

  lemma SuffixCanExtendPrefix(source: Tokens, target: Tokens)
    requires ExtendsByTwo(source, target)
    ensures Reuse(source + [target[|source|]], target) != RegisteredReuse(source, target)
  {
    var n := |source|;
    var cached := source + [target[n]];
    assert target[..n] == source && source[..n] == source;
    LcpUnique(source, target, n);
    assert target[..n + 1] == target[..n] + [target[n]] == cached;
    assert cached[..n + 1] == cached;
    LcpUnique(cached, target, n + 1);
  }

  /** Whatever was generated after the source, the registered rule predicts the reuse exactly when the target does
      not extend the source by two tokens or more. */
  lemma RuleHoldsForEverySuffix(source: Tokens, target: Tokens)
    requires target != []
    ensures (forall suffix: Tokens :: Reuse(source + suffix, target) == RegisteredReuse(source, target))
            <==> !ExtendsByTwo(source, target)
  {
    if ExtendsByTwo(source, target) {
      SuffixCanExtendPrefix(source, target);
    } else {
      forall suffix: Tokens
        ensures Reuse(source + suffix, target) == RegisteredReuse(source, target)
      {
        ReuseAfterSuffix(source, suffix, target);
      }
    }
  }

  // -- The direct-token lane -----------------------------------------------------------------

  datatype PrefixCase = PrefixCase(
    name: string, commonPrefix: nat, source: PromptSpec, cacheOn: PromptSpec, cacheOff: PromptSpec)

  /** The lane's fixed use of slots and of the cache. */
  predicate LaneShaped(c: PrefixCase) {
    && c.source.slot == 0 && c.cacheOn.slot == 0 && c.cacheOff.slot == 0
    && c.source.cachePrompt && c.cacheOn.cachePrompt && !c.cacheOff.cachePrompt
  }

  // -- Steps ---------------------------------------------------------------------------------

  /** A request, and the entry that the trace gets once it has been answered. */
  datatype Step = Step(entry: string, call: Call)

  function TraceOf(steps: seq<Step>): (trace: seq<string>)
    ensures |trace| == |steps|
  {
    seq(|steps|, i requires 0 <= i < |steps| => steps[i].entry)
  }

  function CallsOf(steps: seq<Step>): (calls: seq<Call>)
    ensures |calls| == |steps|
  {
    seq(|steps|, i requires 0 <= i < |steps| => steps[i].call)
  }

  lemma StepsAppend(a: seq<Step>, b: seq<Step>)
    ensures TraceOf(a + b) == TraceOf(a) + TraceOf(b)
    ensures CallsOf(a + b) == CallsOf(a) + CallsOf(b)
  {
  }

  /** These steps were made, and nothing else: each request, and its entry in the trace. */
  ghost predicate Performed(steps: seq<Step>, before: seq<Call>, after: seq<Call>, trace: seq<string>,
                            longer: seq<string>)
  {
    after == before + CallsOf(steps) && longer == trace + TraceOf(steps)
  }

  lemma PerformedNone(calls: seq<Call>, trace: seq<string>)
    ensures Performed([], calls, calls, trace, trace)
  {
  }

  lemma PerformedBoth(a: seq<Step>, b: seq<Step>, c: seq<Call>, d: seq<Call>, e: seq<Call>,
                      t: seq<string>, u: seq<string>, v: seq<string>)
    requires Performed(a, c, d, t, u) && Performed(b, d, e, u, v)
    ensures Performed(a + b, c, e, t, v)
  {
    StepsAppend(a, b);
  }

  const PREFIX := "token_prefix_divergence."

  function PrefixSteps(c: PrefixCase): seq<Step> {
    [ Step(PREFIX + c.name + ".erase_slot_0", Erase(0)),
      Step(PREFIX + c.name + ".source", Prefill(c.source)),
      Step(PREFIX + c.name + ".cache_on_target", Prefill(c.cacheOn)),
      Step(PREFIX + c.name + ".erase_slot_0", Erase(0)),
      Step(PREFIX + c.name + ".cache_off_target", Prefill(c.cacheOff)) ]
  }

  function TokenPrefixSteps(cases: seq<PrefixCase>): seq<Step> {
    if cases == [] then [] else TokenPrefixSteps(cases[..|cases| - 1]) + PrefixSteps(cases[|cases| - 1])
  }

  lemma {:induction false} TokenPrefixLength(cases: seq<PrefixCase>)
    ensures |TokenPrefixSteps(cases)| == 5 * |cases|
  {
    if cases != [] {
      TokenPrefixLength(cases[..|cases| - 1]);
    }
  }

  /** Every source and every cache-off target is requested right after slot 0 was erased; only the cache-on target
      comes in between. */
  lemma {:induction false} CallsOfCase(cases: seq<PrefixCase>, n: nat)
    requires n < |cases|
    ensures |TokenPrefixSteps(cases)| == 5 * |cases|
    ensures CallsOf(TokenPrefixSteps(cases))[5 * n..5 * n + 5]
         == [Erase(0), Prefill(cases[n].source), Prefill(cases[n].cacheOn), Erase(0), Prefill(cases[n].cacheOff)]
  {
    var last := |cases| - 1;
    var front := TokenPrefixSteps(cases[..last]);
    TokenPrefixLength(cases[..last]);
    StepsAppend(front, PrefixSteps(cases[last]));
    if n < last {
      CallsOfCase(cases[..last], n);
      assert CallsOf(TokenPrefixSteps(cases))[5 * n..5 * n + 5] == CallsOf(front)[5 * n..5 * n + 5];
    }
  }

  /** What the lane observes of a case when `generated` follows the source in the slot. */
  function ObservedCase(c: PrefixCase, generated: Tokens): Case
    requires c.cacheOn.prompt != []
  {
    Case(Reusing(|c.source.prompt|, 0),
         Reusing(|c.cacheOn.prompt|, Reuse(c.source.prompt + generated, c.cacheOn.prompt)),
         Reusing(|c.cacheOff.prompt|, 0))
  }

  /** The adapter raises on an empty prompt before it makes a request. */
  predicate HasPrompts(c: PrefixCase) {
    c.source.prompt != [] && c.cacheOn.prompt != [] && c.cacheOff.prompt != []
  }

  ghost predicate CaseObserved(observed: Case, c: PrefixCase) {
    HasPrompts(c) && exists generated :: observed == ObservedCase(c, generated)
  }

  ghost predicate IsObserved(value: Cases, cases: seq<PrefixCase>) {
    && |value| == |cases|
    && forall i :: 0 <= i < |cases| ==> value[i].0 == cases[i].name && CaseObserved(value[i].1, cases[i])
  }

  method RunCase(client: Client, c: PrefixCase, trace: seq<string>) returns (r: Result<(Case, seq<string>)>)
    requires client.Valid() && LaneShaped(c)
    modifies client`slots, client`work, client`calls
    ensures client.Valid()
    ensures r.Ok? ==> Performed(PrefixSteps(c), old(client.calls), client.calls, trace, r.value.1)
    ensures r.Ok? ==> CaseObserved(r.value.0, c)
  {
    var t := trace;
    var erased := client.Erase(0);
    if erased.Raised? { return Raised; }
    t := t + [PREFIX + c.name + ".erase_slot_0"];
    var source, generated := client.DirectTokenPrefill(c.source);
    if source.Raised? { return Raised; }
    t := t + [PREFIX + c.name + ".source"];
    var cacheOn, _ := client.DirectTokenPrefill(c.cacheOn);
    if cacheOn.Raised? { return Raised; }
    t := t + [PREFIX + c.name + ".cache_on_target"];
    erased := client.Erase(0);
    if erased.Raised? { return Raised; }
    t := t + [PREFIX + c.name + ".erase_slot_0"];
    var cacheOff, _ := client.DirectTokenPrefill(c.cacheOff);
    if cacheOff.Raised? { return Raised; }
    t := t + [PREFIX + c.name + ".cache_off_target"];
    var result := Case(source.value, cacheOn.value, cacheOff.value);
    assert Lcp([], c.source.prompt) == 0;
    assert result == ObservedCase(c, generated);
    return Ok((result, t));
  }

  /** The result is a dictionary keyed by name, so names are told apart. */
  predicate CaseNamesDiffer(cases: seq<PrefixCase>) {
    forall i, j :: 0 <= i < j < |cases| ==> cases[i].name != cases[j].name
  }

  lemma NoCaseSteps(cases: seq<PrefixCase>)
    ensures TokenPrefixSteps(cases[..0]) == [] && IsObserved([], cases[..0])
  {
  }

  lemma NextCaseSteps(cases: seq<PrefixCase>, n: nat)
    requires n < |cases|
    ensures TokenPrefixSteps(cases[..n + 1]) == TokenPrefixSteps(cases[..n]) + PrefixSteps(cases[n])
  {
    assert cases[..n + 1][..n] == cases[..n];
  }

  lemma NextCaseObserved(value: Cases, cases: seq<PrefixCase>, n: nat, observed: Case)
    requires n < |cases| && IsObserved(value, cases[..n]) && CaseObserved(observed, cases[n])
    ensures IsObserved(value + [(cases[n].name, observed)], cases[..n + 1])
  {
    hide CaseObserved;
    assert cases[..n + 1] == cases[..n] + [cases[n]];
  }

  method TokenPrefixDivergence(client: Client, cases: seq<PrefixCase>, trace: seq<string>)
    returns (r: Result<(Cases, seq<string>)>)
    requires client.Valid() && CaseNamesDiffer(cases) && forall c :: c in cases ==> LaneShaped(c)
    modifies client`slots, client`work, client`calls
    ensures client.Valid()
    ensures r.Ok? ==> Performed(TokenPrefixSteps(cases), old(client.calls), client.calls, trace, r.value.1)
    ensures r.Ok? ==> IsObserved(r.value.0, cases)
  {
    hide IsObserved, CaseObserved, PrefixSteps, TokenPrefixSteps, Performed;
    var t := trace;
    var result: Cases := [];
    NoCaseSteps(cases);
    PerformedNone(client.calls, trace);
    for n := 0 to |cases|
      invariant client.Valid()
      invariant Performed(TokenPrefixSteps(cases[..n]), old(client.calls), client.calls, trace, t)
      invariant IsObserved(result, cases[..n])
    {
      ghost var before := client.calls;
      var ran := RunCase(client, cases[n], t);
      if ran.Raised? { return Raised; }
      NextCaseSteps(cases, n);
      PerformedBoth(TokenPrefixSteps(cases[..n]), PrefixSteps(cases[n]),
                    old(client.calls), before, client.calls, trace, t, ran.value.1);
      NextCaseObserved(result, cases, n, ran.value.0);
      t := ran.value.1;
      result := result + [(cases[n].name, ran.value.0)];
    }
    assert cases[..|cases|] == cases;
    return Ok((result, t));
  }

  // -- The lane and its oracle together ------------------------------------------------------

  function Register(c: PrefixCase): Registered {
    Registered(|c.source.prompt|, |c.cacheOn.prompt|, |c.cacheOff.prompt|, c.commonPrefix)
  }

  function RegistrationOf(cases: seq<PrefixCase>): Registration {
    if cases == [] then map[]
    else RegistrationOf(cases[..|cases| - 1])[cases[|cases| - 1].name := Register(cases[|cases| - 1])]
  }

  lemma {:induction false} RegistrationAt(cases: seq<PrefixCase>, i: nat)
    requires CaseNamesDiffer(cases) && i < |cases|
    ensures cases[i].name in RegistrationOf(cases) && RegistrationOf(cases)[cases[i].name] == Register(cases[i])
  {
    if i < |cases| - 1 {
      RegistrationAt(cases[..|cases| - 1], i);
    }
  }

  /** Equal targets and the right prefix length. */
  predicate RightlyRegistered(c: PrefixCase) {
    c.cacheOff.prompt == c.cacheOn.prompt && c.commonPrefix == Lcp(c.source.prompt, c.cacheOn.prompt)
  }

  /** For any list of rightly registered cases, none with a target that extends its source by two tokens, every
      observation the schedule can make satisfies every verdict. */
  lemma LaneSatisfiesOracle(cases: seq<PrefixCase>, value: Cases)
    requires CaseNamesDiffer(cases) && IsObserved(value, cases)
    requires forall c :: c in cases ==> RightlyRegistered(c) && !ExtendsByTwo(c.source.prompt, c.cacheOn.prompt)
    ensures Covered(value, RegistrationOf(cases))
    ensures AllTrue(TokenPrefixInvariants(value, RegistrationOf(cases)))
  {
    var reg := RegistrationOf(cases);
    forall i | 0 <= i < |cases|
      ensures value[i].0 in reg && Satisfiable(reg[value[i].0]) && value[i].1 == CaseFor(reg[value[i].0])
    {
      var c := cases[i];
      RegistrationAt(cases, i);
      var generated :| value[i].1 == ObservedCase(c, generated);
      ReuseAfterSuffix(c.source.prompt, generated, c.cacheOn.prompt);
    }
    VerdictsDetermineCounters(value, reg);
  }

  /** What may be generated after a source: after one that the target extends by two tokens, the token that comes
      next. */
  function Misleading(c: PrefixCase): Tokens {
    if ExtendsByTwo(c.source.prompt, c.cacheOn.prompt) then [c.cacheOn.prompt[|c.source.prompt|]] else []
  }

  /** An observation of the list that shows every case that can fail failing. */
  function MisleadingObservation(cases: seq<PrefixCase>): (value: Cases)
    requires forall c :: c in cases ==> HasPrompts(c)
  {
    seq(|cases|,
        i requires 0 <= i < |cases| && HasPrompts(cases[i]) =>
          (cases[i].name, ObservedCase(cases[i], Misleading(cases[i]))))
  }

  lemma MisleadingIsObserved(cases: seq<PrefixCase>)
    requires forall c :: c in cases ==> HasPrompts(c)
    ensures IsObserved(MisleadingObservation(cases), cases)
  {
  }

  ghost predicate Passes(value: Cases, cases: seq<PrefixCase>) {
    Covered(value, RegistrationOf(cases)) && AllTrue(TokenPrefixInvariants(value, RegistrationOf(cases)))
  }

  lemma ExtendingCaseFails(cases: seq<PrefixCase>, i: nat)
    requires CaseNamesDiffer(cases) && i < |cases| && forall c :: c in cases ==> HasPrompts(c)
    requires RightlyRegistered(cases[i]) && ExtendsByTwo(cases[i].source.prompt, cases[i].cacheOn.prompt)
    ensures IsObserved(MisleadingObservation(cases), cases)
    ensures !Passes(MisleadingObservation(cases), cases)
  {
    var value, reg := MisleadingObservation(cases), RegistrationOf(cases);
    MisleadingIsObserved(cases);
    RegistrationAt(cases, i);
    SuffixCanExtendPrefix(cases[i].source.prompt, cases[i].cacheOn.prompt);
    if Covered(value, reg) {
      VerdictsDetermineCounters(value, reg);
      assert value[i].1 != CaseFor(reg[value[i].0]);
    }
  }

  lemma ObservedHasPrompts(value: Cases, cases: seq<PrefixCase>)
    requires IsObserved(value, cases)
    ensures forall c :: c in cases ==> HasPrompts(c)
  {
  }

  /** An observation of the list can be made exactly when no prompt is empty. */
  lemma ObservableExactly(cases: seq<PrefixCase>)
    ensures (exists value :: IsObserved(value, cases)) <==> (forall c :: c in cases ==> HasPrompts(c))
  {
    if exists value :: IsObserved(value, cases) {
      var value :| IsObserved(value, cases);
      ObservedHasPrompts(value, cases);
    }
    if forall c :: c in cases ==> HasPrompts(c) {
      MisleadingIsObserved(cases);
    }
  }

  /** For any list of rightly registered cases: every observation the schedule can make passes every verdict exactly
      when no target extends its source by two tokens or more, or an empty prompt keeps any observation from being
      made. */
  lemma LanePassesExactly(cases: seq<PrefixCase>)
    requires CaseNamesDiffer(cases) && forall c :: c in cases ==> RightlyRegistered(c)
    ensures (forall value :: IsObserved(value, cases) ==> Passes(value, cases))
            <==> ((exists c :: c in cases && !HasPrompts(c)) ||
                  (forall c :: c in cases ==> !ExtendsByTwo(c.source.prompt, c.cacheOn.prompt)))
  {
    if exists c :: c in cases && !HasPrompts(c) {
      ObservableExactly(cases);
    } else if exists c :: c in cases && ExtendsByTwo(c.source.prompt, c.cacheOn.prompt) {
      var c :| c in cases && ExtendsByTwo(c.source.prompt, c.cacheOn.prompt);
      var i :| 0 <= i < |cases| && cases[i] == c;
      ExtendingCaseFails(cases, i);
    } else {
      forall value | IsObserved(value, cases)
        ensures Passes(value, cases)
      {
        LaneSatisfiesOracle(cases, value);
      }
    }
  }

  // -- The registered cases ------------------------------------------------------------------

  function RegisteredCase(name: string, commonPrefix: nat, source: Tokens, target: Tokens): PrefixCase {
    PrefixCase(name, commonPrefix,
               PromptSpec(0, source, true), PromptSpec(0, target, true), PromptSpec(0, target, false))
  }

  const PREFIX_SOURCE: Tokens := [403, 407, 261, 378]
  const SHARED_TARGET: Tokens := [403, 407, 261, 328, 426]
  const DIVERGED_TARGET: Tokens := [385, 328, 426]

  function RegisteredCases(): seq<PrefixCase> {
    [ RegisteredCase("exact", 4, PREFIX_SOURCE, PREFIX_SOURCE),
      RegisteredCase("shared_prefix", 3, PREFIX_SOURCE, SHARED_TARGET),
      RegisteredCase("first_token_divergence", 0, PREFIX_SOURCE, DIVERGED_TARGET) ]
  }

  lemma RegisteredCasesAreSound()
    ensures CaseNamesDiffer(RegisteredCases())
    ensures forall c :: c in RegisteredCases() ==>
      LaneShaped(c) && HasPrompts(c) && RightlyRegistered(c) && !ExtendsByTwo(c.source.prompt, c.cacheOn.prompt)
  {
    assert |"exact"| == 5 && |"shared_prefix"| == 13 && |"first_token_divergence"| == 22;
    LcpUnique(PREFIX_SOURCE, PREFIX_SOURCE, 4);
    LcpUnique(PREFIX_SOURCE, SHARED_TARGET, 3);
    LcpUnique(PREFIX_SOURCE, DIVERGED_TARGET, 0);
  }

  // -- The registered process order ----------------------------------------------------------

  function PrefixTrace(name: string): seq<string> {
    [ PREFIX + name + ".erase_slot_0",
      PREFIX + name + ".source",
      PREFIX + name + ".cache_on_target",
      PREFIX + name + ".erase_slot_0",
      PREFIX + name + ".cache_off_target" ]
  }

  function TokenPrefixOrder(cases: seq<PrefixCase>): seq<string> {
    if cases == [] then [] else TokenPrefixOrder(cases[..|cases| - 1]) + PrefixTrace(cases[|cases| - 1].name)
  }

  /** The lane's steps are traced as registered. */
  lemma {:induction false} TokenPrefixTraced(cases: seq<PrefixCase>)
    ensures TraceOf(TokenPrefixSteps(cases)) == TokenPrefixOrder(cases)
  {
    if cases != [] {
      var last := |cases| - 1;
      TokenPrefixTraced(cases[..last]);
      StepsAppend(TokenPrefixSteps(cases[..last]), PrefixSteps(cases[last]));
      assert TraceOf(PrefixSteps(cases[last])) == PrefixTrace(cases[last].name);
    }
  }

  function PairingOrder(names: seq<string>): seq<string> {
    seq(|names|, i requires 0 <= i < |names| => "cache_pairing." + names[i])
  }

  // Long entries are concatenations of literals, which the solver compares faster than one long literal.
  function ProcessOrderV1(pairing: seq<string>): seq<string> {
    ["start_server_1", "cache_pairing" + ".erase_slot_0", "cache_pairing" + ".erase_slot_1"]
    + PairingOrder(pairing)
    + [ "cancellation_reuse" + ".erase_slot_0",
        "cancellation_reuse" + ".erase_slot_1",
        "cancellation_reuse.clean_baseline",
        "cancellation_reuse.disconnect",
        "cancellation_reuse.reused_slot",
        "save_restore" + ".erase_slot_0",
        "save_restore" + ".erase_slot_1",
        "save_restore.source",
        "save_restore.save_slot_0",
        "save_restore.restore_slot_1",
        "save_restore.same_process.restored",
        "stop_server_1",
        "hash_slot_state_before_restart",
        "start_server_2",
        "save_restore.erase_slot_0",
        "save_restore.restore_slot_0",
        "save_restore.after_restart.restored",
        "stop_server_2",
        "hash_slot_state_after_restart" ]
  }

  const INTERLEAVING_PROCESS_ORDER: seq<string> := [
    "interleaving_isolation" + ".erase_slot_0",
    "interleaving_isolation" + ".erase_slot_1",
    "interleaving_isolation.baselines." + "slot_0",
    "interleaving_isolation.baselines." + "slot_1",
    "interleaving_isolation" + ".erase_slot_0",
    "interleaving_isolation" + ".erase_slot_1",
    "interleaving_isolation." + "slot_0_cancelled_first" + ".dual_stream_disconnect",
    "interleaving_isolation." + "slot_0_cancelled_first" + "." + "slot_0" + "_reuse",
    "interleaving_isolation." + "slot_0_cancelled_first" + "." + "slot_1" + "_reuse",
    "interleaving_isolation" + ".erase_slot_0",
    "interleaving_isolation" + ".erase_slot_1",
    "interleaving_isolation." + "slot_1_cancelled_first" + ".dual_stream_disconnect",
    "interleaving_isolation." + "slot_1_cancelled_first" + "." + "slot_0" + "_reuse",
    "interleaving_isolation." + "slot_1_cancelled_first" + "." + "slot_1" + "_reuse"]

  /** Where the first order is split to take in the later lanes. */
  const SPLIT := 12

  function ProcessOrder(pairing: seq<string>, cases: seq<PrefixCase>): seq<string> {
    var v1 := ProcessOrderV1(pairing);
    v1[..SPLIT] + INTERLEAVING_PROCESS_ORDER + TokenPrefixOrder(cases) + v1[SPLIT..]
  }

  /** What the scenario functions append, one after the other. */
  function Executed(pairing: seq<string>, cases: seq<PrefixCase>): seq<string> {
    var v1 := ProcessOrderV1(pairing);
    v1[..8 + |pairing|] + INTERLEAVING_PROCESS_ORDER + TokenPrefixOrder(cases) + v1[8 + |pairing|..]
  }

  /** The registered order is the executed one exactly when there are four pairing cases. */
  lemma OrderMatchesFourPairings(pairing: seq<string>, cases: seq<PrefixCase>)
    ensures Executed(pairing, cases) == ProcessOrder(pairing, cases) <==> |pairing| == 4
  {
    var v1 := ProcessOrderV1(pairing);
    var k := 8 + |pairing|;
    var executed, registered := Executed(pairing, cases), ProcessOrder(pairing, cases);
    if k < SPLIT {
      assert executed[k] == INTERLEAVING_PROCESS_ORDER[0];
      assert registered[k] == v1[k] == "save_restore.erase_slot_0";
      assert registered[k][0] != executed[k][0];
    } else if k > SPLIT {
      assert registered[SPLIT] == INTERLEAVING_PROCESS_ORDER[0];
      assert executed[SPLIT] == v1[SPLIT];
      assert v1[SPLIT][0] == 'c';
      assert registered[SPLIT][0] != executed[SPLIT][0];
    }
  }
}
