/** The public registration of the direct-token lane, and that it lists what it was built from. */
module Registration {
  import opened Wrappers
  import opened Building
  import opened Evidence
  import opened Json
  import opened Reading
  import opened Runner
  import opened SlotServer
  import opened Sorting

  // -- One prompt ----------------------------------------------------------------------------

  function PromptKeys(): seq<string> {
    ["sha256", "tokens"]
  }

  /** A prompt by its hash and its length. */
  function PromptJson(prompt: Tokens, sha: Tokens -> string): Json {
    ObjectOf(PromptKeys(), [Str(sha(prompt)), Int(|prompt|)])
  }

  lemma PromptRead(prompt: Tokens, sha: Tokens -> string)
    ensures CountAt(PromptJson(prompt, sha), "tokens") == Ok(|prompt|) && WellFormed(PromptJson(prompt, sha))
  {
    var keys := PromptKeys();
    assert keys[0][0] == 's' && keys[1][0] == 't';
    ObjectAt(keys, [Str(sha(prompt)), Int(|prompt|)], 1);
    ObjectWellFormed(keys, [Str(sha(prompt)), Int(|prompt|)]);
  }

  lemma PromptFinite(prompt: Tokens, sha: Tokens -> string)
    ensures Finite(PromptJson(prompt, sha))
  {
    var keys := PromptKeys();
    assert keys[0][0] == 's' && keys[1][0] == 't';
    ObjectFinite(keys, [Str(sha(prompt)), Int(|prompt|)]);
  }

  function SpecKeys(): seq<string> {
    ["cache_prompt", "n_cache_reuse", "n_predict", "prompt", "return_tokens", "seed", "slot", "stream", "temperature"]
  }

  lemma SpecKeysDistinct()
    ensures NoDuplicates(SpecKeys())
  {
    var k := SpecKeys();
    assert |k[0]| == 12 && |k[1]| == 13 && |k[2]| == 9 && |k[3]| == 6 && |k[4]| == 13 && |k[5]| == 4 && |k[6]| == 4;
    assert |k[7]| == 6 && |k[8]| == 11;
    assert k[1][0] == 'n' && k[4][0] == 'r' && k[5][1] == 'e' && k[6][1] == 'l' && k[3][0] == 'p' && k[7][0] == 's';
  }

  function SpecValues(spec: PromptSpec, sha: Tokens -> string): (values: seq<Json>)
    ensures |values| == 9
  {
    [ Bool(spec.cachePrompt), Int(0), Int(1), PromptJson(spec.prompt, sha), Bool(false), Int(42), Int(spec.slot),
      Bool(false), Int(0) ]
  }

  function SpecJson(spec: PromptSpec, sha: Tokens -> string): Json {
    ObjectOf(SpecKeys(), SpecValues(spec, sha))
  }

  lemma SpecRead(spec: PromptSpec, sha: Tokens -> string)
    ensures At(SpecJson(spec, sha), "prompt") == Ok(PromptJson(spec.prompt, sha)) && WellFormed(SpecJson(spec, sha))
  {
    SpecKeysDistinct();
    ObjectAt(SpecKeys(), SpecValues(spec, sha), 3);
    PromptRead(spec.prompt, sha);
    ObjectWellFormed(SpecKeys(), SpecValues(spec, sha));
  }

  lemma SpecFinite(spec: PromptSpec, sha: Tokens -> string)
    ensures Finite(SpecJson(spec, sha))
  {
    SpecKeysDistinct();
    PromptFinite(spec.prompt, sha);
    ObjectFinite(SpecKeys(), SpecValues(spec, sha));
  }

  // -- One case ------------------------------------------------------------------------------

  function CaseKeys(): seq<string> {
    ["cache_off_target", "cache_on_target", "common_prefix_tokens", "source"]
  }

  lemma CaseKeysDistinct()
    ensures NoDuplicates(CaseKeys())
  {
    var k := CaseKeys();
    assert |k[0]| == 16 && |k[1]| == 15 && |k[2]| == 20 && |k[3]| == 6;
  }

  function RegistrationValues(c: PrefixCase, sha: Tokens -> string): (values: seq<Json>)
    ensures |values| == 4
  {
    [SpecJson(c.cacheOff, sha), SpecJson(c.cacheOn, sha), Int(c.commonPrefix), SpecJson(c.source, sha)]
  }

  function RegistrationJson(c: PrefixCase, sha: Tokens -> string): Json {
    ObjectOf(CaseKeys(), RegistrationValues(c, sha))
  }

  lemma SpecAt(c: PrefixCase, sha: Tokens -> string, n: nat, spec: PromptSpec)
    requires n < 4 && RegistrationValues(c, sha)[n] == SpecJson(spec, sha)
    ensures PromptTokens(RegistrationJson(c, sha), CaseKeys()[n]) == Ok(|spec.prompt|)
  {
    CaseKeysDistinct();
    ObjectAt(CaseKeys(), RegistrationValues(c, sha), n);
    SpecRead(spec, sha);
    PromptRead(spec.prompt, sha);
  }

  /** The oracle reads from a case's registration the lengths of its prompts and its prefix length. */
  lemma RegisteredRead(c: PrefixCase, sha: Tokens -> string)
    ensures ReadRegistered(RegistrationJson(c, sha)) == Ok(Register(c))
  {
    SpecAt(c, sha, 0, c.cacheOff);
    SpecAt(c, sha, 1, c.cacheOn);
    SpecAt(c, sha, 3, c.source);
    CaseKeysDistinct();
    ObjectAt(CaseKeys(), RegistrationValues(c, sha), 2);
  }

  lemma RegistrationWellFormed(c: PrefixCase, sha: Tokens -> string)
    ensures WellFormed(RegistrationJson(c, sha))
  {
    CaseKeysDistinct();
    SpecRead(c.cacheOff, sha);
    SpecRead(c.cacheOn, sha);
    SpecRead(c.source, sha);
    hide SpecJson;
    ObjectWellFormed(CaseKeys(), RegistrationValues(c, sha));
  }

  lemma RegistrationFinite(c: PrefixCase, sha: Tokens -> string)
    ensures Finite(RegistrationJson(c, sha))
  {
    CaseKeysDistinct();
    SpecFinite(c.cacheOff, sha);
    SpecFinite(c.cacheOn, sha);
    SpecFinite(c.source, sha);
    ObjectFinite(CaseKeys(), RegistrationValues(c, sha));
  }

  // -- All cases -----------------------------------------------------------------------------

  function PrefixNamesOf(cases: seq<PrefixCase>): seq<string> {
    seq(|cases|, i requires 0 <= i < |cases| => cases[i].name)
  }

  /** The three registered cases, listed with their lengths in the pinned registration. */
  ghost predicate PinsRegister(registration: Json, cases: seq<PrefixCase>) {
    && Has(registration, "token_prefix_divergence")
    && (forall name :: PrefixName(name) <==> name in PrefixNamesOf(cases))
    && forall i :: 0 <= i < |cases| ==>
         RegisteredAt(Get(registration, "token_prefix_divergence"), cases[i].name) == Ok(Register(cases[i]))
  }

  function LaneRegistration(cases: seq<PrefixCase>, sha: Tokens -> string): Json {
    ObjectOf(PrefixNamesOf(cases), seq(|cases|, i requires 0 <= i < |cases| => RegistrationJson(cases[i], sha)))
  }

  /** The earlier registration with the lane added. */
  function RegisteredScenarios(earlier: Json, cases: seq<PrefixCase>, sha: Tokens -> string): Json
    requires earlier.Obj?
  {
    var key := "token_prefix_divergence";
    Obj(earlier.fields[key := LaneRegistration(cases, sha)],
        if key in earlier.fields then earlier.order else earlier.order + [key])
  }

  /** Whatever cases the registration is built from, if they have the three names: it lists their lengths. */
  lemma RegistrationListsItsCases(earlier: Json, cases: seq<PrefixCase>, sha: Tokens -> string)
    requires earlier.Obj? && CaseNamesDiffer(cases) && forall name :: PrefixName(name) <==> name in PrefixNamesOf(cases)
    ensures PinsRegister(RegisteredScenarios(earlier, cases, sha), cases)
  {
    var values := seq(|cases|, i requires 0 <= i < |cases| => RegistrationJson(cases[i], sha));
    forall i | 0 <= i < |cases|
      ensures RegisteredAt(LaneRegistration(cases, sha), cases[i].name) == Ok(Register(cases[i]))
    {
      ObjectAt(PrefixNamesOf(cases), values, i);
      RegisteredRead(cases[i], sha);
    }
  }

  lemma RegisteredScenariosWellFormed(earlier: Json, cases: seq<PrefixCase>, sha: Tokens -> string)
    requires earlier.Obj? && WellFormed(earlier) && CaseNamesDiffer(cases)
    ensures WellFormed(RegisteredScenarios(earlier, cases, sha))
  {
    var values := seq(|cases|, i requires 0 <= i < |cases| => RegistrationJson(cases[i], sha));
    forall i | 0 <= i < |cases|
      ensures WellFormed(values[i])
    {
      RegistrationWellFormed(cases[i], sha);
    }
    ObjectWellFormed(PrefixNamesOf(cases), values);
  }

  lemma RegisteredScenariosFinite(earlier: Json, cases: seq<PrefixCase>, sha: Tokens -> string)
    requires earlier.Obj? && Finite(earlier) && CaseNamesDiffer(cases)
    ensures Finite(RegisteredScenarios(earlier, cases, sha))
  {
    var values := seq(|cases|, i requires 0 <= i < |cases| => RegistrationJson(cases[i], sha));
    forall i | 0 <= i < |cases|
      ensures Finite(values[i])
    {
      RegistrationFinite(cases[i], sha);
    }
    ObjectFinite(PrefixNamesOf(cases), values);
  }
}
