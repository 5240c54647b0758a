/** The adapter's requests, and the two-slot server that answers them: what is assumed of the server is its
    management of the slots' caches, and that an answer which passes the adapter's checks is true. */
module SlotServer {
  import opened Wrappers
  import opened Adapter
  import opened Json
  import opened Oracle
  import opened PrefixOracle
  import DualStream
  import SingleStream

  // -- Prefix reuse --------------------------------------------------------------------------

  type Tokens = seq<nat>

  function Lcp(a: Tokens, b: Tokens): (n: nat)
    ensures n <= |a| && n <= |b|
    ensures a[..n] == b[..n]
    ensures n < |a| && n < |b| ==> a[n] != b[n]
  {
    if a == [] || b == [] || a[0] != b[0] then 0 else 1 + Lcp(a[1..], b[1..])
  }

  lemma SamePrefix(a: Tokens, b: Tokens, n: nat)
    requires n <= |a| && n <= |b| && a[..n] == b[..n]
    ensures forall k :: 0 <= k < n ==> a[k] == b[k]
  {
    forall k | 0 <= k < n
      ensures a[k] == b[k]
    {
      assert a[..n][k] == b[..n][k];
    }
  }

  lemma LcpUnique(a: Tokens, b: Tokens, n: nat)
    requires n <= |a| && n <= |b| && a[..n] == b[..n] && (n < |a| && n < |b| ==> a[n] != b[n])
    ensures Lcp(a, b) == n
  {
    SamePrefix(a, b, n);
    SamePrefix(a, b, Lcp(a, b));
  }

  /** A cache-on request reuses the common prefix with its slot, but evaluates at least its last token. */
  function Reuse(cached: Tokens, prompt: Tokens): nat
    requires prompt != []
  {
    if Lcp(cached, prompt) == |prompt| then |prompt| - 1 else Lcp(cached, prompt)
  }

  lemma ReuseOfNothing(prompt: Tokens)
    requires prompt != []
    ensures Reuse([], prompt) == 0
  {
  }

  /** A slot that has seen the prompt before reuses all of it but its last token, whatever was generated since. */
  lemma ReuseOfItself(prompt: Tokens, suffix: Tokens)
    requires prompt != []
    ensures Reuse(prompt + suffix, prompt) == |prompt| - 1
  {
    assert (prompt + suffix)[..|prompt|] == prompt[..|prompt|];
    LcpUnique(prompt + suffix, prompt, |prompt|);
  }

  // -- The server, as assumed ----------------------------------------------------------------

  datatype PromptSpec = PromptSpec(slot: nat, prompt: Tokens, cachePrompt: bool)

  /** A completion request. */
  datatype CompletionSpec = CompletionSpec(name: string, slot: nat, prompt: Tokens, cachePrompt: bool, nPredict: nat)

  /** The generated part of a response. */
  datatype Answer = Answer(content: string, tokens: seq<int>)

  /** What is fixed about the server: greedy answers depend on the prompt alone, and a saved slot on its tokens; and the
      library functions that describe both. */
  datatype Model = Model(answer: (Tokens, nat) -> Answer, file: Tokens -> StateFile, lib: Library)

  /** The answer is one that the adapter can return: it holds a token, and its text can be encoded. */
  predicate Answered(m: Model, spec: CompletionSpec) {
    var a := m.answer(spec.prompt, spec.nPredict);
    spec.prompt != [] && a.tokens != [] && m.lib.utf8(a.content).Some?
  }

  /** An answer as the adapter describes it. */
  function Described(m: Model, a: Answer, work: int): Completion {
    var raw := if m.lib.utf8(a.content).Some? then m.lib.utf8(a.content).value else [];
    Completion(m.lib.sha256(raw), m.lib.sha256(m.lib.canonical(a.tokens)), |raw|, |a.tokens|, |a.tokens|, work)
  }

  /** The observation of a completion that reuses `cached` tokens. */
  function Completed(m: Model, spec: CompletionSpec, cached: int): Observed {
    var work := |spec.prompt| - cached;
    Observed(Described(m, m.answer(spec.prompt, spec.nPredict), work), Slot(true, work))
  }

  predicate Completes(o: Observed, m: Model, spec: CompletionSpec, cached: int) {
    Answered(m, spec) && o == Completed(m, spec, cached)
  }

  /** The requests that reach a slot; reading the list of slots is not one. */
  datatype Call =
    | Erase(slot: nat)
    | Prefill(prefill: PromptSpec)
    | Complete(completion: CompletionSpec)
    | Save(from: nat)
    | Restore(to: nat)
    | Stream
    | DualStreams(first: nat)

  /** The client, and the state of the server behind it. */
  class Client {
    const model: Model
    var slots: seq<Tokens>
    /** The prompt tokens that each slot's last request evaluated. */
    var work: seq<nat>
    /** The slot state file. */
    var saved: Tokens
    ghost var calls: seq<Call>

    ghost predicate Valid()
      reads this
    {
      |slots| == |work| == SLOT_COUNT
    }

    /** A server that has just started: its slots are empty, the file is what an earlier one left. */
    constructor (model: Model, saved: Tokens)
      ensures Valid() && this.model == model && this.saved == saved && calls == []
    {
      this.model := model;
      this.saved := saved;
      slots, work := [[], []], [0, 0];
      calls := [];
    }

    // -- The server's side -------------------------------------------------------------------

    /** Evaluates a prompt. The slot then holds it and whatever was generated. */
    method Evaluate(slot: nat, prompt: Tokens, cachePrompt: bool) returns (cached: nat, ghost generated: Tokens)
      requires Valid() && slot < SLOT_COUNT && prompt != []
      modifies `slots, `work
      ensures Valid() && slots == old(slots)[slot := prompt + generated]
      ensures cached == (if cachePrompt then Reuse(old(slots)[slot], prompt) else 0) <= |prompt|
      ensures work[slot] == |prompt| - cached
    {
      cached := if cachePrompt then Reuse(slots[slot], prompt) else 0;
      var suffix: Tokens := *;
      slots := slots[slot := prompt + suffix];
      work := work[slot := |prompt| - cached];
      return cached, suffix;
    }

    /** Any answer that is not wrong where the adapter looks. */
    method AnswerCompletion(spec: CompletionSpec, cached: nat) returns (response: Json)
      requires spec.prompt != []
      ensures CompletionOf(response, model.lib).Ok? ==>
        && Answered(model, spec)
        && CompletionOf(response, model.lib).value.completion == Completed(model, spec, cached).completion
    {
      response := *;
      var read := CompletionOf(response, model.lib);
      if read.Ok? && !(Answered(model, spec) && read.value.completion == Completed(model, spec, cached).completion) {
        response := Null;
      }
    }

    method AnswerPrefill(spec: PromptSpec, cached: nat) returns (response: Json)
      ensures PrefillOf(response).Ok? ==>
        PrefillOf(response).value == Counters(cached, 1, |spec.prompt|, |spec.prompt| - cached)
    {
      response := *;
      var read := PrefillOf(response);
      if read.Ok? && read.value != Counters(cached, 1, |spec.prompt|, |spec.prompt| - cached) {
        response := Null;
      }
    }

    method AnswerSlots(slot: nat) returns (response: Json)
      requires Valid() && slot < SLOT_COUNT
      ensures ViewOf(response, slot).Ok? ==> ViewOf(response, slot).value == Slot(true, work[slot])
    {
      response := *;
      var view := ViewOf(response, slot);
      if view.Ok? && view.value != Slot(true, work[slot]) {
        response := Null;
      }
    }

    /** Leaves anything in the slots. */
    method Disturb()
      requires Valid()
      modifies `slots, `work
      ensures Valid()
    {
      var zero: Tokens := *;
      var one: Tokens := *;
      var workOfZero: nat := *;
      var workOfOne: nat := *;
      slots, work := [zero, one], [workOfZero, workOfOne];
    }

    // -- The adapter's side ------------------------------------------------------------------

    method Erase(slot: nat) returns (r: Result<()>)
      requires Valid() && slot < SLOT_COUNT
      modifies `slots, `calls
      ensures Valid() && calls == old(calls) + [Call.Erase(slot)]
      ensures r.Ok? ==> slots == old(slots)[slot := []]
    {
      calls := calls + [Call.Erase(slot)];
      var response: Json := *;
      if Acknowledged(response, slot) {
        slots := slots[slot := []];
        return Ok(());
      }
      return Raised;
    }

    /** A prefill request and the idle view after it. */
    method DirectTokenPrefill(spec: PromptSpec) returns (r: Result<Observation>, ghost generated: Tokens)
      requires Valid() && spec.slot < SLOT_COUNT
      modifies `slots, `work, `calls
      ensures Valid() && calls == old(calls) + (if spec.prompt == [] then [] else [Prefill(spec)])
      ensures r.Ok? ==> spec.prompt != [] && slots == old(slots)[spec.slot := spec.prompt + generated]
      ensures r.Ok? ==>
        r.value == Reusing(|spec.prompt|, if spec.cachePrompt then Reuse(old(slots)[spec.slot], spec.prompt) else 0)
    {
      generated := [];
      if spec.prompt == [] {
        return Raised, generated;
      }
      calls := calls + [Prefill(spec)];
      var cached;
      cached, generated := Evaluate(spec.slot, spec.prompt, spec.cachePrompt);
      var response := AnswerPrefill(spec, cached);
      var counters := PrefillOf(response);
      if counters.Raised? {
        return Raised, generated;
      }
      response := AnswerSlots(spec.slot);
      var view := ViewOf(response, spec.slot);
      if view.Raised? {
        return Raised, generated;
      }
      var c := counters.value;
      var o := Observation(
        c.cacheTokens, c.predictedTokens, c.promptTokens, c.promptWork, view.value.idle, view.value.promptWork);
      return Ok(o), generated;
    }

    /** A completion request and the idle view after it. An empty prompt is left to the server, which is assumed to
        refuse it. */
    method Complete(spec: CompletionSpec) returns (r: Result<Observed>, ghost generated: Tokens)
      requires Valid() && spec.slot < SLOT_COUNT
      modifies `slots, `work, `calls
      ensures Valid() && calls == old(calls) + [Call.Complete(spec)]
      ensures r.Ok? ==> slots == old(slots)[spec.slot := spec.prompt + generated]
      ensures r.Ok? ==> spec.prompt != []
      ensures r.Ok? ==>
        Completes(r.value, model, spec, if spec.cachePrompt then Reuse(old(slots)[spec.slot], spec.prompt) else 0)
    {
      generated := [];
      calls := calls + [Call.Complete(spec)];
      if spec.prompt == [] {
        return Raised, generated;
      }
      var cached;
      cached, generated := Evaluate(spec.slot, spec.prompt, spec.cachePrompt);
      var response := AnswerCompletion(spec, cached);
      var completion := CompletionOf(response, model.lib);
      if completion.Raised? {
        return Raised, generated;
      }
      response := AnswerSlots(spec.slot);
      var view := ViewOf(response, spec.slot);
      if view.Raised? {
        return Raised, generated;
      }
      return Ok(Observed(completion.value.completion, view.value)), generated;
    }

    method Save(slot: nat) returns (r: Result<int>)
      requires Valid() && slot < SLOT_COUNT
      modifies `saved, `calls
      ensures calls == old(calls) + [Call.Save(slot)]
      ensures r.Ok? ==> saved == slots[slot] && r.value == |saved|
    {
      calls := calls + [Call.Save(slot)];
      var response: Json := *;
      if SavedCount(response, slot) != Ok(|slots[slot]|) {
        response := Null;
      }
      saved := slots[slot];
      return SavedCount(response, slot);
    }

    method Restore(slot: nat) returns (r: Result<int>)
      requires Valid() && slot < SLOT_COUNT
      modifies `slots, `calls
      ensures Valid() && calls == old(calls) + [Call.Restore(slot)]
      ensures r.Ok? ==> slots == old(slots)[slot := saved] && r.value == |saved|
    {
      calls := calls + [Call.Restore(slot)];
      var response: Json := *;
      if RestoredCount(response, slot) != Ok(|saved|) {
        response := Null;
      }
      slots := slots[slot := saved];
      return RestoredCount(response, slot);
    }

    /** A stream that is cut off after its first event, under any schedule of the caller's and the sampler's steps;
        anything may be left in the slots. */
    method StreamThenDisconnect() returns (r: Result<Disconnect>)
      requires Valid()
      modifies `slots, `work, `calls
      ensures Valid() && calls == old(calls) + [Stream]
      ensures r.Ok? ==> SingleStream.Reported(r.value)
    {
      calls := calls + [Stream];
      Disturb();
      var s := SingleStream.Init();
      ghost var states := [s];
      var steps: nat := *;
      while steps > 0
        invariant Valid() && calls == old(calls) + [Stream]
        invariant SingleStream.IsRun(states) && states[|states| - 1] == s
      {
        var action: SingleStream.Action := *;
        var next := SingleStream.Step(s, action);
        if next.Some? {
          SingleStream.RunContinues(states, action);
          states := states + [next.value];
          s := next.value;
        }
        steps := steps - 1;
      }
      if !s.c.pc.Returned? {
        return Raised;
      }
      SingleStream.ReturnedRunIsOrdered(states);
      return Ok(SingleStream.ReportOf(s));
    }

    /** Two such streams, under any schedule of the protocol's steps. */
    method DualStreamDisconnect(first: nat) returns (r: Result<DualStream.Report>)
      requires Valid() && first < SLOT_COUNT
      modifies `slots, `work, `calls
      ensures Valid() && calls == old(calls) + [DualStreams(first)]
      ensures r.Ok? ==> DualStream.Reported(first, r.value)
    {
      calls := calls + [DualStreams(first)];
      Disturb();
      var s := DualStream.Init(first);
      ghost var states := [s];
      var steps: nat := *;
      while steps > 0
        invariant Valid() && calls == old(calls) + [DualStreams(first)]
        invariant DualStream.IsRun(first, states) && states[|states| - 1] == s
      {
        var action: DualStream.Action := *;
        var next := DualStream.Step(s, action);
        if next.Some? {
          DualStream.RunContinues(first, states, action);
          states := states + [next.value];
          s := next.value;
        }
        steps := steps - 1;
      }
      if !s.pc.Returned? {
        return Raised;
      }
      DualStream.ReturnedRunIsOrdered(first, states);
      return Ok(DualStream.ReportOf(s));
    }
  }
}
