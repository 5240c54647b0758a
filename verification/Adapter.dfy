/** What the HTTP adapter makes of the server's answers: each is checked field by field, and anything unexpected
    raises. */
module Adapter {
  import opened Wrappers
  import opened Bytes
  import opened Json
  import opened Oracle
  import opened Reading

  /** The library functions in between: encoding as UTF-8, which may fail, the canonical printing of a token
      list, and the SHA-256 in hexadecimal. */
  datatype Library = Library(utf8: string -> Option<bytes>, canonical: seq<int> -> bytes, sha256: bytes -> string)

  /** A count is an integer that is not a Boolean and not negative; a missing field is none. */
  function CountIn(j: Json, key: string): Result<int> {
    var n :- IntAt(j, key);
    if n < 0 then Raised else Ok(n)
  }

  // -- Completions ---------------------------------------------------------------------------

  function Integers(items: seq<Json>): (r: Result<seq<int>>)
    ensures r.Ok? <==> forall n :: 0 <= n < |items| ==> items[n].Int?
    ensures r.Ok? ==> |r.value| == |items| && forall n :: 0 <= n < |items| ==> items[n] == Int(r.value[n])
  {
    if forall n :: 0 <= n < |items| ==> items[n].Int?
    then Ok(seq(|items|, n requires 0 <= n < |items| && items[n].Int? => items[n].i))
    else Raised
  }

  function TokensIn(j: Json): Result<seq<int>> {
    var tokens :- At(j, "tokens");
    if tokens.Arr? then Integers(tokens.items) else Raised
  }

  function Encoded(lib: Library, content: string): Result<bytes> {
    if lib.utf8(content).Some? then Ok(lib.utf8(content).value) else Raised
  }

  /** A completion as the adapter returns it; no oracle looks at the last count. */
  datatype Returned = Returned(completion: Completion, responseCached: int)

  function CompletionOf(response: Json, lib: Library): Result<Returned> {
    var content :- StrAt(response, "content");
    var tokens :- TokensIn(response);
    var timings :- At(response, "timings");
    var promptWork :- CountIn(timings, "prompt_n");
    var predicted :- CountIn(timings, "predicted_n");
    var responseCached :- CountIn(response, "tokens_cached");
    var raw :- Encoded(lib, content);
    if predicted == 0 || |tokens| != predicted then Raised
    else
      var contentSha, tokensSha := lib.sha256(raw), lib.sha256(lib.canonical(tokens));
      Ok(Returned(Completion(contentSha, tokensSha, |raw|, predicted, |tokens|, promptWork), responseCached))
  }

  /** The counters of a direct-token prefill. */
  datatype Counters = Counters(cacheTokens: int, predictedTokens: int, promptTokens: int, promptWork: int)

  function PrefillOf(response: Json): Result<Counters> {
    var timings :- At(response, "timings");
    var cacheTokens :- CountIn(timings, "cache_n");
    var predicted :- CountIn(timings, "predicted_n");
    var evaluated :- CountIn(response, "tokens_evaluated");
    var promptWork :- CountIn(timings, "prompt_n");
    Ok(Counters(cacheTokens, predicted, evaluated, promptWork))
  }

  // -- Slots ---------------------------------------------------------------------------------

  const SLOT_COUNT := 2

  /** The registered pair of slots, in either order. */
  predicate SlotsValid(response: Json) {
    && response.Arr? && |response.items| == SLOT_COUNT
    && var a, b := IntAt(response.items[0], "id"), IntAt(response.items[1], "id");
       (a == Ok(0) && b == Ok(1)) || (a == Ok(1) && b == Ok(0))
  }

  /** The view of the first entry with this identity. */
  function ViewFrom(values: seq<Json>, slot: int): Result<Slot> {
    if values == [] then Raised
    else if IntAt(values[0], "id") == Ok(slot) then
      var processing :- BoolAt(values[0], "is_processing");
      var processed :- CountIn(values[0], "n_prompt_tokens_processed");
      Ok(Slot(!processing, processed))
    else ViewFrom(values[1..], slot)
  }

  function ViewOf(response: Json, slot: int): Result<Slot> {
    if SlotsValid(response) then ViewFrom(response.items, slot) else Raised
  }

  lemma ViewOfPair(a: Json, b: Json, slot: int)
    requires SlotsValid(Arr([a, b]))
    ensures ViewOf(Arr([a, b]), slot) ==
      if IntAt(a, "id") == Ok(slot) then ViewFrom([a], slot)
      else if IntAt(b, "id") == Ok(slot) then ViewFrom([b], slot)
      else Raised
  {
    var pair := [a, b];
    assert pair[1..] == [b] && [b][1..] == [];
    assert ViewOf(Arr(pair), slot) == ViewFrom(pair, slot);
    if IntAt(a, "id") != Ok(slot) {
      assert ViewFrom(pair, slot) == ViewFrom([b], slot);
    }
  }

  /** In which order the server lists its slots does not matter. */
  lemma SlotOrderIsIrrelevant(a: Json, b: Json, slot: int)
    ensures ViewOf(Arr([a, b]), slot) == ViewOf(Arr([b, a]), slot)
  {
    if SlotsValid(Arr([a, b])) {
      ViewOfPair(a, b, slot);
      ViewOfPair(b, a, slot);
    }
  }

  // -- Acknowledgements ----------------------------------------------------------------------

  predicate Acknowledged(response: Json, slot: int) {
    IntAt(response, "id_slot") == Ok(slot)
  }

  function SavedCount(response: Json, slot: int): Result<int> {
    if Acknowledged(response, slot) then CountIn(response, "n_saved") else Raised
  }

  function RestoredCount(response: Json, slot: int): Result<int> {
    if Acknowledged(response, slot) then CountIn(response, "n_restored") else Raised
  }
}
