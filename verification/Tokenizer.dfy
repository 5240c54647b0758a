/** Reading a llama2.c tokenizer: a header and one score/length/text record for each token. */
module Tokenizer {
  import opened Wrappers
  import opened Bytes

  // -- Spaces --------------------------------------------------------------------------------

  const SPACE: byte := 0x20

  /** U+2581 in UTF-8. */
  const MARK: bytes := [0xE2, 0x96, 0x81]

  /** Replaces every space byte by the mark. */
  function Escape(text: bytes): bytes {
    if text == [] then []
    else (if text[0] == SPACE then MARK else [text[0]]) + Escape(text[1..])
  }

  /** Replaces every mark, from the left, by a space. */
  function Unescape(text: bytes): bytes
    decreases |text|
  {
    if text == [] then []
    else if MARK <= text then [SPACE] + Unescape(text[3..])
    else [text[0]] + Unescape(text[1..])
  }

  predicate MarkAt(text: bytes, i: int) {
    0 <= i <= |text| - 3 && text[i] == MARK[0] && text[i + 1] == MARK[1] && text[i + 2] == MARK[2]
  }

  ghost predicate HasMark(text: bytes) {
    exists i :: MarkAt(text, i)
  }

  lemma {:induction false} EscapeLeavesNoSpace(text: bytes)
    ensures SPACE !in Escape(text)
  {
    if text != [] {
      EscapeLeavesNoSpace(text[1..]);
    }
  }

  lemma EscapeKeepsStart(text: bytes)
    requires MARK <= Escape(text) && text != [] && text[0] != SPACE
    ensures MARK <= text
  {
    var e := Escape(text);
    assert e[0] == text[0] && e[1..] == Escape(text[1..]);
    assert e[1] == 0x96 && e[2] == 0x81;
    var t := text[1..];
    assert t != [] && t[0] == 0x96;
    assert e[1..][1..] == Escape(t[1..]);
    assert t[1..] != [] && t[1] == 0x81;
  }

  /** Undoing the escape gives what undoing it on the unescaped text gives. */
  lemma {:induction false} UnescapeOfEscape(text: bytes)
    ensures Unescape(Escape(text)) == Unescape(text)
    decreases |text|
  {
    if text != [] {
      var e := Escape(text);
      if text[0] == SPACE {
        UnescapeOfEscape(text[1..]);
        assert MARK <= e && e[3..] == Escape(text[1..]);
      } else if MARK <= text {
        UnescapeOfEscape(text[3..]);
        assert Escape(text) == [text[0]] + Escape(text[1..]);
        assert Escape(text[1..]) == [text[1]] + Escape(text[2..]) by { assert text[1..][1..] == text[2..]; }
        assert Escape(text[2..]) == [text[2]] + Escape(text[3..]) by { assert text[2..][1..] == text[3..]; }
        assert MARK <= e && e[3..] == Escape(text[3..]);
      } else {
        UnescapeOfEscape(text[1..]);
        if MARK <= e {
          EscapeKeepsStart(text);
        }
        assert e[1..] == Escape(text[1..]);
      }
    }
  }

  lemma {:induction false} UnescapeWithoutMark(text: bytes)
    requires !HasMark(text)
    ensures Unescape(text) == text
    decreases |text|
  {
    if text != [] {
      assert !(MARK <= text) by {
        if MARK <= text {
          assert MarkAt(text, 0);
        }
      }
      forall i
        ensures !MarkAt(text[1..], i)
      {
        assert !MarkAt(text, i + 1);
      }
      UnescapeWithoutMark(text[1..]);
    }
  }

  lemma {:induction false} UnescapeShrinks(text: bytes)
    ensures |Unescape(text)| <= |text|
    ensures HasMark(text) ==> |Unescape(text)| < |text|
    decreases |text|
  {
    if text != [] {
      if MARK <= text {
        UnescapeShrinks(text[3..]);
      } else {
        UnescapeShrinks(text[1..]);
        if HasMark(text) {
          var i :| MarkAt(text, i);
          assert i == 0 ==> MARK <= text;
          assert MarkAt(text[1..], i - 1);
        }
      }
    }
  }

  /** The escape is undone by the reverse replacement exactly on texts that hold no mark of their own. */
  lemma EscapeInvertible(text: bytes)
    ensures Unescape(Escape(text)) == text <==> !HasMark(text)
  {
    UnescapeOfEscape(text);
    if HasMark(text) {
      UnescapeShrinks(text);
    } else {
      UnescapeWithoutMark(text);
    }
  }

  // -- Records -------------------------------------------------------------------------------

  /** A record as it is stored; the score is four opaque bytes. */
  datatype Record = Record(score: bytes, text: bytes)

  predicate Storable(r: Record) {
    |r.score| == 4 && |r.text| < TWO_32
  }

  function Encode(r: Record): bytes
    requires Storable(r)
  {
    r.score + ToU32(|r.text|) + r.text
  }

  predicate AllStorable(rs: seq<Record>) {
    forall r :: r in rs ==> Storable(r)
  }

  function EncodeAll(rs: seq<Record>): bytes
    requires AllStorable(rs)
  {
    if rs == [] then [] else Encode(rs[0]) + EncodeAll(rs[1..])
  }

  /** The record some bytes start with, and the bytes after it. */
  function ReadRecord(data: bytes): (r: Option<(Record, bytes)>)
    ensures r.Some? ==> |r.value.1| < |data|
  {
    if |data| < 8 || |data| < 8 + U32(data[4..8]) then None
    else
      var length := U32(data[4..8]);
      Some((Record(data[..4], data[8..8 + length]), data[8 + length..]))
  }

  lemma ReadUndoesEncode(r: Record, tail: bytes)
    requires Storable(r)
    ensures ReadRecord(Encode(r) + tail) == Some((r, tail))
  {
    var data := Encode(r) + tail;
    assert data[..4] == r.score && data[4..8] == ToU32(|r.text|);
    assert data[8..8 + |r.text|] == r.text && data[8 + |r.text|..] == tail;
  }

  lemma EncodeUndoesRead(data: bytes)
    requires ReadRecord(data).Some?
    ensures var (r, tail) := ReadRecord(data).value; Storable(r) && data == Encode(r) + tail
  {
    var (r, tail) := ReadRecord(data).value;
    U32Injective(data[4..8], ToU32(|r.text|));
    assert data == data[..4] + data[4..8] + data[8..8 + |r.text|] + tail;
  }

  /** Exactly `n` records, with nothing after them. */
  function Parse(data: bytes, n: nat): Option<seq<Record>>
    decreases n
  {
    if n == 0 then if data == [] then Some([]) else None
    else
      var first := ReadRecord(data);
      if first.None? then None
      else
        var rest := Parse(first.value.1, n - 1);
        if rest.None? then None else Some([first.value.0] + rest.value)
  }

  lemma {:induction false} ParseUndoesEncode(rs: seq<Record>)
    requires AllStorable(rs)
    ensures Parse(EncodeAll(rs), |rs|) == Some(rs)
  {
    if rs != [] {
      ReadUndoesEncode(rs[0], EncodeAll(rs[1..]));
      ParseUndoesEncode(rs[1..]);
      assert [rs[0]] + rs[1..] == rs;
    }
  }

  lemma {:induction false} EncodeUndoesParse(data: bytes, n: nat)
    requires Parse(data, n).Some?
    ensures var rs := Parse(data, n).value; |rs| == n && AllStorable(rs) && EncodeAll(rs) == data
    decreases n
  {
    if n > 0 {
      EncodeUndoesRead(data);
      EncodeUndoesParse(ReadRecord(data).value.1, n - 1);
      var rs := Parse(data, n).value;
      assert rs[1..] == Parse(ReadRecord(data).value.1, n - 1).value;
    }
  }

  // -- Tokens --------------------------------------------------------------------------------

  datatype TokenType = NORMAL | UNKNOWN | CONTROL | BYTE

  datatype Token = Token(text: bytes, score: bytes, kind: TokenType)

  predicate HexDigit(b: byte) {
    0x30 <= b <= 0x39 || 0x41 <= b <= 0x46 || 0x61 <= b <= 0x66
  }

  /** "<0xHH>". */
  predicate ByteToken(text: bytes) {
    |text| == 6 && text[0] == 0x3C && text[1] == 0x30 && text[2] == 0x78
    && HexDigit(text[3]) && HexDigit(text[4]) && text[5] == 0x3E
  }

  const UNK: bytes := [0x3C, 0x75, 0x6E, 0x6B, 0x3E]
  const BOS: bytes := [0x3C, 0x73, 0x3E]
  const EOS: bytes := [0x3C, 0x2F, 0x73, 0x3E]

  /** The token a record becomes: ids 0 to 2 are fixed, the others keep their escaped text. */
  function TokenOf(id: nat, r: Record): Token {
    if id == 0 then Token(Escape(UNK), r.score, UNKNOWN)
    else if id == 1 then Token(Escape(BOS), r.score, CONTROL)
    else if id == 2 then Token(Escape(EOS), r.score, CONTROL)
    else Token(Escape(r.text), r.score, if r.text == [] then CONTROL else if ByteToken(r.text) then BYTE else NORMAL)
  }

  function TokensOf(rs: seq<Record>): seq<Token> {
    seq(|rs|, id requires 0 <= id < |rs| => TokenOf(id, rs[id]))
  }

  // -- Files ---------------------------------------------------------------------------------

  const HEADER_BYTES := 4

  /** A well-formed file: a header, the records, and nothing else. */
  ghost predicate Holds(data: bytes, rs: seq<Record>) {
    AllStorable(rs) && |data| >= HEADER_BYTES && data[HEADER_BYTES..] == EncodeAll(rs)
  }

  lemma RecordsUnique(data: bytes, a: seq<Record>, b: seq<Record>)
    requires Holds(data, a) && Holds(data, b) && |a| == |b|
    ensures a == b
  {
    ParseUndoesEncode(a);
    ParseUndoesEncode(b);
  }

  /** What a read of `count` bytes at a position returns: fewer at the end of the file. */
  function ReadAt(data: bytes, at: nat, count: nat): bytes {
    if at >= |data| then [] else if at + count > |data| then data[at..] else data[at..at + count]
  }

  lemma ReadRecordAt(data: bytes, at: nat)
    requires at <= |data|
    ensures ReadRecord(data[at..]).Some? <==>
      && |ReadAt(data, at, 4)| == 4 && |ReadAt(data, at + 4, 4)| == 4
      && |ReadAt(data, at + 8, U32(ReadAt(data, at + 4, 4)))| == U32(ReadAt(data, at + 4, 4))
    ensures ReadRecord(data[at..]).Some? ==>
      var length := U32(ReadAt(data, at + 4, 4));
      && at + 8 + length <= |data|
      && ReadRecord(data[at..]).value
         == (Record(ReadAt(data, at, 4), ReadAt(data, at + 8, length)), data[at + 8 + length..])
  {
    var d := data[at..];
    if |d| >= 8 {
      assert d[..4] == data[at..at + 4] && d[4..8] == data[at + 4..at + 8];
      var length := U32(d[4..8]);
      if |d| >= 8 + length {
        assert d[8..8 + length] == data[at + 8..at + 8 + length];
        assert d[8 + length..] == data[at + 8 + length..];
      }
    }
  }

  function Prepend(done: seq<Record>, rest: Option<seq<Record>>): Option<seq<Record>> {
    if rest.None? then None else Some(done + rest.value)
  }

  lemma ParseStep(data: bytes, n: nat, done: seq<Record>)
    requires n > 0
    ensures ReadRecord(data).None? ==> Prepend(done, Parse(data, n)) == None
    ensures ReadRecord(data).Some? ==>
      var (r, tail) := ReadRecord(data).value;
      Prepend(done, Parse(data, n)) == Prepend(done + [r], Parse(tail, n - 1))
  {
    if Parse(data, n).Some? {
      var (r, tail) := ReadRecord(data).value;
      assert done + ([r] + Parse(tail, n - 1).value) == done + [r] + Parse(tail, n - 1).value;
    }
  }

  lemma TokensGrow(rs: seq<Record>, r: Record)
    ensures TokensOf(rs + [r]) == TokensOf(rs) + [TokenOf(|rs|, r)]
  {
  }

  /** The token of one record, as the loop makes it. */
  method MakeToken(id: nat, scoreRaw: bytes, raw: bytes) returns (token: Token)
    ensures token == TokenOf(id, Record(scoreRaw, raw))
  {
    var text, kind := raw, NORMAL;
    if id == 0 {
      text, kind := UNK, UNKNOWN;
    } else if id == 1 {
      text, kind := BOS, CONTROL;
    } else if id == 2 {
      text, kind := EOS, CONTROL;
    } else if text == [] {
      kind := CONTROL;
    } else if ByteToken(text) {
      kind := BYTE;
    }
    token := Token(Escape(text), scoreRaw, kind);
  }

  /** The three reads of one record; None where they come up short. */
  method TakeRecord(data: bytes, at: nat) returns (r: Option<(Record, nat)>)
    requires at <= |data|
    ensures r.None? <==> ReadRecord(data[at..]).None?
    ensures r.Some? ==> r.value.1 <= |data| && ReadRecord(data[at..]).value == (r.value.0, data[r.value.1..])
  {
    ReadRecordAt(data, at);
    var scoreRaw := ReadAt(data, at, 4);
    var lenRaw := ReadAt(data, at + 4, 4);
    if |scoreRaw| != 4 || |lenRaw| != 4 {
      return None;
    }
    var length := U32(lenRaw);
    var text := ReadAt(data, at + 8, length);
    if |text| != length {
      return None;
    }
    return Some((Record(scoreRaw, text), at + 8 + length));
  }

  /** The loop over the vocabulary and the check for trailing bytes. */
  method LoadRecords(data: bytes, vocabSize: nat) returns (r: Result<seq<Token>>)
    requires |data| >= HEADER_BYTES
    ensures r == match Parse(data[HEADER_BYTES..], vocabSize) case None => Raised case Some(rs) => Ok(TokensOf(rs))
  {
    var at: nat := HEADER_BYTES;
    var tokens: seq<Token> := [];
    ghost var done: seq<Record> := [];
    ghost var all := Parse(data[HEADER_BYTES..], vocabSize);
    if all.Some? {
      assert [] + all.value == all.value;
    }
    for id := 0 to vocabSize
      invariant at <= |data| && |done| == id && tokens == TokensOf(done)
      invariant all == Prepend(done, Parse(data[at..], vocabSize - id))
    {
      ParseStep(data[at..], vocabSize - id, done);
      var taken := TakeRecord(data, at);
      if taken.None? {
        return Raised;
      }
      var record := taken.value.0;
      var token := MakeToken(id, record.score, record.text);
      TokensGrow(done, record);
      tokens, done, at := tokens + [token], done + [record], taken.value.1;
    }
    if |ReadAt(data, at, 1)| > 0 {
      return Raised;
    }
    assert done + [] == done;
    return Ok(tokens);
  }

  lemma ParseDecides(data: bytes, n: nat)
    requires |data| >= HEADER_BYTES
    ensures Parse(data[HEADER_BYTES..], n).Some? <==> exists rs :: Holds(data, rs) && |rs| == n
    ensures forall rs :: Holds(data, rs) && |rs| == n ==> Parse(data[HEADER_BYTES..], n) == Some(rs)
  {
    forall rs | Holds(data, rs) && |rs| == n
      ensures Parse(data[HEADER_BYTES..], n) == Some(rs)
    {
      ParseUndoesEncode(rs);
    }
    if Parse(data[HEADER_BYTES..], n).Some? {
      EncodeUndoesParse(data[HEADER_BYTES..], n);
      assert Holds(data, Parse(data[HEADER_BYTES..], n).value);
    }
  }

  method LoadTokenizer(data: bytes, vocabSize: nat) returns (r: Result<seq<Token>>)
    ensures r.Ok? <==> exists rs :: Holds(data, rs) && |rs| == vocabSize
    ensures forall rs :: Holds(data, rs) && |rs| == vocabSize ==> r == Ok(TokensOf(rs))
  {
    if |ReadAt(data, 0, HEADER_BYTES)| != HEADER_BYTES {
      return Raised;
    }
    ParseDecides(data, vocabSize);
    r := LoadRecords(data, vocabSize);
  }

  /** Every record list is read back from its serialisation, whatever the header. */
  lemma SerialisedRecordsAreRead(header: bytes, rs: seq<Record>)
    requires |header| == HEADER_BYTES && AllStorable(rs)
    ensures Holds(header + EncodeAll(rs), rs)
    ensures forall other :: Holds(header + EncodeAll(rs), other) && |other| == |rs| ==> other == rs
  {
    assert (header + EncodeAll(rs))[HEADER_BYTES..] == EncodeAll(rs);
    forall other | Holds(header + EncodeAll(rs), other) && |other| == |rs|
      ensures other == rs
    {
      RecordsUnique(header + EncodeAll(rs), other, rs);
    }
  }

  /** From id 3 on, a record's text can be recovered from its token exactly when it holds no mark. */
  lemma TextRecoverable(id: nat, r: Record)
    requires id >= 3
    ensures Unescape(TokenOf(id, r).text) == r.text <==> !HasMark(r.text)
    ensures SPACE !in TokenOf(id, r).text
  {
    EscapeInvertible(r.text);
    EscapeLeavesNoSpace(r.text);
  }
}
