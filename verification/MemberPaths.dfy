/** Archive member names and the path components they denote. */
module MemberPaths {
  import opened Wrappers

  type Path = seq<string>

  /** Windows separators are read as POSIX ones. */
  function Normalize(name: string): (r: string)
    ensures |r| == |name|
  {
    seq(|name|, i requires 0 <= i < |name| => if name[i] == '\\' then '/' else name[i])
  }

  function Split(s: string): (r: seq<string>)
    ensures |r| >= 1
    ensures forall p :: p in r ==> '/' !in p
    ensures forall p, c :: p in r && c in p ==> c in s
  {
    if s == "" then [""]
    else
      var rest := Split(s[1..]);
      if s[0] == '/' then [""] + rest else [[s[0]] + rest[0]] + rest[1..]
  }

  /** A pure POSIX path keeps neither empty nor "." components. */
  function Live(parts: seq<string>): (r: seq<string>)
    ensures forall p :: p in r ==> p in parts && p != "" && p != "."
  {
    if parts == [] then []
    else (if parts[0] == "" || parts[0] == "." then [] else [parts[0]]) + Live(parts[1..])
  }

  function SafeMemberParts(name: string): (r: Option<Path>)
  {
    var pure := Normalize(name);
    var parts := Live(Split(pure));
    if (pure != "" && pure[0] == '/')
       || parts == []
       || exists p :: p in parts && (p in {"", ".", ".."} || ':' in p)
    then None
    else Some(parts)
  }

  /** A component that names one entry of the directory it is looked up in. */
  predicate PlainComponent(p: string) {
    p != "" && p != "." && p != ".." && '/' !in p && '\\' !in p && ':' !in p
  }

  predicate PlainPath(ps: Path) {
    ps != [] && forall p :: p in ps ==> PlainComponent(p)
  }

  function Join(ps: Path): (s: string)
    requires ps != []
    ensures ps[0] <= s
  {
    if |ps| == 1 then ps[0] else ps[0] + "/" + Join(ps[1..])
  }

  lemma SafePartsArePlain(name: string)
    requires SafeMemberParts(name).Some?
    ensures PlainPath(SafeMemberParts(name).value)
  {
    var pure := Normalize(name);
    forall p | p in SafeMemberParts(name).value
      ensures PlainComponent(p)
    {
      assert p in Split(pure);
    }
  }

  lemma {:induction false} SplitPlain(s: string)
    requires '/' !in s
    ensures Split(s) == [s]
  {
    if s != "" {
      SplitPlain(s[1..]);
      assert [s[0]] + s[1..] == s;
    }
  }

  lemma {:induction false} SplitAt(a: string, b: string)
    requires '/' !in a
    ensures Split(a + "/" + b) == [a] + Split(b)
  {
    var s := a + "/" + b;
    if a == "" {
      assert s[1..] == b;
    } else {
      assert s[1..] == a[1..] + "/" + b;
      SplitAt(a[1..], b);
      assert [a[0]] + a[1..] == a;
      assert Split(s) == [[a[0]] + a[1..]] + Split(b);
    }
  }

  lemma {:induction false} SplitJoin(ps: Path)
    requires PlainPath(ps)
    ensures Split(Join(ps)) == ps && Live(ps) == ps && '\\' !in Join(ps)
  {
    assert PlainComponent(ps[0]);
    if |ps| == 1 {
      SplitPlain(ps[0]);
    } else {
      assert PlainPath(ps[1..]);
      SplitAt(ps[0], Join(ps[1..]));
      SplitJoin(ps[1..]);
    }
    assert Live(ps) == [ps[0]] + Live(ps[1..]);
  }

  /** Every plain path is the reading of some member name, and joining then reading changes nothing. */
  lemma JoinRoundTrip(ps: Path)
    requires PlainPath(ps)
    ensures SafeMemberParts(Join(ps)) == Some(ps)
  {
    SplitJoin(ps);
    var s := Join(ps);
    assert Normalize(s) == s;
    assert PlainComponent(ps[0]);
    assert s[0] == ps[0][0];
    assert ps[0][0] in ps[0];
    forall p | p in ps ensures p !in {"", ".", ".."} && ':' !in p { assert PlainComponent(p); }
  }

  /** The readable paths are exactly the plain ones: no member can name a place outside its directory. */
  lemma SafePathsAreThePlainPaths(ps: Path)
    ensures (exists name :: SafeMemberParts(name) == Some(ps)) <==> PlainPath(ps)
  {
    if PlainPath(ps) {
      JoinRoundTrip(ps);
    }
    if exists name :: SafeMemberParts(name) == Some(ps) {
      var name :| SafeMemberParts(name) == Some(ps);
      SafePartsArePlain(name);
    }
  }
}
