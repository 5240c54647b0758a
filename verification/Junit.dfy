/** The JUnit projection of the verdicts: one line for each name, in sorted order. */
module Junit {
  import opened Wrappers
  import opened Decimal
  import opened Sorting

  predicate OneLine(s: string) {
    '\n' !in s
  }

  /** The fixed parts of the text; `Projection` fills in the names and their number. */
  datatype Layout = Layout(
    first: string, suiteHead: string, suiteTail: string, caseHead: string, caseTail: string, last: string)
  {
    function CaseLine(name: string): string {
      caseHead + name + caseTail
    }

    function SuiteLine(tests: nat): string {
      suiteHead + Dec(tests) + suiteTail
    }

    function CaseLines(names: seq<string>): seq<string> {
      seq(|names|, n requires 0 <= n < |names| => CaseLine(names[n]))
    }

    function AllLines(sorted: seq<string>): seq<string> {
      [first, SuiteLine(|sorted|)] + CaseLines(sorted) + [last]
    }

    predicate Plain() {
      && OneLine(first) && OneLine(suiteHead) && OneLine(suiteTail)
      && OneLine(caseHead) && OneLine(caseTail) && OneLine(last)
    }
  }

  // Each part is a concatenation of short literals, which the solver searches for a newline faster than one long one.
  function JunitLayout(): Layout {
    Layout(
      "<?xml version=" + "\"1.0\" encoding=" + "\"UTF-8\"?>",
      "<testsuite name=" + "\"cache-invariant\"" + " tests=\"",
      "\" failures=\"0\"" + " errors=\"0\"" + " skipped=\"0\">",
      "<testcase classname=" + "\"cache_invariant" + ".runtime\" name=\"",
      "\"/>",
      "</testsuite>")
  }

  /** Each line followed by a newline. */
  function Text(lines: seq<string>): string {
    if lines == [] then "" else lines[0] + "\n" + Text(lines[1..])
  }

  /** The projection of a dictionary with these keys. */
  function Projection(layout: Layout, names: seq<string>): string {
    Text(layout.AllLines(Sorted(names)))
  }

  method JunitText(names: seq<string>) returns (text: string)
    ensures text == Projection(JunitLayout(), names)
  {
    var layout, sorted := JunitLayout(), Sorted(names);
    var lines := [layout.first, layout.SuiteLine(|sorted|)];
    for n := 0 to |sorted|
      invariant lines == [layout.first, layout.SuiteLine(|sorted|)] + layout.CaseLines(sorted)[..n]
    {
      lines := lines + [layout.CaseLine(sorted[n])];
    }
    assert layout.CaseLines(sorted)[..|sorted|] == layout.CaseLines(sorted);
    lines := lines + [layout.last];
    text := Text(lines);
  }

  // -- Reading it back -----------------------------------------------------------------------

  predicate OneLineNames(names: seq<string>) {
    forall n :: 0 <= n < |names| ==> OneLine(names[n])
  }

  /** The index of the first newline. */
  function LineEnd(text: string): (n: nat)
    requires '\n' in text
    ensures n < |text| && text[n] == '\n' && OneLine(text[..n])
  {
    if text[0] == '\n' then 0
    else
      assert text == [text[0]] + text[1..];
      var n := LineEnd(text[1..]);
      assert text[..1 + n] == [text[0]] + text[1..][..n];
      1 + n
  }

  /** A line parser: the newline-terminated lines of a text. */
  function Lines(text: string): seq<string>
    decreases |text|
  {
    if '\n' !in text then [] else [text[..LineEnd(text)]] + Lines(text[LineEnd(text) + 1..])
  }

  lemma FirstLine(line: string, rest: string)
    requires OneLine(line)
    ensures '\n' in line + "\n" + rest && LineEnd(line + "\n" + rest) == |line|
  {
    var text := line + "\n" + rest;
    assert text[|line|] == '\n';
    assert forall i :: 0 <= i < |line| ==> text[i] == line[i] && line[i] in line;
    var n := LineEnd(text);
    assert forall i :: 0 <= i < n ==> text[..n][i] == text[i] && text[..n][i] in text[..n];
  }

  lemma LinesOfMore(line: string, rest: string)
    requires OneLine(line)
    ensures Lines(line + "\n" + rest) == [line] + Lines(rest)
  {
    FirstLine(line, rest);
    var text := line + "\n" + rest;
    assert text[..|line|] == line && text[|line| + 1..] == rest;
  }

  lemma {:induction false} LinesOfText(lines: seq<string>)
    requires OneLineNames(lines)
    ensures Lines(Text(lines)) == lines
  {
    if lines != [] {
      LinesOfText(lines[1..]);
      LinesOfMore(lines[0], Text(lines[1..]));
      assert lines == [lines[0]] + lines[1..];
    }
  }

  /** What stands between a head and a tail. */
  function Inside(line: string, head: string, tail: string): string {
    if |line| < |head| + |tail| then "" else line[|head|..|line| - |tail|]
  }

  lemma InsideOf(head: string, middle: string, tail: string)
    ensures Inside(head + middle + tail, head, tail) == middle
    ensures OneLine(head) && OneLine(middle) && OneLine(tail) ==> OneLine(head + middle + tail)
  {
  }

  /** The names of the testcase lines of a text. */
  function NamesIn(layout: Layout, text: string): seq<string> {
    var lines := Lines(text);
    if |lines| < 3 then []
    else seq(|lines| - 3, n requires 0 <= n < |lines| - 3 => Inside(lines[n + 2], layout.caseHead, layout.caseTail))
  }

  /** The number of tests that the second line advertises. */
  function TestsIn(layout: Layout, text: string): nat {
    var lines := Lines(text);
    if |lines| < 2 then 0 else Value(Inside(lines[1], layout.suiteHead, layout.suiteTail))
  }

  lemma {:induction false} DecOnOneLine(n: nat)
    ensures OneLine(Dec(n))
  {
    assert forall i :: 0 <= i < 10 ==> DIGITS[i] != '\n';
    if n >= 10 {
      DecOnOneLine(n / 10);
    }
  }

  lemma ProjectionLines(layout: Layout, names: seq<string>)
    requires layout.Plain() && OneLineNames(Sorted(names))
    ensures Lines(Projection(layout, names)) == layout.AllLines(Sorted(names))
  {
    var sorted := Sorted(names);
    DecOnOneLine(|sorted|);
    InsideOf(layout.suiteHead, Dec(|sorted|), layout.suiteTail);
    forall n | 0 <= n < |sorted|
      ensures OneLine(layout.CaseLine(sorted[n]))
    {
      InsideOf(layout.caseHead, sorted[n], layout.caseTail);
    }
    LinesOfText(layout.AllLines(sorted));
  }

  lemma NamesFromLines(layout: Layout, text: string, sorted: seq<string>)
    requires Lines(text) == layout.AllLines(sorted)
    ensures NamesIn(layout, text) == sorted && TestsIn(layout, text) == |sorted|
  {
    hide Lines, Dec, Value;
    forall n | 0 <= n < |sorted|
      ensures Inside(layout.CaseLine(sorted[n]), layout.caseHead, layout.caseTail) == sorted[n]
    {
      InsideOf(layout.caseHead, sorted[n], layout.caseTail);
    }
    InsideOf(layout.suiteHead, Dec(|sorted|), layout.suiteTail);
    ValueOfDec(|sorted|);
  }

  lemma NamesRecoveredIn(layout: Layout, names: seq<string>)
    requires layout.Plain() && OneLineNames(Sorted(names))
    ensures NamesIn(layout, Projection(layout, names)) == Sorted(names)
    ensures TestsIn(layout, Projection(layout, names)) == |names| == |Sorted(names)|
  {
    hide Lines, Projection, NamesIn, TestsIn, OneLineNames;
    ProjectionLines(layout, names);
    NamesFromLines(layout, Projection(layout, names), Sorted(names));
    assert |multiset(Sorted(names))| == |multiset(names)|;
  }

  lemma ConcatOnOneLine(a: string, b: string, c: string)
    requires OneLine(a) && OneLine(b) && OneLine(c)
    ensures OneLine(a + b + c)
  {
  }

  lemma FirstIsPlain()
    ensures OneLine(JunitLayout().first) && OneLine(JunitLayout().caseTail) && OneLine(JunitLayout().last)
  {
    ConcatOnOneLine("<?xml version=", "\"1.0\" encoding=", "\"UTF-8\"?>");
  }

  lemma SuiteIsPlain()
    ensures OneLine(JunitLayout().suiteHead) && OneLine(JunitLayout().suiteTail)
  {
    ConcatOnOneLine("<testsuite name=", "\"cache-invariant\"", " tests=\"");
    ConcatOnOneLine("\" failures=\"0\"", " errors=\"0\"", " skipped=\"0\">");
  }

  lemma CaseIsPlain()
    ensures OneLine(JunitLayout().caseHead)
  {
    ConcatOnOneLine("<testcase classname=", "\"cache_invariant", ".runtime\" name=\"");
  }

  /** The fixed parts hold no newline. */
  lemma JunitLayoutIsPlain()
    ensures JunitLayout().Plain()
  {
    FirstIsPlain();
    SuiteIsPlain();
    CaseIsPlain();
  }

  /** A line parser gets the sorted names back, and the advertised number of tests is the number of testcase lines. */
  lemma NamesRecovered(names: seq<string>)
    requires OneLineNames(Sorted(names))
    ensures NamesIn(JunitLayout(), Projection(JunitLayout(), names)) == Sorted(names)
    ensures TestsIn(JunitLayout(), Projection(JunitLayout(), names)) == |names| == |Sorted(names)|
  {
    JunitLayoutIsPlain();
    hide JunitLayout;
    NamesRecoveredIn(JunitLayout(), names);
  }

  lemma SortedOnOneLine(names: seq<string>)
    requires NoDuplicates(names) && OneLineNames(names)
    ensures OneLineNames(Sorted(names))
  {
    SortedKeeps(names);
    forall n | 0 <= n < |Sorted(names)|
      ensures OneLine(Sorted(names)[n])
    {
      assert Sorted(names)[n] in names;
    }
  }

  /** Dictionaries of one-line names have the same projection exactly when they have the same names. */
  lemma ProjectionIsTheNameSet(a: seq<string>, b: seq<string>)
    requires NoDuplicates(a) && NoDuplicates(b) && OneLineNames(a) && OneLineNames(b)
    ensures Projection(JunitLayout(), a) == Projection(JunitLayout(), b) <==> SameMembers(a, b)
  {
    hide JunitLayout;
    SortedKeeps(a);
    SortedKeeps(b);
    if SameMembers(a, b) {
      SortedDependsOnMembers(a, b);
    }
    SortedOnOneLine(a);
    SortedOnOneLine(b);
    NamesRecovered(a);
    NamesRecovered(b);
    assert Sorted(a) == Sorted(b) ==> SameMembers(Sorted(a), Sorted(b));
  }

  // -- Names that hold newlines --------------------------------------------------------------

  lemma TextOfMore(line: string, lines: seq<string>)
    ensures Text([line] + lines) == line + "\n" + Text(lines)
  {
    assert ([line] + lines)[1..] == lines;
  }

  lemma TextOfTwo(layout: Layout, x: string, y: string)
    ensures Text(layout.AllLines([x, y]))
         == layout.first + "\n" + (layout.SuiteLine(2) + "\n" + (layout.CaseLine(x) + "\n"
            + (layout.CaseLine(y) + "\n" + Text([layout.last]))))
  {
    assert layout.AllLines([x, y])
        == [layout.first] + ([layout.SuiteLine(2)] + ([layout.CaseLine(x)] + ([layout.CaseLine(y)] + [layout.last])));
    hide Text, Dec;
    TextOfMore(layout.CaseLine(y), [layout.last]);
    TextOfMore(layout.CaseLine(x), [layout.CaseLine(y)] + [layout.last]);
    TextOfMore(layout.SuiteLine(2), [layout.CaseLine(x)] + ([layout.CaseLine(y)] + [layout.last]));
    TextOfMore(layout.first, [layout.SuiteLine(2)] + ([layout.CaseLine(x)] + ([layout.CaseLine(y)] + [layout.last])));
  }

  /** Where one testcase ends and the next begins. */
  function Break(layout: Layout): string {
    layout.caseTail + "\n" + layout.caseHead
  }

  lemma BreakMoves(layout: Layout, a: string, b: string, c: string, rest: string)
    ensures layout.CaseLine(a + Break(layout) + b) + "\n" + (layout.CaseLine(c) + "\n" + rest)
         == layout.CaseLine(a) + "\n" + (layout.CaseLine(b + Break(layout) + c) + "\n" + rest)
  {
  }

  lemma SortedPair(x: string, y: string)
    requires Leq(x, y)
    ensures Sorted([x, y]) == [x, y]
  {
    assert [x, y][1..] == [y] && [y][1..] == [];
    assert Sorted([y]) == [y];
  }

  lemma SharedProjection(layout: Layout, a: string, b: string, c: string)
    requires Leq(a + Break(layout) + b, c) && Leq(a, b + Break(layout) + c)
    ensures Projection(layout, [a + Break(layout) + b, c]) == Projection(layout, [a, b + Break(layout) + c])
  {
    var x, y := a + Break(layout) + b, b + Break(layout) + c;
    SortedPair(x, c);
    SortedPair(a, y);
    TextOfTwo(layout, x, c);
    TextOfTwo(layout, a, y);
    BreakMoves(layout, a, b, c, Text([layout.last]));
    hide Text, Sorted, Leq, Break;
  }

  /** Different sets of names can share a projection when a name holds what stands between two testcases. */
  lemma NewlinesBlurNames()
    ensures exists a: seq<string>, b: seq<string> ::
              && NoDuplicates(a) && NoDuplicates(b) && !SameMembers(a, b)
              && Projection(JunitLayout(), a) == Projection(JunitLayout(), b)
  {
    hide JunitLayout, Projection, Break;
    var layout := JunitLayout();
    var x, y := "a" + Break(layout) + "b", "b" + Break(layout) + "c";
    assert x[0] == 'a' && y[0] == 'b' && "c"[0] == 'c' && "a"[0] == 'a';
    SharedProjection(layout, "a", "b", "c");
    assert |x| > 1 && "c" in [x, "c"] && "c" !in ["a", y];
  }
}
