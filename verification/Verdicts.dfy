/** Named verdicts, and the dictionaries they are collected in. */
module Verdicts {

  type Entry = (string, bool)

  /** A dictionary filled by assigning the entries in turn. */
  function Dict(entries: seq<Entry>): map<string, bool> {
    if entries == [] then map[]
    else Dict(entries[..|entries| - 1])[entries[|entries| - 1].0 := entries[|entries| - 1].1]
  }

  predicate AllTrue(m: map<string, bool>) {
    forall name :: name in m ==> m[name]
  }

  lemma {:induction false} DictOfConcat(a: seq<Entry>, b: seq<Entry>)
    ensures Dict(a + b) == Dict(a) + Dict(b)
  {
    if b == [] {
      assert a + b == a;
    } else {
      DictOfConcat(a, b[..|b| - 1]);
      assert (a + b)[..|a + b| - 1] == a + b[..|b| - 1];
    }
  }

  predicate KeysDistinct(entries: seq<Entry>) {
    forall i, j :: 0 <= i < j < |entries| ==> entries[i].0 != entries[j].0
  }

  lemma {:induction false} DictKey(entries: seq<Entry>, name: string) returns (i: nat)
    requires name in Dict(entries)
    ensures i < |entries| && entries[i].0 == name
  {
    var n := |entries| - 1;
    if entries[n].0 == name {
      i := n;
    } else {
      i := DictKey(entries[..n], name);
    }
  }

  lemma {:induction false} DictAt(entries: seq<Entry>, i: nat)
    requires KeysDistinct(entries) && i < |entries|
    ensures entries[i].0 in Dict(entries) && Dict(entries)[entries[i].0] == entries[i].1
  {
    var n := |entries| - 1;
    if i < n {
      DictAt(entries[..n], i);
    }
  }

  lemma {:induction false} DictSize(entries: seq<Entry>)
    requires KeysDistinct(entries)
    ensures |Dict(entries)| == |entries|
  {
    if entries != [] {
      var n := |entries| - 1;
      DictSize(entries[..n]);
      if entries[n].0 in Dict(entries[..n]) {
        var i := DictKey(entries[..n], entries[n].0);
      }
    }
  }

  lemma AllTrueOfEntries(entries: seq<Entry>)
    requires KeysDistinct(entries)
    ensures AllTrue(Dict(entries)) <==> forall i :: 0 <= i < |entries| ==> entries[i].1
  {
    forall i | 0 <= i < |entries|
      ensures entries[i].0 in Dict(entries) && Dict(entries)[entries[i].0] == entries[i].1
    {
      DictAt(entries, i);
    }
    forall name | name in Dict(entries)
      ensures exists i :: 0 <= i < |entries| && entries[i].0 == name
    {
      var i := DictKey(entries, name);
    }
  }
}
