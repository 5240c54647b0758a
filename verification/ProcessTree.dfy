/** The processes descending from one root, computed from a snapshot of everyone's parent. */
module ProcessTree {
  import opened Wrappers

  /** Following `k` parents from `p` arrives at the root. */
  ghost predicate ReachesIn(parents: map<int, int>, root: int, p: int, k: nat)
    decreases k
  {
    if k == 0 then p == root else p in parents && ReachesIn(parents, root, parents[p], k - 1)
  }

  ghost predicate Descends(parents: map<int, int>, root: int, p: int) {
    exists k: nat :: ReachesIn(parents, root, p, k)
  }

  predicate StrictlySorted(s: seq<int>) {
    forall i, j :: 0 <= i < j < |s| ==> s[i] < s[j]
  }

  ghost predicate ClosedUnderChildren(parents: map<int, int>, s: set<int>) {
    forall p :: p in parents && parents[p] in s ==> p in s
  }

  lemma {:induction false} ClosedContainsDescendants(parents: map<int, int>, s: set<int>, root: int, p: int, k: nat)
    requires root in s && ClosedUnderChildren(parents, s) && ReachesIn(parents, root, p, k)
    ensures p in s
    decreases k
  {
    if k > 0 {
      ClosedContainsDescendants(parents, s, root, parents[p], k - 1);
    }
  }

  lemma ChildDescends(parents: map<int, int>, root: int, p: int)
    requires p in parents && Descends(parents, root, parents[p])
    ensures Descends(parents, root, p)
  {
    var k: nat :| ReachesIn(parents, root, parents[p], k);
    assert ReachesIn(parents, root, p, k + 1);
  }

  lemma CountBound(small: set<int>, large: set<int>)
    requires small <= large
    ensures |small| <= |large|
  {
    if small != {} {
      var x := AnyOf(small);
      CountBound(small - {x}, large - {x});
    }
  }

  lemma HasMinimum(s: set<int>) returns (m: int)
    requires s != {}
    ensures m in s && forall x :: x in s ==> m <= x
  {
    m := AnyOf(s);
    if s != {m} {
      assert s == {m} + (s - {m});
      var n := HasMinimum(s - {m});
      m := if m <= n then m else n;
    }
  }

  method Sorted(s: set<int>) returns (r: seq<int>)
    ensures StrictlySorted(r)
    ensures forall p :: p in r <==> p in s
  {
    r := [];
    var rest := s;
    while rest != {}
      invariant StrictlySorted(r)
      invariant forall p :: p in s <==> p in r || p in rest
      invariant forall p, q :: p in r && q in rest ==> p < q
      decreases rest
    {
      ghost var least := HasMinimum(rest);
      var m :| m in rest && forall x :: x in rest ==> m <= x;
      assert forall i :: 0 <= i < |r| ==> r[i] in r && r[i] < m;
      r, rest := r + [m], rest - {m};
    }
  }

  /** One pass over the snapshot; `order` is the order in which its dictionary is iterated. */
  method Pass(parents: map<int, int>, order: seq<int>, ghost root: int, start: set<int>)
    returns (result: set<int>, changed: bool)
    requires forall p :: p in order <==> p in parents
    requires start <= parents.Keys + {root} && forall p :: p in start ==> Descends(parents, root, p)
    ensures start <= result <= parents.Keys + {root} && forall p :: p in result ==> Descends(parents, root, p)
    ensures changed ==> |result| > |start| && result != start
    ensures !changed ==> result == start && ClosedUnderChildren(parents, result)
  {
    result, changed := start, false;
    for n := 0 to |order|
      invariant start <= result <= parents.Keys + {root}
      invariant forall p :: p in result ==> Descends(parents, root, p)
      invariant if changed then |result| > |start| && start != result else result == start
      invariant !changed ==>
        forall i :: 0 <= i < n && order[i] in parents && parents[order[i]] in result ==> order[i] in result
    {
      var pid := order[n];
      assert pid in order;
      if parents[pid] in result && pid !in result {
        ChildDescends(parents, root, pid);
        CountBound(start, result);
        result := result + {pid};
        changed := true;
      }
    }
  }

  method Tree(parents: map<int, int>, order: seq<int>, root: int) returns (pids: seq<int>, ghost passes: nat)
    requires forall p :: p in order <==> p in parents
    ensures StrictlySorted(pids)
    ensures forall p :: p in pids <==> Descends(parents, root, p)
    ensures passes <= |parents| + 1
  {
    var result := {root};
    var changed := true;
    passes := 0;
    assert ReachesIn(parents, root, root, 0);
    while changed
      invariant root in result && result <= parents.Keys + {root}
      invariant forall p :: p in result ==> Descends(parents, root, p)
      invariant !changed ==> ClosedUnderChildren(parents, result)
      invariant |result| >= passes + (if changed then 1 else 0)
      decreases (parents.Keys + {root}) - result, changed
    {
      result, changed := Pass(parents, order, root, result);
      passes := passes + 1;
    }
    CountBound(result, parents.Keys + {root});
    assert |parents.Keys + {root}| <= |parents.Keys| + 1;
    forall p | Descends(parents, root, p)
      ensures p in result
    {
      var k: nat :| ReachesIn(parents, root, p, k);
      ClosedContainsDescendants(parents, result, root, p, k);
    }
    pids := Sorted(result);
  }

  /** The list depends on who descends from the root and on nothing else, so not on any iteration order. */
  lemma SortedUnique(a: seq<int>, b: seq<int>)
    requires StrictlySorted(a) && StrictlySorted(b) && forall p :: p in a <==> p in b
    ensures a == b
    decreases |a|
  {
    if a == [] {
      assert forall i :: 0 <= i < |b| ==> b[i] in a;
    } else {
      assert a[0] in b && b != [];
      assert b[0] in a;
      assert a[0] == b[0];
      assert a == [a[0]] + a[1..] && b == [b[0]] + b[1..];
      forall p
        ensures p in a[1..] <==> p in b[1..]
      {
        assert p in a[1..] ==> p in a && p != a[0];
        assert p in b[1..] ==> p in b && p != b[0];
      }
      SortedUnique(a[1..], b[1..]);
    }
  }

  /** A pid whose parents form a cycle that misses the root is not a descendant of it. */
  lemma {:induction false} CyclesStayOut(parents: map<int, int>, root: int, cycle: set<int>, p: int, k: nat)
    requires root !in cycle && p in cycle
    requires forall q :: q in cycle ==> q !in parents || parents[q] in cycle
    ensures !ReachesIn(parents, root, p, k)
    decreases k
  {
    if k > 0 && p in parents {
      CyclesStayOut(parents, root, cycle, parents[p], k - 1);
    }
  }
}
