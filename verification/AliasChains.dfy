/** Symlinks deferred by the tar extraction, and the loop that turns them into copies. */
module AliasChains {
  import opened MemberPaths
  import opened FileTrees

  /** A deferred symlink: the path its member names, and the name it points at. */
  datatype Link = Link(alias: Path, linkname: string)

  function TargetOf(l: Link): Path {
    Parent(l.alias) + [l.linkname]
  }

  // -- What the loop is for ------------------------------------------------------------------

  /** Following `k` links from `p` ends at the regular file `end` of the base tree. */
  ghost predicate Reaches(base: Tree, ls: multiset<Link>, p: Path, end: Node, k: nat)
    decreases k
  {
    if k == 0 then
      p in base && base[p] == end && end.File?
    else
      && p !in base
      && exists l :: l in ls && l.alias == p && Reaches(base, ls, TargetOf(l), end, k - 1)
  }

  ghost predicate EndsAt(base: Tree, ls: multiset<Link>, p: Path, end: Node) {
    exists k: nat :: Reaches(base, ls, p, end, k)
  }

  ghost predicate EndsWithin(base: Tree, ls: multiset<Link>, p: Path, d: nat) {
    exists end, k: nat :: k <= d && Reaches(base, ls, p, end, k)
  }

  /** Alias paths are pairwise distinct and new to the tree. */
  ghost predicate FreshAliases(base: Tree, ls: multiset<Link>) {
    && (forall l :: l in ls ==> ls[l] == 1 && l.alias !in base)
    && (forall l, l' :: l in ls && l' in ls && l.alias == l'.alias ==> l == l')
  }

  ghost predicate Materialisable(base: Tree, ls: multiset<Link>) {
    && FreshAliases(base, ls)
    && (forall l :: l in ls ==> PlainComponent(l.linkname))
    && (forall l :: l in ls ==> exists end :: EndsAt(base, ls, l.alias, end))
  }

  /** `t` is the base tree plus, at each alias of `done`, its chain's end, and nothing else. */
  ghost predicate HoldsCopies(t: Tree, base: Tree, ls: multiset<Link>, done: multiset<Link>) {
    && base.Keys <= t.Keys
    && (forall p :: p in base ==> t[p] == base[p])
    && (forall p :: p in t && p !in base ==> exists l :: l in done && l.alias == p)
    && (forall l :: l in done ==> l.alias in t && EndsAt(base, ls, l.alias, t[l.alias]))
  }

  ghost predicate IsMaterialised(t: Tree, base: Tree, ls: multiset<Link>) {
    HoldsCopies(t, base, ls, ls)
  }

  // -- Chains --------------------------------------------------------------------------------

  lemma FirstLink(base: Tree, ls: multiset<Link>, l: Link, end: Node, k: nat)
    requires FreshAliases(base, ls) && l in ls && Reaches(base, ls, l.alias, end, k)
    ensures k > 0 && Reaches(base, ls, TargetOf(l), end, k - 1)
  {
    var l' :| l' in ls && l'.alias == l.alias && Reaches(base, ls, TargetOf(l'), end, k - 1);
    assert l' == l;
  }

  lemma NextLink(base: Tree, ls: multiset<Link>, p: Path, end: Node, k: nat) returns (l: Link)
    requires Reaches(base, ls, p, end, k) && p !in base
    ensures l in ls && l.alias == p
  {
    l :| l in ls && l.alias == p;
  }

  lemma {:induction false} ChainEndUnique(base: Tree, ls: multiset<Link>, p: Path, a: Node, i: nat, b: Node, j: nat)
    requires FreshAliases(base, ls) && Reaches(base, ls, p, a, i) && Reaches(base, ls, p, b, j)
    ensures a == b && i == j
    decreases i
  {
    if i > 0 {
      var l :| l in ls && l.alias == p && Reaches(base, ls, TargetOf(l), a, i - 1);
      FirstLink(base, ls, l, b, j);
      ChainEndUnique(base, ls, TargetOf(l), a, i - 1, b, j - 1);
    }
  }

  lemma EndUnique(base: Tree, ls: multiset<Link>, p: Path, a: Node, b: Node)
    requires FreshAliases(base, ls) && EndsAt(base, ls, p, a) && EndsAt(base, ls, p, b)
    ensures a == b
  {
    var i: nat :| Reaches(base, ls, p, a, i);
    var j: nat :| Reaches(base, ls, p, b, j);
    ChainEndUnique(base, ls, p, a, i, b, j);
  }

  /** The materialised tree is determined by the base tree and the links. */
  lemma MaterialisedUnique(t: Tree, u: Tree, base: Tree, ls: multiset<Link>)
    requires FreshAliases(base, ls) && IsMaterialised(t, base, ls) && IsMaterialised(u, base, ls)
    ensures t == u
  {
    assert t.Keys == u.Keys;
    forall p | p in t
      ensures t[p] == u[p]
    {
      if p !in base {
        var l :| l in ls && l.alias == p;
        EndUnique(base, ls, p, t[p], u[p]);
      }
    }
  }

  /** A set of paths closed under following links, with no regular file in it, is never left. */
  lemma {:induction false} ClosedChainsReachNothing(
      base: Tree, ls: multiset<Link>, closed: set<Path>, p: Path, end: Node, k: nat)
    requires forall q :: q in closed ==> q !in base || base[q].Dir?
    requires forall l :: l in ls && l.alias in closed ==> TargetOf(l) in closed
    requires p in closed
    ensures !Reaches(base, ls, p, end, k)
    decreases k
  {
    if k > 0 {
      forall l | l in ls && l.alias == p
        ensures !Reaches(base, ls, TargetOf(l), end, k - 1)
      {
        ClosedChainsReachNothing(base, ls, closed, TargetOf(l), end, k - 1);
      }
    }
  }

  /** Cycles, self-links, dangling links and links to directories are all refused. */
  lemma ClosedChainsAreRefused(base: Tree, ls: multiset<Link>, closed: set<Path>, l: Link)
    requires forall q :: q in closed ==> q !in base || base[q].Dir?
    requires forall x :: x in ls && x.alias in closed ==> TargetOf(x) in closed
    requires l in ls && l.alias in closed
    ensures !Materialisable(base, ls)
  {
    forall end
      ensures !EndsAt(base, ls, l.alias, end)
    {
      forall k: nat {
        ClosedChainsReachNothing(base, ls, closed, l.alias, end, k);
      }
    }
  }

  // -- One step of the loop ------------------------------------------------------------------

  /** `done` are the links copied so far onto the base tree. */
  ghost predicate Copied(t: Tree, base: Tree, ls: multiset<Link>, done: multiset<Link>) {
    && WellFormed(t)
    && HoldsCopies(t, base, ls, done)
    && done <= ls
    && FreshAliases(base, done)
    && (forall l :: l in done ==> PlainComponent(l.linkname))
  }

  lemma {:induction false} ReachesAFile(base: Tree, ls: multiset<Link>, p: Path, end: Node, k: nat)
    requires Reaches(base, ls, p, end, k)
    ensures end.File?
    decreases k
  {
    if k > 0 {
      var l :| l in ls && l.alias == p && Reaches(base, ls, TargetOf(l), end, k - 1);
      ReachesAFile(base, ls, TargetOf(l), end, k - 1);
    }
  }

  lemma EntryIsAnEnd(t: Tree, base: Tree, ls: multiset<Link>, done: multiset<Link>, p: Path)
    requires HoldsCopies(t, base, ls, done) && p in t
    ensures t[p].File? ==> EndsAt(base, ls, p, t[p])
    ensures t[p].Dir? ==> p in base
  {
    if p !in base {
      var l :| l in done && l.alias == p;
      var k: nat :| Reaches(base, ls, p, t[p], k);
      ReachesAFile(base, ls, p, t[p], k);
    } else if t[p].File? {
      assert Reaches(base, ls, p, t[p], 0);
    }
  }

  lemma EndThroughLink(base: Tree, ls: multiset<Link>, l: Link, end: Node)
    requires l in ls && l.alias !in base && EndsAt(base, ls, TargetOf(l), end)
    ensures EndsAt(base, ls, l.alias, end)
  {
    var k: nat :| Reaches(base, ls, TargetOf(l), end, k);
    assert Reaches(base, ls, l.alias, end, k + 1);
  }

  lemma StaysWellFormed(t: Tree, p: Path, source: Path)
    requires WellFormed(t) && source in t && t[source].File? && p !in t && p != [] && Parent(p) == Parent(source)
    ensures WellFormed(t[p := t[source]])
  {
  }

  lemma HoldsOneMore(t: Tree, base: Tree, ls: multiset<Link>, done: multiset<Link>, l: Link, end: Node)
    requires HoldsCopies(t, base, ls, done)
    requires l.alias !in t && EndsAt(base, ls, l.alias, end)
    ensures HoldsCopies(t[l.alias := end], base, ls, done + multiset{l})
  {
    var u := t[l.alias := end];
    var now := done + multiset{l};
    assert l in now;
    forall p | p in u && p !in base
      ensures exists x :: x in now && x.alias == p
    {
      if p != l.alias {
        var x :| x in done && x.alias == p;
        assert x in now;
      }
    }
    forall x | x in now
      ensures x.alias in u && EndsAt(base, ls, x.alias, u[x.alias])
    {
      assert x in done || x == l;
    }
  }

  lemma FreshOneMore(base: Tree, done: multiset<Link>, l: Link)
    requires FreshAliases(base, done) && l.alias !in base && (forall x :: x in done ==> x.alias != l.alias)
    ensures FreshAliases(base, done + multiset{l})
  {
    var now := done + multiset{l};
    assert l !in done;
    forall x | x in now
      ensures now[x] == 1 && x.alias !in base && (x in done || x == l)
    {
    }
  }

  /** Copying a link whose target is a regular file makes one more alias correct. */
  lemma CopyStep(t: Tree, base: Tree, ls: multiset<Link>, done: multiset<Link>, l: Link)
    requires Copied(t, base, ls, done) && l in ls && done + multiset{l} <= ls
    requires PlainComponent(l.linkname) && l.alias != [] && l.alias !in t
    requires TargetOf(l) in t && t[TargetOf(l)].File?
    ensures Copied(t[l.alias := t[TargetOf(l)]], base, ls, done + multiset{l})
  {
    EntryIsAnEnd(t, base, ls, done, TargetOf(l));
    EndThroughLink(base, ls, l, t[TargetOf(l)]);
    StaysWellFormed(t, l.alias, TargetOf(l));
    HoldsOneMore(t, base, ls, done, l, t[TargetOf(l)]);
    FreshOneMore(base, done, l);
  }

  /** A link whose target is a directory has no chain end. */
  lemma DirectoryTargetRefused(t: Tree, base: Tree, ls: multiset<Link>, done: multiset<Link>, l: Link)
    requires Copied(t, base, ls, done) && l in ls
    requires TargetOf(l) in t && t[TargetOf(l)].Dir?
    ensures !Materialisable(base, ls)
  {
    if Materialisable(base, ls) {
      EntryIsAnEnd(t, base, ls, done, TargetOf(l));
      var end :| EndsAt(base, ls, l.alias, end);
      var k: nat :| Reaches(base, ls, l.alias, end, k);
      FirstLink(base, ls, l, end, k);
    }
  }

  /** A link whose path is already taken breaks freshness. */
  lemma TakenAliasRefused(t: Tree, base: Tree, ls: multiset<Link>, done: multiset<Link>, l: Link)
    requires Copied(t, base, ls, done) && l in ls && done + multiset{l} <= ls
    requires l.alias in t
    ensures !FreshAliases(base, ls)
  {
    if l.alias !in base {
      var x :| x in done && x.alias == l.alias;
      assert x in ls;
      if x == l {
        assert (done + multiset{l})[l] >= 2;
      }
    }
  }

  /** When no remaining link's target exists, none of the remaining links has a chain end. */
  lemma {:induction false} StuckLinksReachNothing(
      t: Tree, base: Tree, ls: multiset<Link>, done: multiset<Link>, stuck: multiset<Link>, l: Link, end: Node, k: nat)
    requires HoldsCopies(t, base, ls, done) && ls == done + stuck && FreshAliases(base, ls)
    requires forall x :: x in stuck ==> TargetOf(x) !in t
    requires l in stuck
    ensures !Reaches(base, ls, l.alias, end, k)
    decreases k
  {
    if Reaches(base, ls, l.alias, end, k) {
      FirstLink(base, ls, l, end, k);
      var x :| x in ls && x.alias == TargetOf(l) && Reaches(base, ls, TargetOf(x), end, k - 2);
      assert x in stuck;
      StuckLinksReachNothing(t, base, ls, done, stuck, x, end, k - 1);
    }
  }

  // -- The loop ------------------------------------------------------------------------------

  datatype Attempt = Raises | Copies | Waits

  /** What the loop does with one link: raise, copy its target, or keep it for the next sweep. */
  method TryLink(tree: FileTree, member: Link, ghost base: Tree, ghost ls: multiset<Link>, ghost done: multiset<Link>)
    returns (r: Attempt)
    requires Copied(tree.entries, base, ls, done) && member in ls && done + multiset{member} <= ls
    requires member.alias != []
    modifies tree
    ensures r == Raises ==> !Materialisable(base, ls)
    ensures r == Copies ==> Copied(tree.entries, base, ls, done + multiset{member})
    ensures r == Copies ==> old(tree.entries).Keys <= tree.entries.Keys
    ensures r == Waits ==> tree.entries == old(tree.entries) && TargetOf(member) !in tree.entries
  {
    if !PlainComponent(member.linkname) {
      return Raises;
    }
    var target := TargetOf(member);
    if target !in tree.entries {
      return Waits;
    }
    if tree.entries[target].Dir? {
      DirectoryTargetRefused(tree.entries, base, ls, done, member);
      return Raises;
    }
    AncestorsAreDirectories(tree.entries, Parent(target));
    ghost var before := tree.entries;
    var made := tree.MakeDirs(Parent(member.alias));
    assert made && tree.entries == before;
    var source := tree.entries[target];
    var written := tree.WriteNew(member.alias, source.data, source.mode & PERMISSIONS);
    if !written {
      TakenAliasRefused(before, base, ls, done, member);
      return Raises;
    }
    CopyStep(before, base, ls, done, member);
    return Copies;
  }

  /** Each link is done, kept for the next sweep, or still to be tried in this one. */
  ghost predicate Shares(ls: multiset<Link>, done: multiset<Link>, kept: seq<Link>, todo: seq<Link>) {
    ls == done + multiset(kept) + multiset(todo)
  }

  lemma ShareMoves(ls: multiset<Link>, done: multiset<Link>, kept: seq<Link>, todo: seq<Link>)
    requires Shares(ls, done, kept, todo) && todo != []
    ensures todo[0] in ls && done + multiset{todo[0]} <= ls
    ensures Shares(ls, done + multiset{todo[0]}, kept, todo[1..])
    ensures Shares(ls, done, kept + [todo[0]], todo[1..])
  {
    assert todo == [todo[0]] + todo[1..];
    assert multiset(todo) == multiset{todo[0]} + multiset(todo[1..]);
    assert multiset(kept + [todo[0]]) == multiset(kept) + multiset{todo[0]};
  }

  /** One sweep over the unresolved links; `ok` is false when the sweep raises. */
  method Sweep(tree: FileTree, unresolved: seq<Link>, ghost base: Tree, ghost ls: multiset<Link>,
               ghost done: multiset<Link>)
    returns (ok: bool, remaining: seq<Link>, progress: bool, ghost done': multiset<Link>)
    requires Copied(tree.entries, base, ls, done) && Shares(ls, done, [], unresolved)
    requires forall l :: l in unresolved ==> l.alias != []
    modifies tree
    ensures !ok ==> !Materialisable(base, ls)
    ensures ok ==> Copied(tree.entries, base, ls, done') && Shares(ls, done', remaining, [])
    ensures ok ==> forall l :: l in remaining ==> l in unresolved && TargetOf(l) !in old(tree.entries)
    ensures ok ==> |remaining| <= |unresolved| && (progress <==> |remaining| < |unresolved|)
    ensures ok && !progress ==> tree.entries == old(tree.entries)
  {
    hide Copied, Materialisable, TargetOf;
    remaining, progress, done' := [], false, done;
    var todo := unresolved;
    while todo != []
      invariant Copied(tree.entries, base, ls, done')
      invariant Shares(ls, done', remaining, todo)
      invariant old(tree.entries).Keys <= tree.entries.Keys
      invariant forall l :: l in todo ==> l in unresolved
      invariant forall l :: l in remaining ==> l in unresolved && TargetOf(l) !in old(tree.entries)
      invariant |remaining| + |todo| <= |unresolved| && (progress <==> |remaining| + |todo| < |unresolved|)
      invariant !progress ==> tree.entries == old(tree.entries)
      decreases |todo|
    {
      var member := todo[0];
      ShareMoves(ls, done', remaining, todo);
      todo := todo[1..];
      var attempt := TryLink(tree, member, base, ls, done');
      match attempt {
        case Raises =>
          return false, remaining, progress, done';
        case Copies =>
          done' := done' + multiset{member};
          progress := true;
        case Waits =>
          remaining := remaining + [member];
      }
    }
    ok := true;
  }

  ghost predicate DeeperThan(base: Tree, ls: multiset<Link>, l: Link, d: int) {
    FreshAliases(base, ls) ==> forall end, k: nat :: k <= d ==> !Reaches(base, ls, l.alias, end, k)
  }

  ghost predicate AllEndWithin(base: Tree, ls: multiset<Link>, d: nat) {
    forall l :: l in ls ==> EndsWithin(base, ls, l.alias, d)
  }

  /** A link left over by a sweep is deeper than every link left over before was known to be. */
  lemma LeftoversGetDeeper(t: Tree, base: Tree, ls: multiset<Link>, done: multiset<Link>, unresolved: seq<Link>,
                           l: Link, d: nat)
    requires HoldsCopies(t, base, ls, done) && ls == done + multiset(unresolved)
    requires forall x :: x in unresolved ==> DeeperThan(base, ls, x, d)
    requires l in unresolved && TargetOf(l) !in t
    ensures DeeperThan(base, ls, l, d + 1)
  {
    hide Reaches, TargetOf;
    if FreshAliases(base, ls) {
      forall end, k: nat | k <= d + 1
        ensures !Reaches(base, ls, l.alias, end, k)
      {
        if Reaches(base, ls, l.alias, end, k) {
          assert l in multiset(unresolved);
          FirstLink(base, ls, l, end, k);
          var x := NextLink(base, ls, TargetOf(l), end, k - 1);
          assert x in done || x in multiset(unresolved);
          var deeper := DeeperThan(base, ls, x, d);
          assert false;
        }
      }
    }
  }

  lemma DepthBound(base: Tree, ls: multiset<Link>, deepest: Link, passes: nat)
    requires FreshAliases(base, ls) && deepest in ls && DeeperThan(base, ls, deepest, passes - 1)
    ensures forall d: nat :: AllEndWithin(base, ls, d) ==> passes <= d
  {
    forall d: nat | AllEndWithin(base, ls, d)
      ensures passes <= d
    {
      assert EndsWithin(base, ls, deepest.alias, d);
    }
  }

  lemma NoProgressRefused(t: Tree, base: Tree, ls: multiset<Link>, done: multiset<Link>, remaining: seq<Link>)
    requires HoldsCopies(t, base, ls, done) && ls == done + multiset(remaining) && remaining != []
    requires forall l :: l in remaining ==> TargetOf(l) !in t
    ensures !Materialisable(base, ls)
  {
    var l := remaining[0];
    assert l in multiset(remaining) && l in ls;
    if FreshAliases(base, ls) {
      forall end, k: nat
        ensures !Reaches(base, ls, l.alias, end, k)
      {
        StuckLinksReachNothing(t, base, ls, done, multiset(remaining), l, end, k);
      }
    }
  }

  /** Every link is done or still listed, and a listed link is deeper than the sweeps made so far. */
  ghost predicate SweptSoFar(t: Tree, base: Tree, ls: multiset<Link>, done: multiset<Link>, unresolved: seq<Link>,
                             passes: nat)
  {
    && Copied(t, base, ls, done)
    && ls == done + multiset(unresolved)
    && forall l :: l in unresolved ==> l.alias != [] && (passes > 0 ==> DeeperThan(base, ls, l, passes))
  }

  lemma SweptIsDeep(t: Tree, base: Tree, ls: multiset<Link>, done: multiset<Link>, unresolved: seq<Link>, passes: nat,
                    l: Link)
    requires SweptSoFar(t, base, ls, done, unresolved, passes) && l in unresolved
    ensures l in ls && DeeperThan(base, ls, l, passes)
  {
    assert l in multiset(unresolved);
  }

  lemma NextSweep(t: Tree, u: Tree, base: Tree, ls: multiset<Link>, done: multiset<Link>, done': multiset<Link>,
                  unresolved: seq<Link>, remaining: seq<Link>, passes: nat)
    requires SweptSoFar(t, base, ls, done, unresolved, passes)
    requires Copied(u, base, ls, done') && ls == done' + multiset(remaining)
    requires forall l :: l in remaining ==> l in unresolved && TargetOf(l) !in t
    ensures SweptSoFar(u, base, ls, done', remaining, passes + 1)
  {
    forall l | l in unresolved
      ensures DeeperThan(base, ls, l, passes)
    {
      SweptIsDeep(t, base, ls, done, unresolved, passes, l);
    }
    forall l | l in remaining
      ensures DeeperThan(base, ls, l, passes + 1)
    {
      LeftoversGetDeeper(t, base, ls, done, unresolved, l, passes);
    }
  }

  lemma AllSwept(t: Tree, base: Tree, ls: multiset<Link>, done: multiset<Link>)
    requires Copied(t, base, ls, done) && ls == done
    ensures Materialisable(base, ls) && IsMaterialised(t, base, ls)
  {
  }

  /** Sweeps until no link is left; raises on a sweep without progress. */
  method MaterialiseLinks(tree: FileTree, links: seq<Link>) returns (ok: bool, ghost passes: nat)
    requires WellFormed(tree.entries)
    requires forall l :: l in links ==> l.alias != []
    modifies tree
    ensures ok <==> Materialisable(old(tree.entries), multiset(links))
    ensures ok ==> IsMaterialised(tree.entries, old(tree.entries), multiset(links))
    ensures ok ==> forall d: nat :: AllEndWithin(old(tree.entries), multiset(links), d) ==> passes <= d
  {
    hide Materialisable, IsMaterialised, DeeperThan, AllEndWithin;
    ghost var base := tree.entries;
    ghost var ls := multiset(links);
    ghost var done := multiset{};
    ghost var deepest: Link := Link([], "");
    var unresolved := links;
    passes := 0;
    while unresolved != []
      invariant SweptSoFar(tree.entries, base, ls, done, unresolved, passes)
      invariant passes > 0 ==> deepest in ls && DeeperThan(base, ls, deepest, passes - 1)
      decreases |unresolved|
    {
      ghost var before, doneBefore := tree.entries, done;
      var remaining, progress;
      ok, remaining, progress, done := Sweep(tree, unresolved, base, ls, done);
      if !ok {
        return;
      }
      if !progress {
        NoProgressRefused(tree.entries, base, ls, done, remaining);
        ok := false;
        return;
      }
      NextSweep(before, tree.entries, base, ls, doneBefore, done, unresolved, remaining, passes);
      deepest := unresolved[0];
      SweptIsDeep(before, base, ls, doneBefore, unresolved, passes, deepest);
      unresolved := remaining;
      passes := passes + 1;
    }
    ok := true;
    AllSwept(tree.entries, base, ls, done);
    if passes > 0 {
      DepthBound(base, ls, deepest, passes);
    }
  }
}
