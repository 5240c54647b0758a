/** Extraction of a tar archive into a fresh directory, with symlinks materialised as copies. */
module TarExtraction {
  import opened Wrappers
  import opened Bytes
  import opened MemberPaths
  import opened FileTrees
  import opened AliasChains

  /** `data` is None when the archive yields no stream for the member. */
  datatype Kind =
    | Directory
    | Regular(data: Option<bytes>, mode: bv32)
    | Symlink(linkname: string)
    | Hardlink
    | Special

  type SafePath = p: Path | PlainPath(p) witness ["a"]

  /** An archive member with its name already read; `path` is None when the name is unsafe. */
  datatype Member = Member(path: Option<SafePath>, kind: Kind)

  /** A member as the archive stores it. */
  datatype Entry = Entry(name: string, kind: Kind)

  function Read(e: Entry): (m: Member)
    ensures m.kind == e.kind && (m.path.Some? <==> SafeMemberParts(e.name).Some?)
    ensures m.path.Some? ==> m.path.value == SafeMemberParts(e.name).value
  {
    if SafeMemberParts(e.name).Some? then
      SafePartsArePlain(e.name);
      Member(Some(SafeMemberParts(e.name).value), e.kind)
    else
      Member(None, e.kind)
  }

  function ReadAll(entries: seq<Entry>): (members: seq<Member>)
    ensures |members| == |entries|
    ensures forall i :: 0 <= i < |entries| ==> members[i] == Read(entries[i])
  {
    seq(|entries|, i requires 0 <= i < |entries| => Read(entries[i]))
  }

  function PathOf(m: Member): Path {
    if m.path.Some? then m.path.value else []
  }

  // -- What the regular pass is for ----------------------------------------------------------

  predicate Placed(m: Member) {
    m.kind.Directory? || m.kind.Regular?
  }

  predicate Admissible(m: Member) {
    && m.path.Some?
    && !m.kind.Hardlink? && !m.kind.Special?
    && (m.kind.Regular? ==> m.kind.data.Some?)
  }

  /** No regular member's path is that of another member or lies above it. */
  ghost predicate Placeable(ms: multiset<Member>) {
    && (forall m :: m in ms ==> Admissible(m))
    && (forall m :: m in ms && m.kind.Regular? ==> ms[m] == 1)
    && (forall f, m :: f in ms && m in ms && f != m && f.kind.Regular? && Placed(m) ==> !(PathOf(f) <= PathOf(m)))
  }

  function Installed(m: Member): Node
    requires m.kind.Regular? && m.kind.data.Some?
  {
    File(m.kind.data.value, if m.kind.mode & ANY_EXECUTE != 0 then EXECUTABLE_MODE else PLAIN_MODE)
  }

  /** The tree holds the root and every prefix of a placed member's path, and no other path. */
  ghost predicate HoldsPaths(t: Tree, ms: multiset<Member>) {
    forall p :: p in t <==> p == [] || exists m :: m in ms && Placed(m) && p <= PathOf(m)
  }

  ghost predicate HoldsFiles(t: Tree, ms: multiset<Member>)
    requires Placeable(ms)
  {
    forall m :: m in ms && m.kind.Regular? ==> PathOf(m) in t && t[PathOf(m)] == Installed(m)
  }

  ghost predicate HoldsNoOtherFile(t: Tree, ms: multiset<Member>) {
    forall p :: p in t && t[p].File? ==> exists m :: m in ms && m.kind.Regular? && PathOf(m) == p
  }

  /** The tree the regular and directory members describe together. */
  ghost predicate IsRegularTree(t: Tree, ms: multiset<Member>)
    requires Placeable(ms)
  {
    HoldsPaths(t, ms) && HoldsFiles(t, ms) && HoldsNoOtherFile(t, ms)
  }

  ghost function RegularPaths(ms: multiset<Member>): (ps: set<Path>)
    ensures forall p :: p in ps <==> p == [] || exists m :: m in ms && Placed(m) && p <= PathOf(m)
  {
    var r := set m, q | m in ms && Placed(m) && q in Prefixes(PathOf(m)) :: q;
    assert forall m, q :: m in ms && Placed(m) && q in Prefixes(PathOf(m)) ==> q in r;
    assert forall q :: q in r ==> exists m :: m in ms && Placed(m) && q in Prefixes(PathOf(m));
    {[]} + r
  }

  ghost function RegularTree(ms: multiset<Member>): Tree
    requires Placeable(ms)
  {
    map p | p in RegularPaths(ms) ::
      if exists m :: m in ms && m.kind.Regular? && PathOf(m) == p then
        var m :| m in ms && m.kind.Regular? && PathOf(m) == p;
        Installed(m)
      else
        Dir
  }

  lemma RegularTreeExists(ms: multiset<Member>)
    requires Placeable(ms)
    ensures IsRegularTree(RegularTree(ms), ms)
  {
    var t := RegularTree(ms);
    assert t.Keys == RegularPaths(ms);
    forall m | m in ms && m.kind.Regular?
      ensures PathOf(m) in t && t[PathOf(m)] == Installed(m)
    {
      assert Placed(m) && PathOf(m) <= PathOf(m);
      assert PathOf(m) in RegularPaths(ms);
      forall x | x in ms && x.kind.Regular? && PathOf(x) == PathOf(m) ensures x == m {}
    }
  }

  lemma RegularTreeUnique(t: Tree, u: Tree, ms: multiset<Member>)
    requires Placeable(ms) && IsRegularTree(t, ms) && IsRegularTree(u, ms)
    ensures t == u
  {
    forall p | p in t
      ensures p in u && t[p] == u[p]
    {
      assert p in u;
    }
    assert t.Keys == u.Keys;
  }

  // -- The regular pass, one member at a time ------------------------------------------------

  ghost predicate Compatible(ms: multiset<Member>, m: Member) {
    && (m.kind.Regular? ==> forall x :: x in ms && Placed(x) ==> !(PathOf(m) <= PathOf(x)))
    && (Placed(m) ==> forall f :: f in ms && f.kind.Regular? ==> !(PathOf(f) <= PathOf(m)))
  }

  lemma PlaceableExtends(ms: multiset<Member>, m: Member)
    requires Placeable(ms)
    ensures Placeable(ms + multiset{m}) <==> Admissible(m) && Compatible(ms, m)
  {
    var all := ms + multiset{m};
    assert m in all;
    if Placeable(all) {
      forall x | x in ms && Placed(x) && m.kind.Regular?
        ensures !(PathOf(m) <= PathOf(x))
      {
        assert x in all;
        assert x == m ==> all[m] >= 2;
      }
      forall f | f in ms && f.kind.Regular? && Placed(m)
        ensures !(PathOf(f) <= PathOf(m))
      {
        assert f in all;
        assert f == m ==> all[m] >= 2;
      }
    }
  }

  lemma PlaceableOfPart(part: multiset<Member>, ms: multiset<Member>)
    requires part <= ms && Placeable(ms)
    ensures Placeable(part)
  {
    forall m | m in part ensures m in ms && part[m] <= ms[m] {}
  }

  lemma CompatibleMeansClear(t: Tree, ms: multiset<Member>, m: Member, q: Path)
    requires Placeable(ms) && IsRegularTree(t, ms) && Placed(m) && Compatible(ms, m) && q <= PathOf(m)
    ensures NoFileOnTheWay(t, q)
  {
  }

  lemma ClearMeansCompatible(t: Tree, ms: multiset<Member>, m: Member)
    requires Placeable(ms) && IsRegularTree(t, ms) && Admissible(m) && Placed(m)
    requires if m.kind.Regular? then NoFileOnTheWay(t, Parent(PathOf(m))) && PathOf(m) !in t
             else NoFileOnTheWay(t, PathOf(m))
    ensures Compatible(ms, m)
  {
    var p := PathOf(m);
    forall f | f in ms && f.kind.Regular?
      ensures !(PathOf(f) <= p)
    {
      assert PathOf(f) in t && t[PathOf(f)].File?;
      assert m.kind.Regular? && PathOf(f) <= p && PathOf(f) != p ==> PathOf(f) <= Parent(p);
    }
  }

  lemma PathsGrow(t: Tree, ms: multiset<Member>, m: Member, u: Tree)
    requires HoldsPaths(t, ms) && Placed(m) && u.Keys == t.Keys + Prefixes(PathOf(m))
    ensures HoldsPaths(u, ms + multiset{m})
  {
    var all := ms + multiset{m};
    assert m in all && forall x :: x in all <==> x in ms || x == m;
    forall p
      ensures p in u <==> p == [] || exists x :: x in all && Placed(x) && p <= PathOf(x)
    {
      assert p in u <==> p in t || p <= PathOf(m);
    }
  }

  lemma OnlyFilesGrow(t: Tree, ms: multiset<Member>, m: Member, u: Tree)
    requires HoldsNoOtherFile(t, ms)
    requires forall p :: p in u && u[p].File? ==> (p in t && t[p].File?) || (m.kind.Regular? && p == PathOf(m))
    ensures HoldsNoOtherFile(u, ms + multiset{m})
  {
    var all := ms + multiset{m};
    assert m in all;
    forall p | p in u && u[p].File?
      ensures exists x :: x in all && x.kind.Regular? && PathOf(x) == p
    {
      if p in t && t[p].File? {
        var x :| x in ms && x.kind.Regular? && PathOf(x) == p;
        assert x in all;
      }
    }
  }

  /** A tree that gains exactly the prefixes of a compatible member's path describes it too. */
  lemma TreeGrows(t: Tree, ms: multiset<Member>, m: Member, u: Tree)
    requires Placeable(ms) && IsRegularTree(t, ms) && Placeable(ms + multiset{m}) && Placed(m)
    requires u.Keys == t.Keys + Prefixes(PathOf(m))
    requires forall p :: p in t && t[p].File? ==> u[p] == t[p]
    requires forall p :: p in u && u[p].File? ==> (p in t && t[p].File?) || (m.kind.Regular? && p == PathOf(m))
    requires m.kind.Regular? ==> u[PathOf(m)] == Installed(m)
    ensures IsRegularTree(u, ms + multiset{m})
  {
    PathsGrow(t, ms, m, u);
    OnlyFilesGrow(t, ms, m, u);
    forall x | x in ms + multiset{m} && x.kind.Regular?
      ensures PathOf(x) in u && u[PathOf(x)] == Installed(x)
    {
      assert x in ms || x == m;
    }
  }

  lemma DirectoryStep(t: Tree, ms: multiset<Member>, m: Member)
    requires Placeable(ms) && IsRegularTree(t, ms) && Admissible(m) && m.kind.Directory?
    ensures NoFileOnTheWay(t, PathOf(m)) <==> Placeable(ms + multiset{m})
    ensures NoFileOnTheWay(t, PathOf(m)) ==> IsRegularTree(t + DirChain(PathOf(m)), ms + multiset{m})
  {
    PlaceableExtends(ms, m);
    if Compatible(ms, m) {
      CompatibleMeansClear(t, ms, m, PathOf(m));
    }
    if NoFileOnTheWay(t, PathOf(m)) {
      ClearMeansCompatible(t, ms, m);
      TreeGrows(t, ms, m, t + DirChain(PathOf(m)));
    }
  }

  lemma RegularGrows(t: Tree, ms: multiset<Member>, m: Member)
    requires Placeable(ms) && IsRegularTree(t, ms) && Placeable(ms + multiset{m})
    requires m.kind.Regular? && Admissible(m) && Compatible(ms, m) && PathOf(m) != []
    requires NoFileOnTheWay(t, Parent(PathOf(m))) && PathOf(m) !in t
    ensures IsRegularTree((t + DirChain(Parent(PathOf(m))))[PathOf(m) := Installed(m)], ms + multiset{m})
  {
    var p := PathOf(m);
    var u := (t + DirChain(Parent(p)))[p := Installed(m)];
    ParentPrefixes(p);
    assert u.Keys == t.Keys + Prefixes(p);
    forall q | q in t && t[q].File?
      ensures u[q] == t[q]
    {
      assert q !in DirChain(Parent(p));
    }
    TreeGrows(t, ms, m, u);
  }

  lemma RegularStep(t: Tree, ms: multiset<Member>, m: Member)
    requires Placeable(ms) && IsRegularTree(t, ms) && Admissible(m) && m.kind.Regular?
    ensures NoFileOnTheWay(t, Parent(PathOf(m))) && PathOf(m) !in t <==> Placeable(ms + multiset{m})
    ensures NoFileOnTheWay(t, Parent(PathOf(m))) && PathOf(m) !in t ==>
              IsRegularTree((t + DirChain(Parent(PathOf(m))))[PathOf(m) := Installed(m)], ms + multiset{m})
  {
    PlaceableExtends(ms, m);
    var p := PathOf(m);
    if Compatible(ms, m) {
      CompatibleMeansClear(t, ms, m, Parent(p));
    }
    if NoFileOnTheWay(t, Parent(p)) && p !in t {
      ClearMeansCompatible(t, ms, m);
      RegularGrows(t, ms, m);
    }
  }

  lemma RegularTreeWellFormed(t: Tree, ms: multiset<Member>)
    requires Placeable(ms) && IsRegularTree(t, ms)
    ensures WellFormed(t)
  {
    assert EXECUTABLE_MODE & PERMISSIONS == EXECUTABLE_MODE && PLAIN_MODE & PERMISSIONS == PLAIN_MODE;
    assert forall m :: m in ms ==> PathOf(m) != [];
    forall p | p in t && p != []
      ensures Parent(p) in t && t[Parent(p)].Dir?
    {
      var m :| m in ms && Placed(m) && p <= PathOf(m);
      assert Parent(p) <= PathOf(m);
    }
  }

  // -- The whole archive ---------------------------------------------------------------------

  function LinkOf(m: Member): multiset<Link> {
    if m.kind.Symlink? then multiset{Link(PathOf(m), m.kind.linkname)} else multiset{}
  }

  function LinksOf(members: seq<Member>): multiset<Link> {
    if members == [] then multiset{} else LinksOf(members[..|members| - 1]) + LinkOf(members[|members| - 1])
  }

  /** What an archive must be like for its extraction to end without an error. */
  ghost predicate Extractable(members: seq<Member>) {
    && Placeable(multiset(members))
    && Materialisable(RegularTree(multiset(members)), LinksOf(members))
  }

  /** The tree an extractable archive describes. */
  ghost predicate IsExtracted(t: Tree, members: seq<Member>)
    requires Extractable(members)
  {
    IsMaterialised(t, RegularTree(multiset(members)), LinksOf(members))
  }

  function Without<T>(members: seq<T>, i: nat): seq<T>
    requires i < |members|
  {
    members[..i] + members[i + 1..]
  }

  lemma WithoutLast(members: seq<Member>, i: nat)
    requires i < |members| - 1
    ensures Without(members, i) == Without(members[..|members| - 1], i) + [members[|members| - 1]]
  {
  }

  lemma LinksOfMore(members: seq<Member>, m: Member)
    ensures LinksOf(members + [m]) == LinksOf(members) + LinkOf(m)
  {
    assert (members + [m])[..|members|] == members;
  }

  lemma Swap(x: multiset<Link>, y: multiset<Link>, z: multiset<Link>)
    ensures x + y + z == x + z + y
  {
  }

  lemma {:induction false} LinksWithout(members: seq<Member>, i: nat)
    requires i < |members|
    ensures LinksOf(members) == LinksOf(Without(members, i)) + LinkOf(members[i])
  {
    hide LinkOf;
    var last := |members| - 1;
    if i == last {
      assert Without(members, i) == members[..last];
    } else {
      LinksWithout(members[..last], i);
      WithoutLast(members, i);
      LinksOfMore(Without(members[..last], i), members[last]);
      Swap(LinksOf(Without(members[..last], i)), LinkOf(members[i]), LinkOf(members[last]));
    }
  }

  lemma Cancel<T>(a: multiset<T>, b: multiset<T>, m: T)
    requires a + multiset{m} == b + multiset{m}
    ensures a == b
  {
    forall x
      ensures a[x] == b[x]
    {
      assert (a + multiset{m})[x] == (b + multiset{m})[x];
    }
  }

  lemma {:induction false} LinksOfPermutation(a: seq<Member>, b: seq<Member>)
    requires multiset(a) == multiset(b)
    ensures LinksOf(a) == LinksOf(b)
    decreases |a|
  {
    if a == [] {
      assert |multiset(b)| == |b| == 0;
    } else {
      var last := |a| - 1;
      assert a == a[..last] + [a[last]];
      assert a[last] in multiset(b);
      var i :| 0 <= i < |b| && b[i] == a[last];
      var rest := Without(b, i);
      assert b == b[..i] + [b[i]] + b[i + 1..];
      assert multiset(b) == multiset(rest) + multiset{b[i]};
      assert multiset(a) == multiset(a[..last]) + multiset{a[last]};
      Cancel(multiset(a[..last]), multiset(rest), a[last]);
      LinksOfPermutation(a[..last], rest);
      LinksWithout(b, i);
    }
  }

  /** Neither the verdict nor the tree depends on the order of the members. */
  lemma OrderIsIrrelevant(a: seq<Member>, b: seq<Member>)
    requires multiset(a) == multiset(b)
    ensures Extractable(a) <==> Extractable(b)
    ensures forall t, u :: Extractable(a) && IsExtracted(t, a) && IsExtracted(u, b) ==> t == u
  {
    LinksOfPermutation(a, b);
    forall t, u | Extractable(a) && IsExtracted(t, a) && IsExtracted(u, b)
      ensures t == u
    {
      MaterialisedUnique(t, u, RegularTree(multiset(a)), LinksOf(a));
    }
  }

  lemma MultisetWithout<T>(s: seq<T>, i: nat)
    requires i < |s|
    ensures multiset(s) == multiset(Without(s, i)) + multiset{s[i]}
  {
    assert s == s[..i] + ([s[i]] + s[i + 1..]);
  }

  lemma ReadAllWithout(entries: seq<Entry>, i: nat)
    requires i < |entries|
    ensures multiset(ReadAll(entries)) == multiset(ReadAll(Without(entries, i))) + multiset{Read(entries[i])}
  {
    MultisetWithout(ReadAll(entries), i);
    assert ReadAll(Without(entries, i)) == Without(ReadAll(entries), i);
  }

  lemma {:induction false} ReadAllPermutation(a: seq<Entry>, b: seq<Entry>)
    requires multiset(a) == multiset(b)
    ensures multiset(ReadAll(a)) == multiset(ReadAll(b))
    decreases |a|
  {
    if a == [] {
      assert |multiset(b)| == |b| == 0;
    } else {
      var last := |a| - 1;
      assert a == a[..last] + [a[last]];
      assert a[last] in multiset(b);
      var i :| 0 <= i < |b| && b[i] == a[last];
      var rest := Without(b, i);
      assert b == b[..i] + [b[i]] + b[i + 1..];
      assert multiset(b) == multiset(rest) + multiset{b[i]};
      assert multiset(a) == multiset(a[..last]) + multiset{a[last]};
      Cancel(multiset(a[..last]), multiset(rest), a[last]);
      ReadAllPermutation(a[..last], rest);
      ReadAllWithout(a, last);
      ReadAllWithout(b, i);
      assert Without(a, last) == a[..last];
    }
  }

  /** Nor does either depend on the order in which an archive stores its members. */
  lemma ArchiveOrderIsIrrelevant(a: seq<Entry>, b: seq<Entry>)
    requires multiset(a) == multiset(b)
    ensures Extractable(ReadAll(a)) <==> Extractable(ReadAll(b))
    ensures forall t, u ::
      Extractable(ReadAll(a)) && IsExtracted(t, ReadAll(a)) && IsExtracted(u, ReadAll(b)) ==> t == u
  {
    ReadAllPermutation(a, b);
    OrderIsIrrelevant(ReadAll(a), ReadAll(b));
  }

  lemma NextMember(members: seq<Member>, n: nat)
    requires n < |members|
    ensures multiset(members[..n + 1]) == multiset(members[..n]) + multiset{members[n]}
    ensures LinksOf(members[..n + 1]) == LinksOf(members[..n]) + LinkOf(members[n])
    ensures Placeable(multiset(members)) ==> Placeable(multiset(members[..n + 1]))
  {
    assert members[..n + 1] == members[..n] + [members[n]];
    assert members == members[..n + 1] + members[n + 1..];
    if Placeable(multiset(members)) {
      PlaceableOfPart(multiset(members[..n + 1]), multiset(members));
    }
  }

  lemma ParentIsNotItself(p: Path)
    requires p != []
    ensures p !in Prefixes(Parent(p))
  {
  }

  /** Installs one member that is not a symlink; raises on a collision. */
  method Install(tree: FileTree, member: Member, ghost ms: multiset<Member>) returns (ok: bool)
    requires Placeable(ms) && IsRegularTree(tree.entries, ms) && Admissible(member) && Placed(member)
    modifies tree
    ensures ok <==> Placeable(ms + multiset{member})
    ensures ok ==> IsRegularTree(tree.entries, ms + multiset{member})
  {
    var target := PathOf(member);
    if member.kind.Directory? {
      DirectoryStep(tree.entries, ms, member);
      ok := tree.MakeDirs(target);
    } else {
      RegularStep(tree.entries, ms, member);
      ok := tree.MakeDirs(Parent(target));
      if ok {
        ParentIsNotItself(target);
        var mode := if member.kind.mode & ANY_EXECUTE != 0 then EXECUTABLE_MODE else PLAIN_MODE;
        ok := tree.WriteNew(target, member.kind.data.value, mode);
      }
    }
  }

  lemma SymlinkChangesNothing(t: Tree, ms: multiset<Member>, m: Member)
    requires Placeable(ms) && IsRegularTree(t, ms) && m.kind.Symlink? && Admissible(m)
    ensures Placeable(ms + multiset{m}) && IsRegularTree(t, ms + multiset{m})
  {
    PlaceableExtends(ms, m);
    assert forall x :: x in ms + multiset{m} <==> x in ms || x == m;
  }

  lemma NoMemberYet(members: seq<Member>)
    ensures Placeable(multiset(members[..0])) && IsRegularTree(map[[] := Dir], multiset(members[..0]))
    ensures LinksOf(members[..0]) == multiset{}
  {
  }

  lemma InadmissibleRefused(members: seq<Member>, n: nat)
    requires n < |members| && !Admissible(members[n])
    ensures !Extractable(members)
  {
    assert members[n] in multiset(members);
  }

  lemma UnplaceableRefused(members: seq<Member>, n: nat)
    requires n < |members| && !Placeable(multiset(members[..n + 1]))
    ensures !Extractable(members)
  {
    NextMember(members, n);
  }

  /** After the last member the tree and the links are those of the archive. */
  lemma LastMember(t: Tree, members: seq<Member>, links: seq<Link>)
    requires Placeable(multiset(members)) && IsRegularTree(t, multiset(members)) && multiset(links) == LinksOf(members)
    ensures WellFormed(t) && (Extractable(members) <==> Materialisable(t, multiset(links)))
    ensures forall u :: Extractable(members) && IsMaterialised(u, t, multiset(links)) ==> IsExtracted(u, members)
  {
    var ms := multiset(members);
    RegularTreeExists(ms);
    RegularTreeUnique(t, RegularTree(ms), ms);
    RegularTreeWellFormed(t, ms);
  }

  /** The whole extraction, from the names as the archive stores them. */
  method ExtractTar(tree: FileTree, entries: seq<Entry>) returns (ok: bool)
    requires tree.entries == map[[] := Dir]
    modifies tree
    ensures ok <==> Extractable(ReadAll(entries))
    ensures ok ==> IsExtracted(tree.entries, ReadAll(entries))
  {
    hide Extractable, IsExtracted, Placeable, IsRegularTree, LinksOf, Materialisable, IsMaterialised, WellFormed;
    hide SafeMemberParts;
    ghost var members := ReadAll(entries);
    NoMemberYet(members);
    var links: seq<Link> := [];
    for n := 0 to |entries|
      invariant Placeable(multiset(members[..n])) && IsRegularTree(tree.entries, multiset(members[..n]))
      invariant multiset(links) == LinksOf(members[..n])
      invariant forall l :: l in links ==> l.alias != []
    {
      var member := Read(entries[n]);
      ghost var before := multiset(members[..n]);
      NextMember(members, n);
      if member.path.None? || member.kind.Hardlink? {
        InadmissibleRefused(members, n);
        return false;
      }
      if member.kind.Symlink? {
        SymlinkChangesNothing(tree.entries, before, member);
        links := links + [Link(PathOf(member), member.kind.linkname)];
        continue;
      }
      if member.kind.Special? || (member.kind.Regular? && member.kind.data.None?) {
        InadmissibleRefused(members, n);
        return false;
      }
      ok := Install(tree, member, before);
      if !ok {
        UnplaceableRefused(members, n);
        return;
      }
    }
    assert members[..|members|] == members;
    LastMember(tree.entries, members, links);
    ghost var passes;
    ok, passes := MaterialiseLinks(tree, links);
  }
}
