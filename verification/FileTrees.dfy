/** The destination directory of an extraction, as the paths it holds. */
module FileTrees {
  import opened Bytes
  import opened MemberPaths

  /** Permission bits only; no kind of node is a link. */
  datatype Node = Dir | File(data: bytes, mode: bv32)

  type Tree = map<Path, Node>

  const EXECUTABLE_MODE: bv32 := 0x1ED
  const PLAIN_MODE: bv32 := 0x1A4
  const ANY_EXECUTE: bv32 := 0x49
  const PERMISSIONS: bv32 := 0x1FF

  // -- Paths ---------------------------------------------------------------------------------

  function Parent(p: Path): Path {
    if p == [] then [] else p[..|p| - 1]
  }

  function Prefixes(p: Path): (r: set<Path>)
    ensures forall q :: q in r <==> q <= p
  {
    var r := set k | 0 <= k <= |p| :: p[..k];
    assert forall q :: q <= p ==> q == p[..|q|];
    r
  }

  function DirChain(p: Path): Tree {
    map q | q in Prefixes(p) :: Dir
  }

  predicate NoFileOnTheWay(t: Tree, p: Path) {
    forall q :: q in Prefixes(p) && q in t ==> t[q].Dir?
  }

  lemma ParentPrefixes(p: Path)
    requires p != []
    ensures Prefixes(p) == Prefixes(Parent(p)) + {p}
  {
    forall q
      ensures q in Prefixes(p) <==> q in Prefixes(Parent(p)) + {p}
    {
      if q <= p && q != p {
        assert q == p[..|q|] == Parent(p)[..|q|];
      }
    }
  }

  // -- The file system -----------------------------------------------------------------------

  class FileTree {
    var entries: Tree

    constructor ()
      ensures entries == map[[] := Dir]
    {
      entries := map[[] := Dir];
    }

    /** mkdir with `parents` and `exist_ok`: refused when the path or an ancestor is a file. */
    method MakeDirs(p: Path) returns (ok: bool)
      modifies this
      ensures ok <==> NoFileOnTheWay(old(entries), p)
      ensures entries == if ok then old(entries) + DirChain(p) else old(entries)
    {
      ok := NoFileOnTheWay(entries, p);
      if ok {
        entries := entries + DirChain(p);
      }
    }

    /** Exclusive creation followed by chmod. */
    method WriteNew(p: Path, data: bytes, mode: bv32) returns (ok: bool)
      modifies this
      ensures ok <==> p !in old(entries)
      ensures entries == if ok then old(entries)[p := File(data, mode)] else old(entries)
    {
      ok := p !in entries;
      if ok {
        entries := entries[p := File(data, mode)];
      }
    }
  }

  // -- Well-formed trees ----

  ghost predicate WellFormed(t: Tree) {
    && [] in t && t[[]].Dir?
    && (forall p {:trigger Parent(p)} :: p in t && p != [] ==> Parent(p) in t && t[Parent(p)].Dir?)
    && (forall p :: p in t && t[p].File? ==> t[p].mode & PERMISSIONS == t[p].mode)
  }

  lemma {:induction false} AncestorsAreDirectories(t: Tree, p: Path)
    requires WellFormed(t) && p in t && t[p].Dir?
    ensures NoFileOnTheWay(t, p) && t + DirChain(p) == t
  {
    if p != [] {
      AncestorsAreDirectories(t, Parent(p));
      ParentPrefixes(p);
    }
    assert forall q :: q in Prefixes(p) ==> q in t && t[q].Dir?;
  }
}
