/** Writing a bundle: nothing appears under the output name before it is complete and verified. */
module BundleWriter {
  import opened Wrappers
  import opened Bundle
  import opened Json

  /**
   * What the file system does: whether it refuses the output path, the staging directory, the check that staging is
   * plain, reading back, the final replacement or the removal; how many writes succeed, and what a torn write leaves.
   */
  datatype Faults = Faults(
    path: bool, staging: bool, plain: bool, writes: nat, torn: string, reading: bool, replacement: bool, removal: bool)

  predicate NoFault(f: Faults) {
    !f.path && !f.staging && !f.plain && f.writes >= 3 && !f.reading && !f.replacement
  }

  type Directories = map<string, Contents>

  /** From state `first` on, nothing but the staging directory differs from `before`, until all of `published` is
      there. */
  ghost predicate Kept(states: seq<Directories>, first: nat, staging: string, before: Directories,
                       published: Option<Directories>)
  {
    && first <= |states|
    && forall n :: first <= n < |states| ==> states[n] - {staging} == before || published == Some(states[n])
  }

  lemma KeptFromEarlier(states: seq<Directories>, first: nat, staging: string, before: Directories,
                        published: Option<Directories>)
    requires first < |states| && states[first] - {staging} == before
    requires Kept(states, first + 1, staging, before, published)
    ensures Kept(states, first, staging, before, published)
  {
  }

  function Publication(r: Result<Summary>, d: Directories): Option<Directories> {
    if r.Ok? then Some(d) else None
  }

  function FilesOf(j: Json, codec: Codec): (files: seq<(string, string)>)
    ensures |files| == 3
  {
    [(EVIDENCE, EvidenceText(j, codec)), (JUNIT, JunitOf(j)), (MANIFEST, ManifestText(j, codec))]
  }

  /** The staging directory after `n` writes. */
  function Filled(j: Json, codec: Codec, n: nat): Contents
    requires n <= 3
  {
    if n == 0 then map[]
    else if n == 1 then map[EVIDENCE := EvidenceText(j, codec)]
    else if n == 2 then map[EVIDENCE := EvidenceText(j, codec), JUNIT := JunitOf(j)]
    else Staged(j, codec)
  }

  lemma FilledNext(j: Json, codec: Codec, n: nat)
    requires n < 3
    ensures var file := FilesOf(j, codec)[n];
            && file.0 !in Filled(j, codec, n)
            && Filled(j, codec, n + 1) == Filled(j, codec, n)[file.0 := file.1]
  {
    assert |EVIDENCE| == 13 && |JUNIT| == 9 && |MANIFEST| == 13 && EVIDENCE[0] == 'e' && MANIFEST[0] == 'm';
  }

  predicate Verifies(j: Json, check: Validator, codec: Codec) {
    VerifyBundle(Staged(j, codec), check, codec).Ok?
  }

  class Disk {
    var directories: Directories
    /** Every state the disk has been in. */
    ghost var history: seq<Directories>

    method MakeDirectory(name: string)
      requires name !in directories
      modifies this
      ensures directories == old(directories)[name := map[]] && history == old(history) + [directories]
    {
      directories := directories[name := map[]];
      history := history + [directories];
    }

    method WriteNew(directory: string, file: string, bytes: string)
      requires directory in directories && file !in directories[directory]
      modifies this
      ensures directories == old(directories)[directory := old(directories)[directory][file := bytes]]
      ensures history == old(history) + [directories]
    {
      directories := directories[directory := directories[directory][file := bytes]];
      history := history + [directories];
    }

    method Replace(source: string, target: string)
      requires source in directories && source != target
      modifies this
      ensures directories == (old(directories) - {source})[target := old(directories)[source]]
      ensures history == old(history) + [directories]
    {
      directories := (directories - {source})[target := directories[source]];
      history := history + [directories];
    }

    method RemoveTree(directory: string)
      modifies this
      ensures directories == old(directories) - {directory} && history == old(history) + [directories]
    {
      directories := directories - {directory};
      history := history + [directories];
    }

    /** The three writes, until one fails. */
    method Fill(staging: string, j: Json, codec: Codec, faults: Faults) returns (ok: bool)
      requires staging in directories && directories[staging] == map[]
      modifies this
      ensures ok <==> faults.writes >= 3
      ensures staging in directories && directories - {staging} == old(directories) - {staging}
      ensures ok ==> directories[staging] == Staged(j, codec)
      ensures |old(history)| <= |history| && history[..|old(history)|] == old(history)
      ensures forall n :: |old(history)| <= n < |history| ==> history[n] - {staging} == old(directories) - {staging}
    {
      ghost var rest := directories - {staging};
      var files := FilesOf(j, codec);
      for n := 0 to 3
        invariant n <= faults.writes
        invariant staging in directories && directories[staging] == Filled(j, codec, n)
        invariant directories - {staging} == rest
        invariant |old(history)| <= |history| && history[..|old(history)|] == old(history)
        invariant forall i :: |old(history)| <= i < |history| ==> history[i] - {staging} == rest
      {
        FilledNext(j, codec, n);
        if faults.writes == n {
          WriteNew(staging, files[n].0, faults.torn);
          return false;
        }
        WriteNew(staging, files[n].0, files[n].1);
      }
      return true;
    }

    /** The guarded part: fill the staging directory, verify it, move it into place. */
    method Publish(output: string, staging: string, j: Json, check: Validator, codec: Codec, faults: Faults)
      returns (r: Result<Summary>)
      requires check(j).Accepted?
      requires staging in directories && directories[staging] == map[] && output !in directories && output != staging
      modifies this
      ensures r.Ok? <==> faults.writes >= 3 && !faults.reading && Verifies(j, check, codec) && !faults.replacement
      ensures Dependable(check, codec, j) ==> (Verifies(j, check, codec) <==> WithinLimits(j, codec))
      ensures Dependable(check, codec, j) && r.Ok? ==> r == Report(j)
      ensures r.Ok? ==> r == VerifyBundle(Staged(j, codec), check, codec)
      ensures r.Ok? ==> directories == (old(directories) - {staging})[output := Staged(j, codec)]
      ensures r.Raised? ==> staging in directories && directories - {staging} == old(directories) - {staging}
      ensures |old(history)| <= |history| && history[..|old(history)|] == old(history)
      ensures forall n :: |old(history)| <= n < |history| ==>
        history[n] - {staging} == old(directories) - {staging} || (r.Ok? && history[n] == directories)
    {
      if Dependable(check, codec, j) {
        StagedVerifies(j, check, codec);
      }
      var filled := Fill(staging, j, codec, faults);
      if !filled || faults.reading {
        return Raised;
      }
      var summary := VerifyBundle(directories[staging], check, codec);
      if summary.Raised? || faults.replacement {
        return Raised;
      }
      Replace(staging, output);
      return summary;
    }

    /** The guarded part and its clean-up; `before` is the disk without the staging directory. */
    method Attempt(output: string, staging: string, j: Json, check: Validator, codec: Codec, faults: Faults,
                   ghost before: Directories)
      returns (r: Result<Summary>)
      requires check(j).Accepted?
      requires staging in directories && directories[staging] == map[] && output !in directories && output != staging
      requires directories - {staging} == before
      modifies this
      ensures r.Ok? <==> faults.writes >= 3 && !faults.reading && Verifies(j, check, codec) && !faults.replacement
      ensures Dependable(check, codec, j) ==> (Verifies(j, check, codec) <==> WithinLimits(j, codec))
      ensures Dependable(check, codec, j) && r.Ok? ==> r == Report(j)
      ensures r.Ok? ==> r == VerifyBundle(Staged(j, codec), check, codec)
      ensures r.Ok? ==> directories == before[output := Staged(j, codec)]
      ensures r.Raised? ==> directories - {staging} == before && (staging in directories <==> faults.removal)
      ensures |old(history)| <= |history| && history[..|old(history)|] == old(history)
      ensures Kept(history, |old(history)|, staging, before, Publication(r, directories))
    {
      r := Publish(output, staging, j, check, codec, faults);
      if r.Raised? && !faults.removal {
        ghost var left := directories;
        RemoveTree(staging);
        assert directories - {staging} == left - {staging};
      }
    }

    /**
     * Either the complete bundle appears under the output name or nothing does, in every state on the way; a failed
     * call leaves the disk as it was, except for a staging directory that is not plain or cannot be removed.
     */
    method WriteBundle(output: string, staging: string, j: Json, check: Validator, codec: Codec, faults: Faults)
      returns (r: Result<Summary>)
      requires staging !in directories && staging != output
      modifies this
      ensures r.Ok? <==>
        check(j).Accepted? && output !in old(directories) && NoFault(faults) && Verifies(j, check, codec)
      ensures Dependable(check, codec, j) ==>
        (r.Ok? <==> check(j).Accepted? && output !in old(directories) && NoFault(faults) && WithinLimits(j, codec))
      ensures Dependable(check, codec, j) && r.Ok? ==> r == Report(j)
      ensures r.Ok? ==> r == VerifyBundle(Staged(j, codec), check, codec)
      ensures r.Ok? ==> directories == old(directories)[output := Staged(j, codec)]
      ensures r.Raised? ==> directories - {staging} == old(directories)
      ensures r.Raised? ==> (staging in directories <==>
        && check(j).Accepted? && output !in old(directories) && !faults.path && !faults.staging
        && (faults.plain || faults.removal))
      ensures Kept(history, |old(history)|, staging, old(directories), Publication(r, directories))
    {
      ghost var before := directories;
      assert before - {staging} == before;
      if Dependable(check, codec, j) && check(j).Accepted? {
        StagedVerifies(j, check, codec);
      }
      r := Raised;
      if check(j).Accepted? && !faults.path && output !in directories && !faults.staging {
        MakeDirectory(staging);
        ghost var start, states := |old(history)|, history;
        assert directories - {staging} == before && states[start] == directories;
        if !faults.plain {
          r := Attempt(output, staging, j, check, codec, faults, before);
          assert history[start] == history[..start + 1][start] == states[start];
        }
        KeptFromEarlier(history, start, staging, before, Publication(r, directories));
      }
    }
  }
}
