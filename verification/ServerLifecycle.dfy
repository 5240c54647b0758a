/** Starting and stopping a server process, against an operating system that is free to do as it likes. */
module ServerLifecycle {
  import opened Wrappers
  import ProcessTree

  const INVALID_PARAMETER := 87

  datatype WaitCode = Signalled | TimedOut | WaitFailed

  /** The operating system as the lifecycle sees it. Processes exit and fork at any time; pids and handles are
      never used twice. Handle `h` was opened on process `targets[h - 1]`. */
  class Os {
    var live: set<int>
    var group: map<int, int>
    var nextPid: nat
    var roots: set<int>
    var peak: nat
    var targets: seq<int>
    var closed: seq<int>
    /** Every poll of a process, with its answer. */
    ghost var polls: seq<(int, bool)>

    ghost predicate Valid()
      reads this
    {
      && live <= group.Keys && roots <= group.Keys
      && (forall p :: p in group ==> p < nextPid)
      && (forall i, j :: 0 <= i < j < |closed| ==> closed[i] != closed[j])
      && (forall h :: h in closed ==> 1 <= h <= |targets|)
    }

    /** Handles opened and not closed; `Valid` adds that none was closed twice. */
    ghost function OpenHandles(): set<int>
      reads this
    {
      set h | 1 <= h <= |targets| && h !in closed
    }

    /** What the passing of time may change. */
    twostate predicate Elapsed()
      reads this
    {
      && Valid()
      && (forall p :: p in live && p !in old(live) ==> p >= old(nextPid))
      && live * roots <= old(live * roots)
      && old(nextPid) <= nextPid
      && roots == old(roots) && peak == old(peak) && old(polls) <= polls
      && old(group).Keys <= group.Keys
      && (forall p :: p in old(group) ==> group[p] == old(group)[p])
    }

    twostate predicate HandlesUnchanged()
      reads this
    {
      targets == old(targets) && closed == old(closed)
    }

    method Elapse()
      requires Valid()
      modifies this
      ensures Elapsed() && HandlesUnchanged() && polls == old(polls)
    {
      var exiting: set<int> := *;
      live := live - exiting;
      if * {
        var parent: int := *;
        if parent in live {
          group := group[nextPid := group[parent]];
          live := live + {nextPid};
          nextPid := nextPid + 1;
        }
      }
    }

    /** Starts a process in a group of its own, or raises. */
    method Spawn() returns (r: Result<int>)
      requires Valid()
      modifies this
      ensures Valid() && HandlesUnchanged()
      ensures r.Raised? ==> live == old(live) && roots == old(roots) && peak == old(peak) && group == old(group)
      ensures r.Ok? ==> r.value !in old(group) && group == old(group)[r.value := r.value]
      ensures r.Ok? ==> live == old(live) + {r.value} && roots == old(roots) + {r.value}
      ensures r.Ok? ==> peak == if old(peak) >= |live * roots| then old(peak) else |live * roots|
    {
      if * {
        return Raised;
      }
      var pid := nextPid;
      nextPid := nextPid + 1;
      group := group[pid := pid];
      live, roots := live + {pid}, roots + {pid};
      if peak < |live * roots| {
        peak := |live * roots|;
      }
      return Ok(pid);
    }

    method Poll(pid: int) returns (exited: bool)
      requires Valid()
      modifies this
      ensures Elapsed() && HandlesUnchanged() && polls == old(polls) + [(pid, exited)]
      ensures exited <==> pid !in live
    {
      Elapse();
      exited := pid !in live;
      polls := polls + [(pid, exited)];
    }

    /** Probes a process group with signal 0. */
    method GroupExists(pgid: int) returns (found: bool)
      requires Valid()
      modifies this
      ensures Elapsed() && HandlesUnchanged()
      ensures found <==> exists p :: p in live && group[p] == pgid
    {
      Elapse();
      found := exists p :: p in live && group[p] == pgid;
    }

    /** Handle 0 is a failure, explained by `error`. */
    method OpenProcess(pid: int) returns (handle: int, error: int)
      requires Valid()
      modifies this
      ensures Elapsed() && closed == old(closed)
      ensures handle == 0 ==> targets == old(targets)
      ensures handle != 0 ==> handle == |targets| && targets == old(targets) + [pid]
    {
      Elapse();
      error := *;
      handle := 0;
      if * {
        targets := targets + [pid];
        handle := |targets|;
      }
    }

    method Wait(handle: int) returns (code: WaitCode)
      requires Valid() && 1 <= handle <= |targets|
      modifies this
      ensures Elapsed() && HandlesUnchanged()
      ensures code == Signalled ==> targets[handle - 1] !in live
    {
      Elapse();
      code := *;
      if code == Signalled && targets[handle - 1] in live {
        code := TimedOut;
      }
    }

    method CloseHandle(handle: int)
      requires Valid() && handle in OpenHandles()
      modifies `closed
      ensures Valid() && OpenHandles() == old(OpenHandles()) - {handle}
    {
      closed := closed + [handle];
    }
  }

  // -- Wait handles --------------------------------------------------------------------------

  ghost function Filed(handles: map<int, int>): set<int> {
    set p | p in handles :: handles[p]
  }

  lemma FiledOneMore(handles: map<int, int>, pid: int, handle: int)
    requires pid !in handles
    ensures Filed(handles[pid := handle]) == Filed(handles) + {handle}
  {
    var more := handles[pid := handle];
    assert forall p :: p in more <==> p in handles || p == pid;
    assert more[pid] == handle;
    assert forall p :: p in handles ==> more[p] == handles[p];
    forall h | h in Filed(handles) + {handle}
      ensures h in Filed(more)
    {
      if h != handle {
        var p :| p in handles && handles[p] == h;
        assert more[p] == h;
      }
    }
  }

  /** Distinct open handles, each on the process it is filed under. */
  ghost predicate HandlesOf(os: Os, handles: map<int, int>)
    reads os
  {
    && Filed(handles) <= os.OpenHandles()
    && forall p :: p in handles ==> 1 <= handles[p] <= |os.targets| && os.targets[handles[p] - 1] == p
  }

  lemma HandlesAreDistinct(os: Os, handles: map<int, int>, p: int, q: int)
    requires HandlesOf(os, handles) && p in handles && q in handles && handles[p] == handles[q]
    ensures p == q
  {
  }

  method CloseAll(os: Os, handles: map<int, int>)
    requires os.Valid() && HandlesOf(os, handles)
    modifies os`closed
    ensures os.Valid() && os.OpenHandles() == old(os.OpenHandles()) - Filed(handles)
  {
    var rest := handles.Keys;
    ghost var gone: set<int> := {};
    while rest != {}
      invariant os.Valid() && rest <= handles.Keys
      invariant gone == (set p | p in handles && p !in rest :: handles[p])
      invariant os.OpenHandles() == old(os.OpenHandles()) - gone
      decreases rest
    {
      ghost var any := AnyOf(rest);
      var p :| p in rest;
      os.CloseHandle(handles[p]);
      gone := gone + {handles[p]};
      rest := rest - {p};
    }
    assert gone == Filed(handles);
  }

  /** Opens a wait handle on every pid; any error but the race code closes them all and raises. `raced` are the
      pids refused with that code, which is documented to mean that the process has exited. */
  method OpenWaitHandles(os: Os, pids: seq<int>) returns (r: Result<map<int, int>>, ghost raced: set<int>)
    requires os.Valid() && ProcessTree.StrictlySorted(pids)
    modifies os
    ensures os.Elapsed()
    ensures r.Raised? ==> os.OpenHandles() == old(os.OpenHandles())
    ensures r.Ok? ==> HandlesOf(os, r.value) && Filed(r.value) !! old(os.OpenHandles())
    ensures r.Ok? ==> os.OpenHandles() == old(os.OpenHandles()) + Filed(r.value)
    ensures r.Ok? ==> r.value.Keys !! raced && forall p :: p in pids <==> p in r.value || p in raced
  {
    var handles: map<int, int> := map[];
    raced := {};
    for n := 0 to |pids|
      invariant os.Elapsed()
      invariant HandlesOf(os, handles) && Filed(handles) !! old(os.OpenHandles())
      invariant os.OpenHandles() == old(os.OpenHandles()) + Filed(handles)
      invariant handles.Keys !! raced && forall p :: p in handles || p in raced <==> p in pids[..n]
    {
      var pid := pids[n];
      assert pids[..n + 1] == pids[..n] + [pid];
      assert forall i :: 0 <= i < n ==> pids[i] < pid;
      assert pid !in handles;
      ghost var before := os.OpenHandles();
      var handle, error := os.OpenProcess(pid);
      if handle != 0 {
        assert os.OpenHandles() == before + {handle};
        FiledOneMore(handles, pid, handle);
        handles := handles[pid := handle];
      } else {
        assert os.OpenHandles() == before;
        if error != INVALID_PARAMETER {
          CloseAll(os, handles);
          return Raised, raced;
        }
        raced := raced + {pid};
      }
    }
    assert pids[..|pids|] == pids;
    return Ok(handles), raced;
  }

  /** Waits on every handle, stopping at the first failure, and closes all of them in any case. */
  method WaitAndClose(os: Os, handles: map<int, int>) returns (r: Result<()>)
    requires os.Valid() && HandlesOf(os, handles)
    modifies os
    ensures os.Elapsed()
    ensures os.OpenHandles() == old(os.OpenHandles()) - Filed(handles)
    ensures r.Ok? ==> forall p :: p in handles && p < old(os.nextPid) ==> p !in os.live
  {
    r := Ok(());
    var rest := handles.Keys;
    while rest != {}
      invariant os.Elapsed() && os.HandlesUnchanged() && rest <= handles.Keys
      invariant r.Ok? ==> forall p :: p in handles && p !in rest && p < old(os.nextPid) ==> p !in os.live
      decreases rest
    {
      ghost var any := AnyOf(rest);
      var p :| p in rest;
      var code := os.Wait(handles[p]);
      rest := rest - {p};
      if code != Signalled {
        r := Raised;
        break;
      }
    }
    CloseAll(os, handles);
  }

  // -- Stopping ------------------------------------------------------------------------------

  /** The record of one stop: the captured process tree, the pids refused with the race code, whether the call of the
      external kill command itself raised, and the wait handles that were left open. */
  datatype Stopping = Stopping(tree: seq<int>, raced: set<int>, killRaised: bool, held: map<int, int>)

  const UNATTENDED := Stopping([], {}, false, map[])

  /** What a stop that found its server running has confirmed: everyone in the captured tree has exited, except
      that a pid refused with the race code is believed to have. */
  ghost predicate TreeExited(os: Os, s: Stopping, bound: int)
    reads os
  {
    forall p :: p in s.tree && p !in s.raced && p < bound ==> p !in os.live
  }

  /** What becomes of the open handles: where the kill call raised, the handle of every captured pid that was not
      refused stays open, and otherwise none does. */
  ghost predicate HandlesAfter(before: set<int>, after: set<int>, s: Stopping) {
    && after == before + Filed(s.held) && Filed(s.held) !! before
    && (forall p :: p in s.held <==> s.killRaised && p in s.tree && p !in s.raced)
  }

  /** Handles are conserved except exactly where the kill call raised with a captured pid that was not refused. */
  lemma HandlesConserved(before: set<int>, after: set<int>, s: Stopping)
    requires HandlesAfter(before, after, s)
    ensures after == before <==> !(s.killRaised && exists p :: p in s.tree && p !in s.raced)
  {
    if s.killRaised && exists p :: p in s.tree && p !in s.raced {
      var p :| p in s.tree && p !in s.raced;
      assert s.held[p] in Filed(s.held);
    }
  }

  /** The smallest leak: a server without children, whose kill call raises. */
  lemma LoneServerLeaks(before: set<int>, after: set<int>, pid: int, held: map<int, int>)
    requires HandlesAfter(before, after, Stopping([pid], {}, true, held))
    ensures pid in held && held[pid] !in before && after == before + {held[pid]}
  {
    assert pid in [pid];
    assert Filed(held) == {held[pid]};
  }

  /** The Windows branch. */
  method StopWindows(os: Os, pid: int) returns (r: Result<()>, ghost s: Stopping)
    requires os.Valid() && pid in os.group
    modifies os
    ensures os.Elapsed()
    ensures HandlesAfter(old(os.OpenHandles()), os.OpenHandles(), s) && HandlesOf(os, s.held)
    ensures s.killRaised ==> r.Raised?
    ensures r.Ok? ==> pid in s.tree && pid !in os.live && TreeExited(os, s, old(os.nextPid))
  {
    s := UNATTENDED;
    os.Elapse();
    if * {
      return Raised, s;
    }
    var entries: seq<(int, int)> := *;
    var parents: map<int, int> := map[];
    var order: seq<int> := [];
    for n := 0 to |entries|
      invariant forall p :: p in order <==> p in parents
    {
      parents := parents[entries[n].0 := entries[n].1];
      order := order + [entries[n].0];
    }
    var pids;
    ghost var passes;
    pids, passes := ProcessTree.Tree(parents, order, pid);
    assert ProcessTree.ReachesIn(parents, pid, pid, 0);
    var obtained;
    ghost var raced;
    obtained, raced := OpenWaitHandles(os, pids);
    s := Stopping(pids, raced, false, map[]);
    if obtained.Raised? {
      return Raised, s;
    }
    var handles := obtained.value;
    if pid !in handles {
      var exited := os.Poll(pid);
      if !exited {
        var ignored := WaitAndClose(os, handles);
        return Raised, s;
      }
    }
    if * {
      var ignored := WaitAndClose(os, handles);
      return Raised, s;
    }
    if * {
      return Raised, Stopping(pids, raced, true, handles);
    }
    var exited := os.Poll(pid);
    var waited := WaitAndClose(os, handles);
    if !exited || waited.Raised? {
      return Raised, s;
    }
    return Ok(()), s;
  }

  /** The POSIX branch: terminate, kill if need be, and insist that the process group is gone. */
  method StopPosix(os: Os, pid: int) returns (r: Result<()>)
    requires os.Valid() && pid in os.group
    modifies os
    ensures os.Elapsed() && os.HandlesUnchanged()
    ensures r.Ok? ==> pid !in os.live && forall p :: p in os.live ==> os.group[p] != pid
  {
    var exited := os.Poll(pid);
    if !exited {
      exited := os.Poll(pid);
      if !exited {
        return Raised;
      }
    }
    var found := os.GroupExists(pid);
    if found {
      return Raised;
    }
    return Ok(());
  }

  class ServerProcess {
    var process: Option<int>
    const windows: bool

    constructor (windows: bool)
      ensures process == None
    {
      this.process := None;
      this.windows := windows;
    }

    /** `attended` says that the first poll found the server running; the record then tells whose exit was confirmed. */
    method Stop(os: Os) returns (r: Result<()>, ghost attended: bool, ghost s: Stopping)
      requires os.Valid() && (process.Some? ==> process.value in os.group)
      modifies this, os
      ensures os.Elapsed()
      ensures r.Ok? ==> process == None && (old(process).Some? ==> old(process).value !in os.live)
      ensures r.Raised? ==> process == old(process)
      ensures HandlesAfter(old(os.OpenHandles()), os.OpenHandles(), s)
      ensures old(process).Some? ==>
        |os.polls| > |old(os.polls)| && os.polls[|old(os.polls)|] == (old(process).value, !attended)
      ensures attended ==> old(process).Some? && old(process).value in old(os.live)
      ensures !attended ==> r.Ok? && s == UNATTENDED
      ensures s.killRaised ==> r.Raised? && windows && attended
      ensures r.Ok? && attended && windows ==> TreeExited(os, s, old(os.nextPid))
      ensures r.Ok? && attended && windows ==> old(process).value in s.tree
    {
      attended, s := false, UNATTENDED;
      if process.None? {
        return Ok(()), attended, s;
      }
      var pid := process.value;
      var exited := os.Poll(pid);
      if !exited {
        attended := true;
        if windows {
          r, s := StopWindows(os, pid);
        } else {
          r := StopPosix(os, pid);
        }
        if r.Raised? {
          return;
        }
      }
      exited := os.Poll(pid);
      if !exited {
        return Raised, attended, s;
      }
      os.Elapse();
      process := None;
      return Ok(()), attended, s;
    }

    /** A raise after the spawn, as when a reading thread cannot start or the health check raises, leaves the server
        running and the field set; nothing but the polling loop's own two exits stops it. */
    method Start(os: Os) returns (r: Result<()>, ghost s: Stopping)
      requires os.Valid() && (process.Some? ==> process.value in os.group)
      modifies this, os
      ensures os.Valid()
      ensures old(process).Some? ==> r.Raised? && process == old(process) && unchanged(os)
      ensures r.Ok? ==> process.Some?
      ensures process.Some? ==> process.value in os.group
      ensures old(process).None? ==>
        os.live * os.roots <= old(os.live * os.roots) + (if process.Some? then {process.value} else {})
      ensures os.peak <= old(os.peak) || os.peak <= |old(os.live * os.roots)| + 1
      ensures HandlesAfter(old(os.OpenHandles()), os.OpenHandles(), s) && (s.killRaised ==> r.Raised?)
    {
      s := UNATTENDED;
      if process.Some? {
        return Raised, s;
      }
      var spawned := os.Spawn();
      if spawned.Raised? {
        return Raised, s;
      }
      process := Some(spawned.value);
      assert os.live * os.roots <= old(os.live * os.roots) + {spawned.value};
      ProcessTree.CountBound(os.live * os.roots, old(os.live * os.roots) + {spawned.value});
      if * {
        return Raised, s;
      }
      var polls: nat := *;
      while polls > 0
        invariant os.Valid() && process == Some(spawned.value) && spawned.value in os.group
        invariant os.live * os.roots <= old(os.live * os.roots) + {spawned.value}
        invariant os.peak <= old(os.peak) || os.peak <= |old(os.live * os.roots)| + 1
        invariant os.OpenHandles() == old(os.OpenHandles())
      {
        polls := polls - 1;
        var exited := os.Poll(spawned.value);
        if exited {
          var stopped;
          ghost var attended;
          stopped, attended, s := Stop(os);
          return Raised, s;
        }
        if * {
          return Raised, s;
        }
        if * {
          return Ok(()), s;
        }
      }
      var stopped;
      ghost var attended;
      stopped, attended, s := Stop(os);
      assert os.live * os.roots <= old(os.live * os.roots) + {spawned.value};
      return Raised, s;
    }
  }
}
