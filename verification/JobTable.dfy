/** The shell's job table: a fixed array of slots, each with the pids of one pipeline. */
module JobTable {

  datatype Status = STOPPED | TERM | BG | FG

  datatype Name = NoName | Named(cmdline: string)

  /** A slot is free when it has no name; a reaped pid is overwritten with 0. */
  datatype Job = Job(name: Name, pids: seq<int>, pgrp: int, status: Status)

  const EMPTY := Job(NoName, [], 0, STOPPED)

  // ----- what the operations do to the slots -----

  function FreeFrom(js: seq<Job>, j: nat): (f: nat)
    requires j <= |js|
    ensures j <= f <= |js|
    ensures forall k :: j <= k < f ==> js[k].name != NoName
    ensures f < |js| ==> js[f].name == NoName
    decreases |js| - j
  {
    if j == |js| || js[j].name == NoName then j else FreeFrom(js, j + 1)
  }

  /** The lowest free slot, or the number of slots when there is none. */
  function FreeSlot(js: seq<Job>): nat {
    FreeFrom(js, 0)
  }

  function Added(js: seq<Job>, cmdline: string, pids: seq<int>, background: bool): seq<Job>
    requires pids != []
  {
    var f := FreeSlot(js);
    if f == |js| then js
    else js[f := Job(Named(cmdline), pids, pids[0], if background then BG else FG)]
  }

  function NumberFrom(js: seq<Job>, pid: int, j: nat): (r: int)
    requires j <= |js|
    ensures r == -1 || (j <= r < |js| && pid in js[r].pids)
    ensures forall k :: j <= k < (if r == -1 then |js| else r) ==> pid !in js[k].pids
    decreases |js| - j
  {
    if j == |js| then -1 else if pid in js[j].pids then j else NumberFrom(js, pid, j + 1)
  }

  /** The job a pid belongs to, or -1. */
  function Number(js: seq<Job>, pid: int): int {
    NumberFrom(js, pid, 0)
  }

  function Zeroed(pids: seq<int>, pid: int): (r: seq<int>)
    ensures |r| == |pids| && forall i :: 0 <= i < |r| ==> r[i] == if pids[i] == pid then 0 else pids[i]
  {
    if pids == [] then [] else [if pids[0] == pid then 0 else pids[0]] + Zeroed(pids[1..], pid)
  }

  function Removed(js: seq<Job>, pid: int): seq<Job> {
    var j := Number(js, pid);
    if j < 0 then js else js[j := js[j].(pids := Zeroed(js[j].pids, pid))]
  }

  predicate Done(job: Job) {
    forall i :: 0 <= i < |job.pids| ==> job.pids[i] == 0
  }

  function Deleted(js: seq<Job>, j: nat): seq<Job>
    requires j < |js|
  {
    js[j := js[j].(name := NoName, pids := [])]
  }

  function WithStatus(js: seq<Job>, j: nat, status: Status): seq<Job>
    requires j < |js|
  {
    if js[j].name == NoName then js else js[j := js[j].(status := status)]
  }

  function StatusOf(js: seq<Job>, j: nat): Status
    requires j < |js|
  {
    if js[j].name == NoName then TERM else js[j].status
  }

  /** job_status() reads back what the other operations leave: nobody else's status, and TERM once the job is gone. */
  lemma StatusReadBack(js: seq<Job>, j: nat, k: nat, status: Status, pid: int)
    requires j < |js| && k < |js|
    ensures StatusOf(WithStatus(js, j, status), k) == if k == j && js[j].name != NoName then status else StatusOf(js, k)
    ensures StatusOf(Deleted(js, j), k) == if k == j then TERM else StatusOf(js, k)
    ensures |Removed(js, pid)| == |js| && StatusOf(Removed(js, pid), k) == StatusOf(js, k)
  {
  }

  lemma StatusAfterAdd(js: seq<Job>, k: nat, cmdline: string, pids: seq<int>, background: bool)
    requires k < |js| && pids != []
    ensures var t := Added(js, cmdline, pids, background);
      |t| == |js| && StatusOf(t, k) == if k == FreeSlot(js) then (if background then BG else FG) else StatusOf(js, k)
  {
  }

  // ----- the table, updated in place -----

  class Table {
    const J: array<Job>

    constructor (size: nat)
      ensures J.Length == size && fresh(J) && forall j :: 0 <= j < size ==> J[j] == EMPTY
    {
      J := new Job[size](_ => EMPTY);
    }

    method Add(pids: seq<int>, cmdline: string, background: bool) returns (ok: bool)
      requires pids != []
      modifies J
      ensures J[..] == Added(old(J[..]), cmdline, pids, background)
      ensures ok <==> FreeSlot(old(J[..])) < J.Length
    {
      var i := 0;
      while i < J.Length && J[i].name != NoName
        invariant i <= J.Length && FreeFrom(J[..], 0) == FreeFrom(J[..], i)
      {
        i := i + 1;
      }
      if i == J.Length {
        return false;
      }
      J[i] := Job(Named(cmdline), pids, pids[0], if background then BG else FG);
      return true;
    }

    method GetNumber(pid: int) returns (jnum: int)
      ensures jnum == Number(J[..], pid)
    {
      for j := 0 to J.Length
        invariant Number(J[..], pid) == NumberFrom(J[..], pid, j)
      {
        for i := 0 to |J[j].pids|
          invariant pid !in J[j].pids[..i]
        {
          if J[j].pids[i] == pid {
            return j;
          }
        }
      }
      return -1;
    }

    method RemovePid(pid: int)
      modifies J
      ensures J[..] == Removed(old(J[..]), pid)
    {
      var jnum := GetNumber(pid);
      if jnum < 0 {
        return;
      }
      ghost var pids := J[jnum].pids;
      for i := 0 to |J[jnum].pids|
        invariant |J[jnum].pids| == |pids| && J[jnum] == old(J[jnum]).(pids := J[jnum].pids)
        invariant forall k :: 0 <= k < |pids| ==> J[jnum].pids[k] == if k < i && pids[k] == pid then 0 else pids[k]
        invariant forall j :: 0 <= j < J.Length && j != jnum ==> J[j] == old(J[j])
      {
        if J[jnum].pids[i] == pid {
          J[jnum] := J[jnum].(pids := J[jnum].pids[i := 0]);
        }
      }
      assert J[jnum].pids == Zeroed(pids, pid);
    }

    method IsDone(jnum: nat) returns (b: bool)
      requires jnum < J.Length
      ensures b == Done(J[jnum])
    {
      for i := 0 to |J[jnum].pids|
        invariant forall k :: 0 <= k < i ==> J[jnum].pids[k] == 0
      {
        if J[jnum].pids[i] != 0 {
          return false;
        }
      }
      return true;
    }

    method Delete(jnum: nat)
      requires jnum < J.Length
      modifies J
      ensures J[..] == Deleted(old(J[..]), jnum)
    {
      J[jnum] := J[jnum].(name := NoName, pids := []);
    }

    method SetStatus(jnum: nat, status: Status)
      requires jnum < J.Length
      modifies J
      ensures J[..] == WithStatus(old(J[..]), jnum, status)
    {
      if J[jnum].name != NoName {
        J[jnum] := J[jnum].(status := status);
      }
    }

    method GetStatus(jnum: nat) returns (status: Status)
      requires jnum < J.Length
      ensures status == StatusOf(J[..], jnum)
    {
      status := if J[jnum].name == NoName then TERM else J[jnum].status;
    }
  }

  // ----- what the table conserves -----

  function Pids(job: Job): set<int> {
    set p | p in job.pids && p != 0
  }

  /** No process is listed twice in a job. */
  ghost predicate NoDup(pids: seq<int>) {
    forall a, b :: 0 <= a < b < |pids| && pids[a] == pids[b] ==> pids[a] == 0
  }

  /**
   The table lists exactly the unreaped children, each in one place; a free slot lists nobody and a
   used slot lists somebody.
   */
  ghost predicate TableInv(js: seq<Job>, live: set<int>) {
    && (forall j :: 0 <= j < |js| ==> NoDup(js[j].pids))
    && (forall j :: 0 <= j < |js| ==> (js[j].name == NoName ==> js[j].pids == []) && (js[j].name != NoName ==> Pids(js[j]) != {}))
    && (forall j, k :: 0 <= j < k < |js| ==> Pids(js[j]) !! Pids(js[k]))
    && (forall p :: p in live ==> p > 0 && Number(js, p) >= 0)
    && (forall j, p :: 0 <= j < |js| && p in Pids(js[j]) ==> p in live)
  }

  /** A live pid's job number is the only job that lists it. */
  lemma NumberIsTheJob(js: seq<Job>, live: set<int>, pid: int, j: nat)
    requires TableInv(js, live) && j < |js| && pid in live
    ensures pid in js[j].pids <==> j == Number(js, pid)
  {
    var k := Number(js, pid);
    assert pid in Pids(js[k]);
    if pid in js[j].pids {
      assert pid in Pids(js[j]);
    }
  }

  lemma ZeroedPids(job: Job, pid: int)
    requires pid != 0 && NoDup(job.pids)
    ensures Pids(job.(pids := Zeroed(job.pids, pid))) == Pids(job) - {pid}
    ensures NoDup(Zeroed(job.pids, pid))
    ensures Done(job.(pids := Zeroed(job.pids, pid))) <==> Pids(job) <= {pid}
  {
    var z := Zeroed(job.pids, pid);
    var job' := job.(pids := z);
    forall p ensures p in Pids(job') <==> p in Pids(job) && p != pid {
      if p in Pids(job) && p != pid {
        var i :| 0 <= i < |job.pids| && job.pids[i] == p;
        assert z[i] == p;
      }
    }
    if Done(job') {
      forall p | p in Pids(job) ensures p == pid {
        var i :| 0 <= i < |job.pids| && job.pids[i] == p;
        assert z[i] == 0;
      }
    } else {
      var i :| 0 <= i < |z| && z[i] != 0;
      assert job.pids[i] in Pids(job);
    }
  }

  /** The live set of a valid table is what its slots list. */
  lemma LiveElsewhere(js: seq<Job>, js': seq<Job>, live: set<int>, p: int, j: nat)
    requires TableInv(js, live) && p in live && |js'| == |js| && j == Number(js, p) && js'[j].pids == js[j].pids
    ensures Number(js', p) >= 0
  {
    assert p in js'[j].pids;
  }

  /** Launching fresh processes fills the lowest free slot with exactly them. */
  lemma AddKeeps(js: seq<Job>, live: set<int>, cmdline: string, pids: seq<int>, background: bool)
    requires TableInv(js, live) && FreeSlot(js) < |js|
    requires pids != [] && NoDup(pids) && forall i :: 0 <= i < |pids| ==> pids[i] > 0 && pids[i] !in live
    ensures TableInv(Added(js, cmdline, pids, background), live + set p | p in pids)
    ensures forall k :: 0 <= k < FreeSlot(js) ==> js[k].name != NoName
  {
    var f := FreeSlot(js);
    var t := Added(js, cmdline, pids, background);
    assert pids[0] in Pids(t[f]);
    forall p | p in live + set q | q in pids ensures p > 0 && Number(t, p) >= 0 {
      if p in pids {
        assert p in t[f].pids;
      } else {
        assert js[f].pids == [];
        LiveElsewhere(js, t, live, p, Number(js, p));
      }
    }
  }

  /** Taking pid, and only pid, off its slot leaves a valid table, if the slot is freed when it empties. */
  lemma ShrinkKeeps(js: seq<Job>, live: set<int>, pid: int, j: nat, job: Job)
    requires TableInv(js, live) && j < |js| && pid in Pids(js[j])
    requires Pids(job) == Pids(js[j]) - {pid} && NoDup(job.pids)
    requires (job.name == NoName ==> job.pids == []) && (job.name != NoName ==> Pids(job) != {})
    ensures TableInv(js[j := job], live - {pid})
  {
    var u := js[j := job];
    forall p | p in live - {pid} ensures p > 0 && Number(u, p) >= 0 {
      var k := Number(js, p);
      assert p in js[k].pids && p in Pids(js[k]);
      assert p in Pids(u[k]);
      assert p in u[k].pids;
    }
    forall k, p | 0 <= k < |u| && p in Pids(u[k]) ensures p in live - {pid} {
      assert p in Pids(js[k]);
      if k != j {
        assert Pids(js[k]) * Pids(js[j]) == {};
      }
    }
  }

  /** Reaping one child takes it off the table and nobody else; its job is done exactly when it was the last. */
  lemma ReapKeeps(js: seq<Job>, live: set<int>, pid: int)
    requires TableInv(js, live) && pid in live
    ensures var j, t := Number(js, pid), Removed(js, pid);
      && 0 <= j < |js| && |t| == |js|
      && (Done(t[j]) <==> Pids(js[j]) == {pid})
      && (Done(t[j]) ==> TableInv(Deleted(t, j), live - {pid}))
      && (!Done(t[j]) ==> TableInv(t, live - {pid}))
  {
    var j, t := Number(js, pid), Removed(js, pid);
    assert pid in Pids(js[j]);
    ZeroedPids(js[j], pid);
    if Done(t[j]) {
      ShrinkKeeps(js, live, pid, j, Deleted(t, j)[j]);
      assert Deleted(t, j) == js[j := Deleted(t, j)[j]];
    } else {
      ShrinkKeeps(js, live, pid, j, t[j]);
    }
  }
}
