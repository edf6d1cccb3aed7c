/**
 Job control: launching, fg, bg and the SIGCHLD handler, as they move jobs between statuses and the
 terminal between process groups. A launch is one step, and the wait statuses the handler collects
 arrive in any order.
 */
module JobControl {
  import opened JobTable

  datatype Report = Suspended(job: int) | Resumed(job: int) | Finished(job: int)

  datatype State = State(
    jobs: seq<Job>,
    foreground: int,       // the terminal's foreground process group
    shell: int,            // pssh_pgrp
    live: set<int>,        // children forked and not yet reaped
    reports: seq<Report>)  // what the handler printed

  datatype Event =
    | Launch(cmdline: string, pids: seq<int>, background: bool)
    | FgCommand(job: nat)
    | BgCommand(job: nat)
    | ChildStopped(pid: int)
    | ChildContinued(pid: int)
    | ChildExited(pid: int)

  /** New children have new positive pids; the handler hears only of live children. */
  ghost predicate Possible(s: State, e: Event) {
    match e
    case Launch(_, pids, _) => pids != [] && NoDup(pids) && forall i :: 0 <= i < |pids| ==> pids[i] > 0 && pids[i] !in s.live
    case FgCommand(j) => j < |s.jobs|
    case BgCommand(j) => j < |s.jobs|
    case ChildStopped(pid) => pid in s.live && Number(s.jobs, pid) >= 0
    case ChildContinued(pid) => pid in s.live && Number(s.jobs, pid) >= 0
    case ChildExited(pid) => pid in s.live && Number(s.jobs, pid) >= 0
  }

  ghost function Next(s: State, e: Event): State
    requires Possible(s, e)
  {
    match e
    case Launch(cmdline, pids, background) =>
      s.(foreground := if background then s.foreground else pids[0],
         jobs := Added(s.jobs, cmdline, pids, background),
         live := s.live + set p | p in pids)
    case FgCommand(j) =>
      if s.jobs[j].name == NoName then s
      else s.(jobs := WithStatus(s.jobs, j, FG), foreground := s.jobs[j].pgrp)
    case BgCommand(j) => s     // sends SIGCONT; the job changes when the handler hears of it
    case ChildStopped(pid) => Stop(s, Number(s.jobs, pid))
    case ChildContinued(pid) => Continue(s, Number(s.jobs, pid))
    case ChildExited(pid) => Exit(s, pid)
  }

  function Stop(s: State, j: nat): State
    requires j < |s.jobs|
  {
    if StatusOf(s.jobs, j) != STOPPED
    then s.(jobs := WithStatus(s.jobs, j, STOPPED), foreground := s.shell, reports := s.reports + [Suspended(j)])
    else s
  }

  function Continue(s: State, j: nat): State
    requires j < |s.jobs|
  {
    if StatusOf(s.jobs, j) == STOPPED
    then s.(jobs := WithStatus(s.jobs, j, BG), reports := s.reports + [Resumed(j)])
    else s
  }

  function Exit(s: State, pid: int): State
    requires Number(s.jobs, pid) >= 0
  {
    var j, jobs := Number(s.jobs, pid), Removed(s.jobs, pid);
    var s' := s.(jobs := jobs, live := s.live - {pid});
    if !Done(jobs[j]) then s'
    else if StatusOf(jobs, j) != FG then s'.(jobs := Deleted(jobs, j), reports := s.reports + [Finished(j)])
    else s'.(jobs := Deleted(jobs, j), foreground := s.shell)
  }

  /** t is reached from s by events each of which finds a free slot if it launches a job. */
  ghost predicate Leads(s: State, es: seq<Event>, t: State)
    decreases |es|
  {
    if es == [] then s == t
    else Possible(s, es[0]) && (es[0].Launch? ==> FreeSlot(s.jobs) < |s.jobs|) && Leads(Next(s, es[0]), es[1..], t)
  }

  ghost predicate Init(s: State) {
    s.foreground == s.shell && s.live == {} && s.reports == [] && forall j :: 0 <= j < |s.jobs| ==> s.jobs[j] == EMPTY
  }

  // ----- who owns the terminal -----

  /** Job j is in the foreground and has an unreaped process. */
  predicate ForegroundJob(s: State, j: int) {
    0 <= j < |s.jobs| && s.jobs[j].name != NoName && s.jobs[j].status == FG && Pids(s.jobs[j]) != {}
  }

  /** The terminal belongs to the shell, or to a live job whose status is FG. */
  ghost predicate Owned(s: State) {
    s.foreground == s.shell || exists j :: ForegroundJob(s, j) && s.jobs[j].pgrp == s.foreground
  }

  ghost predicate Inv(s: State) {
    TableInv(s.jobs, s.live) && Owned(s)
  }

  lemma InitInv(s: State)
    requires Init(s)
    ensures Inv(s)
  {
  }

  lemma StatusKeepsTable(js: seq<Job>, live: set<int>, j: nat, status: Status)
    requires TableInv(js, live) && j < |js|
    ensures TableInv(WithStatus(js, j, status), live)
  {
    var t := WithStatus(js, j, status);
    forall k | 0 <= k < |js| ensures t[k].pids == js[k].pids && t[k].name == js[k].name && Pids(t[k]) == Pids(js[k]) {
    }
    forall p | p in live ensures p > 0 && Number(t, p) >= 0 {
      LiveElsewhere(js, t, live, p, Number(js, p));
    }
  }

  lemma LaunchStep(s: State, e: Event)
    requires Inv(s) && Possible(s, e) && e.Launch? && FreeSlot(s.jobs) < |s.jobs|
    ensures Inv(Next(s, e))
  {
    AddKeeps(s.jobs, s.live, e.cmdline, e.pids, e.background);
    var t, f := Next(s, e), FreeSlot(s.jobs);
    if !e.background {
      assert e.pids[0] in Pids(t.jobs[f]);
      assert ForegroundJob(t, f);
    } else if s.foreground != s.shell {
      var j :| ForegroundJob(s, j) && s.jobs[j].pgrp == s.foreground;
      assert ForegroundJob(t, j);
    }
  }

  lemma FgStep(s: State, j: nat)
    requires Inv(s) && j < |s.jobs|
    ensures Inv(Next(s, FgCommand(j)))
  {
    var t := Next(s, FgCommand(j));
    StatusKeepsTable(s.jobs, s.live, j, FG);
    if s.jobs[j].name != NoName {
      assert Pids(t.jobs[j]) == Pids(s.jobs[j]);
      assert ForegroundJob(t, j);
    }
  }

  lemma StopStep(s: State, j: nat)
    requires Inv(s) && j < |s.jobs|
    ensures Inv(Stop(s, j))
  {
    StatusKeepsTable(s.jobs, s.live, j, STOPPED);
  }

  lemma ContinueStep(s: State, j: nat)
    requires Inv(s) && j < |s.jobs|
    ensures Inv(Continue(s, j))
  {
    StatusKeepsTable(s.jobs, s.live, j, BG);
    if s.foreground != s.shell {
      var k :| ForegroundJob(s, k) && s.jobs[k].pgrp == s.foreground;
      assert ForegroundJob(Continue(s, j), k);
    }
  }

  lemma ExitStep(s: State, pid: int)
    requires Inv(s) && pid in s.live
    ensures Inv(Exit(s, pid))
  {
    ReapKeeps(s.jobs, s.live, pid);
    var t, j := Exit(s, pid), Number(s.jobs, pid);
    if t.foreground != t.shell {
      var k :| ForegroundJob(s, k) && s.jobs[k].pgrp == s.foreground;
      if k == j {
        assert pid in Pids(s.jobs[j]);
        ZeroedPids(s.jobs[j], pid);
      }
      assert ForegroundJob(t, k);
    }
  }

  lemma StepInv(s: State, e: Event)
    requires Inv(s) && Possible(s, e) && (e.Launch? ==> FreeSlot(s.jobs) < |s.jobs|)
    ensures Inv(Next(s, e)) && |Next(s, e).jobs| == |s.jobs| && Next(s, e).shell == s.shell
  {
    match e
    case Launch(_, _, _) => LaunchStep(s, e);
    case FgCommand(j) => FgStep(s, j);
    case BgCommand(j) =>
    case ChildStopped(pid) => StopStep(s, Number(s.jobs, pid));
    case ChildContinued(pid) => ContinueStep(s, Number(s.jobs, pid));
    case ChildExited(pid) => ExitStep(s, pid);
  }

  lemma {:induction false} LeadsInv(s: State, es: seq<Event>, t: State)
    requires Inv(s) && Leads(s, es, t)
    ensures Inv(t) && |t.jobs| == |s.jobs| && t.shell == s.shell
    decreases |es|
  {
    if es != [] {
      StepInv(s, es[0]);
      LeadsInv(Next(s, es[0]), es[1..], t);
    }
  }

  /** After every event of every sequence, the terminal belongs to the shell or to a live foreground job. */
  lemma TerminalIsOwned(s: State, es: seq<Event>, t: State)
    requires Init(s) && Leads(s, es, t)
    ensures Owned(t)
  {
    InitInv(s);
    LeadsInv(s, es, t);
  }

  /** After every event, each unreaped child is in exactly one job, and free slots are empty. */
  lemma ProcessesConserved(s: State, es: seq<Event>, t: State)
    requires Init(s) && Leads(s, es, t)
    ensures forall p :: p in t.live ==> 0 <= Number(t.jobs, p) < |t.jobs|
    ensures forall p, j :: p in t.live && 0 <= j < |t.jobs| ==> (p in t.jobs[j].pids <==> j == Number(t.jobs, p))
    ensures forall j :: 0 <= j < |t.jobs| ==> Pids(t.jobs[j]) <= t.live && NoDup(t.jobs[j].pids)
    ensures forall j :: 0 <= j < |t.jobs| ==> (t.jobs[j].name == NoName <==> t.jobs[j].pids == [])
  {
    InitInv(s);
    LeadsInv(s, es, t);
    forall p, j | p in t.live && 0 <= j < |t.jobs| ensures p in t.jobs[j].pids <==> j == Number(t.jobs, p) {
      NumberIsTheJob(t.jobs, t.live, p, j);
    }
    forall j | 0 <= j < |t.jobs| ensures t.jobs[j].name == NoName <==> t.jobs[j].pids == [] {
      if t.jobs[j].pids == [] {
        assert Pids(t.jobs[j]) == {};
      }
    }
  }

  /** A job leaves the table exactly when its last unreaped process exits. */
  lemma DeletedWithLastPid(s: State, pid: int)
    requires Inv(s) && pid in s.live
    ensures var j := Number(s.jobs, pid); 0 <= j < |s.jobs| && |Exit(s, pid).jobs| == |s.jobs|
    ensures var j := Number(s.jobs, pid); Exit(s, pid).jobs[j].name == NoName <==> Pids(s.jobs[j]) == {pid}
  {
    ReapKeeps(s.jobs, s.live, pid);
    assert pid in Pids(s.jobs[Number(s.jobs, pid)]);
  }

  /** With the table full a foreground launch hands the terminal to a group no job records; otherwise a launch is safe. */
  lemma LaunchKeepsOwnershipExactly(s: State, e: Event)
    requires Inv(s) && Possible(s, e) && e.Launch? && e.pids[0] != s.shell
    requires forall j :: 0 <= j < |s.jobs| && s.jobs[j].name != NoName ==> s.jobs[j].pgrp != e.pids[0]
    ensures Owned(Next(s, e)) <==> e.background || FreeSlot(s.jobs) < |s.jobs|
  {
    var t := Next(s, e);
    if FreeSlot(s.jobs) < |s.jobs| {
      LaunchStep(s, e);
    } else if e.background && s.foreground != s.shell {
      var j :| ForegroundJob(s, j) && s.jobs[j].pgrp == s.foreground;
      assert ForegroundJob(t, j);
    }
  }

  lemma {:induction false} LeadsAppend(s: State, es: seq<Event>, t: State, e: Event)
    requires Leads(s, es, t) && Possible(t, e) && (e.Launch? ==> FreeSlot(t.jobs) < |t.jobs|)
    ensures Leads(s, es + [e], Next(t, e))
    decreases |es|
  {
    if es == [] {
      assert (es + [e])[1..] == [];
    } else {
      assert (es + [e])[1..] == es[1..] + [e];
      LeadsAppend(Next(s, es[0]), es[1..], t, e);
    }
  }

  /** The first k slots hold one background process each. */
  ghost predicate Filled(s: State, k: nat) {
    && k <= |s.jobs| && s.foreground == s.shell
    && (forall j :: 0 <= j < |s.jobs| ==> s.jobs[j] == if j < k then Job(Named("job"), [j + 1], j + 1, BG) else EMPTY)
    && forall p :: p in s.live ==> 1 <= p <= k
  }

  function OneProcess(k: nat, background: bool): Event {
    Launch("job", [k + 1], background)
  }

  lemma FillOne(s: State, k: nat)
    requires Filled(s, k)
    ensures Possible(s, OneProcess(k, true)) && FreeSlot(s.jobs) == k
    ensures k < |s.jobs| ==> Filled(Next(s, OneProcess(k, true)), k + 1)
  {
    var f := FreeSlot(s.jobs);
    assert f < |s.jobs| ==> s.jobs[f].name == NoName;
    assert k < |s.jobs| ==> s.jobs[k].name == NoName;
  }

  lemma {:induction false} Fill(s: State, k: nat) returns (es: seq<Event>, t: State)
    requires Init(s) && k <= |s.jobs|
    ensures Leads(s, es, t) && Filled(t, k) && |t.jobs| == |s.jobs| && t.shell == s.shell
  {
    if k == 0 {
      es, t := [], s;
    } else {
      var fs, m := Fill(s, k - 1);
      FillOne(m, k - 1);
      LeadsAppend(s, fs, m, OneProcess(k - 1, true));
      es, t := fs + [OneProcess(k - 1, true)], Next(m, OneProcess(k - 1, true));
    }
  }

  /** Whatever the size of the table, a run can fill it, and then a foreground launch leaves the terminal with a group no job records. */
  lemma FullTableLosesTheTerminal(s: State) returns (es: seq<Event>, t: State, e: Event)
    requires Init(s) && s.shell > |s.jobs| + 1
    ensures Leads(s, es, t) && Possible(t, e) && e.Launch? && !e.background && !Owned(Next(t, e))
  {
    var n := |s.jobs|;
    es, t := Fill(s, n);
    e := OneProcess(n, false);
    FillOne(t, n);
    InitInv(s);
    LeadsInv(s, es, t);
    LaunchKeepsOwnershipExactly(t, e);
  }

  // ----- what each event does to the job it is about, and to the terminal -----

  ghost predicate Lists(s: State, j: nat, pid: int) {
    j < |s.jobs| && pid in s.jobs[j].pids
  }

  /** fg: the job gets the terminal and runs in the foreground, and nothing else changes. */
  lemma FgTakesTheTerminal(s: State, j: nat)
    requires j < |s.jobs| && s.jobs[j].name != NoName
    ensures var t := Next(s, FgCommand(j));
      && t.foreground == s.jobs[j].pgrp
      && t.jobs == s.jobs[j := s.jobs[j].(status := FG)]
      && t.live == s.live && t.reports == s.reports
  {
  }

  /** The first of a job's processes to stop gives the terminal back to the shell and is reported; the others are not heard of. */
  lemma StopHeard(s: State, pid: int, j: nat)
    requires Inv(s) && pid in s.live && Lists(s, j, pid)
    ensures Possible(s, ChildStopped(pid))
    ensures var t, first := Next(s, ChildStopped(pid)), s.jobs[j].status != STOPPED;
      && t.jobs == s.jobs[j := s.jobs[j].(status := STOPPED)] && t.live == s.live
      && t.foreground == (if first then s.shell else s.foreground)
      && t.reports == s.reports + (if first then [Suspended(j)] else [])
  {
    NumberIsTheJob(s.jobs, s.live, pid, j);
    assert s.jobs[j].name != NoName;
  }

  /** A stopped job that goes on is in the background from then on; one that was not stopped stays what it was. */
  lemma ContinueHeard(s: State, pid: int, j: nat)
    requires Inv(s) && pid in s.live && Lists(s, j, pid)
    ensures Possible(s, ChildContinued(pid))
    ensures var t, stopped := Next(s, ChildContinued(pid)), s.jobs[j].status == STOPPED;
      && t.jobs == (if stopped then s.jobs[j := s.jobs[j].(status := BG)] else s.jobs) && t.live == s.live
      && t.foreground == s.foreground
      && t.reports == s.reports + (if stopped then [Resumed(j)] else [])
  {
    NumberIsTheJob(s.jobs, s.live, pid, j);
    assert s.jobs[j].name != NoName;
  }

  /** A process that ends leaves its job; the last one of a foreground job gives the terminal back, the last one of any other is reported. */
  lemma ExitHeard(s: State, pid: int, j: nat)
    requires Inv(s) && pid in s.live && Lists(s, j, pid)
    ensures Possible(s, ChildExited(pid))
    ensures var t, last, fg := Next(s, ChildExited(pid)), Pids(s.jobs[j]) == {pid}, s.jobs[j].status == FG;
      && |t.jobs| == |s.jobs| && (forall k :: 0 <= k < |s.jobs| && k != j ==> t.jobs[k] == s.jobs[k])
      && Pids(t.jobs[j]) == Pids(s.jobs[j]) - {pid} && (t.jobs[j].name == NoName <==> last)
      && (!last ==> t.jobs[j] == s.jobs[j].(pids := t.jobs[j].pids)) && t.live == s.live - {pid}
      && t.foreground == (if last && fg then s.shell else s.foreground)
      && t.reports == s.reports + (if last && !fg then [Finished(j)] else [])
  {
    NumberIsTheJob(s.jobs, s.live, pid, j);
    ReapKeeps(s.jobs, s.live, pid);
    ZeroedPids(s.jobs[j], pid);
  }

  /** A pipeline is recorded under the group of its first process, and takes the terminal unless it is in the background. */
  lemma LaunchRecorded(s: State, e: Event)
    requires Inv(s) && Possible(s, e) && e.Launch? && FreeSlot(s.jobs) < |s.jobs|
    ensures var t, f := Next(s, e), FreeSlot(s.jobs);
      && s.jobs[f].name == NoName
      && t.jobs == s.jobs[f := Job(Named(e.cmdline), e.pids, e.pids[0], if e.background then BG else FG)]
      && (forall p :: p in t.live <==> p in s.live || p in e.pids)
      && t.foreground == (if e.background then s.foreground else e.pids[0]) && t.reports == s.reports
  {
  }

  /** Some process of a job that was not stopped stops. */
  ghost predicate FirstStop(s: State, e: Event) {
    e.ChildStopped? && exists j: nat :: Lists(s, j, e.pid) && s.jobs[j].status != STOPPED
  }

  /** The last process of a foreground job ends. */
  ghost predicate ForegroundEnds(s: State, e: Event) {
    e.ChildExited? && exists j: nat :: Lists(s, j, e.pid) && s.jobs[j].status == FG && Pids(s.jobs[j]) == {e.pid}
  }

  /** The terminal changes hands at four kinds of events and no others. */
  lemma TerminalMovesOnlyThen(s: State, e: Event)
    requires Inv(s) && Possible(s, e) && Next(s, e).foreground != s.foreground
    ensures || (e.Launch? && !e.background)
            || (e.FgCommand? && s.jobs[e.job].name != NoName)
            || FirstStop(s, e)
            || ForegroundEnds(s, e)
  {
    match e
    case ChildStopped(pid) => StopHeard(s, pid, Number(s.jobs, pid));
    case ChildExited(pid) => ExitHeard(s, pid, Number(s.jobs, pid));
    case _ =>
  }

  /** The job that e launched, some of its processes reaped. */
  predicate Started(job: Job, e: Event) {
    && e.Launch? && e.pids != []
    && job.name == Named(e.cmdline) && job.pgrp == e.pids[0]
    && |job.pids| == |e.pids| && forall i :: 0 <= i < |e.pids| ==> job.pids[i] == e.pids[i] || job.pids[i] == 0
  }

  ghost predicate AllStarted(s: State, es: seq<Event>) {
    forall j :: 0 <= j < |s.jobs| && s.jobs[j].name != NoName ==> exists k :: 0 <= k < |es| && Started(s.jobs[j], es[k])
  }

  /** A job that is in the table after an event was launched by it, or was there before and keeps its line, group and processes. */
  lemma SlotKept(s: State, e: Event, j: nat)
    requires Inv(s) && Possible(s, e) && (e.Launch? ==> FreeSlot(s.jobs) < |s.jobs|)
    requires j < |Next(s, e).jobs| && Next(s, e).jobs[j].name != NoName
    ensures Started(Next(s, e).jobs[j], e)
            || (j < |s.jobs| && s.jobs[j].name != NoName && forall l :: Started(s.jobs[j], l) ==> Started(Next(s, e).jobs[j], l))
  {
  }

  lemma StartedStep(s: State, es: seq<Event>, e: Event)
    requires Inv(s) && AllStarted(s, es) && Possible(s, e) && (e.Launch? ==> FreeSlot(s.jobs) < |s.jobs|)
    ensures AllStarted(Next(s, e), es + [e])
  {
    hide Next, Started, Inv;
    var t := Next(s, e);
    forall j | 0 <= j < |t.jobs| && t.jobs[j].name != NoName
      ensures exists k :: 0 <= k < |es + [e]| && Started(t.jobs[j], (es + [e])[k])
    {
      SlotKept(s, e, j);
      if Started(t.jobs[j], e) {
        assert Started(t.jobs[j], (es + [e])[|es|]);
      } else {
        var k :| 0 <= k < |es| && Started(s.jobs[j], es[k]);
        assert Started(t.jobs[j], (es + [e])[k]);
      }
    }
  }

  lemma {:induction false} LeadsStarted(h: seq<Event>, s: State, es: seq<Event>, t: State)
    requires Inv(s) && AllStarted(s, h) && Leads(s, es, t)
    ensures AllStarted(t, h + es)
    decreases |es|
  {
    hide AllStarted, Next, Inv;
    if es == [] {
      assert h + es == h;
    } else {
      StepInv(s, es[0]);
      StartedStep(s, h, es[0]);
      assert h + es == (h + [es[0]]) + es[1..];
      LeadsStarted(h + [es[0]], Next(s, es[0]), es[1..], t);
    }
  }

  /** In every reachable state each job in the table is one that was launched, under its own line, group and processes. */
  lemma JobsComeFromLaunches(s: State, es: seq<Event>, t: State, j: nat)
    requires Init(s) && Leads(s, es, t) && j < |t.jobs| && t.jobs[j].name != NoName
    ensures exists k :: 0 <= k < |es| && Started(t.jobs[j], es[k])
  {
    InitInv(s);
    LeadsStarted([], s, es, t);
    assert [] + es == es;
  }

  // ----- one report for a burst of stops -----

  ghost function SuspendedCount(reports: seq<Report>, j: int): nat {
    if reports == [] then 0
    else SuspendedCount(reports[..|reports| - 1], j) + if reports[|reports| - 1] == Suspended(j) then 1 else 0
  }

  lemma SuspendedAppend(reports: seq<Report>, r: Report, j: int)
    ensures SuspendedCount(reports + [r], j) == SuspendedCount(reports, j) + if r == Suspended(j) then 1 else 0
  {
    assert (reports + [r])[..|reports|] == reports;
  }

  /** Job j stays in the table throughout, and nothing continues it or brings it to the foreground. */
  ghost predicate Undisturbed(s: State, es: seq<Event>, j: nat)
    decreases |es|
  {
    && j < |s.jobs| && s.jobs[j].name != NoName
    && (es != [] ==>
          && Possible(s, es[0])
          && es[0] != FgCommand(j)
          && (es[0].ChildContinued? ==> Number(s.jobs, es[0].pid) != j)
          && Undisturbed(Next(s, es[0]), es[1..], j))
  }

  /** Some process of job j stops along the way. */
  ghost predicate StopsAlong(s: State, es: seq<Event>, j: nat)
    requires Undisturbed(s, es, j)
    decreases |es|
  {
    es != [] && ((es[0].ChildStopped? && Number(s.jobs, es[0].pid) == j) || StopsAlong(Next(s, es[0]), es[1..], j))
  }

  ghost function Run(s: State, es: seq<Event>, j: nat): State
    requires Undisturbed(s, es, j)
    decreases |es|
  {
    if es == [] then s else Run(Next(s, es[0]), es[1..], j)
  }

  lemma UndisturbedStop(s: State, k: nat, j: nat)
    requires k < |s.jobs| && j < |s.jobs| && s.jobs[j].name != NoName
    ensures var t := Stop(s, k);
      && |t.jobs| == |s.jobs| && t.jobs[j].status == (if k == j then STOPPED else s.jobs[j].status)
      && SuspendedCount(t.reports, j) == SuspendedCount(s.reports, j) + (if k == j && s.jobs[j].status != STOPPED then 1 else 0)
  {
    hide SuspendedCount;
    SuspendedAppend(s.reports, Suspended(k), j);
  }

  lemma UndisturbedContinue(s: State, k: nat, j: nat)
    requires k < |s.jobs| && j < |s.jobs| && k != j
    ensures var t := Continue(s, k);
      |t.jobs| == |s.jobs| && t.jobs[j].status == s.jobs[j].status && SuspendedCount(t.reports, j) == SuspendedCount(s.reports, j)
  {
    hide SuspendedCount;
    SuspendedAppend(s.reports, Resumed(k), j);
  }

  lemma UndisturbedExit(s: State, pid: int, j: nat)
    requires Number(s.jobs, pid) >= 0 && j < |s.jobs|
    ensures var t := Exit(s, pid);
      |t.jobs| == |s.jobs| && t.jobs[j].status == s.jobs[j].status && SuspendedCount(t.reports, j) == SuspendedCount(s.reports, j)
  {
    hide SuspendedCount;
    SuspendedAppend(s.reports, Finished(Number(s.jobs, pid)), j);
  }

  lemma UndisturbedStep(s: State, e: Event, j: nat)
    requires Possible(s, e) && j < |s.jobs| && s.jobs[j].name != NoName
    requires e != FgCommand(j) && (e.ChildContinued? ==> Number(s.jobs, e.pid) != j)
    requires j < |Next(s, e).jobs| && Next(s, e).jobs[j].name != NoName
    ensures var stops := e.ChildStopped? && Number(s.jobs, e.pid) == j;
      && Next(s, e).jobs[j].status == (if stops then STOPPED else s.jobs[j].status)
      && SuspendedCount(Next(s, e).reports, j) == SuspendedCount(s.reports, j) + (if stops && s.jobs[j].status != STOPPED then 1 else 0)
  {
    hide SuspendedCount, Stop, Continue, Exit;
    match e
    case ChildStopped(pid) => UndisturbedStop(s, Number(s.jobs, pid), j);
    case ChildContinued(pid) => UndisturbedContinue(s, Number(s.jobs, pid), j);
    case ChildExited(pid) => UndisturbedExit(s, pid, j);
    case _ =>
  }

  /** However many of its processes stop, an undisturbed job is reported suspended once, and not at all if it was stopped before. */
  lemma {:induction false} OneReportPerBurst(s: State, es: seq<Event>, j: nat)
    requires Undisturbed(s, es, j)
    ensures SuspendedCount(Run(s, es, j).reports, j) - SuspendedCount(s.reports, j)
            == if s.jobs[j].status != STOPPED && StopsAlong(s, es, j) then 1 else 0
    decreases |es|
  {
    if es != [] {
      UndisturbedStep(s, es[0], j);
      OneReportPerBurst(Next(s, es[0]), es[1..], j);
    }
  }

  // ----- the shell, updated in place -----

  /** What fg and bg do: send SIGCONT to the group of a job, or refuse. */
  datatype Reply = OutsideTable | NoSuchJob | SendCont(pgrp: int)

  function ReplyTo(js: seq<Job>, j: nat): Reply
    requires j < |js|
  {
    if js[j].name == NoName then NoSuchJob else SendCont(js[j].pgrp)
  }

  class Shell {
    const table: Table
    const psshPgrp: int
    var foreground: int
    ghost var live: set<int>
    var reports: seq<Report>

    ghost function Snapshot(): State
      reads this, table.J
    {
      State(table.J[..], foreground, psshPgrp, live, reports)
    }

    constructor (maxJobs: nat, pgrp: int)
      ensures Init(Snapshot()) && table.J.Length == maxJobs && Snapshot().shell == pgrp && fresh(table.J)
    {
      table := new Table(maxJobs);
      psshPgrp, foreground, live, reports := pgrp, pgrp, {}, [];
    }

    /** The end of execute_tasks: give the terminal away unless in the background, and record the job. */
    method LaunchJob(cmdline: string, pids: seq<int>, background: bool)
      requires Possible(Snapshot(), Launch(cmdline, pids, background))
      modifies this, table.J
      ensures Snapshot() == Next(old(Snapshot()), Launch(cmdline, pids, background))
    {
      if !background {
        foreground := pids[0];
      }
      var ok := table.Add(pids, cmdline, background);
      live := live + set p | p in pids;
    }

    /** fg, for any number; a number the table does not have is read for all the same and not followed further. */
    method BuiltinFg(jnum: int) returns (r: Reply)
      modifies this, table.J
      ensures r == OutsideTable <==> !(0 <= jnum < table.J.Length)
      ensures r != OutsideTable ==>
                && Snapshot() == Next(old(Snapshot()), FgCommand(jnum))
                && r == ReplyTo(old(table.J[..]), jnum)
      ensures r.SendCont? <==> 0 <= jnum < table.J.Length && old(table.J[..])[jnum].name != NoName
      ensures r.SendCont? ==>
                && foreground == r.pgrp == table.J[jnum].pgrp && table.J[jnum].status == FG
                && table.J[jnum] == old(table.J[jnum]).(status := FG) && old(table.J[jnum]).name != NoName
    {
      if !(0 <= jnum < table.J.Length) {
        return OutsideTable;
      }
      if table.J[jnum].name == NoName {
        return NoSuchJob;
      }
      table.SetStatus(jnum, FG);
      foreground := table.J[jnum].pgrp;
      return SendCont(table.J[jnum].pgrp);
    }

    /** bg: the status changes when the handler hears that the job goes on. */
    method BuiltinBg(jnum: int) returns (r: Reply)
      ensures r == OutsideTable <==> !(0 <= jnum < table.J.Length)
      ensures r != OutsideTable ==> Snapshot() == Next(old(Snapshot()), BgCommand(jnum)) && r == ReplyTo(table.J[..], jnum)
      ensures r.SendCont? <==> 0 <= jnum < table.J.Length && table.J[jnum].name != NoName
      ensures r.SendCont? ==> r.pgrp == table.J[jnum].pgrp
    {
      if !(0 <= jnum < table.J.Length) {
        return OutsideTable;
      }
      return if table.J[jnum].name == NoName then NoSuchJob else SendCont(table.J[jnum].pgrp);
    }

    method HearStopped(jnum: nat)
      requires jnum < table.J.Length
      modifies this, table.J
      ensures Snapshot() == Stop(old(Snapshot()), jnum)
    {
      var status := table.GetStatus(jnum);
      if status != STOPPED {
        table.SetStatus(jnum, STOPPED);
        foreground, reports := psshPgrp, reports + [Suspended(jnum)];
      }
    }

    method HearContinued(jnum: nat)
      requires jnum < table.J.Length
      modifies this, table.J
      ensures Snapshot() == Continue(old(Snapshot()), jnum)
    {
      var status := table.GetStatus(jnum);
      if status == STOPPED {
        reports := reports + [Resumed(jnum)];
        table.SetStatus(jnum, BG);
      }
    }

    method HearExited(chld: int, jnum: nat)
      requires Number(table.J[..], chld) == jnum
      modifies this, table.J
      ensures Snapshot() == Exit(old(Snapshot()), chld)
    {
      table.RemovePid(chld);
      live := live - {chld};
      var done := table.IsDone(jnum);
      if done {
        var status := table.GetStatus(jnum);
        if status != FG {
          reports := reports + [Finished(jnum)];
        } else {
          foreground := psshPgrp;
        }
        table.Delete(jnum);
      }
    }

    /** One turn of the handler's waitpid loop. */
    method Handle(e: Event)
      requires (e.ChildStopped? || e.ChildContinued? || e.ChildExited?) && Possible(Snapshot(), e)
      modifies this, table.J
      ensures Snapshot() == Next(old(Snapshot()), e)
    {
      var jnum := table.GetNumber(e.pid);
      match e {
        case ChildStopped(_) => HearStopped(jnum);
        case ChildContinued(_) => HearContinued(jnum);
        case ChildExited(_) => HearExited(e.pid, jnum);
      }
    }

    /** One command or one wait status. */
    method Perform(e: Event)
      requires Possible(Snapshot(), e)
      modifies this, table.J
      ensures Snapshot() == Next(old(Snapshot()), e)
    {
      match e {
        case Launch(cmdline, pids, background) => LaunchJob(cmdline, pids, background);
        case FgCommand(j) => var r := BuiltinFg(j);
        case BgCommand(j) => var r := BuiltinBg(j);
        case _ => Handle(e);
      }
    }

    /** The shell through any sequence of events each of which is possible when it comes and finds a free slot if it needs one. */
    method Run(es: seq<Event>, ghost t: State)
      requires Init(Snapshot()) && Leads(Snapshot(), es, t)
      modifies this, table.J
      ensures Snapshot() == t && Inv(t)
    {
      InitInv(Snapshot());
      LeadsInv(Snapshot(), es, t);
      for k := 0 to |es|
        invariant Leads(Snapshot(), es[k..], t)
      {
        Perform(es[k]);
        assert es[k..][1..] == es[k + 1..];
      }
    }
  }
}
