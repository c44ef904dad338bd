/** The invariant of the process manager, kept by every step of every run. */
module ManagerInvariant {
  import opened Messages
  import opened SessionTable
  import opened ManagerMachine
  import opened ManagerLocks
  import opened ManagerFrame

  /** Between steps: n processes, no placeholder, no dangling process, loads within their share. */
  ghost predicate TablesOk(n: nat, s: State) {
    && |s.live| == n && Linked(s.sessions, s.live)
    && |s.sessions| <= s.peak && WithinShare(s.sessions, s.live, s.peak)
  }

  predicate TaskOk(s: State, u: Rack)
    requires u in s.tasks
  {
    var task := s.tasks[u];
    && task.msg.rack == u && WellFormed(task.call, task.msg) && !task.pc.Running?
    && (task.pc.WaitEvent? ==> task.msg.session.None?) && (task.pc.WaitSearch? ==> task.msg.session.Some?)
  }

  ghost predicate TasksOk(s: State) {
    forall u :: u in s.tasks ==> TaskOk(s, u)
  }

  /** While a request without session waits for the event un-notified, the event is clear and every
      process is locked, so there is nothing it could have missed. */
  ghost predicate EventOk(s: State) {
    forall u :: u in s.tasks && s.tasks[u].pc == WaitEvent(false) ==> !s.freeEvent && AllLocked(s)
  }

  ghost predicate Invariant(n: nat, s: State) {
    LocksOk(s) && FreshOk(s) && TablesOk(n, s) && TasksOk(s) && EventOk(s)
  }

  // ---- tables -----------------------------------------------------------------------------

  lemma SmallerTable(table: Table, after: Table, live: set<Pid>, peak: nat)
    requires Linked(table, live) && |table| <= peak && WithinShare(table, live, peak)
    requires forall sid :: sid in after ==> sid in table && after[sid] == table[sid]
    ensures Linked(after, live) && |after| <= peak && WithinShare(after, live, peak)
  {
    assert after.Keys <= table.Keys;
    SubsetSize(after.Keys, table.Keys);
    forall p | p in live ensures Load(after, p) <= Load(table, p) {
      LoadAfterRemoval(table, after, p);
    }
  }

  lemma QuietTables(n: nat, s: State, t: Rack, s': State)
    requires TablesOk(n, s) && Quiet(s, t, s')
    ensures TablesOk(n, s')
  {
    SmallerTable(s.sessions, s'.sessions, s.live, s.peak);
  }

  lemma BindTables(n: nat, s: State, s': State, sid: SessionId, p: Pid)
    requires TablesOk(n, s) && n > 0 && Binds(s, s', sid, p)
    ensures TablesOk(n, s')
  {
    ShareMonotone(s.peak, s'.peak, n);
    BindWithinShare(s.sessions, s.live, sid, s.nextLock, p, s'.peak);
  }

  lemma FreshLoad(table: Table, live: set<Pid>, p: Pid)
    requires Linked(table, live) && p !in live
    ensures Load(table, p) == 0
  {
    assert Bound(table, p) == {};
  }

  lemma RestartTables(n: nat, s: State, p: Pid)
    requires TablesOk(n, s) && FreshOk(s) && p in s.live
    ensures TablesOk(n, Restart(s, p))
  {
    var s' := Restart(s, p);
    var live := s.live - {p};
    assert |s'.live| == |live| + 1 == |s.live|;
    SmallerTable(s.sessions, s'.sessions, s.live, s.peak);
    assert Linked(s'.sessions, live);
    FreshLoad(s'.sessions, live, s.nextPid);
  }

  lemma ClosedTables(n: nat, s: State, t: Rack)
    requires TablesOk(n, s) && t in s.tasks
    ensures TablesOk(n, Closed(s, t))
  {
    SmallerTable(s.sessions, Closed(s, t).sessions, s.live, s.peak);
  }

  lemma FinishTables(n: nat, s: State, t: Rack, p: Pid, outcome: Outcome, restart: bool)
    requires TablesOk(n, s) && FreshOk(s) && t in s.tasks && p in s.live && p < s.nextPid
    ensures TablesOk(n, Finish(s, t, p, outcome, restart))
  {
    hide FreshOk;
    var s1 := Freed(s, t, p, outcome);
    FreedFresh(s, t, p, outcome);
    if restart {
      RestartTables(n, s1, p);
      ClosedTables(n, Restart(s1, p), t);
    } else {
      ClosedTables(n, s1, t);
    }
  }

  // ---- tasks and the event ----------------------------------------------------------------

  lemma QuietTasks(s: State, t: Rack, s': State)
    requires TasksOk(s) && Quiet(s, t, s') && Rested(s', t)
    requires s'.tasks[t].pc.WaitEvent? ==> s'.tasks[t].msg.session.None?
    requires s'.tasks[t].pc.WaitSearch? ==> s'.tasks[t].msg.session.Some?
    ensures TasksOk(s')
  {
  }

  lemma QuietEvent(s: State, t: Rack, s': State)
    requires EventOk(s) && Quiet(s, t, s')
    requires s'.tasks[t].pc == WaitEvent(false) ==> !s'.freeEvent && AllLocked(s')
    ensures EventOk(s')
  {
  }

  /** The end of a request moves its task to the end and wakes the others. */
  lemma FreedTasks(s: State, t: Rack, p: Pid, outcome: Outcome)
    requires t in s.tasks
    ensures var s' := Freed(s, t, p, outcome);
            && s'.channels == s.channels && s'.tasks.Keys == s.tasks.Keys
            && s'.tasks[t] == s.tasks[t].(pc := Done(outcome))
            && s'.sessions == s.sessions && s'.live == s.live && s'.peak == s.peak
            && s'.nextPid == s.nextPid && s'.nextLock == s.nextLock
            && forall u :: u in s.tasks && u != t ==> s'.tasks[u] == Woken(s.tasks[u])
  {
    hide LockOf, Woken;
    assert Woken(s.tasks[t].(pc := Done(outcome))) == s.tasks[t].(pc := Done(outcome)) by {
      WokenDone(s.tasks[t].(pc := Done(outcome)));
    }
  }

  lemma WokenDone(task: Task)
    requires task.pc.Done?
    ensures Woken(task) == task
  {
  }

  lemma FinishedTasks(s: State, t: Rack, p: Pid, outcome: Outcome, restart: bool)
    requires t in s.tasks
    ensures var s' := Finish(s, t, p, outcome, restart);
            && s'.channels == s.channels && s'.tasks.Keys == s.tasks.Keys
            && s'.tasks[t].call == s.tasks[t].call && s'.tasks[t].msg == s.tasks[t].msg
            && s'.tasks[t].pc in {Done(outcome), Done(Failed(EntryGone))}
            && forall u :: u in s.tasks && u != t ==> s'.tasks[u] == Woken(s.tasks[u])
  {
    hide Closed, Notify, Release;
    FreedTasks(s, t, p, outcome);
    var s1 := Freed(s, t, p, outcome);
    ClosedFields(if restart then Restart(s1, p) else s1, t);
  }

  lemma FinishTasks(s: State, t: Rack, p: Pid, outcome: Outcome, restart: bool)
    requires TasksOk(s) && t in s.tasks
    ensures TasksOk(Finish(s, t, p, outcome, restart)) && EventOk(Finish(s, t, p, outcome, restart))
  {
    var s' := Finish(s, t, p, outcome, restart);
    FinishedTasks(s, t, p, outcome, restart);
    hide Finish, WellFormed;
    forall u | u in s'.tasks ensures TaskOk(s', u) && s'.tasks[u].pc != WaitEvent(false) {
      assert TaskOk(s, u);
    }
  }
}
