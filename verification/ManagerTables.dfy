/** The parts of the process manager that run without suspending and change its two dictionaries:
    starting processes, choosing a process for a new session, restarting a process, dropping a
    session. The step machine of module ManagerMachine uses the same tables and relations. */
module ManagerTables {
  import opened Wrappers
  import opened Messages
  import opened SessionTable

  /** The busy lock, pipes, memory, event and wait thread created together with a process. */
  datatype ProcessInfo = ProcessInfo(process: Pid)

  class WorkerProcessManager {
    var processInfo: map<Pid, ProcessInfo>
    var sessions: Table
    var nextPid: Pid     // the operating system never hands out a process id twice here

    predicate Valid()
      reads this
    {
      && (forall p :: p in processInfo ==> p < nextPid && processInfo[p] == ProcessInfo(p))
      && (forall s :: s in sessions && sessions[s].pid.Some? ==> sessions[s].pid.value in processInfo)
    }

    constructor (processCount: nat)
      ensures Valid() && |processInfo| == processCount && sessions == map[]
    {
      processInfo, sessions, nextPid := map[], map[], 0;
      new;
      for i := 0 to processCount
        invariant Valid() && |processInfo| == i && sessions == map[]
      {
        var info := StartProcess();
        processInfo := processInfo[info.process := info];
      }
    }

    method StartProcess() returns (info: ProcessInfo)
      requires Valid()
      modifies this`nextPid
      ensures Valid() && info.process !in processInfo && info.process == old(nextPid) && nextPid == old(nextPid) + 1
    {
      info := ProcessInfo(nextPid);
      nextPid := nextPid + 1;
    }

    /** Choose a process for a session that so far has only its search lock. A process without
        sessions is preferred; if there is none, the sessions are counted and a least loaded process
        is taken. Without any process `min` has nothing to choose from and raises. */
    method BindToProcess(session: SessionId, lock: LockId) returns (chosen: Option<Pid>)
      requires Valid() && session in sessions && sessions[session] == Entry(lock, None)
      modifies this`sessions
      ensures Valid()
      ensures chosen.None? <==> processInfo == map[]
      ensures chosen.Some? ==> LeastLoaded(old(sessions), processInfo.Keys, chosen.value)
      ensures sessions == match chosen case None => old(sessions) case Some(p) => Bind(old(sessions), session, lock, p)
    {
      var occupied := set s | s in sessions && sessions[s].pid.Some? :: sessions[s].pid.value;
      var free := processInfo.Keys - occupied;
      if free != {} {
        var p :| p in free;
        assert Bound(sessions, p) == {};
        sessions := Bind(sessions, session, lock, p);
        return Some(p);
      }
      var counts := CountLoads();
      forall p | p in processInfo ensures p in counts {
        assert p in free || p in occupied;
        var s :| s in sessions && sessions[s].pid.Some? && sessions[s].pid.value == p;
        assert s in Bound(sessions, p);
      }
      if counts == map[] {
        return None;
      }
      Least(counts, counts.Keys);
      var p :| p in counts && forall q :: q in counts ==> counts[p] <= counts[q];
      sessions := Bind(sessions, session, lock, p);
      return Some(p);
    }

    /** `pid_session_map`: the loads of the processes that have sessions. */
    method CountLoads() returns (counts: map<Pid, nat>)
      ensures forall p :: p in counts <==> Bound(sessions, p) != {}
      ensures forall p :: p in counts ==> counts[p] == Load(sessions, p)
      ensures forall p :: p in counts ==> exists s :: s in sessions && sessions[s].pid == Some(p)
    {
      counts := map[];
      var todo := sessions.Keys;
      while todo != {}
        invariant todo <= sessions.Keys
        invariant forall p :: p in counts <==> Bound(sessions, p) - todo != {}
        invariant forall p :: p in counts ==> counts[p] == |Bound(sessions, p) - todo|
        decreases |todo|
      {
        var s :| s in todo;
        var rest := todo - {s};
        CountOne(sessions, todo, s);
        if sessions[s].pid.Some? {
          var p := sessions[s].pid.value;
          counts := counts[p := (if p in counts then counts[p] else 0) + 1];
        }
        todo := rest;
      }
      assert forall p: Pid :: Bound(sessions, p) - todo == Bound(sessions, p);
      forall p | p in counts ensures exists s :: s in sessions && sessions[s].pid == Some(p) {
        var s :| s in Bound(sessions, p);
      }
    }

    /** Replace a process and forget its sessions; nothing happens if it was replaced already. */
    method RestartProcess(pid: Pid)
      requires Valid()
      modifies this
      ensures Valid()
      ensures pid !in old(processInfo) ==> processInfo == old(processInfo) && sessions == old(sessions)
      ensures pid in old(processInfo) ==>
              && sessions == Purge(old(sessions), pid)
              && old(nextPid) !in old(processInfo)
              && processInfo == (old(processInfo) - {pid})[old(nextPid) := ProcessInfo(old(nextPid))]
    {
      if pid !in processInfo {
        return;
      }
      processInfo := processInfo - {pid};
      var toClear := set s | s in sessions && sessions[s].pid == Some(pid);
      while toClear != {}
        invariant toClear <= sessions.Keys
        invariant forall s :: s in toClear ==> sessions[s].pid == Some(pid)
        invariant forall s :: s in sessions && s !in toClear ==> sessions[s].pid != Some(pid)
        invariant Purge(sessions, pid) == Purge(old(sessions), pid)
        invariant forall s :: s in sessions ==> s in old(sessions) && sessions[s] == old(sessions)[s]
        modifies this`sessions
        decreases |toClear|
      {
        var s :| s in toClear;
        sessions := sessions - {s};
        toClear := toClear - {s};
      }
      assert sessions == Purge(sessions, pid);
      var info := StartProcess();
      processInfo := processInfo[info.process := info];
    }

    /** The `finally` of both clear operations: `del self.sessions[session_id]`. */
    method DropSession(session: SessionId) returns (keyError: bool)
      requires Valid()
      modifies this`sessions
      ensures Valid() && sessions == old(sessions) - {session} && keyError == (session !in old(sessions))
    {
      keyError := session !in sessions;
      sessions := sessions - {session};
    }
  }

  lemma CountOne(table: Table, todo: set<SessionId>, s: SessionId)
    requires s in todo && s in table
    ensures forall p: Pid :: Some(p) != table[s].pid ==> Bound(table, p) - (todo - {s}) == Bound(table, p) - todo
    ensures table[s].pid.Some? ==>
              var p := table[s].pid.value;
              Bound(table, p) - (todo - {s}) != {} && |Bound(table, p) - (todo - {s})| == |Bound(table, p) - todo| + 1
  {
    if table[s].pid.Some? {
      var p := table[s].pid.value;
      assert Bound(table, p) - (todo - {s}) == (Bound(table, p) - todo) + {s};
    }
  }

  /** `min` has something to return. */
  lemma {:induction false} Least(counts: map<Pid, nat>, ps: set<Pid>)
    requires ps != {} && ps <= counts.Keys
    ensures exists p :: p in ps && forall q :: q in ps ==> counts[p] <= counts[q]
    decreases |ps|
  {
    var p :| p in ps;
    if ps == {p} {
      assert forall q :: q in ps ==> counts[p] <= counts[q];
    } else {
      Least(counts, ps - {p});
      var l :| l in ps - {p} && forall q :: q in ps - {p} ==> counts[l] <= counts[q];
      var best := if counts[p] <= counts[l] then p else l;
      assert forall q :: q in ps ==> q == p || q in ps - {p};
      assert best in ps && forall q :: q in ps ==> counts[best] <= counts[q];
    }
  }
}
