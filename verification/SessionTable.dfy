/** The manager's two dictionaries, `process_info` and `sessions`, and the least-loaded allocation
    of processes to sessions. */
module SessionTable {
  import opened Wrappers
  import opened Messages

  type Pid = nat
  type LockId = nat

  /** The tuple stored for a session: its search lock and, once one is chosen, its process. */
  datatype Entry = Entry(lock: LockId, pid: Option<Pid>)

  type Table = map<SessionId, Entry>

  function Bound(table: Table, p: Pid): set<SessionId> {
    set s | s in table && table[s].pid == Some(p)
  }

  /** The number of sessions a process carries. */
  function Load(table: Table, p: Pid): nat {
    |Bound(table, p)|
  }

  predicate LeastLoaded(table: Table, live: set<Pid>, p: Pid) {
    p in live && forall q :: q in live ==> Load(table, p) <= Load(table, q)
  }

  /** No placeholder, no dangling process: every session is linked to a live process. */
  predicate Linked(table: Table, live: set<Pid>) {
    forall s :: s in table ==> table[s].pid.Some? && table[s].pid.value in live
  }

  function Bind(table: Table, s: SessionId, lock: LockId, p: Pid): Table {
    table[s := Entry(lock, Some(p))]
  }

  /** The table without the sessions of one process. */
  function Purge(table: Table, p: Pid): Table {
    map s | s in table && table[s].pid != Some(p) :: table[s]
  }

  // ---- counting ---------------------------------------------------------------------------

  function BoundToAny(table: Table, ps: set<Pid>): set<SessionId> {
    set s | s in table && table[s].pid.Some? && table[s].pid.value in ps
  }

  lemma SplitOff(table: Table, ps: set<Pid>, p: Pid)
    requires p in ps
    ensures |BoundToAny(table, ps)| == |BoundToAny(table, ps - {p})| + Load(table, p)
  {
    assert BoundToAny(table, ps) == BoundToAny(table, ps - {p}) + Bound(table, p);
  }

  lemma OneMore(n: nat, m: nat)
    ensures n * (m + 1) == n * m + n
  {
  }

  /** The loads of a set of processes add up: pigeonhole from below and from above. */
  lemma {:induction false} Pigeonhole(table: Table, ps: set<Pid>, low: nat, high: nat)
    requires forall p :: p in ps ==> low <= Load(table, p) <= high
    ensures low * |ps| <= |BoundToAny(table, ps)| <= high * |ps|
    decreases |ps|
  {
    if ps == {} {
      assert BoundToAny(table, ps) == {};
    } else {
      var p :| p in ps;
      var rest := ps - {p};
      assert |ps| == |rest| + 1;
      Pigeonhole(table, rest, low, high);
      SplitOff(table, ps, p);
      OneMore(low, |rest|);
      OneMore(high, |rest|);
    }
  }

  lemma AllBound(table: Table, live: set<Pid>)
    requires Linked(table, live)
    ensures |BoundToAny(table, live)| == |table|
  {
    assert BoundToAny(table, live) == table.Keys;
  }

  lemma LoadAfterBind(table: Table, s: SessionId, lock: LockId, p: Pid, q: Pid)
    requires s !in table
    ensures Load(Bind(table, s, lock, p), q) == Load(table, q) + (if q == p then 1 else 0)
  {
    var after := Bind(table, s, lock, p);
    if q == p {
      assert Bound(after, q) == Bound(table, q) + {s};
    } else {
      assert Bound(after, q) == Bound(table, q);
    }
  }

  lemma LoadAfterRemoval(table: Table, after: Table, q: Pid)
    requires forall s :: s in after ==> s in table && after[s] == table[s]
    ensures Load(after, q) <= Load(table, q)
  {
    assert Bound(after, q) <= Bound(table, q);
    SubsetSize(Bound(after, q), Bound(table, q));
  }

  lemma {:induction false} SubsetSize<T>(a: set<T>, b: set<T>)
    requires a <= b
    ensures |a| <= |b|
  {
    if a != {} {
      var x :| x in a;
      SubsetSize(a - {x}, b - {x});
    }
  }

  // ---- the load bound ---------------------------------------------------------------------

  /** k sessions spread over n processes as evenly as possible: the largest share. */
  function Share(k: nat, n: nat): nat
    requires n > 0
  {
    (k + n - 1) / n
  }

  /** The smallest whole number of sessions that n processes of that load can hold k with. */
  lemma ShareIsCeiling(k: nat, n: nat)
    requires n > 0
    ensures Share(k, n) == (k + n - 1) / n && k <= Share(k, n) * n && (k > 0 ==> (Share(k, n) - 1) * n < k)
  {
    var share := Share(k, n);
    assert k + n - 1 == share * n + (k + n - 1) % n;
    assert (share - 1) * n == share * n - n;
  }

  lemma Multiples(a: nat, b: nat, n: nat)
    ensures a <= b ==> a * n <= b * n
  {
  }

  lemma FloorBelow(k: nat, n: nat, high: nat)
    requires n > 0 && k < (high + 1) * n
    ensures k / n <= high
  {
    Multiples(high + 1, k / n, n);
    assert k == (k / n) * n + k % n;
  }

  lemma ShareBelow(k: nat, n: nat, low: nat)
    requires n > 0 && low * n < k
    ensures low + 1 <= Share(k, n)
  {
  }

  lemma ShareMonotone(k: nat, k': nat, n: nat)
    requires n > 0 && k <= k'
    ensures Share(k, n) <= Share(k', n)
  {
    var share := Share(k', n);
    assert k' + n - 1 == share * n + (k' + n - 1) % n;
    assert (share + 1) * n == share * n + n;
    FloorBelow(k + n - 1, n, share);
  }

  /** No process carries more than its share of the largest number of sessions held so far. */
  predicate WithinShare(table: Table, live: set<Pid>, peak: nat) {
    live != {} ==> forall p :: p in live ==> Load(table, p) <= Share(peak, |live|)
  }

  lemma LiveNonempty(live: set<Pid>, p: Pid)
    requires p in live
    ensures |live| > 0
  {
  }

  /** Binding a new session to a least-loaded process keeps every load within its share. */
  lemma BindWithinShare(table: Table, live: set<Pid>, s: SessionId, lock: LockId, p: Pid, peak: nat)
    requires Linked(table, live) && s !in table && LeastLoaded(table, live, p)
    requires |table| < peak && WithinShare(table, live, peak)
    ensures WithinShare(Bind(table, s, lock, p), live, peak)
  {
    var least := Load(table, p);
    forall q | q in live ensures Load(table, q) <= |table| {
      SubsetSize(Bound(table, q), table.Keys);
    }
    Pigeonhole(table, live, least, |table|);
    AllBound(table, live);
    LiveNonempty(live, p);
    ShareBelow(peak, |live|, least);
    forall q | q in live ensures Load(Bind(table, s, lock, p), q) <= Share(peak, |live|) {
      LoadAfterBind(table, s, lock, p, q);
    }
  }

  // ---- exact balance ----------------------------------------------------------------------

  /** No two processes differ by more than one session. */
  predicate Balanced(table: Table, live: set<Pid>) {
    forall p, q :: p in live && q in live ==> Load(table, p) <= Load(table, q) + 1
  }

  lemma BindBalanced(table: Table, live: set<Pid>, s: SessionId, lock: LockId, p: Pid)
    requires s !in table && LeastLoaded(table, live, p) && Balanced(table, live)
    ensures Balanced(Bind(table, s, lock, p), live)
  {
    forall q | q in live ensures Load(Bind(table, s, lock, p), q) == Load(table, q) + (if q == p then 1 else 0) {
      LoadAfterBind(table, s, lock, p, q);
    }
  }

  lemma Spread(low: nat, n: nat)
    requires n > 0
    ensures low * (n - 1) + low + 1 == low * n + 1
    ensures (low + 1) * (n - 1) + low == (low + 1) * n - 1
  {
  }

  lemma EvenShare(total: nat, load: nat, n: nat)
    requires n > 0 && load <= total
    requires (if load > 0 then load - 1 else 0) * (n - 1) <= total - load <= (load + 1) * (n - 1)
    ensures total / n <= load <= Share(total, n)
  {
    hide Share;
    if load > 0 {
      Spread(load - 1, n);
      ShareBelow(total, n, load - 1);
    }
    Spread(load, n);
    FloorBelow(total, n, load);
  }

  /** A balanced table is as even as it can be: every process carries the floor or the ceiling of
      the number of sessions divided by the number of processes. */
  lemma BalancedIsEven(table: Table, live: set<Pid>, p: Pid)
    requires Linked(table, live) && Balanced(table, live) && p in live
    ensures |live| > 0 && |table| / |live| <= Load(table, p) <= Share(|table|, |live|)
  {
    LiveNonempty(live, p);
    var n, load := |live|, Load(table, p);
    var others := live - {p};
    assert |others| == n - 1;
    AllBound(table, live);
    SplitOff(table, live, p);
    forall q | q in others ensures (if load > 0 then load - 1 else 0) <= Load(table, q) <= load + 1 {
      assert Load(table, p) <= Load(table, q) + 1 && Load(table, q) <= Load(table, p) + 1;
    }
    hide Balanced, Linked, Load, BoundToAny;
    Pigeonhole(table, others, if load > 0 then load - 1 else 0, load + 1);
    EvenShare(|table|, load, n);
  }

  ghost predicate BindStep(before: Table, after: Table, live: set<Pid>) {
    exists s, lock, p :: s !in before && LeastLoaded(before, live, p) && after == Bind(before, s, lock, p)
  }

  /** A run of binds without any clear: k new sessions, each given to a least-loaded process. */
  ghost predicate BindRun(tables: seq<Table>, live: set<Pid>) {
    && tables != [] && tables[0] == map[]
    && forall i {:trigger tables[i]} :: 0 < i < |tables| ==> BindStep(tables[i - 1], tables[i], live)
  }

  lemma BindStepKeeps(before: Table, after: Table, live: set<Pid>)
    requires BindStep(before, after, live) && Linked(before, live) && Balanced(before, live)
    ensures |after| == |before| + 1 && Linked(after, live) && Balanced(after, live)
  {
    var s, lock, p :| s !in before && LeastLoaded(before, live, p) && after == Bind(before, s, lock, p);
    BindBalanced(before, live, s, lock, p);
  }

  /** From an empty table, after k binds every process carries floor(k/n) or ceil(k/n) sessions. */
  lemma {:induction false} BindsAreEven(tables: seq<Table>, live: set<Pid>, p: Pid)
    requires BindRun(tables, live) && p in live
    ensures var k := |tables| - 1;
            && Linked(tables[k], live) && Balanced(tables[k], live) && |tables[k]| == k
            && |live| > 0 && k / |live| <= Load(tables[k], p) <= Share(k, |live|)
  {
    var k := |tables| - 1;
    if k > 0 {
      assert BindStep(tables[k - 1], tables[k], live);
      BindsAreEven(tables[..k], live, p);
      assert tables[..k][k - 1] == tables[k - 1];
      BindStepKeeps(tables[k - 1], tables[k], live);
    }
    BalancedIsEven(tables[k], live, p);
  }
}
