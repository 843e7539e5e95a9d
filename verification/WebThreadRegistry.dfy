/**
 The registry behind WebThread (web/web_thread_impl.cc), for any number of ids
 and threads.

 `Registry` with `Fits` and `Apply` is the simple form: every operation is one
 atomic event. `State` with `Step` is what the code does: one action per lock
 operation and per read or write of the two arrays, with PostTaskHelper leaving
 the lock out when the target id outlives the calling thread. The theorems say
 that the second is the first, event by event.
 */
module WebThreadRegistry {
  import opened Prelude

  type Id = nat
  type Thread = nat
  type Task = nat

  /** A task runner; `thread` is the physical thread its tasks run on. */
  datatype Runner = Runner(thread: Thread, tag: nat)

  datatype Registry = Registry(states: seq<IdState>, runners: seq<Option<Runner>>)

  // ---- the atomic registry ----

  datatype Event =
    | Registered(id: Id, runner: Runner)
    | Unregistered(id: Id)
    | Accepted(id: Id, task: Task, runner: Runner)
    | Refused(id: Id, task: Task)

  function Blank(n: nat): Registry {
    Registry(seq(n, _ => Uninitialized), seq(n, _ => None))
  }

  predicate WellSized(r: Registry, n: nat) {
    |r.states| == n && |r.runners| == n
  }

  predicate Fits(r: Registry, e: Event)
    requires |r.states| == |r.runners|
  {
    && e.id < |r.states|
    && match e
       case Registered(id, _) => r.states[id] == Uninitialized && r.runners[id].None?
       case Unregistered(id) => r.states[id] == Running
       case Accepted(id, _, runner) => r.states[id] == Running && r.runners[id] == Some(runner)
       case Refused(id, _) => r.states[id] != Running
  }

  function Apply(r: Registry, e: Event): (r': Registry)
    requires |r.states| == |r.runners| && e.id < |r.states|
    ensures WellSized(r', |r.states|)
  {
    match e
    case Registered(id, runner) => Registry(r.states[id := Running], r.runners[id := Some(runner)])
    case Unregistered(id) => r.(states := r.states[id := Shutdown])
    case _ => r
  }

  predicate Ids(n: nat, log: seq<Event>) {
    forall i :: 0 <= i < |log| ==> log[i].id < n
  }

  function Replay(n: nat, log: seq<Event>): (r: Registry)
    requires Ids(n, log)
    ensures WellSized(r, n)
  {
    if log == [] then Blank(n) else Apply(Replay(n, log[..|log| - 1]), log[|log| - 1])
  }

  /** The log is a history of the atomic registry. */
  predicate LegalLog(n: nat, log: seq<Event>) {
    && Ids(n, log)
    && forall i :: 0 <= i < |log| ==> Fits(Replay(n, log[..i]), log[i])
  }

  /** What reached a runner, in order. */
  function Delivered(log: seq<Event>, runner: Runner): seq<Task> {
    if log == [] then [] else
      var last := log[|log| - 1];
      Delivered(log[..|log| - 1], runner) + if last.Accepted? && last.runner == runner then [last.task] else []
  }

  function One(b: bool): nat { if b then 1 else 0 }

  function Outcomes(log: seq<Event>, k: Task): nat {
    if log == [] then 0 else
      var last := log[|log| - 1];
      Outcomes(log[..|log| - 1], k) + One((last.Accepted? || last.Refused?) && last.task == k)
  }

  // ---- the code ----

  /** Where a thread stands. `via` is Some(c) when PostTaskHelper runs without the
      lock because the calling thread is the one of id `c`. */
  datatype Pc =
    | Idle
    | Exited
    | Looking(id: Id, task: Task)                        // PostTaskHelper entered
    | Scanning(id: Id, task: Task)                       // GetCurrentThreadIdentifier, lock held
    | Decided(id: Id, task: Task, via: Option<Id>)
    | Section(id: Id, task: Task, via: Option<Id>)       // before reading states[id]
    | SawState(id: Id, task: Task, via: Option<Id>)      // states[id] was RUNNING
    | SawRunner(id: Id, task: Task, via: Option<Id>, runner: Runner)
    | Leaving(task: Task, via: Option<Id>, accepted: bool)
    | Constructing(id: Id, runner: Runner)               // constructor, before the lock
    | ConsHold(id: Id, runner: Runner)
    | ConsWrote(id: Id, runner: Runner)                  // states[id] written, runner not yet
    | Destructing(id: Id)                                // destructor, before the lock
    | DestHold(id: Id)

  datatype State = State(
    reg: Registry,
    lock: Option<Thread>,
    pc: seq<Pc>,
    inbox: map<Runner, seq<Task>>,
    used: set<Task>,
    log: seq<Event>)

  datatype Action =
    | CallPost(t: Thread, id: Id, task: Task)
    | Construct(t: Thread, id: Id, runner: Runner)
    | Destruct(t: Thread, id: Id)
    | Exit(t: Thread)
    | Go(t: Thread)              // the thread's next own step

  function Init(n: nat, m: nat): State {
    State(Blank(n), None, seq(m, _ => Idle), map[], {}, [])
  }

  function BelongsTo(runner: Option<Runner>, t: Thread): bool {
    runner.Some? && runner.value.thread == t
  }

  /** GetCurrentThreadIdentifier: the least id from `i` on bound to thread `t`. */
  function CurrentIdFrom(runners: seq<Option<Runner>>, t: Thread, i: nat): (c: Option<Id>)
    requires i <= |runners|
    ensures c.Some? ==> i <= c.value < |runners| && BelongsTo(runners[c.value], t)
    ensures c.Some? ==> forall j :: i <= j < c.value ==> !BelongsTo(runners[j], t)
    ensures c.None? ==> forall j :: i <= j < |runners| ==> !BelongsTo(runners[j], t)
    decreases |runners| - i
  {
    if i == |runners| then None
    else if BelongsTo(runners[i], t) then Some(i)
    else CurrentIdFrom(runners, t, i + 1)
  }

  function Outlives(runners: seq<Option<Runner>>, t: Thread, id: Id): Option<Id> {
    var c := CurrentIdFrom(runners, t, 0);
    if c.Some? && c.value >= id then c else None
  }

  predicate Builds(p: Pc) { p.Constructing? || p.ConsHold? || p.ConsWrote? }
  predicate Razes(p: Pc) { p.Destructing? || p.DestHold? }

  predicate Busy(st: State, id: Id) {
    exists u :: 0 <= u < |st.pc| && (Builds(st.pc[u]) || Razes(st.pc[u])) && st.pc[u].id == id
  }

  /** Id `j` is out of the way of a destructor running on thread `t`: never registered,
      or shut down with its thread joined (or being `t` itself). */
  predicate Settled(st: State, j: Id, t: Thread)
    requires j < |st.reg.states| && |st.reg.states| == |st.reg.runners|
  {
    || st.reg.states[j] == Uninitialized
    || (st.reg.states[j] == Shutdown && st.reg.runners[j].Some?
        && var u := st.reg.runners[j].value.thread; u == t || (u < |st.pc| && st.pc[u].Exited?))
  }

  predicate Acquires(p: Pc) {
    p.Looking? || (p.Decided? && p.via.None?) || p.Constructing? || p.Destructing?
  }

  /** The range check every entry point starts with. */
  predicate IdInRange(p: Pc, n: nat) {
    p.Idle? || p.Exited? || p.Leaving? || p.id < n
  }

  predicate Enabled(st: State, a: Action) {
    && |st.reg.states| == |st.reg.runners|
    && a.t < |st.pc|
    && match a
       case CallPost(t, id, task) => st.pc[t].Idle? && id < |st.reg.states| && task !in st.used
       // Lifetimes nest: every earlier id is up before this constructor starts.
       case Construct(t, id, runner) =>
         && st.pc[t].Idle? && id < |st.reg.states| && st.reg.states[id] == Uninitialized
         && runner.thread < |st.pc|
         && (forall i :: 0 <= i < id ==> st.reg.states[i] == Running)
         && (forall i :: 0 <= i <= id ==> !Busy(st, i))
       // A destructor runs on the id's own thread once every later id is settled.
       case Destruct(t, id) =>
         && st.pc[t].Idle? && id < |st.reg.states| && st.reg.states[id] == Running
         && BelongsTo(st.reg.runners[id], t)
         && (forall j :: id < j < |st.reg.states| ==> Settled(st, j, t))
         && (forall j :: id <= j < |st.reg.states| ==> !Busy(st, j))
       case Exit(t) => st.pc[t].Idle?
       case Go(t) =>
         && !st.pc[t].Idle? && !st.pc[t].Exited? && IdInRange(st.pc[t], |st.reg.states|)
         && (Acquires(st.pc[t]) ==> st.lock.None?)
  }

  function At(st: State, t: Thread, p: Pc): State
    requires t < |st.pc|
  {
    st.(pc := st.pc[t := p])
  }

  function Inbox(st: State, runner: Runner): seq<Task> {
    if runner in st.inbox then st.inbox[runner] else []
  }

  /** One step of a thread inside a call. */
  function GoStep(st: State, t: Thread): State
    requires Enabled(st, Go(t))
  {
    match st.pc[t]
    case Looking(id, task) => At(st, t, Scanning(id, task)).(lock := Some(t))
    case Scanning(id, task) =>
      At(st, t, Decided(id, task, Outlives(st.reg.runners, t, id))).(lock := None)
    case Decided(id, task, via) =>
      At(st, t, Section(id, task, via)).(lock := if via.None? then Some(t) else st.lock)
    case Section(id, task, via) =>
      if st.reg.states[id] == Running then At(st, t, SawState(id, task, via))
      else At(st, t, Leaving(task, via, false)).(log := st.log + [Refused(id, task)])
    case SawState(id, task, via) =>
      // A null runner here is what the code's DCHECK rules out; see RunnerIsThere.
      if st.reg.runners[id].None? then st
      else At(st, t, SawRunner(id, task, via, st.reg.runners[id].value))
    case SawRunner(id, task, via, runner) =>
      At(st, t, Leaving(task, via, true)).(
        inbox := st.inbox[runner := Inbox(st, runner) + [task]],
        log := st.log + [Accepted(id, task, runner)])
    case Leaving(_, via, _) => At(st, t, Idle).(lock := if via.None? then None else st.lock)
    case Constructing(id, runner) => At(st, t, ConsHold(id, runner)).(lock := Some(t))
    case ConsHold(id, runner) =>
      At(st, t, ConsWrote(id, runner)).(reg := st.reg.(states := st.reg.states[id := Running]))
    case ConsWrote(id, runner) =>
      At(st, t, Idle).(reg := st.reg.(runners := st.reg.runners[id := Some(runner)]),
                       lock := None, log := st.log + [Registered(id, runner)])
    case Destructing(id) => At(st, t, DestHold(id)).(lock := Some(t))
    case DestHold(id) =>
      At(st, t, Idle).(reg := st.reg.(states := st.reg.states[id := Shutdown]),
                       lock := None, log := st.log + [Unregistered(id)])
    case _ => st
  }

  function Step(st: State, a: Action): State
    requires Enabled(st, a)
  {
    match a
    case CallPost(t, id, task) => At(st, t, Looking(id, task)).(used := st.used + {task})
    case Construct(t, id, runner) => At(st, t, Constructing(id, runner))
    case Destruct(t, id) => At(st, t, Destructing(id))
    case Exit(t) => At(st, t, Exited)
    case Go(t) => GoStep(st, t)
  }

  predicate Legal(st: State, acts: seq<Action>)
    decreases |acts|
  {
    acts == [] || (Enabled(st, acts[0]) && Legal(Step(st, acts[0]), acts[1..]))
  }

  function Exec(st: State, acts: seq<Action>): State
    requires Legal(st, acts)
    decreases |acts|
  {
    if acts == [] then st else Exec(Step(st, acts[0]), acts[1..])
  }

  // ---- what every step keeps ----

  predicate InSection(p: Pc) { p.Section? || p.SawState? || p.SawRunner? }

  predicate HoldsLock(p: Pc) {
    || p.Scanning? || p.ConsHold? || p.ConsWrote? || p.DestHold?
    || ((InSection(p) || p.Leaving?) && p.via.None?)
  }

  /** The thread's next step writes states[id] or task_runners[id]. */
  predicate Writes(p: Pc) { p.ConsHold? || p.ConsWrote? || p.DestHold? }

  predicate Lives(p: Pc) { Builds(p) || Razes(p) }

  /** The lock holder is a constructor of `id` between its two writes. */
  predicate Registering(st: State, id: Id) {
    && st.lock.Some? && st.lock.value < |st.pc|
    && st.pc[st.lock.value].ConsWrote? && st.pc[st.lock.value].id == id
  }

  predicate Reads(st: State, t: Thread)
    requires t < |st.pc| && |st.reg.states| == |st.reg.runners|
  {
    var p := st.pc[t];
    && IdInRange(p, |st.reg.states|)
    && (((InSection(p) || p.Decided?) && p.via.Some?) ==>
          p.id <= p.via.value < |st.reg.states| && BelongsTo(st.reg.runners[p.via.value], t))
    && (p.SawState? ==> st.reg.states[p.id] == Running)
    && (p.SawRunner? ==> st.reg.states[p.id] == Running && st.reg.runners[p.id] == Some(p.runner))
  }

  predicate Lifetime(st: State, t: Thread)
    requires t < |st.pc| && |st.reg.states| == |st.reg.runners|
  {
    var p := st.pc[t];
    && (Builds(p) ==>
          && p.id < |st.reg.states| && st.reg.runners[p.id].None?
          && st.reg.states[p.id] == (if p.ConsWrote? then Running else Uninitialized)
          && (forall i :: 0 <= i < p.id ==> st.reg.states[i] != Uninitialized)
          && (forall j :: p.id < j < |st.reg.states| ==> st.reg.states[j] == Uninitialized))
    && (Razes(p) ==>
          && p.id < |st.reg.states| && st.reg.states[p.id] == Running && BelongsTo(st.reg.runners[p.id], t)
          && (forall j :: p.id < j < |st.reg.states| ==> Settled(st, j, t)))
  }

  predicate ThreadOk(st: State, t: Thread)
    requires t < |st.pc| && |st.reg.states| == |st.reg.runners|
  {
    && (HoldsLock(st.pc[t]) <==> st.lock == Some(t))
    && Reads(st, t)
    && Lifetime(st, t)
  }

  ghost predicate Shape(st: State, n: nat) {
    && WellSized(st.reg, n)
    && (st.lock.Some? ==> st.lock.value < |st.pc|)
    && (forall t: Thread :: t < |st.pc| ==> ThreadOk(st, t))
    && (forall t: Thread, u: Thread :: t < |st.pc| && u < |st.pc| && Lives(st.pc[t]) && Lives(st.pc[u]) ==> t == u)
    && (forall i, j :: 0 <= i < j < n && st.reg.states[j] != Uninitialized ==> st.reg.states[i] != Uninitialized)
    && (forall i :: 0 <= i < n && st.reg.runners[i].Some? ==> st.reg.states[i] != Uninitialized)
    && (forall i :: 0 <= i < n && st.reg.runners[i].None? && st.reg.states[i] != Uninitialized ==> Registering(st, i))
  }

  /** While an id is being constructed or destroyed no later id is running, and the
      threads of later ids are gone. */
  lemma LaterIdsAreDown(st: State, n: nat, u: Thread)
    requires Shape(st, n) && u < |st.pc| && Lives(st.pc[u])
    ensures forall j :: st.pc[u].id < j < n ==> st.reg.states[j] != Running
    ensures forall j :: st.pc[u].id < j < n && st.reg.runners[j].Some? ==>
      var v := st.reg.runners[j].value.thread; v == u || (v < |st.pc| && st.pc[v].Exited?)
  {
    assert ThreadOk(st, u);
    forall j | st.pc[u].id < j < n
      ensures st.reg.states[j] != Running
      ensures st.reg.runners[j].Some? ==>
        var v := st.reg.runners[j].value.thread; v == u || (v < |st.pc| && st.pc[v].Exited?)
    {
      assert Razes(st.pc[u]) ==> Settled(st, j, u);
    }
  }

  /** The heart of the lock elision: nobody is constructing or destroying the id
      another thread is using without the lock. */
  lemma ElisionExcludesLifetimes(st: State, n: nat, t: Thread, u: Thread)
    requires Shape(st, n) && t < |st.pc| && u < |st.pc|
    requires InSection(st.pc[t]) && Lives(st.pc[u])
    requires st.pc[t].via.Some? || HoldsLock(st.pc[u])
    ensures st.pc[u].id != st.pc[t].id
  {
    assert ThreadOk(st, t) && ThreadOk(st, u);
    LaterIdsAreDown(st, n, u);
  }

  /** The arrays change only under a lifetime step of the same id. */
  lemma ArraysChange(st: State, a: Action)
    requires Enabled(st, a)
    ensures WellSized(Step(st, a).reg, |st.reg.states|)
    ensures forall i :: 0 <= i < |st.reg.states| && !(a.Go? && Writes(st.pc[a.t]) && st.pc[a.t].id == i)
              ==> Step(st, a).reg.states[i] == st.reg.states[i] && Step(st, a).reg.runners[i] == st.reg.runners[i]
  {
  }

  lemma OthersStay(st: State, a: Action, u: Thread)
    requires Enabled(st, a) && u < |st.pc| && u != a.t
    ensures |Step(st, a).pc| == |st.pc| && Step(st, a).pc[u] == st.pc[u]
  {
  }

  /** A runner, once written, is never replaced. */
  lemma WriterKeepsRunners(st: State, n: nat, t: Thread)
    requires Shape(st, n) && Enabled(st, Go(t)) && Writes(st.pc[t])
    ensures WellSized(Step(st, Go(t)).reg, n)
    ensures forall i :: 0 <= i < n && st.reg.runners[i].Some? ==> Step(st, Go(t)).reg.runners[i] == st.reg.runners[i]
  {
    assert ThreadOk(st, t);
  }

  /** Another thread's step does not touch what this one has read. */
  lemma ReadsUndisturbed(st: State, n: nat, a: Action, u: Thread)
    requires Shape(st, n) && Enabled(st, a) && u < |st.pc| && u != a.t
    ensures Reads(Step(st, a), u)
  {
    assert ThreadOk(st, u) && ThreadOk(st, a.t);
    ArraysChange(st, a);
    OthersStay(st, a, u);
    if a.Go? && Writes(st.pc[a.t]) {
      if InSection(st.pc[u]) { ElisionExcludesLifetimes(st, n, u, a.t); }
      WriterKeepsRunners(st, n, a.t);
    }
  }

  lemma ReadsOfMover(st: State, n: nat, a: Action)
    requires Shape(st, n) && Enabled(st, a)
    ensures Reads(Step(st, a), a.t)
  {
    assert ThreadOk(st, a.t);
    if a.Go? && Writes(st.pc[a.t]) {
      WriterKeepsRunners(st, n, a.t);
    }
  }

  lemma StepKeepsReads(st: State, n: nat, a: Action, u: Thread)
    requires Shape(st, n) && Enabled(st, a) && u < |st.pc|
    ensures Reads(Step(st, a), u)
  {
    if u == a.t { ReadsOfMover(st, n, a); } else { ReadsUndisturbed(st, n, a, u); }
  }

  /** A settled id stays settled: its state and runner no longer change. */
  lemma SettledStays(st: State, n: nat, a: Action, j: Id, u: Thread)
    requires Shape(st, n) && Enabled(st, a) && u < |st.pc| && j < n && Razes(st.pc[u]) && st.pc[u].id < j
    ensures Settled(Step(st, a), j, u)
  {
    assert ThreadOk(st, u) && ThreadOk(st, a.t);
    assert Settled(st, j, u);
  }

  lemma NewLifetime(st: State, n: nat, a: Action)
    requires Shape(st, n) && Enabled(st, a) && (a.Construct? || a.Destruct?)
    ensures Lifetime(Step(st, a), a.t)
  {
    assert ThreadOk(st, a.t);
    if a.Construct? {
      assert st.reg.runners[a.id].None?;
    } else {
      forall j | a.id < j < n ensures Settled(Step(st, a), j, a.t) {
        assert Settled(st, j, a.t);
      }
    }
  }

  /** A lifetime step in progress began with Construct or Destruct and keeps its id. */
  lemma LivesBefore(st: State, a: Action, u: Thread)
    requires Enabled(st, a) && u < |st.pc| && Lives(Step(st, a).pc[u])
    requires u != a.t || a.Go?
    ensures Lives(st.pc[u]) && Step(st, a).pc[u].id == st.pc[u].id
    ensures Razes(Step(st, a).pc[u]) <==> Razes(st.pc[u])
    ensures Builds(Step(st, a).pc[u]) <==> Builds(st.pc[u])
  {
    if u != a.t { OthersStay(st, a, u); }
  }

  lemma BuilderMoves(st: State, n: nat, t: Thread)
    requires Shape(st, n) && Enabled(st, Go(t)) && Builds(st.pc[t]) && Builds(Step(st, Go(t)).pc[t])
    ensures Lifetime(Step(st, Go(t)), t)
  {
    assert ThreadOk(st, t);
  }

  lemma BuildsKept(st: State, n: nat, a: Action, u: Thread)
    requires Shape(st, n) && Enabled(st, a) && u < |st.pc| && (u != a.t || a.Go?)
    requires Builds(Step(st, a).pc[u])
    ensures Lifetime(Step(st, a), u)
  {
    assert ThreadOk(st, u);
    LivesBefore(st, a, u);
    if u == a.t {
      BuilderMoves(st, n, u);
    } else {
      OthersStay(st, a, u);
      ArraysChange(st, a);
      assert a.Go? ==> !Lives(st.pc[a.t]);
    }
  }

  lemma RazesKept(st: State, n: nat, a: Action, u: Thread)
    requires Shape(st, n) && Enabled(st, a) && u < |st.pc| && (u != a.t || a.Go?)
    requires Razes(Step(st, a).pc[u])
    ensures Lifetime(Step(st, a), u)
  {
    assert ThreadOk(st, u) && ThreadOk(st, a.t);
    LivesBefore(st, a, u);
    ArraysChange(st, a);
    assert a.Go? && u != a.t ==> !Lives(st.pc[a.t]);
    forall j | st.pc[u].id < j < n ensures Settled(Step(st, a), j, u) {
      SettledStays(st, n, a, j, u);
    }
  }

  lemma StepKeepsLifetime(st: State, n: nat, a: Action, u: Thread)
    requires Shape(st, n) && Enabled(st, a) && u < |st.pc|
    ensures Lifetime(Step(st, a), u)
  {
    if u == a.t && (a.Construct? || a.Destruct?) {
      NewLifetime(st, n, a);
    } else if Builds(Step(st, a).pc[u]) {
      BuildsKept(st, n, a, u);
    } else if Razes(Step(st, a).pc[u]) {
      RazesKept(st, n, a, u);
    }
  }

  /** A step takes the lock only when it is free and gives back only its own. */
  lemma MoverLock(st: State, a: Action)
    requires Enabled(st, a) && (HoldsLock(st.pc[a.t]) <==> st.lock == Some(a.t))
    ensures HoldsLock(Step(st, a).pc[a.t]) <==> Step(st, a).lock == Some(a.t)
    ensures Step(st, a).lock == st.lock || (st.lock.None? && Step(st, a).lock == Some(a.t))
         || (st.lock == Some(a.t) && Step(st, a).lock.None?)
  {
  }

  lemma StepKeepsLockOwner(st: State, n: nat, a: Action, u: Thread)
    requires Shape(st, n) && Enabled(st, a) && u < |st.pc|
    ensures HoldsLock(Step(st, a).pc[u]) <==> Step(st, a).lock == Some(u)
  {
    assert ThreadOk(st, u) && ThreadOk(st, a.t);
    MoverLock(st, a);
    if u != a.t { OthersStay(st, a, u); }
  }

  lemma OneLifetimeAtATime(st: State, n: nat, a: Action, t: Thread, u: Thread)
    requires Shape(st, n) && Enabled(st, a) && t < |st.pc| && u < |st.pc|
    requires Lives(Step(st, a).pc[t]) && Lives(Step(st, a).pc[u])
    ensures t == u
  {
    if t != u {
      var v := if a.t == t then u else t;
      LivesBefore(st, a, v);
      if a.Construct? || a.Destruct? {
        assert ThreadOk(st, v);
        LaterIdsAreDown(st, n, v);
        assert Busy(st, st.pc[v].id);
      } else {
        LivesBefore(st, a, if a.t == t then t else u);
      }
    }
  }

  lemma StepKeepsNesting(st: State, n: nat, a: Action, i: Id, j: Id)
    requires Shape(st, n) && Enabled(st, a) && i < j < n
    requires Step(st, a).reg.states[j] != Uninitialized
    ensures Step(st, a).reg.states[i] != Uninitialized
  {
    assert ThreadOk(st, a.t);
    ArraysChange(st, a);
  }

  lemma RegisteringKept(st: State, n: nat, a: Action, i: Id)
    requires Shape(st, n) && Enabled(st, a) && i < n
    requires !(a.Go? && Writes(st.pc[a.t]) && st.pc[a.t].id == i)
    ensures Registering(Step(st, a), i) <==> Registering(st, i)
  {
    assert ThreadOk(st, a.t);
    if st.lock.Some? && st.lock.value != a.t { OthersStay(st, a, st.lock.value); }
  }

  lemma StepKeepsRunnerState(st: State, n: nat, a: Action, i: Id)
    requires Shape(st, n) && Enabled(st, a) && i < n
    ensures Step(st, a).reg.runners[i].Some? ==> Step(st, a).reg.states[i] != Uninitialized
    ensures Step(st, a).reg.runners[i].None? && Step(st, a).reg.states[i] != Uninitialized ==> Registering(Step(st, a), i)
  {
    assert ThreadOk(st, a.t);
    ArraysChange(st, a);
    if !(a.Go? && Writes(st.pc[a.t]) && st.pc[a.t].id == i) {
      RegisteringKept(st, n, a, i);
    }
  }

  lemma StepKeepsShape(st: State, n: nat, a: Action)
    requires Shape(st, n) && Enabled(st, a)
    ensures Shape(Step(st, a), n)
  {
    var st' := Step(st, a);
    ArraysChange(st, a);
    assert |st'.pc| == |st.pc|;
    forall u: Thread | u < |st'.pc| ensures ThreadOk(st', u) {
      StepKeepsReads(st, n, a, u);
      StepKeepsLifetime(st, n, a, u);
      StepKeepsLockOwner(st, n, a, u);
    }
    forall t: Thread, u: Thread | t < |st'.pc| && u < |st'.pc| && Lives(st'.pc[t]) && Lives(st'.pc[u])
      ensures t == u
    {
      OneLifetimeAtATime(st, n, a, t, u);
    }
    forall i, j | 0 <= i < j < n && st'.reg.states[j] != Uninitialized ensures st'.reg.states[i] != Uninitialized {
      StepKeepsNesting(st, n, a, i, j);
    }
    forall i | 0 <= i < n
      ensures st'.reg.runners[i].Some? ==> st'.reg.states[i] != Uninitialized
      ensures st'.reg.runners[i].None? && st'.reg.states[i] != Uninitialized ==> Registering(st', i)
    {
      StepKeepsRunnerState(st, n, a, i);
    }
  }

  // ---- the history ----

  lemma Snoc<T>(s: seq<T>, x: T)
    ensures (s + [x])[..|s|] == s && (s + [x])[|s|] == x
  {
  }

  lemma ReplaySnoc(n: nat, log: seq<Event>, e: Event)
    requires Ids(n, log) && e.id < n
    ensures Ids(n, log + [e]) && Replay(n, log + [e]) == Apply(Replay(n, log), e)
    ensures LegalLog(n, log) && Fits(Replay(n, log), e) ==> LegalLog(n, log + [e])
  {
    Snoc(log, e);
    if LegalLog(n, log) && Fits(Replay(n, log), e) {
      forall i | 0 <= i < |log + [e]| ensures Fits(Replay(n, (log + [e])[..i]), (log + [e])[i]) {
        assert i < |log| ==> (log + [e])[..i] == log[..i];
      }
    }
  }

  /** A PostTaskHelper call on task `k` that has not decided yet. */
  predicate Undecided(p: Pc, k: Task) {
    (p.Looking? || p.Scanning? || p.Decided? || InSection(p)) && p.task == k
  }

  function Pending(pc: seq<Pc>, k: Task): nat {
    if pc == [] then 0 else One(Undecided(pc[0], k)) + Pending(pc[1..], k)
  }

  lemma {:induction false} PendingUpdate(pc: seq<Pc>, t: Thread, p: Pc, k: Task)
    requires t < |pc|
    ensures Pending(pc[t := p], k) == Pending(pc, k) - One(Undecided(pc[t], k)) + One(Undecided(p, k))
  {
    if t == 0 {
      assert pc[t := p][1..] == pc[1..];
    } else {
      PendingUpdate(pc[1..], t - 1, p, k);
      assert pc[t := p][1..] == pc[1..][t - 1 := p];
    }
  }

  lemma {:induction false} NothingPending(pc: seq<Pc>, k: Task)
    requires forall t :: 0 <= t < |pc| ==> pc[t].Idle?
    ensures Pending(pc, k) == 0
  {
    if pc != [] {
      NothingPending(pc[1..], k);
    }
  }

  predicate Decision(e: Event, k: Task, accepted: bool) {
    (if accepted then e.Accepted? else e.Refused?) && e.task == k
  }

  predicate Answered(log: seq<Event>, k: Task, accepted: bool) {
    exists i :: 0 <= i < |log| && Decision(log[i], k, accepted)
  }

  /** The arrays are what the log replays to, but for a constructor between its two writes. */
  predicate Mirrors(st: State, n: nat)
    requires WellSized(st.reg, n) && Ids(n, st.log)
  {
    var r := Replay(n, st.log);
    && r.runners == st.reg.runners
    && forall i :: 0 <= i < n ==> r.states[i] == if Registering(st, i) then Uninitialized else st.reg.states[i]
  }

  predicate CountedAt(st: State, k: Task) {
    Outcomes(st.log, k) + Pending(st.pc, k) == One(k in st.used)
  }

  ghost predicate Bookkept(st: State) {
    && (forall r: Runner :: Inbox(st, r) == Delivered(st.log, r))
    && (forall k: Task :: CountedAt(st, k))
    && (forall t: Thread :: t < |st.pc| && st.pc[t].Leaving? ==> Answered(st.log, st.pc[t].task, st.pc[t].accepted))
  }

  ghost predicate Inv(st: State, n: nat) {
    && Shape(st, n)
    && LegalLog(n, st.log)
    && Mirrors(st, n)
    && Bookkept(st)
  }

  lemma InitInv(n: nat, m: nat)
    ensures Inv(Init(n, m), n)
  {
    forall k: Task ensures CountedAt(Init(n, m), k) {
      NothingPending(Init(n, m).pc, k);
    }
  }

  lemma RegistrarHoldsLock(st: State, n: nat, i: Id)
    requires Shape(st, n) && Registering(st, i)
    ensures i < n && st.reg.runners[i].None?
  {
    assert ThreadOk(st, st.lock.value);
  }

  lemma NotRegistering(st: State, n: nat, t: Thread)
    requires Shape(st, n) && t < |st.pc| && InSection(st.pc[t])
    ensures !Registering(st, st.pc[t].id)
  {
    if Registering(st, st.pc[t].id) {
      RegistrarHoldsLock(st, n, st.pc[t].id);
      ElisionExcludesLifetimes(st, n, t, st.lock.value);
    }
  }

  /** The code's DCHECK(task_runner): an accepting id always has a runner, also on
      the path without the lock. */
  lemma RunnerIsThere(st: State, n: nat, t: Thread)
    requires Shape(st, n) && t < |st.pc| && st.pc[t].SawState?
    ensures st.pc[t].id < n && st.reg.runners[st.pc[t].id].Some?
  {
    assert ThreadOk(st, t);
    NotRegistering(st, n, t);
  }

  /** The event a thread's next step logs, if any. */
  function NextEvent(st: State, t: Thread): Option<Event>
    requires Enabled(st, Go(t))
  {
    match st.pc[t]
    case Section(id, task, _) => if st.reg.states[id] == Running then None else Some(Refused(id, task))
    case SawRunner(id, task, _, runner) => Some(Accepted(id, task, runner))
    case ConsWrote(id, runner) => Some(Registered(id, runner))
    case DestHold(id) => Some(Unregistered(id))
    case _ => None
  }

  /** Whatever a step logs is what the atomic registry would do at that moment. */
  lemma NextEventFits(st: State, n: nat, t: Thread)
    requires Inv(st, n) && Enabled(st, Go(t)) && NextEvent(st, t).Some?
    ensures NextEvent(st, t).value.id < n && Fits(Replay(n, st.log), NextEvent(st, t).value)
  {
    assert ThreadOk(st, t);
    if InSection(st.pc[t]) {
      NotRegistering(st, n, t);
    }
  }

  lemma WriterRegistering(st: State, n: nat, t: Thread)
    requires Shape(st, n) && Enabled(st, Go(t)) && Writes(st.pc[t])
    ensures Registering(Step(st, Go(t)), st.pc[t].id) <==> st.pc[t].ConsHold?
    ensures Registering(st, st.pc[t].id) <==> st.pc[t].ConsWrote?
  {
    assert ThreadOk(st, t);
  }

  /** The id being written: the log and the arrays change together. */
  lemma WriterMirrored(st: State, n: nat, t: Thread)
    requires Inv(st, n) && Enabled(st, Go(t)) && Writes(st.pc[t])
    ensures var id, st' := st.pc[t].id, Step(st, Go(t));
      var r := if NextEvent(st, t).Some? then Apply(Replay(n, st.log), NextEvent(st, t).value) else Replay(n, st.log);
      && id < n && WellSized(st'.reg, n) && r.runners[id] == st'.reg.runners[id]
      && r.states[id] == if Registering(st', id) then Uninitialized else st'.reg.states[id]
  {
    assert ThreadOk(st, t);
    WriterRegistering(st, n, t);
  }

  /** Every other id: neither changes. */
  lemma ElsewhereMirrored(st: State, n: nat, a: Action, i: Id)
    requires Inv(st, n) && Enabled(st, a) && i < n
    requires !(a.Go? && Writes(st.pc[a.t]) && st.pc[a.t].id == i)
    ensures var st' := Step(st, a);
      && WellSized(st'.reg, n) && Replay(n, st.log).runners[i] == st'.reg.runners[i]
      && Replay(n, st.log).states[i] == if Registering(st', i) then Uninitialized else st'.reg.states[i]
  {
    RegisteringKept(st, n, a, i);
    ArraysChange(st, a);
  }

  lemma EventElsewhere(r: Registry, st: State, t: Thread, i: Id)
    requires Enabled(st, Go(t)) && NextEvent(st, t).Some? && !(Writes(st.pc[t]) && st.pc[t].id == i)
    requires |r.states| == |r.runners| && i < |r.states| && NextEvent(st, t).value.id < |r.states|
    ensures Apply(r, NextEvent(st, t).value).states[i] == r.states[i]
    ensures Apply(r, NextEvent(st, t).value).runners[i] == r.runners[i]
  {
  }

  lemma LogStep(st: State, a: Action)
    requires Enabled(st, a)
    ensures Step(st, a).log ==
      if a.Go? && NextEvent(st, a.t).Some? then st.log + [NextEvent(st, a.t).value] else st.log
  {
  }

  lemma StepMirrors(st: State, n: nat, a: Action)
    requires Inv(st, n) && Enabled(st, a)
    ensures Ids(n, Step(st, a).log) && WellSized(Step(st, a).reg, n) && Mirrors(Step(st, a), n)
    ensures LegalLog(n, Step(st, a).log)
  {
    var st' := Step(st, a);
    var next := if a.Go? then NextEvent(st, a.t) else None;
    ArraysChange(st, a);
    LogStep(st, a);
    if next.Some? {
      NextEventFits(st, n, a.t);
      ReplaySnoc(n, st.log, next.value);
    }
    forall i: Id | i < n
      ensures Replay(n, st'.log).runners[i] == st'.reg.runners[i]
      ensures Replay(n, st'.log).states[i] == if Registering(st', i) then Uninitialized else st'.reg.states[i]
    {
      if a.Go? && Writes(st.pc[a.t]) && st.pc[a.t].id == i {
        WriterMirrored(st, n, a.t);
      } else {
        ElsewhereMirrored(st, n, a, i);
        if next.Some? { EventElsewhere(Replay(n, st.log), st, a.t, i); }
      }
    }
    assert Replay(n, st'.log).runners == st'.reg.runners;
  }

  lemma AcceptStep(st: State, t: Thread, r: Runner)
    requires Enabled(st, Go(t)) && st.pc[t].SawRunner?
    ensures Inbox(Step(st, Go(t)), r) == Inbox(st, r) + if st.pc[t].runner == r then [st.pc[t].task] else []
  {
  }

  lemma OtherStep(st: State, a: Action)
    requires Enabled(st, a) && !(a.Go? && st.pc[a.t].SawRunner?)
    ensures Step(st, a).inbox == st.inbox
    ensures a.Go? && NextEvent(st, a.t).Some? ==> !NextEvent(st, a.t).value.Accepted?
  {
  }

  lemma DeliveredSnoc(log: seq<Event>, e: Event, r: Runner)
    ensures Delivered(log + [e], r) == Delivered(log, r) + if e.Accepted? && e.runner == r then [e.task] else []
  {
    Snoc(log, e);
  }

  lemma StepDelivers(st: State, a: Action, r: Runner)
    requires Enabled(st, a) && Inbox(st, r) == Delivered(st.log, r)
    ensures Inbox(Step(st, a), r) == Delivered(Step(st, a).log, r)
  {
    LogStep(st, a);
    var next := if a.Go? then NextEvent(st, a.t) else None;
    if next.Some? { DeliveredSnoc(st.log, next.value, r); }
    if a.Go? && st.pc[a.t].SawRunner? {
      AcceptStep(st, a.t, r);
    } else {
      OtherStep(st, a);
    }
  }

  lemma OutcomesSnoc(log: seq<Event>, e: Event, k: Task)
    ensures Outcomes(log + [e], k) == Outcomes(log, k) + One((e.Accepted? || e.Refused?) && e.task == k)
  {
    Snoc(log, e);
  }

  predicate Decides(e: Option<Event>, k: Task) {
    e.Some? && (e.value.Accepted? || e.value.Refused?) && e.value.task == k
  }

  lemma PcMoves(st: State, t: Thread)
    requires Enabled(st, Go(t))
    ensures |GoStep(st, t).pc| == |st.pc| && GoStep(st, t).pc == st.pc[t := GoStep(st, t).pc[t]]
    ensures GoStep(st, t).used == st.used
  {
  }

  /** Deciding moves the task from pending to decided; nothing else touches either. */
  lemma DecisionMoves(st: State, t: Thread, k: Task)
    requires Enabled(st, Go(t))
    ensures One(Undecided(st.pc[t], k)) == One(Undecided(GoStep(st, t).pc[t], k)) + One(Decides(NextEvent(st, t), k))
  {
    PcMoves(st, t);
  }

  lemma GoCounts(st: State, t: Thread, k: Task)
    requires Enabled(st, Go(t)) && CountedAt(st, k)
    ensures CountedAt(Step(st, Go(t)), k)
  {
    LogStep(st, Go(t));
    DecisionMoves(st, t, k);
    PcMoves(st, t);
    PendingUpdate(st.pc, t, Step(st, Go(t)).pc[t], k);
    if NextEvent(st, t).Some? { OutcomesSnoc(st.log, NextEvent(st, t).value, k); }
  }

  lemma StepCounts(st: State, a: Action, k: Task)
    requires Enabled(st, a) && CountedAt(st, k)
    ensures CountedAt(Step(st, a), k)
  {
    if a.Go? {
      GoCounts(st, a.t, k);
    } else {
      PendingUpdate(st.pc, a.t, Step(st, a).pc[a.t], k);
    }
  }

  /** A thread that leaves has just logged its decision. */
  lemma LeavesAfterDeciding(st: State, a: Action, t: Thread)
    requires Enabled(st, a) && t < |st.pc| && Step(st, a).pc[t].Leaving?
    ensures st.pc[t].Leaving? ==> Step(st, a).pc[t] == st.pc[t]
    ensures !st.pc[t].Leaving? ==> a == Go(t) && NextEvent(st, t).Some?
    ensures !st.pc[t].Leaving? ==> Decision(NextEvent(st, t).value, Step(st, a).pc[t].task, Step(st, a).pc[t].accepted)
  {
    if t != a.t { OthersStay(st, a, t); }
  }

  lemma StepAnswers(st: State, a: Action, t: Thread)
    requires Enabled(st, a) && t < |st.pc| && Step(st, a).pc[t].Leaving?
    requires st.pc[t].Leaving? ==> Answered(st.log, st.pc[t].task, st.pc[t].accepted)
    ensures Answered(Step(st, a).log, Step(st, a).pc[t].task, Step(st, a).pc[t].accepted)
  {
    LeavesAfterDeciding(st, a, t);
    var st' := Step(st, a);
    LogStep(st, a);
    if st.pc[t].Leaving? {
      var i :| 0 <= i < |st.log| && Decision(st.log[i], st.pc[t].task, st.pc[t].accepted);
      assert st'.log[i] == st.log[i];
    } else {
      assert Decision(st'.log[|st.log|], st'.pc[t].task, st'.pc[t].accepted);
    }
  }

  lemma StepKeepsBooks(st: State, a: Action)
    requires Bookkept(st) && Enabled(st, a)
    ensures Bookkept(Step(st, a))
  {
    var st' := Step(st, a);
    forall r: Runner ensures Inbox(st', r) == Delivered(st'.log, r) { StepDelivers(st, a, r); }
    forall k: Task ensures CountedAt(st', k) {
      assert CountedAt(st, k);
      StepCounts(st, a, k);
    }
    forall t: Thread | t < |st'.pc| && st'.pc[t].Leaving?
      ensures Answered(st'.log, st'.pc[t].task, st'.pc[t].accepted)
    {
      StepAnswers(st, a, t);
    }
  }

  lemma StepKeepsInv(st: State, n: nat, a: Action)
    requires Inv(st, n) && Enabled(st, a)
    ensures Inv(Step(st, a), n)
  {
    StepKeepsShape(st, n, a);
    StepMirrors(st, n, a);
    StepKeepsBooks(st, a);
  }

  lemma {:induction false} ExecKeepsInv(st: State, n: nat, acts: seq<Action>)
    requires Inv(st, n) && Legal(st, acts)
    ensures Inv(Exec(st, acts), n)
    decreases |acts|
  {
    if acts != [] {
      StepKeepsInv(st, n, acts[0]);
      ExecKeepsInv(Step(st, acts[0]), n, acts[1..]);
    }
  }

  ghost predicate Reachable(st: State, n: nat) {
    exists m: nat, acts :: Legal(Init(n, m), acts) && st == Exec(Init(n, m), acts)
  }

  lemma ReachableInv(st: State, n: nat)
    requires Reachable(st, n)
    ensures Inv(st, n)
  {
    var m: nat, acts :| Legal(Init(n, m), acts) && st == Exec(Init(n, m), acts);
    InitInv(n, m);
    ExecKeepsInv(Init(n, m), n, acts);
  }

  // ---- the theorems ----

  lemma NobodyLives(st: State, n: nat, t: Thread)
    requires Shape(st, n) && t < |st.pc| && InSection(st.pc[t]) && st.pc[t].via.Some?
    ensures !Busy(st, st.pc[t].id)
  {
    forall u | 0 <= u < |st.pc| && Lives(st.pc[u]) ensures st.pc[u].id != st.pc[t].id {
      ElisionExcludesLifetimes(st, n, t, u);
    }
  }

  lemma SettledThread(st: State, j: Id, u: Thread)
    requires j < |st.reg.states| && |st.reg.states| == |st.reg.runners|
    requires st.reg.states[j] != Uninitialized && st.reg.runners[j].Some?
    ensures Settled(st, j, u) ==>
      var v := st.reg.runners[j].value.thread; v == u || (v < |st.pc| && st.pc[v].Exited?)
  {
  }

  lemma NobodyMayDestruct(st: State, n: nat, t: Thread)
    requires Shape(st, n) && t < |st.pc| && InSection(st.pc[t]) && st.pc[t].via.Some?
    ensures forall u: Thread :: !Enabled(st, Destruct(u, st.pc[t].id))
  {
    assert ThreadOk(st, t);
    var c := st.pc[t].via.value;
    forall u: Thread ensures !Enabled(st, Destruct(u, st.pc[t].id)) {
      SettledThread(st, c, u);
    }
  }

  /** Lock elision is safe: while a thread is in PostTaskHelper's section for `id`
      without the lock, no thread is about to write `id`'s entries, and no constructor
      or destructor of `id` may start. */
  lemma NoWriteDuringElision(st: State, n: nat, t: Thread)
    requires Reachable(st, n) && t < |st.pc| && InSection(st.pc[t]) && st.pc[t].via.Some?
    ensures !Busy(st, st.pc[t].id)
    ensures forall u: Thread, r: Runner :: !Enabled(st, Construct(u, st.pc[t].id, r))
    ensures forall u: Thread :: !Enabled(st, Destruct(u, st.pc[t].id))
  {
    ReachableInv(st, n);
    NobodyLives(st, n, t);
    NobodyMayDestruct(st, n, t);
    assert ThreadOk(st, t);
  }

  /** What a thread has read in its section, with the lock or without, is still what
      the arrays hold; the unlocked path decides as the locked one would. */
  lemma ReadsAreCurrent(st: State, n: nat, t: Thread)
    requires Reachable(st, n) && t < |st.pc|
    ensures WellSized(st.reg, n)
    ensures st.pc[t].SawState? || st.pc[t].SawRunner? ==>
      st.pc[t].id < n && st.reg.states[st.pc[t].id] == Running && st.reg.runners[st.pc[t].id].Some?
    ensures st.pc[t].SawRunner? ==> st.pc[t].id < n && st.reg.runners[st.pc[t].id] == Some(st.pc[t].runner)
  {
    ReachableInv(st, n);
    assert ThreadOk(st, t);
    if st.pc[t].SawState? {
      RunnerIsThere(st, n, t);
    }
  }

  /** Every run of the lock-eliding code is a run of the atomic registry: its log is a
      legal history, replays to the arrays whenever the lock is free, and delivered to
      each runner exactly the accepted tasks in order. */
  lemma RefinesAtomicRegistry(st: State, n: nat)
    requires Reachable(st, n)
    ensures LegalLog(n, st.log)
    ensures st.lock.None? ==> Replay(n, st.log) == st.reg
    ensures forall r: Runner :: Inbox(st, r) == Delivered(st.log, r)
  {
    ReachableInv(st, n);
    if st.lock.None? {
      assert Replay(n, st.log).states == st.reg.states;
    }
  }

  /** Every call of PostTaskHelper decides exactly once, inside the call, and returns
      what it decided. */
  lemma EveryPostDecidesOnce(st: State, n: nat, k: Task)
    requires Reachable(st, n)
    ensures Outcomes(st.log, k) + Pending(st.pc, k) == One(k in st.used)
    ensures forall t: Thread :: t < |st.pc| && st.pc[t].Leaving? ==> Answered(st.log, st.pc[t].task, st.pc[t].accepted)
  {
    ReachableInv(st, n);
    assert CountedAt(st, k);
  }

  /** With the lock free an id has a runner exactly from its registration on, also
      after its shutdown. */
  lemma RunnerSurvivesShutdown(st: State, n: nat, id: Id)
    requires Reachable(st, n) && st.lock.None? && id < n
    ensures WellSized(st.reg, n)
    ensures st.reg.runners[id].Some? <==> st.reg.states[id] != Uninitialized
  {
    ReachableInv(st, n);
  }

  predicate HasRegistered(log: seq<Event>, id: Id) {
    exists i :: 0 <= i < |log| && log[i].Registered? && log[i].id == id
  }

  predicate HasUnregistered(log: seq<Event>, id: Id) {
    exists i :: 0 <= i < |log| && log[i] == Unregistered(id)
  }

  lemma HasSnoc(log: seq<Event>, e: Event, id: Id)
    ensures HasRegistered(log + [e], id) <==> HasRegistered(log, id) || (e.Registered? && e.id == id)
    ensures HasUnregistered(log + [e], id) <==> HasUnregistered(log, id) || e == Unregistered(id)
  {
    var log' := log + [e];
    assert log'[|log|] == e;
    if i :| 0 <= i < |log| && log[i].Registered? && log[i].id == id {
      assert log'[i].Registered?;
    }
    if i :| 0 <= i < |log| && log[i] == Unregistered(id) {
      assert log'[i] == Unregistered(id);
    }
  }

  /** What a registry knows of an id, read off the events. */
  predicate StateByLog(r: Registry, log: seq<Event>, id: Id)
    requires id < |r.states|
  {
    && r.states[id] == (if HasUnregistered(log, id) then Shutdown
                        else if HasRegistered(log, id) then Running else Uninitialized)
    && (HasUnregistered(log, id) ==> HasRegistered(log, id))
  }

  ghost predicate RunnerByLog(r: Registry, log: seq<Event>, id: Id)
    requires id < |r.runners|
  {
    && (forall x :: r.runners[id] == Some(x) <==> Registered(id, x) in log)
    && (r.runners[id].Some? <==> HasRegistered(log, id))
  }

  lemma StateSnoc(r: Registry, log: seq<Event>, e: Event, id: Id)
    requires |r.states| == |r.runners| && id < |r.states| && Fits(r, e) && StateByLog(r, log, id)
    ensures StateByLog(Apply(r, e), log + [e], id)
  {
    HasSnoc(log, e, id);
  }

  lemma RunnerSnoc(r: Registry, log: seq<Event>, e: Event, id: Id)
    requires |r.states| == |r.runners| && id < |r.states| && Fits(r, e) && RunnerByLog(r, log, id)
    ensures RunnerByLog(Apply(r, e), log + [e], id)
  {
    HasSnoc(log, e, id);
    assert forall x :: Registered(id, x) in log + [e] <==> Registered(id, x) in log || e == Registered(id, x);
  }

  /** The state and the runner of an id after any history. */
  lemma {:induction false} ReplayedState(n: nat, log: seq<Event>, id: Id)
    requires LegalLog(n, log) && id < n
    ensures StateByLog(Replay(n, log), log, id) && RunnerByLog(Replay(n, log), log, id)
    decreases |log|
  {
    if log != [] {
      var rest, e := log[..|log| - 1], log[|log| - 1];
      assert log == rest + [e];
      assert forall i :: 0 <= i < |rest| ==> log[..i] == rest[..i];
      ReplayedState(n, rest, id);
      assert Fits(Replay(n, log[..|rest|]), log[|rest|]);
      StateSnoc(Replay(n, rest), rest, e, id);
      RunnerSnoc(Replay(n, rest), rest, e, id);
    }
  }

  /** How a post is decided at the end of a history. */
  lemma DecidedByLog(n: nat, log: seq<Event>, id: Id, task: Task)
    requires LegalLog(n, log) && id < n
    ensures Replay(n, log).states[id] == Running <==> HasRegistered(log, id) && !HasUnregistered(log, id)
    ensures Replay(n, log).states[id] == Running ==> var r := Replay(n, log).runners[id];
      r.Some? && Registered(id, r.value) in log && LegalLog(n, log + [Accepted(id, task, r.value)])
        && Replay(n, log + [Accepted(id, task, r.value)]) == Replay(n, log)
    ensures Replay(n, log).states[id] != Running ==>
      LegalLog(n, log + [Refused(id, task)]) && Replay(n, log + [Refused(id, task)]) == Replay(n, log)
  {
    ReplayedState(n, log, id);
    if Replay(n, log).states[id] == Running {
      ReplaySnoc(n, log, Accepted(id, task, Replay(n, log).runners[id].value));
    } else {
      ReplaySnoc(n, log, Refused(id, task));
    }
  }

  /** What reached any runner, in order. */
  function Posts(log: seq<Event>): seq<(Runner, Task)> {
    if log == [] then [] else
      var last := log[|log| - 1];
      Posts(log[..|log| - 1]) + if last.Accepted? then [(last.runner, last.task)] else []
  }

  lemma PostsSnoc(log: seq<Event>, e: Event)
    ensures Posts(log + [e]) == Posts(log) + if e.Accepted? then [(e.runner, e.task)] else []
  {
    Snoc(log, e);
  }

  /** A post is accepted if and only if it takes effect between the registration and
      the unregistration of its target, and it goes to the runner registered there. */
  lemma AcceptedIffRegistered(st: State, n: nat, i: nat)
    requires Reachable(st, n) && i < |st.log| && (st.log[i].Accepted? || st.log[i].Refused?)
    ensures st.log[i].Accepted? <==>
      HasRegistered(st.log[..i], st.log[i].id) && !HasUnregistered(st.log[..i], st.log[i].id)
    ensures st.log[i].Accepted? ==> Registered(st.log[i].id, st.log[i].runner) in st.log[..i]
  {
    RefinesAtomicRegistry(st, n);
    var before := st.log[..i];
    assert forall j :: 0 <= j < |before| ==> before[..j] == st.log[..j] && before[j] == st.log[j];
    ReplayedState(n, before, st.log[i].id);
    assert Fits(Replay(n, st.log[..i]), st.log[i]);
  }

  /** The calling thread is bound to some id, and to none before `id`. */
  predicate OutlivedBy(runners: seq<Option<Runner>>, t: Thread, id: Id) {
    && (exists j :: 0 <= j < |runners| && BelongsTo(runners[j], t))
    && (forall j :: 0 <= j < id && j < |runners| ==> !BelongsTo(runners[j], t))
  }

  lemma OutlivesIff(runners: seq<Option<Runner>>, t: Thread, id: Id)
    ensures Outlives(runners, t, id).Some? <==> OutlivedBy(runners, t, id)
  {
    var c := CurrentIdFrom(runners, t, 0);
    if c.Some? {
      assert BelongsTo(runners[c.value], t);
    }
  }

  /** A post leaves the lock out if and only if its thread is bound to an id and every id
      it is bound to comes at or after the target; otherwise it takes the lock. */
  lemma ElidedIff(st: State, t: Thread)
    requires Enabled(st, Go(t)) && st.pc[t].Scanning?
    ensures var p := GoStep(st, t).pc[t];
      && p.Decided? && p.id == st.pc[t].id && p.task == st.pc[t].task
      && (p.via.Some? <==> OutlivedBy(st.reg.runners, t, p.id))
      && (p.via.None? <==> Acquires(p))
  {
    OutlivesIff(st.reg.runners, t, st.pc[t].id);
  }

  // ---- where events come from ----

  /** The action asks for this event. */
  predicate Asks(a: Action, e: Event) {
    match e
    case Registered(id, runner) => a.Construct? && a.id == id && a.runner == runner
    case Unregistered(id) => a.Destruct? && a.id == id
    case Accepted(id, task, _) => a.CallPost? && a.id == id && a.task == task
    case Refused(id, task) => a.CallPost? && a.id == id && a.task == task
  }

  predicate Asked(acts: seq<Action>, e: Event) {
    exists j :: 0 <= j < |acts| && Asks(acts[j], e)
  }

  /** The call a thread is in was asked for, with the same arguments. */
  predicate CallAsked(acts: seq<Action>, p: Pc) {
    if p.Idle? || p.Exited? || p.Leaving? then true
    else if Builds(p) then Asked(acts, Registered(p.id, p.runner))
    else if Razes(p) then Asked(acts, Unregistered(p.id))
    else Asked(acts, Refused(p.id, p.task))
  }

  predicate AllAsked(acts: seq<Action>, st: State) {
    && (forall t :: 0 <= t < |st.pc| ==> CallAsked(acts, st.pc[t]))
    && (forall i :: 0 <= i < |st.log| ==> Asked(acts, st.log[i]))
  }

  lemma AskedSnoc(acts: seq<Action>, a: Action, e: Event)
    ensures Asked(acts, e) || Asks(a, e) ==> Asked(acts + [a], e)
  {
    var all := acts + [a];
    assert all[|acts|] == a;
    if j :| 0 <= j < |acts| && Asks(acts[j], e) { assert Asks(all[j], e); }
  }

  lemma CallAskedSnoc(acts: seq<Action>, a: Action, p: Pc)
    requires CallAsked(acts, p)
    ensures CallAsked(acts + [a], p)
  {
    if p.Idle? || p.Exited? || p.Leaving? {
    } else if Builds(p) {
      AskedSnoc(acts, a, Registered(p.id, p.runner));
    } else if Razes(p) {
      AskedSnoc(acts, a, Unregistered(p.id));
    } else {
      AskedSnoc(acts, a, Refused(p.id, p.task));
    }
  }

  lemma NewEventAsked(acts: seq<Action>, st: State, t: Thread)
    requires Enabled(st, Go(t)) && NextEvent(st, t).Some? && CallAsked(acts, st.pc[t])
    ensures Asked(acts, NextEvent(st, t).value)
  {
    if NextEvent(st, t).value.Accepted? {
      var e := Refused(st.pc[t].id, st.pc[t].task);
      var j :| 0 <= j < |acts| && Asks(acts[j], e);
      assert Asks(acts[j], NextEvent(st, t).value);
    }
  }

  lemma CallKept(acts: seq<Action>, st: State, t: Thread)
    requires Enabled(st, Go(t)) && CallAsked(acts, st.pc[t])
    ensures CallAsked(acts, GoStep(st, t).pc[t])
  {
  }

  lemma MoverAsked(acts: seq<Action>, st: State, a: Action)
    requires Enabled(st, a) && CallAsked(acts, st.pc[a.t])
    ensures CallAsked(acts + [a], Step(st, a).pc[a.t])
  {
    match a {
      case CallPost(_, id, task) => AskedSnoc(acts, a, Refused(id, task));
      case Construct(_, id, runner) => AskedSnoc(acts, a, Registered(id, runner));
      case Destruct(_, id) => AskedSnoc(acts, a, Unregistered(id));
      case Exit(_) =>
      case Go(t) =>
        CallKept(acts, st, t);
        CallAskedSnoc(acts, a, GoStep(st, t).pc[t]);
    }
  }

  lemma StepAsked(acts: seq<Action>, st: State, a: Action)
    requires AllAsked(acts, st) && Enabled(st, a)
    ensures AllAsked(acts + [a], Step(st, a))
  {
    var st' := Step(st, a);
    LogStep(st, a);
    forall t: Thread | t < |st'.pc| ensures CallAsked(acts + [a], st'.pc[t]) {
      if t == a.t {
        MoverAsked(acts, st, a);
      } else {
        OthersStay(st, a, t);
        CallAskedSnoc(acts, a, st.pc[t]);
      }
    }
    forall i | 0 <= i < |st'.log| ensures Asked(acts + [a], st'.log[i]) {
      if i == |st.log| { NewEventAsked(acts, st, a.t); }
      AskedSnoc(acts, a, st'.log[i]);
    }
  }

  lemma {:induction false} RunAsked(before: seq<Action>, st: State, acts: seq<Action>)
    requires AllAsked(before, st) && Legal(st, acts)
    ensures AllAsked(before + acts, Exec(st, acts))
    decreases |acts|
  {
    if acts == [] {
      assert before + acts == before;
    } else {
      StepAsked(before, st, acts[0]);
      RunAsked(before + [acts[0]], Step(st, acts[0]), acts[1..]);
      assert before + [acts[0]] + acts[1..] == before + acts;
    }
  }

  /** In every run each decision is about the id and the task of a call that was made, and
      each registration and unregistration is one that was made, with its runner. */
  lemma EventsComeFromCalls(n: nat, m: nat, acts: seq<Action>, i: nat)
    requires Legal(Init(n, m), acts) && i < |Exec(Init(n, m), acts).log|
    ensures Asked(acts, Exec(Init(n, m), acts).log[i])
  {
    RunAsked([], Init(n, m), acts);
    assert [] + acts == acts;
  }

  // ---- the globals, updated in place ----

  /** The globals with the history of the calls made, which they are always the replay of. */
  class WebThreadGlobals {
    const states: array<IdState>
    const taskRunners: array<Option<Runner>>
    var locked: bool
    var posted: seq<(Runner, Task)>
    ghost var log: seq<Event>

    function View(): Registry
      reads this, states, taskRunners
    {
      Registry(states[..], taskRunners[..])
    }

    /** Valid but for the lock. */
    ghost predicate Sound()
      reads this, states, taskRunners
    {
      && states.Length == taskRunners.Length
      && LegalLog(states.Length, log) && View() == Replay(states.Length, log)
      && posted == Posts(log)
    }

    ghost predicate Valid()
      reads this, states, taskRunners
    {
      Sound() && !locked
    }

    constructor (idCount: nat)
      ensures Valid() && fresh(states) && fresh(taskRunners)
      ensures View() == Blank(idCount) && log == []
    {
      states := new IdState[idCount](_ => Uninitialized);
      taskRunners := new Option<Runner>[idCount](_ => None);
      locked, posted, log := false, [], [];
    }

    /** The WebThreadImpl constructor. */
    method Register(id: Id, runner: Runner)
      requires Valid() && id < states.Length && Fits(View(), Registered(id, runner))
      modifies this`locked, this`log, states, taskRunners
      ensures Valid() && View() == Apply(old(View()), Registered(id, runner))
      ensures log == old(log) + [Registered(id, runner)]
    {
      ReplaySnoc(states.Length, log, Registered(id, runner));
      Snoc(log, Registered(id, runner));
      locked := true;
      assert states[..][id] == states[id] && taskRunners[..][id] == taskRunners[id];
      assert states[id] == Uninitialized;
      states[id] := Running;
      assert taskRunners[id] == None;
      taskRunners[id] := Some(runner);
      locked := false;
      log := log + [Registered(id, runner)];
    }

    /** The WebThreadImpl destructor: the runner stays. */
    method Unregister(id: Id)
      requires Valid() && id < states.Length && Fits(View(), Unregistered(id))
      modifies this`locked, this`log, states
      ensures Valid() && View() == Apply(old(View()), Unregistered(id))
      ensures log == old(log) + [Unregistered(id)]
    {
      ReplaySnoc(states.Length, log, Unregistered(id));
      Snoc(log, Unregistered(id));
      locked := true;
      assert states[..][id] == states[id];
      assert states[id] == Running;
      states[id] := Shutdown;
      locked := false;
      log := log + [Unregistered(id)];
    }

    method IsThreadInitialized(id: Id) returns (up: bool)
      requires Valid() && id < states.Length
      ensures up <==> HasRegistered(log, id) && !HasUnregistered(log, id)
    {
      ReplayedState(states.Length, log, id);
      up := states[id] == Running;
      assert states[id] == View().states[id];
    }

    /** Shutting an id down does not take its thread away. */
    method CurrentlyOn(current: Thread, id: Id) returns (on: bool)
      requires Valid() && id < states.Length
      ensures on <==> exists r :: Registered(id, r) in log && r.thread == current
    {
      ReplayedState(states.Length, log, id);
      assert taskRunners[id] == View().runners[id];
      on := taskRunners[id].Some? && taskRunners[id].value.thread == current;
    }

    /** The least id the calling thread is bound to. */
    method GetCurrentThreadIdentifier(current: Thread) returns (identifier: Option<Id>)
      requires Valid()
      ensures identifier == CurrentIdFrom(View().runners, current, 0)
    {
      var i := 0;
      while i < taskRunners.Length
        invariant 0 <= i <= taskRunners.Length
        invariant CurrentIdFrom(taskRunners[..], current, 0) == CurrentIdFrom(taskRunners[..], current, i)
      {
        if taskRunners[i].Some? && taskRunners[i].value.thread == current {
          return Some(i);
        }
        i := i + 1;
      }
      return None;
    }

    /** The section between the lock operations. */
    method PostInSection(id: Id, task: Task) returns (accepting: bool)
      requires Sound() && id < states.Length
      modifies this`posted, this`log
      ensures Sound()
      ensures accepting <==> HasRegistered(old(log), id) && !HasUnregistered(old(log), id)
      ensures accepting ==> exists r :: Registered(id, r) in old(log) && log == old(log) + [Accepted(id, task, r)]
      ensures !accepting ==> log == old(log) + [Refused(id, task)]
    {
      DecidedByLog(states.Length, log, id, task);
      assert states[id] == View().states[id] && taskRunners[id] == View().runners[id];
      accepting := states[id] == Running;
      if accepting {
        var runner := taskRunners[id];
        assert runner.Some?;
        PostsSnoc(log, Accepted(id, task, runner.value));
        posted := posted + [(runner.value, task)];
        log := log + [Accepted(id, task, runner.value)];
      } else {
        PostsSnoc(log, Refused(id, task));
        log := log + [Refused(id, task)];
      }
    }

    /** One post, decided and logged as the atomic registry says, whichever way the lock
        decision goes; the lock and the arrays are left as they were found. */
    method PostTaskHelper(current: Thread, id: Id, task: Task) returns (accepting: bool, ghost elided: bool)
      requires Valid() && id < states.Length
      modifies this
      ensures Valid() && View() == old(View())
      ensures elided <==> OutlivedBy(View().runners, current, id)
      ensures accepting <==> HasRegistered(old(log), id) && !HasUnregistered(old(log), id)
      ensures accepting ==> exists r :: Registered(id, r) in old(log) && log == old(log) + [Accepted(id, task, r)]
      ensures !accepting ==> log == old(log) + [Refused(id, task)]
    {
      OutlivesIff(View().runners, current, id);
      var currentId := GetCurrentThreadIdentifier(current);
      var targetOutlivesCurrent := currentId.Some? && currentId.value >= id;
      if !targetOutlivesCurrent {
        locked := true;
      }
      elided := !locked;
      accepting := PostInSection(id, task);
      if !targetOutlivesCurrent {
        locked := false;
      }
    }
  }
}
