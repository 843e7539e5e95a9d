/**
 Deferred destruction of URL data sources (web/webui/url_data_manager_ios.cc).

 Any number of threads release references. The thread that drops the last one
 carries the source into a lock-protected list; the thread that finds the list
 empty posts one `DeleteDataSources` task to the UI thread. Every atomic step
 between two lock or queue operations is one action here, so a run is an
 arbitrary interleaving.
 */
module DeferredDeletion {
  import opened Prelude

  type Source = nat
  type Thread = nat

  const UI: Thread := 0

  /** Where a thread stands inside DeleteDataSource or DeleteDataSources. */
  datatype Pc =
    | Idle
    | WantLock(s: Source)                 // last reference gone, not on the UI thread
    | Holding(s: Source)                  // lock held
    | Tested(s: Source, schedule: bool)   // lock held, emptiness read
    | Pushed(schedule: bool)              // lock held, source in the list
    | MustPost                            // lock left, the task is not posted yet
    | FlushWant                           // inside DeleteDataSources, before the lock
    | FlushHold                           // lock held
    | Flushing(rest: seq<Source>)         // lock left, still to delete `rest`

  datatype Death = Death(source: Source, thread: Thread)

  datatype State = State(
    refs: map<Source, nat>,         // reference count of every source ever made
    queue: Option<seq<Source>>,     // data_sources_, None while it is NULL
    lock: Option<Thread>,
    pc: seq<Pc>,
    tasks: nat,                     // DeleteDataSources tasks waiting on the UI queue
    accepting: bool,                // the UI id is RUNNING
    dead: seq<Death>)               // destructor runs, in order

  datatype Action =
    | Create(s: Source)
    | AddRef(s: Source)
    | Release(t: Thread, s: Source)
    | Respond(s: Source)            // SendResponse
    | Lock(t: Thread)
    | Test(t: Thread)
    | Push(t: Thread)
    | Unlock(t: Thread)
    | Post(t: Thread)
    | Wake                          // the UI loop starts a posted DeleteDataSources
    | Explicit                      // DeleteDataSources called directly on the UI thread
    | FlushLock
    | FlushSwap
    | Destroy
    | FlushDone
    | Close                         // the UI id becomes SHUTDOWN

  function Init(n: nat): State
    requires 0 < n
  {
    State(map[], None, None, seq(n, _ => Idle), 0, true, [])
  }

  function Queued(st: State): seq<Source> {
    if st.queue.Some? then st.queue.value else []
  }

  predicate IsScheduledForDeletion(st: State, s: Source) {
    s in Queued(st)
  }

  /** The thread has dropped the last reference to `s` but not listed it yet. */
  predicate ToList(p: Pc, s: Source) {
    p == WantLock(s) || p == Holding(s) || (p.Tested? && p.s == s)
  }

  predicate InWindow(st: State, s: Source) {
    exists t :: 0 <= t < |st.pc| && ToList(st.pc[t], s)
  }

  predicate InBatch(st: State, s: Source) {
    exists t :: 0 <= t < |st.pc| && st.pc[t].Flushing? && s in st.pc[t].rest
  }

  predicate Destroyed(st: State, s: Source) {
    exists i :: 0 <= i < |st.dead| && st.dead[i].source == s
  }

  predicate Enabled(st: State, a: Action) {
    && 0 < |st.pc|
    && match a
       case Create(s) => s !in st.refs
       case AddRef(s) => s in st.refs && 0 < st.refs[s]
       case Release(t, s) =>
         && t < |st.pc| && s in st.refs && 0 < st.refs[s]
         && (st.pc[t].Idle? || (t == UI && st.pc[t].Flushing?))
       case Respond(s) => s in st.refs && st.lock.None? && !InWindow(st, s) && !InBatch(st, s) && !Destroyed(st, s)
       case Lock(t) => t < |st.pc| && st.pc[t].WantLock? && st.lock.None?
       case Test(t) => t < |st.pc| && st.pc[t].Holding?
       case Push(t) => t < |st.pc| && st.pc[t].Tested?
       case Unlock(t) => t < |st.pc| && st.pc[t].Pushed?
       case Post(t) => t < |st.pc| && st.pc[t].MustPost?
       case Wake => st.pc[UI].Idle? && 0 < st.tasks
       case Explicit => st.pc[UI].Idle?
       case FlushLock => st.pc[UI].FlushWant? && st.lock.None?
       case FlushSwap => st.pc[UI].FlushHold?
       case Destroy => st.pc[UI].Flushing? && st.pc[UI].rest != []
       case FlushDone => st.pc[UI].Flushing? && st.pc[UI].rest == []
       case Close => st.accepting
  }

  function At(st: State, t: Thread, p: Pc): State
    requires t < |st.pc|
  {
    st.(pc := st.pc[t := p])
  }

  function Bury(st: State, s: Source, t: Thread): State {
    st.(dead := st.dead + [Death(s, t)])
  }

  /** The guard and the reference it protects; the bound task holds the reference. */
  function SendResponse(st: State, s: Source): State
    requires s in st.refs
  {
    if IsScheduledForDeletion(st, s) then st
    else st.(refs := st.refs[s := st.refs[s] + 1])
  }

  function Step(st: State, a: Action): State
    requires Enabled(st, a)
  {
    match a
    case Create(s) => st.(refs := st.refs[s := 1])
    case AddRef(s) => st.(refs := st.refs[s := st.refs[s] + 1])
    case Release(t, s) =>
      var less := st.(refs := st.refs[s := st.refs[s] - 1]);
      if st.refs[s] > 1 then less
      else if t == UI then Bury(less, s, t)
      else At(less, t, WantLock(s))
    case Respond(s) => SendResponse(st, s)
    case Lock(t) => At(st, t, Holding(st.pc[t].s)).(lock := Some(t))
    case Test(t) =>
      At(st, t, Tested(st.pc[t].s, Queued(st) == [])).(queue := Some(Queued(st)))
    case Push(t) =>
      At(st, t, Pushed(st.pc[t].schedule)).(queue := Some(Queued(st) + [st.pc[t].s]))
    case Unlock(t) =>
      At(st, t, if st.pc[t].schedule then MustPost else Idle).(lock := None)
    case Post(t) =>
      At(st, t, Idle).(tasks := if st.accepting then st.tasks + 1 else st.tasks)
    case Wake => At(st, UI, FlushWant).(tasks := st.tasks - 1)
    case Explicit => At(st, UI, FlushWant)
    case FlushLock => At(st, UI, FlushHold).(lock := Some(UI))
    case FlushSwap =>
      if st.queue.None? then At(st, UI, Idle).(lock := None)
      else At(st, UI, Flushing(st.queue.value)).(lock := None, queue := Some([]))
    case Destroy =>
      Bury(At(st, UI, Flushing(st.pc[UI].rest[1..])), st.pc[UI].rest[0], UI)
    case FlushDone => At(st, UI, Idle)
    case Close => st.(accepting := false)
  }

  predicate Legal(st: State, acts: seq<Action>)
    decreases |acts|
  {
    acts == [] || (Enabled(st, acts[0]) && Legal(Step(st, acts[0]), acts[1..]))
  }

  function Exec(st: State, acts: seq<Action>): State
    requires Legal(st, acts)
    decreases |acts|
  {
    if acts == [] then st else Exec(Step(st, acts[0]), acts[1..])
  }

  // ---- where each source is ----

  function One(b: bool): nat { if b then 1 else 0 }

  function Occurrences(q: seq<Source>, s: Source): nat {
    if q == [] then 0 else One(q[0] == s) + Occurrences(q[1..], s)
  }

  /** How often the thread itself is carrying `s` towards its destructor. */
  function Carried(p: Pc, s: Source): nat {
    match p
    case WantLock(x) => One(x == s)
    case Holding(x) => One(x == s)
    case Tested(x, _) => One(x == s)
    case Flushing(rest) => Occurrences(rest, s)
    case _ => 0
  }

  function AllCarried(pc: seq<Pc>, s: Source): nat {
    if pc == [] then 0 else Carried(pc[0], s) + AllCarried(pc[1..], s)
  }

  function Deaths(dead: seq<Death>, s: Source): nat {
    if dead == [] then 0 else Deaths(dead[..|dead| - 1], s) + One(dead[|dead| - 1].source == s)
  }

  /** The number of places `s` occupies on its way out: threads, list, graves. */
  function Places(st: State, s: Source): nat {
    AllCarried(st.pc, s) + Occurrences(Queued(st), s) + Deaths(st.dead, s)
  }

  predicate HoldsLock(p: Pc) {
    p.Holding? || p.Tested? || p.Pushed? || p.FlushHold?
  }

  predicate FlushPc(p: Pc) {
    p.FlushWant? || p.FlushHold? || p.Flushing?
  }

  predicate OwesTask(p: Pc) {
    p.MustPost? || p == Pushed(true)
  }

  predicate Wakeful(st: State) {
    || 0 < st.tasks
    || (0 < |st.pc| && (st.pc[UI].FlushWant? || st.pc[UI].FlushHold?))
    || exists t :: 0 <= t < |st.pc| && OwesTask(st.pc[t])
  }

  predicate ConservedAt(st: State, s: Source) {
    Places(st, s) == if s in st.refs && st.refs[s] == 0 then 1 else 0
  }

  predicate ThreadOk(st: State, t: Thread)
    requires t < |st.pc|
  {
    && (HoldsLock(st.pc[t]) <==> st.lock == Some(t))
    && (if t == UI then st.pc[t].Idle? || FlushPc(st.pc[t]) else !FlushPc(st.pc[t]))
    && (st.pc[t].Tested? ==> st.pc[t].schedule == (Queued(st) == []))
  }

  ghost predicate Inv(st: State) {
    && 0 < |st.pc|
    && (st.lock.Some? ==> st.lock.value < |st.pc|)
    && (forall t: Thread :: t < |st.pc| ==> ThreadOk(st, t))
    && (forall s: Source :: ConservedAt(st, s))
    && (st.accepting && Queued(st) != [] ==> Wakeful(st))
    && (forall i :: 0 <= i < |st.dead| ==> st.dead[i].thread == UI)
  }

  lemma {:induction false} CarriedUpdate(pc: seq<Pc>, t: Thread, p: Pc, s: Source)
    requires t < |pc|
    ensures AllCarried(pc[t := p], s) == AllCarried(pc, s) - Carried(pc[t], s) + Carried(p, s)
  {
    if t == 0 {
      assert pc[t := p][1..] == pc[1..];
    } else {
      CarriedUpdate(pc[1..], t - 1, p, s);
      assert pc[t := p][1..] == pc[1..][t - 1 := p];
    }
  }

  lemma {:induction false} CarriedSomewhere(pc: seq<Pc>, s: Source)
    ensures 0 < AllCarried(pc, s) <==> exists t :: 0 <= t < |pc| && 0 < Carried(pc[t], s)
  {
    if pc != [] {
      CarriedSomewhere(pc[1..], s);
      if 0 < AllCarried(pc[1..], s) {
        var t :| 0 <= t < |pc[1..]| && 0 < Carried(pc[1..][t], s);
        assert 0 < Carried(pc[t + 1], s);
      }
      if t :| 0 <= t < |pc| && 0 < Carried(pc[t], s) {
        if t > 0 {
          assert 0 < Carried(pc[1..][t - 1], s);
        }
      }
    }
  }

  lemma {:induction false} OccurrencesIn(q: seq<Source>, s: Source)
    ensures 0 < Occurrences(q, s) <==> s in q
  {
    if q != [] {
      OccurrencesIn(q[1..], s);
    }
  }

  lemma {:induction false} OccurrencesPush(q: seq<Source>, x: Source, s: Source)
    ensures Occurrences(q + [x], s) == Occurrences(q, s) + One(x == s)
  {
    if q == [] {
      assert q + [x] == [x];
    } else {
      OccurrencesPush(q[1..], x, s);
      assert (q + [x])[1..] == q[1..] + [x];
    }
  }

  lemma {:induction false} DeathsIn(dead: seq<Death>, s: Source)
    ensures 0 < Deaths(dead, s) <==> exists i :: 0 <= i < |dead| && dead[i].source == s
  {
    if dead != [] {
      var rest := dead[..|dead| - 1];
      DeathsIn(rest, s);
      if i :| 0 <= i < |dead| && dead[i].source == s {
        if i < |dead| - 1 {
          assert rest[i].source == s;
        }
      }
    }
  }

  lemma BuryDeaths(dead: seq<Death>, d: Death, s: Source)
    ensures Deaths(dead + [d], s) == Deaths(dead, s) + One(d.source == s)
  {
    assert (dead + [d])[..|dead|] == dead;
  }

  lemma {:induction false} AllIdleCarryNothing(pc: seq<Pc>, s: Source)
    requires forall t :: 0 <= t < |pc| ==> pc[t].Idle?
    ensures AllCarried(pc, s) == 0
  {
    if pc != [] {
      AllIdleCarryNothing(pc[1..], s);
    }
  }

  lemma InitInv(n: nat)
    requires 0 < n
    ensures Inv(Init(n))
  {
    forall s: Source ensures ConservedAt(Init(n), s) {
      AllIdleCarryNothing(Init(n).pc, s);
    }
  }

  /** A source with count zero is in a window, the list, a batch or a grave, and
      a source in any of these has count zero. */
  lemma ZeroCountIsSomewhere(st: State, s: Source)
    requires ConservedAt(st, s)
    ensures (s in st.refs && st.refs[s] == 0)
       <==> InWindow(st, s) || IsScheduledForDeletion(st, s) || InBatch(st, s) || Destroyed(st, s)
  {
    CarriedSomewhere(st.pc, s);
    DeathsIn(st.dead, s);
    OccurrencesIn(Queued(st), s);
    if t :| 0 <= t < |st.pc| && 0 < Carried(st.pc[t], s) {
      if st.pc[t].Flushing? {
        OccurrencesIn(st.pc[t].rest, s);
        assert InBatch(st, s);
      } else {
        assert ToList(st.pc[t], s);
      }
    }
    if t :| 0 <= t < |st.pc| && ToList(st.pc[t], s) {
      assert 0 < Carried(st.pc[t], s);
    }
    if t :| 0 <= t < |st.pc| && st.pc[t].Flushing? && s in st.pc[t].rest {
      OccurrencesIn(st.pc[t].rest, s);
      assert 0 < Carried(st.pc[t], s);
    }
  }

  /** The thread whose position the action moves. */
  function Mover(a: Action): Thread {
    match a
    case Release(t, _) => t
    case Lock(t) => t
    case Test(t) => t
    case Push(t) => t
    case Unlock(t) => t
    case Post(t) => t
    case _ => UI
  }

  lemma MoverOk(st: State, a: Action)
    requires Enabled(st, a) && Mover(a) < |st.pc| && ThreadOk(st, Mover(a))
    ensures Mover(a) < |Step(st, a).pc| && ThreadOk(Step(st, a), Mover(a))
  {
  }

  /** The list is only changed by the lock holder, so what another thread has tested stays. */
  lemma BystanderOk(st: State, a: Action, u: Thread)
    requires Enabled(st, a) && u < |st.pc| && Mover(a) < |st.pc| && u != Mover(a)
    requires ThreadOk(st, u) && ThreadOk(st, Mover(a))
    ensures u < |Step(st, a).pc| && ThreadOk(Step(st, a), u)
  {
  }

  lemma StepKeepsThread(st: State, a: Action, u: Thread)
    requires Inv(st) && Enabled(st, a) && u < |st.pc|
    ensures ThreadOk(Step(st, a), u)
  {
    assert ThreadOk(st, u) && ThreadOk(st, Mover(a));
    if u == Mover(a) {
      MoverOk(st, a);
    } else {
      BystanderOk(st, a, u);
    }
  }

  /** A release moves the count to zero exactly when the source enters a window or a grave. */
  lemma ReleaseConserves(st: State, t: Thread, x: Source, s: Source)
    requires Enabled(st, Release(t, x)) && ConservedAt(st, s)
    ensures ConservedAt(Step(st, Release(t, x)), s)
  {
    if st.refs[x] == 1 {
      if t == UI {
        BuryDeaths(st.dead, Death(x, t), s);
      } else {
        CarriedUpdate(st.pc, t, WantLock(x), s);
      }
    }
  }

  /** The guard of SendResponse: it never raises a count from zero. */
  lemma RespondConserves(st: State, x: Source, s: Source)
    requires Enabled(st, Respond(x)) && ConservedAt(st, s)
    ensures ConservedAt(Step(st, Respond(x)), s)
  {
    ZeroCountIsSomewhere(st, s);
  }

  lemma PcUpdated(st: State, a: Action)
    requires Enabled(st, a) && Mover(a) < |st.pc|
    requires !a.Create? && !a.AddRef? && !a.Close? && !a.Release? && !a.Respond?
    ensures |Step(st, a).pc| == |st.pc| && Step(st, a).pc == st.pc[Mover(a) := Step(st, a).pc[Mover(a)]]
  {
  }

  lemma PushMoves(st: State, t: Thread, s: Source)
    requires Enabled(st, Push(t))
    ensures var st' := Step(st, Push(t));
      && Carried(st'.pc[t], s) + Occurrences(Queued(st'), s) == Carried(st.pc[t], s) + Occurrences(Queued(st), s)
      && st'.dead == st.dead
  {
    OccurrencesPush(Queued(st), st.pc[t].s, s);
  }

  lemma DestroyMoves(st: State, s: Source)
    requires Enabled(st, Destroy)
    ensures var st' := Step(st, Destroy);
      && Carried(st'.pc[UI], s) + Deaths(st'.dead, s) == Carried(st.pc[UI], s) + Deaths(st.dead, s)
      && st'.queue == st.queue
  {
    BuryDeaths(st.dead, Death(st.pc[UI].rest[0], UI), s);
  }

  lemma WalkMoves(st: State, a: Action, s: Source)
    requires Enabled(st, a) && Mover(a) < |st.pc|
    requires a.Lock? || a.Test? || a.Unlock? || a.Post? || a.Wake? || a.Explicit?
          || a.FlushLock? || a.FlushSwap? || a.FlushDone?
    ensures var st' := Step(st, a);
      && Carried(st'.pc[Mover(a)], s) + Occurrences(Queued(st'), s) == Carried(st.pc[Mover(a)], s) + Occurrences(Queued(st), s)
      && st'.dead == st.dead
  {
  }

  /** Every other action only moves a source from one place to the next. */
  lemma MoveConserves(st: State, a: Action, s: Source)
    requires Enabled(st, a) && Mover(a) < |st.pc| && ThreadOk(st, Mover(a))
    requires !a.Create? && !a.AddRef? && !a.Close? && !a.Release? && !a.Respond?
    ensures Places(Step(st, a), s) == Places(st, s)
    ensures Step(st, a).refs == st.refs
  {
    var st' := Step(st, a);
    CarriedUpdate(st.pc, Mover(a), st'.pc[Mover(a)], s);
    PcUpdated(st, a);
    if a.Push? {
      PushMoves(st, a.t, s);
    } else if a.Destroy? {
      DestroyMoves(st, s);
    } else {
      WalkMoves(st, a, s);
    }
  }

  lemma StepConserves(st: State, a: Action, s: Source)
    requires Enabled(st, a) && ConservedAt(st, s)
    requires Mover(a) < |st.pc| && ThreadOk(st, Mover(a))
    ensures ConservedAt(Step(st, a), s)
  {
    match a {
      case Create(_) =>
      case AddRef(_) =>
      case Close =>
      case Release(t, x) => ReleaseConserves(st, t, x, s);
      case Respond(x) => RespondConserves(st, x, s);
      case _ => MoveConserves(st, a, s);
    }
  }

  /** The wake-up rule: whoever fills an empty list owes a task until it is posted. */
  lemma StepKeepsWake(st: State, a: Action)
    requires Inv(st) && Enabled(st, a)
    requires Step(st, a).accepting && Queued(Step(st, a)) != []
    ensures Wakeful(Step(st, a))
  {
    var st' := Step(st, a);
    assert ThreadOk(st, UI) && ThreadOk(st, Mover(a));
    if OwesTask(st'.pc[Mover(a)]) {
    } else if t :| 0 <= t < |st.pc| && OwesTask(st.pc[t]) && t != Mover(a) {
      assert OwesTask(st'.pc[t]);
    }
  }

  lemma StepKeepsInv(st: State, a: Action)
    requires Inv(st) && Enabled(st, a)
    ensures Inv(Step(st, a))
  {
    var st' := Step(st, a);
    assert |st'.pc| == |st.pc|;
    forall u: Thread | u < |st'.pc| ensures ThreadOk(st', u) { StepKeepsThread(st, a, u); }
    forall s: Source ensures ConservedAt(st', s) {
      assert ConservedAt(st, s) && ThreadOk(st, Mover(a));
      StepConserves(st, a, s);
    }
    if st'.accepting && Queued(st') != [] { StepKeepsWake(st, a); }
    assert forall i :: 0 <= i < |st'.dead| ==> st'.dead[i].thread == UI;
  }

  // ---- whole runs ----

  lemma {:induction false} ExecKeepsInv(st: State, acts: seq<Action>)
    requires Inv(st) && Legal(st, acts)
    ensures Inv(Exec(st, acts))
    decreases |acts|
  {
    if acts != [] {
      StepKeepsInv(st, acts[0]);
      ExecKeepsInv(Step(st, acts[0]), acts[1..]);
    }
  }

  ghost predicate Reachable(st: State) {
    exists n: nat, acts :: 0 < n && Legal(Init(n), acts) && st == Exec(Init(n), acts)
  }

  lemma ReachableInv(st: State)
    requires Reachable(st)
    ensures Inv(st)
  {
    var n: nat, acts :| 0 < n && Legal(Init(n), acts) && st == Exec(Init(n), acts);
    InitInv(n);
    ExecKeepsInv(Init(n), acts);
  }

  /** The carrying threads count for the window and for the batch separately. */
  lemma CarriedApart(pc: seq<Pc>, s: Source)
    ensures One(exists t :: 0 <= t < |pc| && ToList(pc[t], s))
          + One(exists t :: 0 <= t < |pc| && pc[t].Flushing? && s in pc[t].rest) <= AllCarried(pc, s)
  {
    if t :| 0 <= t < |pc| && ToList(pc[t], s) {
      CarriedUpdate(pc, t, Idle, s);
      if u :| 0 <= u < |pc| && pc[u].Flushing? && s in pc[u].rest {
        OccurrencesIn(pc[u].rest, s);
        CarriedUpdate(pc[t := Idle], u, Idle, s);
      }
    } else if u :| 0 <= u < |pc| && pc[u].Flushing? && s in pc[u].rest {
      OccurrencesIn(pc[u].rest, s);
      CarriedUpdate(pc, u, Idle, s);
    }
  }

  /** Nothing lost, nothing destroyed twice: a source whose count reached zero is in
      exactly one of window, list, batch and grave, its destructor has run at most
      once and on the UI thread, and a source with references is in none of them. */
  lemma DestroyedExactlyOnce(st: State, s: Source)
    requires Reachable(st)
    ensures Deaths(st.dead, s) == One(Destroyed(st, s))
    ensures One(InWindow(st, s)) + One(IsScheduledForDeletion(st, s)) + One(InBatch(st, s)) + One(Destroyed(st, s))
         == One(s in st.refs && st.refs[s] == 0)
    ensures forall i :: 0 <= i < |st.dead| ==> st.dead[i].thread == UI
  {
    ReachableInv(st);
    assert ConservedAt(st, s);
    ZeroCountIsSomewhere(st, s);
    DeathsIn(st.dead, s);
    OccurrencesIn(Queued(st), s);
    CarriedApart(st.pc, s);
  }

  /** What the guard of SendResponse decides, exactly: of the sources that still
      exist it misses those, and only those, between their last release and the
      list, or already swapped out of the list. */
  lemma GuardMissesOnlyWindowAndBatch(st: State, s: Source)
    requires Reachable(st) && s in st.refs && !Destroyed(st, s)
    ensures (st.refs[s] == 0 && !IsScheduledForDeletion(st, s)) <==> (InWindow(st, s) || InBatch(st, s))
  {
    DestroyedExactlyOnce(st, s);
  }

  /** Hence a response is harmless, whoever sends it and whenever, exactly outside that
      window: inside it the guard lets a reference be taken on a source on its way out. */
  lemma ResponseSafeIffOutsideWindow(st: State, s: Source)
    requires Reachable(st) && s in st.refs && !Destroyed(st, s)
    ensures ConservedAt(SendResponse(st, s), s) <==> !InWindow(st, s) && !InBatch(st, s)
  {
    GuardMissesOnlyWindowAndBatch(st, s);
    ReachableInv(st);
    assert ConservedAt(st, s);
    assert Places(SendResponse(st, s), s) == Places(st, s);
    DestroyedExactlyOnce(st, s);
  }

  /** While the UI id accepts tasks, a listed source has someone coming for it. */
  lemma NoLostWakeup(st: State)
    requires Reachable(st) && st.accepting && Queued(st) != []
    ensures Wakeful(st)
  {
    ReachableInv(st);
  }

  // ---- every reference accounted for ----

  function Count(st: State, s: Source): nat {
    if s in st.refs then st.refs[s] else 0
  }

  /** What an action is for: creation, AddRef, and a response to a source that still has
      references each take one reference; a release gives one back. */
  function Taken(st: State, a: Action, s: Source): int {
    match a
    case Create(x) => if x == s then 1 else 0
    case AddRef(x) => if x == s then 1 else 0
    case Respond(x) => if x == s && 0 < Count(st, s) then 1 else 0
    case Release(_, x) => if x == s then -1 else 0
    case _ => 0
  }

  function AllTaken(st: State, acts: seq<Action>, s: Source): int
    requires Legal(st, acts)
    decreases |acts|
  {
    if acts == [] then 0 else Taken(st, acts[0], s) + AllTaken(Step(st, acts[0]), acts[1..], s)
  }

  lemma StepTakes(st: State, a: Action, s: Source)
    requires Inv(st) && Enabled(st, a)
    ensures Count(Step(st, a), s) == Count(st, s) + Taken(st, a, s)
  {
    if a.Respond? {
      assert ConservedAt(st, a.s);
      ZeroCountIsSomewhere(st, a.s);
    }
  }

  lemma {:induction false} RunTakes(st: State, acts: seq<Action>, s: Source)
    requires Inv(st) && Legal(st, acts)
    ensures Count(Exec(st, acts), s) == Count(st, s) + AllTaken(st, acts, s)
    decreases |acts|
  {
    if acts != [] {
      StepTakes(st, acts[0], s);
      StepKeepsInv(st, acts[0]);
      RunTakes(Step(st, acts[0]), acts[1..], s);
    }
  }

  /** In every run the count of a source is what was taken on it, responses to it while it
      had references included, less what was released. */
  lemma ReferencesAccounted(n: nat, acts: seq<Action>, s: Source)
    requires 0 < n && Legal(Init(n), acts)
    ensures Count(Exec(Init(n), acts), s) == AllTaken(Init(n), acts, s)
  {
    InitInv(n);
    RunTakes(Init(n), acts, s);
  }

  /** A response to a source that still exists is serviced, with one reference more and
      nothing else touched, if and only if the source has references or has lost them
      without being listed; one to a listed source changes nothing. */
  lemma ResponseServicedIff(st: State, s: Source)
    requires Reachable(st) && s in st.refs && !Destroyed(st, s)
    ensures var st' := SendResponse(st, s);
      && (Count(st', s) == Count(st, s) + 1 <==> 0 < st.refs[s] || InWindow(st, s) || InBatch(st, s))
      && (st' == st <==> IsScheduledForDeletion(st, s))
      && st'.(refs := st.refs) == st
      && forall x :: x != s ==> Count(st', x) == Count(st, x)
  {
    DestroyedExactlyOnce(st, s);
  }

  /** The last release on the UI thread destroys the source at once: nothing is listed and
      no task is posted. */
  lemma UiReleaseDestroys(st: State, s: Source)
    requires Reachable(st) && Enabled(st, Release(UI, s)) && st.refs[s] == 1
    ensures var st' := Step(st, Release(UI, s));
      && Deaths(st'.dead, s) == 1 && st'.queue == st.queue && st'.tasks == st.tasks && st'.pc == st.pc
  {
    ReachableInv(st);
    StepKeepsInv(st, Release(UI, s));
    assert ConservedAt(st, s);
    BuryDeaths(st.dead, Death(s, UI), s);
  }

  // ---- draining ----

  /** Actions that only carry on what has begun: no new release, no explicit call. */
  predicate Internal(a: Action) {
    || a.Lock? || a.Test? || a.Push? || a.Unlock? || a.Post?
    || a.Wake? || a.FlushLock? || a.FlushSwap? || a.Destroy? || a.FlushDone?
  }

  function Todo(p: Pc): nat {
    match p
    case Idle => 0
    case WantLock(_) => 11
    case Holding(_) => 10
    case Tested(_, _) => 9
    case Pushed(_) => 6
    case MustPost => 5
    case FlushWant => 3
    case FlushHold => 2
    case Flushing(rest) => 1 + |rest|
  }

  function AllTodo(pc: seq<Pc>): nat {
    if pc == [] then 0 else Todo(pc[0]) + AllTodo(pc[1..])
  }

  function Work(st: State): nat {
    AllTodo(st.pc) + |Queued(st)| + 4 * st.tasks
  }

  lemma {:induction false} TodoUpdate(pc: seq<Pc>, t: Thread, p: Pc)
    requires t < |pc|
    ensures AllTodo(pc[t := p]) == AllTodo(pc) - Todo(pc[t]) + Todo(p)
  {
    if t == 0 {
      assert pc[t := p][1..] == pc[1..];
    } else {
      TodoUpdate(pc[1..], t - 1, p);
      assert pc[t := p][1..] == pc[1..][t - 1 := p];
    }
  }

  lemma StepCheaper(st: State, a: Action)
    requires Enabled(st, a) && Internal(a)
    ensures var st' := Step(st, a);
      Todo(st'.pc[Mover(a)]) + |Queued(st')| + 4 * st'.tasks < Todo(st.pc[Mover(a)]) + |Queued(st)| + 4 * st.tasks
  {
  }

  lemma InternalWorkShrinks(st: State, a: Action)
    requires Enabled(st, a) && Internal(a)
    ensures Work(Step(st, a)) < Work(st)
  {
    PcUpdated(st, a);
    TodoUpdate(st.pc, Mover(a), Step(st, a).pc[Mover(a)]);
    StepCheaper(st, a);
  }

  predicate Quiet(st: State) {
    st.tasks == 0 && forall t :: 0 <= t < |st.pc| ==> st.pc[t].Idle?
  }

  /** No deadlock: unless everything is quiet, some begun work can go on. */
  lemma SomeoneCanMove(st: State) returns (a: Action)
    requires Inv(st) && !Quiet(st)
    ensures Internal(a) && Enabled(st, a)
  {
    assert ThreadOk(st, UI);
    var t: Thread := UI;
    if st.lock.Some? {
      t := st.lock.value;
    } else if u: Thread :| u < |st.pc| && !st.pc[u].Idle? {
      t := u;
    } else {
      return Wake;
    }
    assert ThreadOk(st, t);
    match st.pc[t] {
      case WantLock(_) => a := Lock(t);
      case Holding(_) => a := Test(t);
      case Tested(_, _) => a := Push(t);
      case Pushed(_) => a := Unlock(t);
      case MustPost => a := Post(t);
      case FlushWant => a := FlushLock;
      case FlushHold => a := FlushSwap;
      case Flushing(rest) => a := if rest == [] then FlushDone else Destroy;
    }
  }

  ghost predicate Stuck(st: State) {
    forall a :: Internal(a) ==> !Enabled(st, a)
  }

  lemma StuckIsQuiet(st: State)
    requires Inv(st) && Stuck(st)
    ensures Quiet(st) && (st.accepting ==> Queued(st) == [])
  {
    if !Quiet(st) {
      var a := SomeoneCanMove(st);
    }
  }

  predicate AllInternal(acts: seq<Action>) {
    forall i :: 0 <= i < |acts| ==> Internal(acts[i])
  }

  lemma {:induction false} DrainBounded(st: State, acts: seq<Action>)
    requires Legal(st, acts) && AllInternal(acts)
    ensures |acts| + Work(Exec(st, acts)) <= Work(st)
    ensures Exec(st, acts).accepting == st.accepting && Exec(st, acts).refs == st.refs
    decreases |acts|
  {
    if acts != [] {
      assert Internal(acts[0]);
      InternalWorkShrinks(st, acts[0]);
      DrainBounded(Step(st, acts[0]), acts[1..]);
    }
  }

  /** Once the begun work has run out nothing is left in the list, and every source
      whose count reached zero has been destroyed. */
  lemma QuietMeansDestroyed(st: State, s: Source)
    requires Inv(st) && Quiet(st) && Queued(st) == []
    ensures s in st.refs && st.refs[s] == 0 ==> Deaths(st.dead, s) == 1
  {
    assert ConservedAt(st, s);
    AllIdleCarryNothing(st.pc, s);
  }

  /** Every continuation without new releases is finite, and where it stops, with the
      UI id accepting, the list is empty and every unreferenced source destroyed. */
  lemma DrainDestroysEverything(st: State, acts: seq<Action>)
    requires Reachable(st) && st.accepting
    requires Legal(st, acts) && AllInternal(acts)
    ensures |acts| <= Work(st)
    ensures Stuck(Exec(st, acts)) ==>
      var end := Exec(st, acts);
      Queued(end) == [] && forall s: Source :: s in st.refs && st.refs[s] == 0 ==> Deaths(end.dead, s) == 1
  {
    ReachableInv(st);
    DrainBounded(st, acts);
    ExecKeepsInv(st, acts);
    var end := Exec(st, acts);
    if Stuck(end) {
      StuckIsQuiet(end);
      forall s: Source ensures s in st.refs && st.refs[s] == 0 ==> Deaths(end.dead, s) == 1 {
        QuietMeansDestroyed(end, s);
      }
    }
  }

  // ---- shutdown ----

  lemma ExecCons(st: State, a: Action, rest: seq<Action>)
    requires Enabled(st, a) && Legal(Step(st, a), rest)
    ensures Legal(st, [a] + rest) && Exec(st, [a] + rest) == Exec(Step(st, a), rest)
  {
    assert ([a] + rest)[1..] == rest;
  }

  function DestroyAll(k: nat): seq<Action> {
    if k == 0 then [FlushDone] else [Destroy] + DestroyAll(k - 1)
  }

  /** DeleteDataSources called directly, uninterrupted. */
  function ExplicitFlush(st: State): seq<Action> {
    [Explicit] + ([FlushLock] + ([FlushSwap] + if st.queue.None? then [] else DestroyAll(|st.queue.value|)))
  }

  function Deceased(rest: seq<Source>): seq<Death> {
    if rest == [] then [] else [Death(rest[0], UI)] + Deceased(rest[1..])
  }

  lemma {:induction false} DestroyAllRuns(st: State)
    requires 0 < |st.pc| && st.pc[UI].Flushing?
    ensures Legal(st, DestroyAll(|st.pc[UI].rest|))
    ensures Exec(st, DestroyAll(|st.pc[UI].rest|)) == At(st, UI, Idle).(dead := st.dead + Deceased(st.pc[UI].rest))
    decreases |st.pc[UI].rest|
  {
    var rest := st.pc[UI].rest;
    var acts := DestroyAll(|rest|);
    if rest == [] {
      assert Legal(Step(st, FlushDone), []);
      assert acts[1..] == [];
      assert st.dead + Deceased(rest) == st.dead;
    } else {
      var st' := Step(st, Destroy);
      DestroyAllRuns(st');
      assert acts[1..] == DestroyAll(|rest| - 1);
      assert st'.dead + Deceased(rest[1..]) == st.dead + Deceased(rest);
      assert At(st', UI, Idle).pc == At(st, UI, Idle).pc;
    }
  }

  /** From the lock on: the early return, or the swap and the deletions. */
  lemma FlushFromLock(st: State)
    requires 0 < |st.pc| && st.pc[UI].FlushHold?
    ensures var acts := [FlushSwap] + if st.queue.None? then [] else DestroyAll(|st.queue.value|);
      && Legal(st, acts)
      && Exec(st, acts) == At(st, UI, Idle).(lock := None, queue := if st.queue.None? then None else Some([]),
                                             dead := st.dead + Deceased(Queued(st)))
  {
    if st.queue.Some? {
      var s3 := Step(st, FlushSwap);
      DestroyAllRuns(s3);
      assert At(s3, UI, Idle).pc == At(st, UI, Idle).pc;
      ExecCons(st, FlushSwap, DestroyAll(|st.queue.value|));
    } else {
      assert st.dead + Deceased(Queued(st)) == st.dead;
      ExecCons(st, FlushSwap, []);
    }
  }

  lemma ExplicitFlushRuns(st: State)
    requires 0 < |st.pc| && st.pc[UI].Idle? && st.lock.None?
    ensures Legal(st, ExplicitFlush(st))
    ensures Exec(st, ExplicitFlush(st))
         == st.(queue := if st.queue.None? then None else Some([]), dead := st.dead + Deceased(Queued(st)))
  {
    var s2 := At(st, UI, FlushHold).(lock := Some(UI));
    var tail := [FlushSwap] + if st.queue.None? then [] else DestroyAll(|st.queue.value|);
    FlushFromLock(s2);
    assert s2.pc[UI := Idle] == st.pc;
    var s1 := At(st, UI, FlushWant);
    assert At(s1, UI, FlushHold).pc == s2.pc;
    ExecCons(s1, FlushLock, tail);
    ExecCons(st, Explicit, [FlushLock] + tail);
  }

  lemma LockHolderIsBusy(st: State)
    requires Inv(st) && st.lock.Some?
    ensures !st.pc[st.lock.value].Idle?
  {
    assert ThreadOk(st, st.lock.value);
  }

  /** Shutdown: with every other thread joined, one explicit call destroys whatever is
      left, also when the UI loop no longer pumps or its id no longer accepts tasks. */
  lemma ShutdownDestroysEverything(st: State, s: Source)
    requires Reachable(st) && forall t :: 0 <= t < |st.pc| ==> st.pc[t].Idle?
    requires s in st.refs && st.refs[s] == 0
    ensures Legal(st, ExplicitFlush(st))
    ensures Queued(Exec(st, ExplicitFlush(st))) == [] && Deaths(Exec(st, ExplicitFlush(st)).dead, s) == 1
  {
    ReachableInv(st);
    if st.lock.Some? {
      LockHolderIsBusy(st);
    }
    ExplicitFlushRuns(st);
    ExecKeepsInv(st, ExplicitFlush(st));
    assert ConservedAt(Exec(st, ExplicitFlush(st)), s);
    AllIdleCarryNothing(st.pc, s);
  }

  // ---- uninterrupted calls ----

  /** DeleteDataSources run by a posted task, uninterrupted. */
  function PostedFlush(st: State): seq<Action> {
    [Wake] + ExplicitFlush(st)[1..]
  }

  lemma PostedFlushRuns(st: State)
    requires 0 < |st.pc| && st.pc[UI].Idle? && st.lock.None? && 0 < st.tasks
    ensures Legal(st, PostedFlush(st))
    ensures Exec(st, PostedFlush(st)) == Exec(st.(tasks := st.tasks - 1), ExplicitFlush(st.(tasks := st.tasks - 1)))
    ensures Legal(st.(tasks := st.tasks - 1), ExplicitFlush(st.(tasks := st.tasks - 1)))
  {
    var popped := st.(tasks := st.tasks - 1);
    ExplicitFlushRuns(popped);
    var rest := ExplicitFlush(st)[1..];
    assert ExplicitFlush(popped) == [Explicit] + rest;
    assert Step(st, Wake) == Step(popped, Explicit);
    assert ([Explicit] + rest)[1..] == rest;
    ExecCons(st, Wake, rest);
  }

  /** What DeleteDataSource does off the UI thread when nobody interferes. */
  function OffThreadDelete(st: State, t: Thread, s: Source): seq<Action> {
    [Release(t, s)] + ([Lock(t)] + ([Test(t)] + ([Push(t)] + ([Unlock(t)] + if Queued(st) == [] then [Post(t)] else []))))
  }

  /** The second half, from the emptiness test on. */
  lemma ListingRuns(st: State, t: Thread)
    requires UI < t < |st.pc| && st.pc[t].Tested? && st.queue.Some?
    ensures var post := if st.pc[t].schedule then [Post(t)] else [];
      && Legal(st, [Push(t)] + ([Unlock(t)] + post))
      && Exec(st, [Push(t)] + ([Unlock(t)] + post))
         == At(st, t, Idle).(lock := None, queue := Some(st.queue.value + [st.pc[t].s]),
                             tasks := if st.pc[t].schedule && st.accepting then st.tasks + 1 else st.tasks)
  {
    var s1 := Step(st, Push(t));
    var s2 := Step(s1, Unlock(t));
    assert s2.pc[t := Idle] == st.pc[t := Idle];
    if st.pc[t].schedule {
      ExecCons(s2, Post(t), []);
      assert [Post(t)] + [] == [Post(t)];
      ExecCons(s1, Unlock(t), [Post(t)]);
      ExecCons(st, Push(t), [Unlock(t)] + [Post(t)]);
    } else {
      assert s2.pc == s2.pc[t := Idle];
      ExecCons(s1, Unlock(t), []);
      ExecCons(st, Push(t), [Unlock(t)] + []);
    }
  }

  lemma OffThreadDeleteRuns(st: State, t: Thread, s: Source)
    requires UI < t < |st.pc| && st.pc[t].Idle? && st.lock.None?
    requires s in st.refs && st.refs[s] == 1
    ensures Legal(st, OffThreadDelete(st, t, s))
    ensures Exec(st, OffThreadDelete(st, t, s))
         == st.(refs := st.refs[s := 0], queue := Some(Queued(st) + [s]),
                tasks := if Queued(st) == [] && st.accepting then st.tasks + 1 else st.tasks)
  {
    var rest := [Push(t)] + ([Unlock(t)] + if Queued(st) == [] then [Post(t)] else []);
    var s1 := Step(st, Release(t, s));
    var s2 := Step(s1, Lock(t));
    var s3 := Step(s2, Test(t));
    ListingRuns(s3, t);
    assert s3.pc[t := Idle] == st.pc;
    ExecCons(s2, Test(t), rest);
    ExecCons(s1, Lock(t), [Test(t)] + rest);
    ExecCons(st, Release(t, s), [Lock(t)] + ([Test(t)] + rest));
  }

  /** Why the wake-up needs an accepting UI id: after its shutdown the posted task is
      dropped, and the source stays listed with nothing left to run. */
  lemma ClosedIdLosesWakeup(st: State, t: Thread, s: Source)
    requires UI < t < |st.pc| && Quiet(st) && st.lock.None? && !st.accepting && Queued(st) == []
    requires s in st.refs && st.refs[s] == 1
    ensures Legal(st, OffThreadDelete(st, t, s))
    ensures var end := Exec(st, OffThreadDelete(st, t, s)); Queued(end) == [s] && Stuck(end)
  {
    OffThreadDeleteRuns(st, t, s);
  }

  // ---- what an untimely response does ----

  /** Work already begun, and an explicit call, never look at reference counts. */
  predicate IgnoresRefs(a: Action) {
    Internal(a) || a.Explicit?
  }

  predicate AllIgnoreRefs(acts: seq<Action>) {
    forall i :: 0 <= i < |acts| ==> IgnoresRefs(acts[i])
  }

  lemma StepIgnoresRefs(st: State, refs: map<Source, nat>, a: Action)
    requires Enabled(st, a) && IgnoresRefs(a)
    ensures Enabled(st.(refs := refs), a) && Step(st.(refs := refs), a) == Step(st, a).(refs := refs)
    ensures Step(st, a).refs == st.refs
  {
  }

  lemma {:induction false} RunIgnoresRefs(st: State, refs: map<Source, nat>, acts: seq<Action>)
    requires Legal(st, acts) && AllIgnoreRefs(acts)
    ensures Legal(st.(refs := refs), acts) && Exec(st.(refs := refs), acts) == Exec(st, acts).(refs := refs)
    ensures Exec(st, acts).refs == st.refs
    decreases |acts|
  {
    if acts != [] {
      assert IgnoresRefs(acts[0]);
      StepIgnoresRefs(st, refs, acts[0]);
      RunIgnoresRefs(Step(st, acts[0]), refs, acts[1..]);
    }
  }

  lemma {:induction false} ExecAppend(st: State, acts: seq<Action>, more: seq<Action>)
    requires Legal(st, acts) && Legal(Exec(st, acts), more)
    ensures Legal(st, acts + more) && Exec(st, acts + more) == Exec(Exec(st, acts), more)
    decreases |acts|
  {
    if acts == [] {
      assert acts + more == more;
    } else {
      assert (acts + more)[1..] == acts[1..] + more;
      ExecAppend(Step(st, acts[0]), acts[1..], more);
    }
  }

  /** Whatever is going on, the work already begun can be run to its end. */
  lemma {:induction false} RunToQuiet(st: State) returns (acts: seq<Action>)
    requires Inv(st)
    ensures Legal(st, acts) && AllIgnoreRefs(acts) && Quiet(Exec(st, acts))
    decreases Work(st)
  {
    if Quiet(st) {
      acts := [];
    } else {
      var a := SomeoneCanMove(st);
      StepKeepsInv(st, a);
      InternalWorkShrinks(st, a);
      var rest := RunToQuiet(Step(st, a));
      ExecCons(st, a, rest);
      acts := [a] + rest;
    }
  }

  lemma {:induction false} DestroyAllIgnoresRefs(k: nat)
    ensures AllIgnoreRefs(DestroyAll(k))
  {
    if k > 0 { DestroyAllIgnoresRefs(k - 1); }
  }

  lemma FlushIgnoresRefs(st: State)
    ensures AllIgnoreRefs(ExplicitFlush(st))
  {
    if st.queue.Some? { DestroyAllIgnoresRefs(|st.queue.value|); }
  }

  /** From any state of the invariant some continuation destroys all that is unreferenced. */
  lemma RunToDestroyed(st: State) returns (acts: seq<Action>)
    requires Inv(st)
    ensures Legal(st, acts) && AllIgnoreRefs(acts) && Exec(st, acts).pc != [] && Exec(st, acts).pc[UI].Idle?
    ensures forall s: Source :: s in st.refs && st.refs[s] == 0 ==> Deaths(Exec(st, acts).dead, s) == 1
  {
    var drain := RunToQuiet(st);
    ExecKeepsInv(st, drain);
    var quiet := Exec(st, drain);
    if quiet.lock.Some? { LockHolderIsBusy(quiet); }
    var flush := ExplicitFlush(quiet);
    ExplicitFlushRuns(quiet);
    FlushIgnoresRefs(quiet);
    ExecAppend(st, drain, flush);
    RunIgnoresRefs(st, st.refs, drain);
    acts := drain + flush;
    ExecKeepsInv(quiet, flush);
    forall s: Source | s in st.refs && st.refs[s] == 0 ensures Deaths(Exec(quiet, flush).dead, s) == 1 {
      QuietMeansDestroyed(Exec(quiet, flush), s);
    }
  }

  /** The harm: a response inside the window or the batch takes a reference whose release
      destroys the source a second time. */
  lemma UnsafeResponseDestroysTwice(st: State, s: Source) returns (acts: seq<Action>)
    requires Reachable(st) && s in st.refs && !Destroyed(st, s)
    requires InWindow(st, s) || InBatch(st, s)
    ensures Legal(SendResponse(st, s), acts) && Deaths(Exec(SendResponse(st, s), acts).dead, s) == 2
  {
    GuardMissesOnlyWindowAndBatch(st, s);
    ReachableInv(st);
    var refs := st.refs[s := 1];
    var first := RunToDestroyed(st);
    RunIgnoresRefs(st, refs, first);
    var st1, end := SendResponse(st, s), Exec(st, first).(refs := refs);
    assert st1 == st.(refs := refs);
    assert Enabled(end, Release(UI, s)) && Legal(Step(end, Release(UI, s)), []);
    ExecCons(end, Release(UI, s), []);
    assert [Release(UI, s)] + [] == [Release(UI, s)];
    ExecAppend(st1, first, [Release(UI, s)]);
    BuryDeaths(end.dead, Death(s, UI), s);
    acts := first + [Release(UI, s)];
  }

  lemma SafeResponseKeepsInv(st: State, s: Source)
    requires Reachable(st) && s in st.refs && !Destroyed(st, s) && !InWindow(st, s) && !InBatch(st, s)
    ensures Inv(SendResponse(st, s))
  {
    ReachableInv(st);
    ResponseSafeIffOutsideWindow(st, s);
    var st' := SendResponse(st, s);
    forall u: Thread | u < |st'.pc| ensures ThreadOk(st', u) { assert ThreadOk(st, u); }
    forall x: Source ensures ConservedAt(st', x) {
      assert ConservedAt(st, x);
      assert Places(st', x) == Places(st, x);
    }
    if st.accepting && Queued(st) != [] {
      if t :| 0 <= t < |st.pc| && OwesTask(st.pc[t]) { assert OwesTask(st'.pc[t]); }
    }
  }

  ghost predicate MayDieTwice(st: State, s: Source) {
    exists acts :: Legal(st, acts) && Deaths(Exec(st, acts).dead, s) > 1
  }

  /** Sent at any moment to a source that still exists, a response can lead to a second
      destruction if and only if it falls into the window or the batch. */
  lemma ResponseDestroysTwiceIff(st: State, s: Source)
    requires Reachable(st) && s in st.refs && !Destroyed(st, s)
    ensures MayDieTwice(SendResponse(st, s), s) <==> InWindow(st, s) || InBatch(st, s)
  {
    var st' := SendResponse(st, s);
    if InWindow(st, s) || InBatch(st, s) {
      var acts := UnsafeResponseDestroysTwice(st, s);
    } else {
      SafeResponseKeepsInv(st, s);
      forall acts | Legal(st', acts) ensures Deaths(Exec(st', acts).dead, s) <= 1 {
        ExecKeepsInv(st', acts);
        assert ConservedAt(Exec(st', acts), s);
      }
    }
  }

  lemma ReachableRun(st: State, acts: seq<Action>)
    requires Reachable(st) && Legal(st, acts)
    ensures Reachable(Exec(st, acts))
  {
    var n: nat, before :| 0 < n && Legal(Init(n), before) && st == Exec(Init(n), before);
    ExecAppend(Init(n), before, acts);
  }

  lemma ReachableStep(st: State, a: Action)
    requires Reachable(st) && Enabled(st, a)
    ensures Reachable(Step(st, a))
  {
    ExecCons(st, a, []);
    ReachableRun(st, [a] + []);
  }

  lemma OneSource() returns (st: State)
    ensures Reachable(st) && st == Init(2).(refs := map[0 := 1])
  {
    assert Legal(Init(2), []);
    ReachableStep(Init(2), Create(0));
    st := Step(Init(2), Create(0));
  }

  /** The window is real: two steps reach it, and a response there breaks the count and
      can destroy the source twice. */
  lemma WindowWitness() returns (st: State)
    ensures Reachable(st) && InWindow(st, 0) && !Destroyed(st, 0) && 0 in st.refs
    ensures !ConservedAt(SendResponse(st, 0), 0) && MayDieTwice(SendResponse(st, 0), 0)
  {
    var st1 := OneSource();
    ReachableStep(st1, Release(1, 0));
    st := Step(st1, Release(1, 0));
    assert ToList(st.pc[1], 0);
    ResponseDestroysTwiceIff(st, 0);
    ResponseSafeIffOutsideWindow(st, 0);
  }

  lemma SwappedOut(listed: State) returns (st: State)
    requires Reachable(listed) && 0 < |listed.pc| && listed.pc[UI].Idle? && listed.lock.None?
    requires 0 < listed.tasks && listed.queue == Some([0])
    ensures Reachable(st) && InBatch(st, 0) && st.dead == listed.dead && st.refs == listed.refs
  {
    ReachableStep(listed, Wake);
    var woken := Step(listed, Wake);
    ReachableStep(woken, FlushLock);
    ReachableStep(Step(woken, FlushLock), FlushSwap);
    st := Step(Step(woken, FlushLock), FlushSwap);
    assert st.pc[UI] == Flushing([0]);
  }

  /** So is the batch: a listed source, swapped out and not yet deleted. */
  lemma BatchWitness() returns (st: State)
    ensures Reachable(st) && InBatch(st, 0) && !Destroyed(st, 0) && 0 in st.refs
    ensures !ConservedAt(SendResponse(st, 0), 0) && MayDieTwice(SendResponse(st, 0), 0)
  {
    var st1 := OneSource();
    OffThreadDeleteRuns(st1, 1, 0);
    ReachableRun(st1, OffThreadDelete(st1, 1, 0));
    var listed := st1.(refs := map[0 := 0], queue := Some([0]), tasks := 1);
    assert st1.refs[0 := 0] == listed.refs && Queued(st1) + [0] == [0];
    assert Exec(st1, OffThreadDelete(st1, 1, 0)) == listed;
    st := SwappedOut(listed);
    ResponseDestroysTwiceIff(st, 0);
    ResponseSafeIffOutsideWindow(st, 0);
  }

  /** The manager's static state, updated in place. */
  class URLDataManager {
    var dataSources: Option<seq<Source>>
    var uiTasks: nat
    var uiAccepting: bool
    var destroyed: seq<Death>

    constructor ()
      ensures dataSources == None && uiTasks == 0 && uiAccepting && destroyed == []
    {
      dataSources, uiTasks, uiAccepting, destroyed := None, 0, true, [];
    }

    predicate Matches(st: State)
      reads this
    {
      dataSources == st.queue && uiTasks == st.tasks && uiAccepting == st.accepting && destroyed == st.dead
    }

    /** Runs when the last reference is dropped on thread `t`. */
    method DeleteDataSource(t: Thread, s: Source, ghost st: State)
      requires Matches(st) && t < |st.pc| && st.pc[t].Idle? && st.lock.None?
      requires s in st.refs && st.refs[s] == 1
      modifies this
      ensures t == UI ==> Enabled(st, Release(t, s)) && Matches(Step(st, Release(t, s)))
      ensures t != UI ==> Legal(st, OffThreadDelete(st, t, s)) && Matches(Exec(st, OffThreadDelete(st, t, s)))
    {
      if t == UI {
        destroyed := destroyed + [Death(s, t)];
        return;
      }
      if dataSources.None? {
        dataSources := Some([]);
      }
      var scheduleDelete := dataSources.value == [];
      dataSources := Some(dataSources.value + [s]);
      if scheduleDelete && uiAccepting {
        uiTasks := uiTasks + 1;
      }
      OffThreadDeleteRuns(st, t, s);
    }

    /** Called on the UI thread: directly, or by RunPostedTask. */
    method DeleteDataSources(ghost st: State)
      requires Matches(st) && 0 < |st.pc| && st.pc[UI].Idle? && st.lock.None?
      modifies this
      ensures Legal(st, ExplicitFlush(st)) && Matches(Exec(st, ExplicitFlush(st)))
    {
      ExplicitFlushRuns(st);
      if dataSources.None? {
        assert destroyed + Deceased([]) == destroyed;
        return;
      }
      var sources := dataSources.value;
      dataSources := Some([]);
      var i := 0;
      while i < |sources|
        invariant 0 <= i <= |sources|
        invariant destroyed + Deceased(sources[i..]) == st.dead + Deceased(sources)
        invariant dataSources == Some([]) && uiTasks == st.tasks && uiAccepting == st.accepting
      {
        assert destroyed + Deceased(sources[i..]) == destroyed + [Death(sources[i], UI)] + Deceased(sources[i + 1..]) by {
          assert sources[i..][1..] == sources[i + 1..];
        }
        destroyed := destroyed + [Death(sources[i], UI)];
        i := i + 1;
      }
      assert destroyed + Deceased([]) == destroyed;
    }

    /** The UI loop's next DeleteDataSources task. */
    method RunPostedTask(ghost st: State)
      requires Matches(st) && 0 < |st.pc| && st.pc[UI].Idle? && st.lock.None? && 0 < uiTasks
      modifies this
      ensures Legal(st, PostedFlush(st)) && Matches(Exec(st, PostedFlush(st)))
    {
      PostedFlushRuns(st);
      uiTasks := uiTasks - 1;
      DeleteDataSources(st.(tasks := st.tasks - 1));
    }

    method IsScheduled(s: Source, ghost st: State) returns (scheduled: bool)
      requires Matches(st)
      ensures scheduled == IsScheduledForDeletion(st, s)
    {
      if dataSources.None? {
        return false;
      }
      scheduled := s in dataSources.value;
    }
  }
}
