/**
 The life of the IO thread (web/web_sub_thread.cc): delegate, registration, the
 thread's task queue, and the clean-up it runs before it is joined.

 Assumed of base::Thread: its runner is first in, first out; Stop queues a quit
 behind everything posted so far; the thread then runs CleanUp and ends.
 */
module IoThreadLifecycle {
  import opened Prelude

  type Delegate = nat

  /** A queued task. `late` marks those posted after RegisterAsWebThread returned. */
  datatype Task = Complete | User(k: nat, late: bool) | Quit

  datatype Event =
    | Init(d: Delegate)
    | Ran(k: nat, late: bool)
    | CancelAll
    | CleanUp(d: Delegate)
    | WentShutdown

  datatype ThreadPhase = NotStarted | Up | Quitting | Cancelled | Cleaned | Joined

  datatype State = State(
    delegate: Option<Delegate>,    // g_io_thread_delegate
    io: IdState,                   // the registry's state of WebThread::IO
    thread: ThreadPhase,
    registering: bool,             // inside RegisterAsWebThread, between its two statements
    returned: bool,                // RegisterAsWebThread has returned
    stopping: bool,
    completed: bool,               // CompleteInitializationOnWebThread has run
    bound: Option<Delegate>,       // the delegate at registration
    queue: seq<Task>,
    log: seq<Event>)

  datatype Action =
    | SetDelegate(d: Option<Delegate>)
    | Start
    | Register                     // web_thread_.reset(new WebThreadImpl(...))
    | PostComplete                 // the PostTask that ends RegisterAsWebThread
    | PostVia(k: nat)              // through the registry
    | PostDirect(k: nat)           // on the thread's own runner
    | Stop
    | RunTask
    | CancelFetchers               // CleanUp, first statement
    | TellDelegate                 // CleanUp, second statement
    | Unregister                   // CleanUp, web_thread_.reset()

  const FRESH := State(None, Uninitialized, NotStarted, false, false, false, false, None, [], [])

  function Log(st: State, e: Event): State {
    st.(log := st.log + [e])
  }

  predicate Enabled(st: State, a: Action) {
    match a
    // The two DCHECKs of SetIOThreadDelegate.
    case SetDelegate(d) => st.io != Running && (st.delegate.None? || d.None?) && !st.registering
    case Start => st.thread == NotStarted
    case Register => st.thread == Up && !st.stopping && st.io == Uninitialized
    case PostComplete => st.registering
    case PostVia(_) => true
    case PostDirect(_) => st.thread != NotStarted
    case Stop => st.thread == Up && !st.stopping && !st.registering
    case RunTask => st.thread == Up && st.queue != []
    case CancelFetchers => st.thread == Quitting
    case TellDelegate => st.thread == Cancelled
    case Unregister => st.thread == Cleaned
  }

  function Enqueue(st: State, task: Task): State {
    st.(queue := st.queue + [task])
  }

  function Step(st: State, a: Action): State
    requires Enabled(st, a)
  {
    match a
    case SetDelegate(d) => st.(delegate := d)
    case Start => st.(thread := Up)
    case Register => st.(io := Running, registering := true, bound := st.delegate)
    case PostComplete => Enqueue(st, Complete).(registering := false, returned := true)
    case PostVia(k) => if st.io == Running then Enqueue(st, User(k, st.returned)) else st
    case PostDirect(k) => Enqueue(st, User(k, st.returned))
    case Stop => Enqueue(st, Quit).(stopping := true)
    case RunTask =>
      var popped := st.(queue := st.queue[1..]);
      (match st.queue[0]
       case User(k, late) => Log(popped, Ran(k, late))
       case Quit => popped.(thread := Quitting)
       case Complete =>
         var done := popped.(completed := true);
         if st.delegate.Some? then Log(done, Init(st.delegate.value)) else done)
    case CancelFetchers =>
      // CurrentlyOn(IO) needs a runner in the registry, not an accepting id.
      (if st.io != Uninitialized then Log(st, CancelAll) else st).(thread := Cancelled)
    case TellDelegate =>
      (if st.delegate.Some? then Log(st, CleanUp(st.delegate.value)) else st).(thread := Cleaned)
    case Unregister =>
      (if st.io == Running then Log(st, WentShutdown).(io := Shutdown) else st).(thread := Joined)
  }

  predicate Legal(st: State, acts: seq<Action>)
    decreases |acts|
  {
    acts == [] || (Enabled(st, acts[0]) && Legal(Step(st, acts[0]), acts[1..]))
  }

  function Exec(st: State, acts: seq<Action>): State
    requires Legal(st, acts)
    decreases |acts|
  {
    if acts == [] then st else Exec(Step(st, acts[0]), acts[1..])
  }

  lemma {:induction false} ExecSnoc(st: State, acts: seq<Action>, a: Action)
    requires Legal(st, acts) && Enabled(Exec(st, acts), a)
    ensures Legal(st, acts + [a]) && Exec(st, acts + [a]) == Step(Exec(st, acts), a)
    decreases |acts|
  {
    if acts == [] {
      assert [a][1..] == [];
      assert acts + [a] == [a];
    } else {
      assert (acts + [a])[1..] == acts[1..] + [a];
      ExecSnoc(Step(st, acts[0]), acts[1..], a);
    }
  }

  // ---- the bracket ----

  /** What a delegate may see, in order. */
  datatype Bracket = Early | Open(d: Delegate) | Stopped(d: Delegate) | Told(d: Delegate) | Closed | Broken

  function Next(b: Bracket, e: Event): Bracket {
    match e
    case Init(d) => if b == Early then Open(d) else Broken
    case Ran(_, late) => if b.Open? || (b == Early && !late) then b else Broken
    case CancelAll => if b.Open? then Stopped(b.d) else Broken
    case CleanUp(d) => if b == Stopped(d) then Told(d) else Broken
    case WentShutdown => if b.Told? then Closed else Broken
  }

  function Bracketing(log: seq<Event>): Bracket {
    if log == [] then Early else Next(Bracketing(log[..|log| - 1]), log[|log| - 1])
  }

  function Inits(log: seq<Event>): nat {
    if log == [] then 0 else Inits(log[..|log| - 1]) + if log[|log| - 1].Init? then 1 else 0
  }

  function CleanUps(log: seq<Event>): nat {
    if log == [] then 0 else CleanUps(log[..|log| - 1]) + if log[|log| - 1].CleanUp? then 1 else 0
  }

  /** Whatever delegate was initialised is `bound`. */
  predicate InitsOf(log: seq<Event>, bound: Option<Delegate>) {
    log == [] || (InitsOf(log[..|log| - 1], bound) && (log[|log| - 1].Init? ==> bound == Some(log[|log| - 1].d)))
  }

  lemma {:induction false} InitsAt(log: seq<Event>, bound: Option<Delegate>, i: nat)
    requires InitsOf(log, bound) && i < |log| && log[i].Init?
    ensures bound == Some(log[i].d)
  {
    if i < |log| - 1 { InitsAt(log[..|log| - 1], bound, i); }
  }

  lemma {:induction false} NoInitsYet(log: seq<Event>, bound: Option<Delegate>)
    requires InitsOf(log, None)
    ensures InitsOf(log, bound)
  {
    if log != [] { NoInitsYet(log[..|log| - 1], bound); }
  }

  lemma LogOne(st: State, e: Event)
    ensures InitsOf(Log(st, e).log, st.bound) <==> InitsOf(st.log, st.bound) && (e.Init? ==> st.bound == Some(e.d))
    ensures Bracketing(Log(st, e).log) == Next(Bracketing(st.log), e)
    ensures Inits(Log(st, e).log) == Inits(st.log) + if e.Init? then 1 else 0
    ensures CleanUps(Log(st, e).log) == CleanUps(st.log) + if e.CleanUp? then 1 else 0
  {
    assert Log(st, e).log[..|st.log|] == st.log;
  }

  predicate NoComplete(q: seq<Task>) {
    forall i :: 0 <= i < |q| ==> q[i] != Complete
  }

  predicate NoneLate(q: seq<Task>) {
    forall i :: 0 <= i < |q| && q[i].User? ==> !q[i].late
  }

  /** Nothing that came after the registration, and no quit. */
  predicate AllEarly(q: seq<Task>) {
    forall i :: 0 <= i < |q| ==> q[i].User? && !q[i].late
  }

  /** The completion task is queued, with only early tasks before it. */
  predicate CompleteAhead(q: seq<Task>) {
    exists c :: 0 <= c < |q| && q[c] == Complete && AllEarly(q[..c]) && NoComplete(q[c + 1..])
  }

  /** Where the bracket stands for a registered thread with a delegate. */
  function Due(st: State, d: Delegate): Bracket {
    match st.thread
    case NotStarted => Early
    case Up => if st.completed then Open(d) else Early
    case Quitting => Open(d)
    case Cancelled => Stopped(d)
    case Cleaned => Told(d)
    case Joined => Closed
  }

  predicate Over(t: ThreadPhase) { t == Cleaned || t == Joined }

  predicate QueueOk(st: State) {
    && (!st.returned ==> !st.completed && NoComplete(st.queue) && NoneLate(st.queue))
    && (!st.returned && !st.stopping ==> AllEarly(st.queue))
    && (st.returned && !st.completed ==> st.thread == Up && CompleteAhead(st.queue))
    && (st.completed ==> NoComplete(st.queue))
    && (forall i :: 0 <= i < |st.queue| && st.queue[i].Quit? ==> st.stopping)
  }

  /** How the flags of the thread, its registration and the id go together. */
  predicate StagesOk(st: State) {
    && (st.thread == NotStarted ==> st.queue == [] && !st.stopping && st.io == Uninitialized)
    && (st.thread != NotStarted && st.thread != Up ==> st.stopping)
    && (st.registering ==> st.thread == Up && !st.stopping)
    && (st.io != Uninitialized <==> st.registering || st.returned)
    && !(st.registering && st.returned)
    && (st.io == Shutdown ==> st.thread == Joined)
    && (st.io == Running ==> st.thread != Joined && st.delegate == st.bound)
    && (st.io == Uninitialized ==> st.bound.None?)
  }

  predicate LogOk(st: State) {
    && (st.io != Uninitialized && st.bound.Some? ==> Bracketing(st.log) == Due(st, st.bound.value))
    && (st.io == Uninitialized ==> Bracketing(st.log) == Early || Over(st.thread))
    && Inits(st.log) == (if st.io != Uninitialized && st.bound.Some? && st.completed then 1 else 0)
    && (if st.io != Uninitialized then CleanUps(st.log) == (if st.bound.Some? && Over(st.thread) then 1 else 0)
        else CleanUps(st.log) <= (if Over(st.thread) then 1 else 0))
  }

  predicate Inv(st: State) {
    QueueOk(st) && StagesOk(st) && LogOk(st) && InitsOf(st.log, st.bound)
  }

  lemma CutBefore(q: seq<Task>, task: Task, c: nat)
    requires c < |q|
    ensures (q + [task])[c] == q[c] && (q + [task])[..c] == q[..c] && (q + [task])[c + 1..] == q[c + 1..] + [task]
  {
  }

  lemma SnocQueue(q: seq<Task>, task: Task)
    requires task != Complete
    ensures NoComplete(q + [task]) <==> NoComplete(q)
    ensures NoneLate(q + [task]) <==> NoneLate(q) && (task.User? ==> !task.late)
    ensures AllEarly(q) && task.User? && !task.late ==> AllEarly(q + [task])
  {
    var all := q + [task];
    assert forall i :: 0 <= i < |q| ==> q[i] == all[i];
    assert all[|q|] == task;
  }

  lemma SnocAhead(q: seq<Task>, task: Task)
    requires task != Complete && CompleteAhead(q)
    ensures CompleteAhead(q + [task])
  {
    var c :| 0 <= c < |q| && q[c] == Complete && AllEarly(q[..c]) && NoComplete(q[c + 1..]);
    CutBefore(q, task, c);
    SnocQueue(q[c + 1..], task);
  }

  lemma SnocNoComplete(q: seq<Task>, task: Task)
    requires task != Complete
    ensures NoComplete(q + [task]) <==> NoComplete(q)
    ensures NoneLate(q + [task]) <==> NoneLate(q) && (task.User? ==> !task.late)
    ensures CompleteAhead(q) ==> CompleteAhead(q + [task])
    ensures AllEarly(q) && task.User? && !task.late ==> AllEarly(q + [task])
  {
    SnocQueue(q, task);
    if CompleteAhead(q) { SnocAhead(q, task); }
  }

  lemma PopQueue(q: seq<Task>)
    requires q != []
    ensures NoComplete(q) ==> NoComplete(q[1..])
    ensures NoneLate(q) ==> NoneLate(q[1..])
    ensures AllEarly(q) ==> AllEarly(q[1..]) && q[0].User? && !q[0].late
    ensures CompleteAhead(q) ==>
      if q[0] == Complete then NoComplete(q[1..]) else q[0].User? && !q[0].late && CompleteAhead(q[1..])
  {
    assert forall i :: 0 <= i < |q[1..]| ==> q[1..][i] == q[i + 1];
    if CompleteAhead(q) {
      var c :| 0 <= c < |q| && q[c] == Complete && AllEarly(q[..c]) && NoComplete(q[c + 1..]);
      if c > 0 {
        assert q[..c][0] == q[0];
        var rest := q[1..];
        assert rest[c - 1] == Complete && rest[c..] == q[c + 1..];
        var head, front := rest[..c - 1], q[..c];
        assert forall i :: 0 <= i < |head| ==> head[i] == front[i + 1];
      }
    }
  }

  lemma RunTaskKeepsQueue(st: State)
    requires QueueOk(st) && StagesOk(st) && Enabled(st, RunTask)
    ensures QueueOk(Step(st, RunTask)) && StagesOk(Step(st, RunTask))
  {
    PopQueue(st.queue);
  }

  lemma RunUserKeepsInv(st: State)
    requires Inv(st) && Enabled(st, RunTask) && st.queue[0].User?
    ensures Inv(Step(st, RunTask))
  {
    RunTaskKeepsQueue(st);
    PopQueue(st.queue);
    LogOne(st.(queue := st.queue[1..]), Ran(st.queue[0].k, st.queue[0].late));
  }

  lemma QuitKeepsInv(st: State)
    requires Inv(st) && Enabled(st, RunTask) && st.queue[0].Quit?
    ensures Inv(Step(st, RunTask))
  {
    RunTaskKeepsQueue(st);
    PopQueue(st.queue);
  }

  /** The completion task logs the one Init, of the delegate bound at registration. */
  lemma CompleteKeepsLog(st: State)
    requires StagesOk(st) && LogOk(st) && InitsOf(st.log, st.bound)
    requires Enabled(st, RunTask) && st.queue[0].Complete? && st.returned && !st.completed
    ensures LogOk(Step(st, RunTask)) && InitsOf(Step(st, RunTask).log, st.bound)
  {
    assert st.io == Running && st.delegate == st.bound;
    if st.delegate.Some? {
      LogOne(st.(queue := st.queue[1..], completed := true), Init(st.delegate.value));
    }
  }

  lemma RunCompleteKeepsInv(st: State)
    requires Inv(st) && Enabled(st, RunTask) && st.queue[0].Complete?
    ensures Inv(Step(st, RunTask))
  {
    RunTaskKeepsQueue(st);
    CompleteKeepsLog(st);
  }

  lemma RunTaskKeepsInv(st: State)
    requires Inv(st) && Enabled(st, RunTask)
    ensures Inv(Step(st, RunTask))
  {
    PopQueue(st.queue);
    match st.queue[0] {
      case User(k, late) => RunUserKeepsInv(st);
      case Quit => QuitKeepsInv(st);
      case Complete => RunCompleteKeepsInv(st);
    }
  }

  lemma PostKeepsInv(st: State, a: Action)
    requires Inv(st) && Enabled(st, a) && (a.PostVia? || a.PostDirect? || a.Stop?)
    ensures Inv(Step(st, a))
  {
    SnocNoComplete(st.queue, if a.Stop? then Quit else User(a.k, st.returned));
  }

  lemma RegistrationKeepsInv(st: State, a: Action)
    requires Inv(st) && Enabled(st, a) && (a.SetDelegate? || a.Start? || a.Register? || a.PostComplete?)
    ensures Inv(Step(st, a))
  {
    if a.Register? { NoInitsYet(st.log, st.delegate); }
    if a.PostComplete? {
      var q := st.queue + [Complete];
      assert q[|st.queue|] == Complete && q[..|st.queue|] == st.queue && q[|st.queue| + 1..] == [];
    }
  }

  lemma CancelKeepsInv(st: State)
    requires Inv(st) && Enabled(st, CancelFetchers)
    ensures Inv(Step(st, CancelFetchers))
  {
    LogOne(st, CancelAll);
  }

  lemma TellKeepsInv(st: State)
    requires Inv(st) && Enabled(st, TellDelegate)
    ensures Inv(Step(st, TellDelegate))
  {
    if st.delegate.Some? { LogOne(st, CleanUp(st.delegate.value)); }
  }

  lemma UnregisterKeepsInv(st: State)
    requires Inv(st) && Enabled(st, Unregister)
    ensures Inv(Step(st, Unregister))
  {
    LogOne(st, WentShutdown);
  }

  lemma StepKeepsInv(st: State, a: Action)
    requires Inv(st) && Enabled(st, a)
    ensures Inv(Step(st, a))
  {
    match a {
      case PostVia(_) => PostKeepsInv(st, a);
      case PostDirect(_) => PostKeepsInv(st, a);
      case Stop => PostKeepsInv(st, a);
      case RunTask => RunTaskKeepsInv(st);
      case CancelFetchers => CancelKeepsInv(st);
      case TellDelegate => TellKeepsInv(st);
      case Unregister => UnregisterKeepsInv(st);
      case _ => RegistrationKeepsInv(st, a);
    }
  }

  lemma {:induction false} ExecKeepsInv(st: State, acts: seq<Action>)
    requires Inv(st) && Legal(st, acts)
    ensures Inv(Exec(st, acts))
    decreases |acts|
  {
    if acts != [] {
      StepKeepsInv(st, acts[0]);
      ExecKeepsInv(Step(st, acts[0]), acts[1..]);
    }
  }

  // ---- the theorems ----

  /** The bracket: in every run that registers the thread with delegate `d` set, the
      log never leaves the order Init(d), tasks, cancelled fetchers, CleanUp(d),
      shutdown, and stands exactly where the thread stands. */
  lemma DelegateSeesBracket(acts: seq<Action>)
    requires Legal(FRESH, acts) && Exec(FRESH, acts).io != Uninitialized && Exec(FRESH, acts).bound.Some?
    ensures var st := Exec(FRESH, acts);
      && Bracketing(st.log) == Due(st, st.bound.value)
      && Inits(st.log) == (if st.completed then 1 else 0)
      && CleanUps(st.log) == (if Over(st.thread) then 1 else 0)
      && (st.thread == Joined ==> st.completed && Bracketing(st.log) == Closed)
  {
    ExecKeepsInv(FRESH, acts);
  }

  lemma {:induction false} BrokenStays(log: seq<Event>, i: nat)
    requires i <= |log| && Bracketing(log) != Broken
    ensures Bracketing(log[..i]) != Broken
  {
    if i < |log| {
      var front := log[..|log| - 1];
      BrokenStays(front, i);
      assert front[..i] == log[..i];
    } else {
      assert log[..i] == log;
    }
  }

  lemma {:induction false} InsideMeansInit(log: seq<Event>)
    requires Bracketing(log).Open? || Bracketing(log).Stopped? || Bracketing(log).Told?
    ensures Init(Bracketing(log).d) in log
  {
    var front, last := log[..|log| - 1], log[|log| - 1];
    assert log == front + [last];
    if !last.Init? {
      InsideMeansInit(front);
    }
  }

  /** Any task posted after the registration returned runs after the delegate's Init. */
  lemma InitBeforeLateTasks(acts: seq<Action>, i: nat)
    requires Legal(FRESH, acts) && Exec(FRESH, acts).io != Uninitialized && Exec(FRESH, acts).bound.Some?
    requires i < |Exec(FRESH, acts).log| && Exec(FRESH, acts).log[i].Ran? && Exec(FRESH, acts).log[i].late
    ensures Init(Exec(FRESH, acts).bound.value) in Exec(FRESH, acts).log[..i]
  {
    DelegateSeesBracket(acts);
    var log := Exec(FRESH, acts).log;
    BrokenStays(log, i + 1);
    assert log[..i + 1][..i] == log[..i];
    InsideMeansInit(log[..i]);
    ExecKeepsInv(FRESH, acts);
    var j :| 0 <= j < i && log[j].Init?;
    InitsAt(log, Exec(FRESH, acts).bound, j);
    assert log[..i][j] == log[j];
  }

  /** From the registration until the id is shut down the delegate cannot be swapped. */
  lemma NoSwapWhileRegistered(acts: seq<Action>)
    requires Legal(FRESH, acts) && Exec(FRESH, acts).io == Running
    ensures Exec(FRESH, acts).delegate == Exec(FRESH, acts).bound
    ensures forall d :: !Enabled(Exec(FRESH, acts), SetDelegate(d))
  {
    ExecKeepsInv(FRESH, acts);
  }

  /** The clean-up itself does not ask whether the thread was ever registered: a delegate
      gets as many CleanUps as Inits exactly if it was, or if no delegate is set then. */
  lemma CleanUpMatchesInitIffRegistered(acts: seq<Action>)
    requires Legal(FRESH, acts) && Exec(FRESH, acts).thread == Cancelled
    ensures var st := Exec(FRESH, acts); var told := Step(st, TellDelegate);
      CleanUps(told.log) == Inits(told.log) <==> st.io != Uninitialized || st.delegate.None?
  {
    ExecKeepsInv(FRESH, acts);
    var st := Exec(FRESH, acts);
    if st.delegate.Some? { LogOne(st, CleanUp(st.delegate.value)); }
  }

  // ---- what the actions say ----

  /** The delegate last set or unset. */
  function LastSet(acts: seq<Action>, before: Option<Delegate>): Option<Delegate>
    decreases |acts|
  {
    if acts == [] then before
    else LastSet(acts[1..], if acts[0].SetDelegate? then acts[0].d else before)
  }

  lemma {:induction false} DelegateIsLastSet(st: State, acts: seq<Action>)
    requires Legal(st, acts)
    ensures Exec(st, acts).delegate == LastSet(acts, st.delegate)
    decreases |acts|
  {
    if acts != [] { DelegateIsLastSet(Step(st, acts[0]), acts[1..]); }
  }

  /** The tasks posted, in order: on the thread's own runner always, through the registry
      from the registration until the id is given up. */
  function PostedTasks(acts: seq<Action>, up: bool): seq<nat>
    decreases |acts|
  {
    if acts == [] then []
    else
      var posted := if acts[0].PostDirect? || (acts[0].PostVia? && up) then [acts[0].k] else [];
      posted + PostedTasks(acts[1..], if acts[0].Register? then true else if acts[0].Unregister? then false else up)
  }

  function Users(q: seq<Task>): seq<nat> {
    if q == [] then [] else (if q[0].User? then [q[0].k] else []) + Users(q[1..])
  }

  function TasksRun(log: seq<Event>): seq<nat> {
    if log == [] then []
    else TasksRun(log[..|log| - 1]) + if log[|log| - 1].Ran? then [log[|log| - 1].k] else []
  }

  lemma {:induction false} UsersSnoc(q: seq<Task>, task: Task)
    ensures Users(q + [task]) == Users(q) + if task.User? then [task.k] else []
  {
    if q == [] {
      assert [] + [task] == [task] && [task][1..] == [];
    } else {
      UsersSnoc(q[1..], task);
      assert (q + [task])[1..] == q[1..] + [task];
    }
  }

  lemma TasksRunOne(st: State, e: Event)
    ensures TasksRun(Log(st, e).log) == TasksRun(st.log) + if e.Ran? then [e.k] else []
  {
    assert Log(st, e).log[..|st.log|] == st.log;
  }

  function AllTasks(st: State): seq<nat> {
    TasksRun(st.log) + Users(st.queue)
  }

  lemma Associate(a: seq<nat>, b: seq<nat>, c: seq<nat>)
    ensures a + b + c == a + (b + c) && a + [] == a
  {
  }

  lemma EnqueueTasks(st: State, task: Task)
    ensures AllTasks(Enqueue(st, task)) == AllTasks(st) + if task.User? then [task.k] else []
  {
    UsersSnoc(st.queue, task);
    Associate(TasksRun(st.log), Users(st.queue), if task.User? then [task.k] else []);
  }

  lemma LogTasks(st: State, e: Event)
    requires !e.Ran?
    ensures AllTasks(Log(st, e)) == AllTasks(st)
  {
    TasksRunOne(st, e);
    Associate(TasksRun(st.log), [], []);
  }

  lemma RunTaskLogs(st: State)
    requires Enabled(st, RunTask)
    ensures Step(st, RunTask).queue == st.queue[1..]
    ensures TasksRun(Step(st, RunTask).log) == TasksRun(st.log) + if st.queue[0].User? then [st.queue[0].k] else []
  {
    var popped := st.(queue := st.queue[1..]);
    match st.queue[0] {
      case User(k, late) => TasksRunOne(popped, Ran(k, late));
      case Complete => if st.delegate.Some? { TasksRunOne(popped.(completed := true), Init(st.delegate.value)); }
      case Quit =>
    }
  }

  lemma RunTaskTasks(st: State)
    requires Enabled(st, RunTask)
    ensures AllTasks(Step(st, RunTask)) == AllTasks(st)
  {
    var head := if st.queue[0].User? then [st.queue[0].k] else [];
    assert Users(st.queue) == head + Users(st.queue[1..]);
    Associate(TasksRun(st.log), head, Users(st.queue[1..]));
    RunTaskLogs(st);
  }

  /** What a step adds to the tasks that ran or are queued. */
  lemma StepTasks(st: State, a: Action)
    requires Enabled(st, a)
    ensures AllTasks(Step(st, a)) == AllTasks(st) + if a.PostDirect? || (a.PostVia? && st.io == Running) then [a.k] else []
  {
    Associate(AllTasks(st), [], []);
    match a {
      case PostVia(k) => EnqueueTasks(st, User(k, st.returned));
      case PostDirect(k) => EnqueueTasks(st, User(k, st.returned));
      case PostComplete => EnqueueTasks(st, Complete);
      case Stop => EnqueueTasks(st, Quit);
      case RunTask => RunTaskTasks(st);
      case CancelFetchers => LogTasks(st, CancelAll);
      case TellDelegate => if st.delegate.Some? { LogTasks(st, CleanUp(st.delegate.value)); }
      case Unregister => LogTasks(st, WentShutdown);
      case _ =>
    }
  }

  /** No task is lost, doubled or overtaken: over every run those that ran and those still
      queued are, in order, exactly those posted. */
  lemma {:induction false} TasksRunInOrder(st: State, acts: seq<Action>)
    requires Inv(st) && Legal(st, acts)
    ensures AllTasks(Exec(st, acts)) == AllTasks(st) + PostedTasks(acts, st.io == Running)
    decreases |acts|
  {
    if acts == [] {
      Associate(AllTasks(st), [], []);
    } else {
      StepTasks(st, acts[0]);
      StepKeepsInv(st, acts[0]);
      TasksRunInOrder(Step(st, acts[0]), acts[1..]);
      Associate(AllTasks(st), if acts[0].PostDirect? || (acts[0].PostVia? && st.io == Running) then [acts[0].k] else [],
                PostedTasks(acts[1..], Step(st, acts[0]).io == Running));
    }
  }

  function Cancels(log: seq<Event>): nat {
    if log == [] then 0 else Cancels(log[..|log| - 1]) + if log[|log| - 1].CancelAll? then 1 else 0
  }

  predicate CancelsOk(st: State) {
    Cancels(st.log) == if st.io != Uninitialized && (st.thread == Cancelled || Over(st.thread)) then 1 else 0
  }

  lemma StepKeepsCancels(st: State, a: Action)
    requires Inv(st) && Enabled(st, a) && CancelsOk(st)
    ensures CancelsOk(Step(st, a))
  {
    var log' := Step(st, a).log;
    assert log' != st.log ==> log'[..|st.log|] == st.log;
  }

  /** The clean-up of a registered thread cancels the fetchers once, with a delegate or
      without, and that of an unregistered thread never does. */
  lemma {:induction false} FetchersCancelledIffRegistered(st: State, acts: seq<Action>)
    requires Inv(st) && CancelsOk(st) && Legal(st, acts)
    ensures CancelsOk(Exec(st, acts))
    decreases |acts|
  {
    if acts != [] {
      StepKeepsInv(st, acts[0]);
      StepKeepsCancels(st, acts[0]);
      FetchersCancelledIffRegistered(Step(st, acts[0]), acts[1..]);
    }
  }

  const UNREGISTERED_LIFE: seq<Action> := [SetDelegate(Some(0)), Start, Stop, RunTask, CancelFetchers]

  lemma StartedAndStopped()
    ensures Legal(FRESH, [SetDelegate(Some(0)), Start, Stop])
    ensures Exec(FRESH, [SetDelegate(Some(0)), Start, Stop])
         == FRESH.(delegate := Some(0), thread := Up, stopping := true, queue := [Quit])
  {
    ExecSnoc(FRESH, [], SetDelegate(Some(0)));
    assert [] + [SetDelegate(Some(0))] == [SetDelegate(Some(0))];
    ExecSnoc(FRESH, [SetDelegate(Some(0))], Start);
    ExecSnoc(FRESH, [SetDelegate(Some(0)), Start], Stop);
    assert [SetDelegate(Some(0))] + [Start] == [SetDelegate(Some(0)), Start];
    assert [SetDelegate(Some(0)), Start] + [Stop] == [SetDelegate(Some(0)), Start, Stop];
    assert FRESH.queue + [Quit] == [Quit];
  }

  /** A delegate that is cleaned up without ever having been initialised: the thread is
      started and stopped without being registered. */
  lemma UnregisteredWitness()
    ensures Legal(FRESH, UNREGISTERED_LIFE) && Exec(FRESH, UNREGISTERED_LIFE).thread == Cancelled
    ensures var told := Step(Exec(FRESH, UNREGISTERED_LIFE), TellDelegate); CleanUps(told.log) == 1 && Inits(told.log) == 0
  {
    StartedAndStopped();
    var acts := [SetDelegate(Some(0)), Start, Stop];
    var s3 := Exec(FRESH, acts);
    ExecSnoc(FRESH, acts, RunTask);
    ExecSnoc(FRESH, acts + [RunTask], CancelFetchers);
    assert acts + [RunTask] + [CancelFetchers] == UNREGISTERED_LIFE;
    LogOne(Exec(FRESH, UNREGISTERED_LIFE), CleanUp(0));
  }

  // ---- the object ----

  /** The sub-thread of WebThread::IO with the statics it uses. */
  class WebSubThread {
    var ioThreadDelegate: Option<Delegate>
    var ioState: IdState
    var webThread: bool
    var tasks: seq<Task>
    ghost var log: seq<Event>

    ghost predicate Shows(st: State)
      reads this
    {
      && ioThreadDelegate == st.delegate && ioState == st.io && tasks == st.queue && log == st.log
      && (webThread <==> st.io == Running)
    }

    constructor ()
      ensures Shows(FRESH)
    {
      ioThreadDelegate, ioState, webThread, tasks, log := None, Uninitialized, false, [], [];
    }

    method SetIOThreadDelegate(d: Option<Delegate>, ghost st: State)
      requires Shows(st) && Enabled(st, SetDelegate(d))
      modifies this
      ensures Shows(Step(st, SetDelegate(d)))
    {
      assert ioState != Running;
      assert ioThreadDelegate.None? || d.None?;
      ioThreadDelegate := d;
    }

    method RegisterAsWebThread(ghost st: State)
      requires Shows(st) && Inv(st) && Enabled(st, Register)
      modifies this
      ensures Legal(st, [Register, PostComplete]) && Shows(Exec(st, [Register, PostComplete]))
    {
      assert !webThread;
      assert [Register, PostComplete][1..] == [PostComplete] && [PostComplete][1..] == [];
      ghost var end := Step(Step(st, Register), PostComplete);
      assert Exec(Step(st, Register), [PostComplete]) == end;
      webThread, ioState := true, Running;
      tasks := tasks + [Complete];
    }

    method CleanUpThread(ghost st: State)
      requires Shows(st) && Inv(st) && st.thread == Quitting
      modifies this
      ensures Legal(st, [CancelFetchers, TellDelegate, Unregister])
      ensures Shows(Exec(st, [CancelFetchers, TellDelegate, Unregister]))
    {
      ghost var s1 := Step(st, CancelFetchers);
      ghost var s2 := Step(s1, TellDelegate);
      ghost var s3 := Step(s2, Unregister);
      assert [CancelFetchers, TellDelegate, Unregister][1..] == [TellDelegate, Unregister];
      assert [TellDelegate, Unregister][1..] == [Unregister] && [Unregister][1..] == [];
      assert Exec(s2, [Unregister]) == s3 && Exec(s1, [TellDelegate, Unregister]) == s3;
      if ioState != Uninitialized {
        log := log + [CancelAll];
      }
      if ioThreadDelegate.Some? {
        log := log + [CleanUp(ioThreadDelegate.value)];
      }
      if webThread {
        webThread, ioState := false, Shutdown;
        log := log + [WentShutdown];
      }
    }
  }
}
