/**
 ClearHttpCache (net/http_cache_helper.cc): two asynchronous stages per request,
 each holding its continuation in a callback split in two, of which one half may run.

 Any number of requests from any number of clients are in flight at once. The
 backend's side is the action's parameters: what GetBackend and DoomEntriesBetween
 return, and when the calls they left pending complete. Assumed: they run their
 callback, once, if and only if they returned ERR_IO_PENDING.
 */
module HttpCacheClear {
  import opened Prelude

  type Client = nat
  type Req = nat

  const ERR_IO_PENDING := -1

  /** The once-callback behind a split pair. Running it a second time is a CHECK failure. */
  datatype Holder = NotMade | Unused | Used

  datatype Request = Request(
    client: Client,      // whose task runner the reply goes to
    backend: bool,       // *backend is not null
    doom: Holder,        // holds DoomHttpCache
    reply: Holder)       // holds the client's callback, made only if there is a backend

  /** A reply on its way through the client's task runner. */
  datatype Posted = Posted(client: Client, req: Req, result: int, viaHolder: bool)

  /** A callback invocation: which one, on whose runner, with what. */
  datatype Reply = Reply(req: Req, runner: Client, result: int)

  /** What the cache said, in order. */
  datatype Answer =
    | BackendAnswer(req: Req, rv: int, backend: bool)
    | DoomAnswer(req: Req, rv: int)

  datatype State = State(
    requests: seq<Request>,
    network: seq<Req>,           // ClearHttpCacheOnIOThread tasks
    gettingBackend: seq<Req>,    // GetBackend pending
    dooming: seq<Req>,           // DoomEntriesBetween pending
    posted: seq<Posted>,
    replies: seq<Reply>,
    answers: seq<Answer>,
    crashed: bool)

  datatype Action =
    | Call(client: Client)
    | RunClear(rv: int, backend: bool, doomRv: int)
    | BackendReady(i: nat, error: int, backend: bool, doomRv: int)
    | DoomDone(i: nat, rv: int)
    | ClientRuns(i: nat)

  const FRESH := State([], [], [], [], [], [], [], false)

  function Drop<T>(s: seq<T>, i: nat): seq<T>
    requires i < |s|
  {
    s[..i] + s[i + 1..]
  }

  function Post(st: State, req: Req, result: int, viaHolder: bool): State
    requires req < |st.requests|
  {
    st.(posted := st.posted + [Posted(st.requests[req].client, req, result, viaHolder)])
  }

  /** DoomHttpCache. */
  function DoomHttpCache(st: State, req: Req, error: int, doomRv: int): State
    requires req < |st.requests|
  {
    if st.requests[req].backend then
      var split := st.(requests := st.requests[req := st.requests[req].(reply := Unused)]);
      if doomRv != ERR_IO_PENDING then
        Post(split.(answers := split.answers + [DoomAnswer(req, doomRv)]), req, doomRv, true)
      else split.(dooming := split.dooming + [req])
    else Post(st, req, error, false)
  }

  /** Either half of the split DoomHttpCache callback. */
  function RunDoom(st: State, req: Req, error: int, doomRv: int): State
    requires req < |st.requests|
  {
    if st.requests[req].doom != Unused then st.(crashed := true)
    else DoomHttpCache(st.(requests := st.requests[req := st.requests[req].(doom := Used)]), req, error, doomRv)
  }

  function BackendSays(st: State, req: Req, rv: int, backend: bool): State
    requires req < |st.requests|
  {
    st.(requests := st.requests[req := st.requests[req].(backend := backend)],
        answers := st.answers + [BackendAnswer(req, rv, backend)])
  }

  predicate Bounded(st: State) {
    && (forall i :: 0 <= i < |st.network| ==> st.network[i] < |st.requests|)
    && (forall i :: 0 <= i < |st.gettingBackend| ==> st.gettingBackend[i] < |st.requests|)
    && (forall i :: 0 <= i < |st.dooming| ==> st.dooming[i] < |st.requests|)
    && (forall i :: 0 <= i < |st.posted| ==> st.posted[i].req < |st.requests|)
  }

  predicate Enabled(st: State, a: Action) {
    && Bounded(st) && !st.crashed
    && match a
       case Call(_) => true
       case RunClear(_, _, _) => st.network != []
       case BackendReady(i, _, _, _) => i < |st.gettingBackend|
       case DoomDone(i, _) => i < |st.dooming|
       // A task runner is FIFO: nothing earlier for the same client.
       case ClientRuns(i) => i < |st.posted| && forall j :: 0 <= j < i ==> st.posted[j].client != st.posted[i].client
  }

  function Step(st: State, a: Action): State
    requires Enabled(st, a)
  {
    match a
    case Call(client) =>
      st.(requests := st.requests + [Request(client, false, NotMade, NotMade)], network := st.network + [|st.requests|])
    case RunClear(rv, backend, doomRv) =>
      var req := st.network[0];
      var begun := st.(network := st.network[1..], requests := st.requests[req := st.requests[req].(doom := Unused)]);
      if rv != ERR_IO_PENDING then RunDoom(BackendSays(begun, req, rv, backend), req, rv, doomRv)
      else begun.(gettingBackend := begun.gettingBackend + [req])
    case BackendReady(i, error, backend, doomRv) =>
      var req := st.gettingBackend[i];
      RunDoom(BackendSays(st.(gettingBackend := Drop(st.gettingBackend, i)), req, error, backend), req, error, doomRv)
    case DoomDone(i, rv) =>
      var req := st.dooming[i];
      Post(st.(dooming := Drop(st.dooming, i), answers := st.answers + [DoomAnswer(req, rv)]), req, rv, true)
    case ClientRuns(i) =>
      var p := st.posted[i];
      var taken := st.(posted := Drop(st.posted, i));
      if p.viaHolder && st.requests[p.req].reply != Unused then taken.(crashed := true)
      else
        taken.(requests := if p.viaHolder then st.requests[p.req := st.requests[p.req].(reply := Used)] else st.requests,
               replies := st.replies + [Reply(p.req, p.client, p.result)])
  }

  predicate Legal(st: State, acts: seq<Action>)
    decreases |acts|
  {
    acts == [] || (Enabled(st, acts[0]) && Legal(Step(st, acts[0]), acts[1..]))
  }

  function Exec(st: State, acts: seq<Action>): State
    requires Legal(st, acts)
    decreases |acts|
  {
    if acts == [] then st else Exec(Step(st, acts[0]), acts[1..])
  }

  // ---- where a request is ----

  function One(b: bool): nat { if b then 1 else 0 }

  function InQueue(s: seq<Req>, r: Req): nat {
    if s == [] then 0 else One(s[0] == r) + InQueue(s[1..], r)
  }

  function InPosted(s: seq<Posted>, r: Req): nat {
    if s == [] then 0 else One(s[0].req == r) + InPosted(s[1..], r)
  }

  function InReplies(s: seq<Reply>, r: Req): nat {
    if s == [] then 0 else One(s[0].req == r) + InReplies(s[1..], r)
  }

  /** How many continuations of request `r` exist, its finished reply included. */
  function Places(st: State, r: Req): nat {
    InQueue(st.network, r) + InQueue(st.gettingBackend, r) + InQueue(st.dooming, r)
    + InPosted(st.posted, r) + InReplies(st.replies, r)
  }

  lemma {:induction false} InQueueConcat(a: seq<Req>, b: seq<Req>, r: Req)
    ensures InQueue(a + b, r) == InQueue(a, r) + InQueue(b, r)
  {
    if a == [] { assert a + b == b; } else {
      assert (a + b)[1..] == a[1..] + b;
      InQueueConcat(a[1..], b, r);
    }
  }

  lemma InQueueDrop(s: seq<Req>, i: nat, r: Req)
    requires i < |s|
    ensures InQueue(s, r) == InQueue(Drop(s, i), r) + One(s[i] == r)
  {
    assert s == s[..i] + ([s[i]] + s[i + 1..]);
    InQueueConcat(s[..i], [s[i]] + s[i + 1..], r);
    InQueueConcat(s[..i], s[i + 1..], r);
    assert ([s[i]] + s[i + 1..])[1..] == s[i + 1..];
  }

  lemma {:induction false} InPostedConcat(a: seq<Posted>, b: seq<Posted>, r: Req)
    ensures InPosted(a + b, r) == InPosted(a, r) + InPosted(b, r)
  {
    if a == [] { assert a + b == b; } else {
      assert (a + b)[1..] == a[1..] + b;
      InPostedConcat(a[1..], b, r);
    }
  }

  lemma InPostedDrop(s: seq<Posted>, i: nat, r: Req)
    requires i < |s|
    ensures InPosted(s, r) == InPosted(Drop(s, i), r) + One(s[i].req == r)
  {
    assert s == s[..i] + ([s[i]] + s[i + 1..]);
    InPostedConcat(s[..i], [s[i]] + s[i + 1..], r);
    InPostedConcat(s[..i], s[i + 1..], r);
    assert ([s[i]] + s[i + 1..])[1..] == s[i + 1..];
  }

  lemma {:induction false} InRepliesConcat(a: seq<Reply>, b: seq<Reply>, r: Req)
    ensures InReplies(a + b, r) == InReplies(a, r) + InReplies(b, r)
  {
    if a == [] { assert a + b == b; } else {
      assert (a + b)[1..] == a[1..] + b;
      InRepliesConcat(a[1..], b, r);
    }
  }

  /** The result the cache's answers call for: the doom result if there was a backend,
      GetBackend's otherwise. */
  function Due(answers: seq<Answer>, r: Req): Option<int> {
    if answers == [] then None
    else
      var last := answers[|answers| - 1];
      if last.req != r then Due(answers[..|answers| - 1], r)
      else if last.BackendAnswer? && last.backend then None
      else Some(last.rv)
  }

  lemma DueSnoc(answers: seq<Answer>, a: Answer, r: Req)
    ensures Due(answers + [a], r) ==
      if a.req != r then Due(answers, r) else if a.BackendAnswer? && a.backend then None else Some(a.rv)
  {
    assert (answers + [a])[..|answers|] == answers;
  }

  // ---- what every step keeps ----

  predicate HoldersOk(st: State, r: Req)
    requires r < |st.requests|
  {
    var q := st.requests[r];
    && (0 < InQueue(st.network, r) ==> q.doom == NotMade && q.reply == NotMade)
    && (0 < InQueue(st.gettingBackend, r) ==> q.doom == Unused && q.reply == NotMade)
    && (0 < InQueue(st.dooming, r) ==> q.doom == Used && q.reply == Unused)
  }

  predicate PostedOk(st: State, p: Posted) {
    && p.req < |st.requests|
    && p.client == st.requests[p.req].client
    && Due(st.answers, p.req) == Some(p.result)
    && (p.viaHolder ==> st.requests[p.req].reply == Unused)
  }

  predicate ReplyOk(st: State, p: Reply) {
    p.req < |st.requests| && p.runner == st.requests[p.req].client && Due(st.answers, p.req) == Some(p.result)
  }

  predicate RequestOk(st: State, r: Req) {
    Places(st, r) == One(r < |st.requests|) && (r < |st.requests| ==> HoldersOk(st, r))
  }

  /** The invariant, but for one request whose continuation is being moved right now. */
  ghost predicate InvBut(st: State, hole: int) {
    && Bounded(st) && !st.crashed
    && (forall r: Req :: r != hole ==> RequestOk(st, r))
    && (forall i :: 0 <= i < |st.posted| ==> PostedOk(st, st.posted[i]))
    && (forall i :: 0 <= i < |st.replies| ==> ReplyOk(st, st.replies[i]))
  }

  ghost predicate Inv(st: State) {
    InvBut(st, -1)
  }

  ghost predicate Moving(st: State, req: Req) {
    InvBut(st, req) && req < |st.requests| && Places(st, req) == 0
  }

  lemma {:induction false} QueueMember(s: seq<Req>, i: nat)
    requires i < |s|
    ensures 0 < InQueue(s, s[i])
  {
    if i > 0 { QueueMember(s[1..], i - 1); }
  }

  lemma {:induction false} PostedMember(s: seq<Posted>, i: nat)
    requires i < |s|
    ensures 0 < InPosted(s, s[i].req)
  {
    if i > 0 { PostedMember(s[1..], i - 1); }
  }

  lemma {:induction false} ReplyMember(s: seq<Reply>, i: nat)
    requires i < |s|
    ensures 0 < InReplies(s, s[i].req)
  {
    if i > 0 { ReplyMember(s[1..], i - 1); }
  }

  /** A request that is nowhere has nothing posted and no reply. */
  lemma NowhereElse(st: State, req: Req)
    requires Places(st, req) == 0
    ensures forall i :: 0 <= i < |st.posted| ==> st.posted[i].req != req
    ensures forall i :: 0 <= i < |st.replies| ==> st.replies[i].req != req
  {
    forall i | 0 <= i < |st.posted| ensures st.posted[i].req != req { PostedMember(st.posted, i); }
    forall i | 0 <= i < |st.replies| ensures st.replies[i].req != req { ReplyMember(st.replies, i); }
  }

  /** Changing the moving request's record and logging an answer about it disturbs nobody. */
  lemma TouchMoving(st: State, req: Req, q: Request, a: Option<Answer>)
    requires Moving(st, req) && q.client == st.requests[req].client
    requires a.Some? ==> a.value.req == req
    ensures Moving(st.(requests := st.requests[req := q],
                       answers := if a.Some? then st.answers + [a.value] else st.answers), req)
  {
    var st' := st.(requests := st.requests[req := q], answers := if a.Some? then st.answers + [a.value] else st.answers);
    NowhereElse(st, req);
    forall r: Req | r != req ensures RequestOk(st', r) { assert RequestOk(st, r); }
    forall i | 0 <= i < |st.posted| ensures PostedOk(st', st.posted[i]) {
      assert PostedOk(st, st.posted[i]);
      if a.Some? { DueSnoc(st.answers, a.value, st.posted[i].req); }
    }
    forall i | 0 <= i < |st.replies| ensures ReplyOk(st', st.replies[i]) {
      assert ReplyOk(st, st.replies[i]);
      if a.Some? { DueSnoc(st.answers, a.value, st.replies[i].req); }
    }
  }

  lemma PostMoving(st: State, req: Req, result: int, viaHolder: bool)
    requires Moving(st, req) && Due(st.answers, req) == Some(result)
    requires viaHolder ==> st.requests[req].reply == Unused
    ensures Inv(Post(st, req, result, viaHolder))
  {
    var st' := Post(st, req, result, viaHolder);
    forall r: Req ensures RequestOk(st', r) {
      InPostedConcat(st.posted, [Posted(st.requests[req].client, req, result, viaHolder)], r);
      assert r != req ==> RequestOk(st, r);
      assert [Posted(st.requests[req].client, req, result, viaHolder)][1..] == [];
    }
    forall i | 0 <= i < |st'.posted| ensures PostedOk(st', st'.posted[i]) {
      if i < |st.posted| { assert PostedOk(st, st.posted[i]); }
    }
    forall i | 0 <= i < |st.replies| ensures ReplyOk(st', st.replies[i]) { assert ReplyOk(st, st.replies[i]); }
  }

  lemma OneQueued(req: Req, r: Req)
    ensures InQueue([req], r) == One(req == r)
  {
    assert [req][1..] == [];
  }

  lemma WaitForDoom(st: State, req: Req)
    requires Moving(st, req) && st.requests[req].doom == Used && st.requests[req].reply == Unused
    ensures Inv(st.(dooming := st.dooming + [req]))
  {
    var st' := st.(dooming := st.dooming + [req]);
    forall r: Req ensures RequestOk(st', r) {
      InQueueConcat(st.dooming, [req], r);
      OneQueued(req, r);
      assert r != req ==> RequestOk(st, r);
    }
    forall i | 0 <= i < |st.posted| ensures PostedOk(st', st.posted[i]) { assert PostedOk(st, st.posted[i]); }
    forall i | 0 <= i < |st.replies| ensures ReplyOk(st', st.replies[i]) { assert ReplyOk(st, st.replies[i]); }
  }

  /** GetBackend has answered: whichever way it did, the continuation runs once, and the
      request moves on to the doom stage or straight to its reply. */
  lemma BackendAnswered(st: State, req: Req, rv: int, backend: bool, doomRv: int)
    requires Moving(st, req) && st.requests[req].doom == Unused
    ensures Inv(RunDoom(BackendSays(st, req, rv, backend), req, rv, doomRv))
  {
    var q := st.requests[req].(backend := backend);
    TouchMoving(st, req, q, Some(BackendAnswer(req, rv, backend)));
    DueSnoc(st.answers, BackendAnswer(req, rv, backend), req);
    var s1 := BackendSays(st, req, rv, backend);
    var used := q.(doom := Used);
    TouchMoving(s1, req, used, None);
    var s2 := s1.(requests := s1.requests[req := used]);
    if backend {
      var split := used.(reply := Unused);
      var s3 := s2.(requests := s2.requests[req := split]);
      if doomRv != ERR_IO_PENDING {
        TouchMoving(s2, req, split, Some(DoomAnswer(req, doomRv)));
        DueSnoc(s2.answers, DoomAnswer(req, doomRv), req);
        PostMoving(s3.(answers := s3.answers + [DoomAnswer(req, doomRv)]), req, doomRv, true);
      } else {
        TouchMoving(s2, req, split, None);
        WaitForDoom(s3, req);
      }
    } else {
      PostMoving(s2, req, rv, false);
    }
  }

  /** Taking a request out of a queue leaves it moving. */
  lemma TakeOut(st: State, st': State, req: Req)
    requires Inv(st) && req < |st.requests| && Bounded(st')
    requires st'.requests == st.requests && st'.posted == st.posted && st'.replies == st.replies
    requires st'.answers == st.answers && st'.crashed == st.crashed
    requires forall r: Req :: Places(st', r) == Places(st, r) - One(r == req)
    requires forall r: Req :: r != req ==>
      && InQueue(st'.network, r) == InQueue(st.network, r)
      && InQueue(st'.gettingBackend, r) == InQueue(st.gettingBackend, r)
      && InQueue(st'.dooming, r) == InQueue(st.dooming, r)
    ensures Moving(st', req)
  {
    assert RequestOk(st, req);
    forall r: Req | r != req ensures RequestOk(st', r) { assert RequestOk(st, r); }
    forall i | 0 <= i < |st.posted| ensures PostedOk(st', st.posted[i]) { assert PostedOk(st, st.posted[i]); }
    forall i | 0 <= i < |st.replies| ensures ReplyOk(st', st.replies[i]) { assert ReplyOk(st, st.replies[i]); }
  }

  lemma CallKeepsInv(st: State, client: Client)
    requires Inv(st) && Enabled(st, Call(client))
    ensures Inv(Step(st, Call(client)))
  {
    var st' := Step(st, Call(client));
    var n := |st.requests|;
    forall r: Req ensures RequestOk(st', r) {
      assert RequestOk(st, r);
      InQueueConcat(st.network, [n], r);
      OneQueued(n, r);
      assert st'.network == st.network + [n];
    }
    forall i | 0 <= i < |st.posted| ensures PostedOk(st', st.posted[i]) { assert PostedOk(st, st.posted[i]); }
    forall i | 0 <= i < |st.replies| ensures ReplyOk(st', st.replies[i]) { assert ReplyOk(st, st.replies[i]); }
  }

  lemma WaitForBackend(st: State, req: Req)
    requires Moving(st, req) && st.requests[req].doom == Unused && st.requests[req].reply == NotMade
    ensures Inv(st.(gettingBackend := st.gettingBackend + [req]))
  {
    var st' := st.(gettingBackend := st.gettingBackend + [req]);
    forall r: Req ensures RequestOk(st', r) {
      InQueueConcat(st.gettingBackend, [req], r);
      OneQueued(req, r);
      assert r != req ==> RequestOk(st, r);
    }
    forall i | 0 <= i < |st.posted| ensures PostedOk(st', st.posted[i]) { assert PostedOk(st, st.posted[i]); }
    forall i | 0 <= i < |st.replies| ensures ReplyOk(st', st.replies[i]) { assert ReplyOk(st, st.replies[i]); }
  }

  lemma RunClearKeepsInv(st: State, rv: int, backend: bool, doomRv: int)
    requires Inv(st) && Enabled(st, RunClear(rv, backend, doomRv))
    ensures Inv(Step(st, RunClear(rv, backend, doomRv)))
  {
    var req := st.network[0];
    assert RequestOk(st, req);
    var out := st.(network := st.network[1..]);
    TakeOut(st, out, req);
    TouchMoving(out, req, out.requests[req].(doom := Unused), None);
    var begun := out.(requests := out.requests[req := out.requests[req].(doom := Unused)]);
    if rv != ERR_IO_PENDING {
      BackendAnswered(begun, req, rv, backend, doomRv);
    } else {
      WaitForBackend(begun, req);
    }
  }

  lemma BackendReadyKeepsInv(st: State, i: nat, error: int, backend: bool, doomRv: int)
    requires Inv(st) && Enabled(st, BackendReady(i, error, backend, doomRv))
    ensures Inv(Step(st, BackendReady(i, error, backend, doomRv)))
  {
    var req := st.gettingBackend[i];
    assert RequestOk(st, req);
    QueueMember(st.gettingBackend, i);
    var out := st.(gettingBackend := Drop(st.gettingBackend, i));
    forall r: Req ensures InQueue(st.gettingBackend, r) == InQueue(out.gettingBackend, r) + One(req == r) {
      InQueueDrop(st.gettingBackend, i, r);
    }
    TakeOut(st, out, req);
    BackendAnswered(out, req, error, backend, doomRv);
  }

  lemma DoomDoneKeepsInv(st: State, i: nat, rv: int)
    requires Inv(st) && Enabled(st, DoomDone(i, rv))
    ensures Inv(Step(st, DoomDone(i, rv)))
  {
    var req := st.dooming[i];
    assert RequestOk(st, req);
    QueueMember(st.dooming, i);
    var out := st.(dooming := Drop(st.dooming, i));
    forall r: Req ensures InQueue(st.dooming, r) == InQueue(out.dooming, r) + One(req == r) {
      InQueueDrop(st.dooming, i, r);
    }
    TakeOut(st, out, req);
    TouchMoving(out, req, out.requests[req], Some(DoomAnswer(req, rv)));
    DueSnoc(out.answers, DoomAnswer(req, rv), req);
    assert out.requests[req := out.requests[req]] == out.requests;
    PostMoving(out.(answers := out.answers + [DoomAnswer(req, rv)]), req, rv, true);
  }

  /** Running a posted reply: nothing crashes, and only this request's record changes. */
  lemma ClientRunsMoves(st: State, i: nat, r: Req)
    requires Inv(st) && Enabled(st, ClientRuns(i))
    ensures !Step(st, ClientRuns(i)).crashed
    ensures RequestOk(Step(st, ClientRuns(i)), r)
  {
    var p := st.posted[i];
    assert PostedOk(st, p) && RequestOk(st, p.req) && RequestOk(st, r);
    InPostedDrop(st.posted, i, r);
    InRepliesConcat(st.replies, [Reply(p.req, p.client, p.result)], r);
    assert [Reply(p.req, p.client, p.result)][1..] == [];
    PostedMember(st.posted, i);
  }

  lemma ClientRunsKeepsPosted(st: State, i: nat, j: nat)
    requires Inv(st) && Enabled(st, ClientRuns(i)) && !Step(st, ClientRuns(i)).crashed
    requires j < |Drop(st.posted, i)|
    ensures PostedOk(Step(st, ClientRuns(i)), Drop(st.posted, i)[j])
  {
    var rest := Drop(st.posted, i);
    assert rest[j] == st.posted[if j < i then j else j + 1];
    assert PostedOk(st, rest[j]);
    assert RequestOk(st, st.posted[i].req);
    PostedMember(rest, j);
    InPostedDrop(st.posted, i, st.posted[i].req);
  }

  lemma ClientRunsKeepsInv(st: State, i: nat)
    requires Inv(st) && Enabled(st, ClientRuns(i))
    ensures Inv(Step(st, ClientRuns(i)))
  {
    var st' := Step(st, ClientRuns(i));
    var rest := Drop(st.posted, i);
    forall r: Req ensures RequestOk(st', r) { ClientRunsMoves(st, i, r); }
    ClientRunsMoves(st, i, 0);
    assert st'.posted == rest && |st'.requests| == |st.requests|;
    forall j | 0 <= j < |rest| ensures PostedOk(st', rest[j]) { ClientRunsKeepsPosted(st, i, j); }
    assert PostedOk(st, st.posted[i]);
    forall j | 0 <= j < |st'.replies| ensures ReplyOk(st', st'.replies[j]) {
      if j < |st.replies| { assert ReplyOk(st, st.replies[j]); }
    }
  }

  lemma StepKeepsInv(st: State, a: Action)
    requires Inv(st) && Enabled(st, a)
    ensures Inv(Step(st, a))
  {
    match a {
      case Call(client) => CallKeepsInv(st, client);
      case RunClear(rv, backend, doomRv) => RunClearKeepsInv(st, rv, backend, doomRv);
      case BackendReady(i, error, backend, doomRv) => BackendReadyKeepsInv(st, i, error, backend, doomRv);
      case DoomDone(i, rv) => DoomDoneKeepsInv(st, i, rv);
      case ClientRuns(i) => ClientRunsKeepsInv(st, i);
    }
  }

  lemma {:induction false} ExecKeepsInv(st: State, acts: seq<Action>)
    requires Inv(st) && Legal(st, acts)
    ensures Inv(Exec(st, acts))
    decreases |acts|
  {
    if acts != [] {
      StepKeepsInv(st, acts[0]);
      ExecKeepsInv(Step(st, acts[0]), acts[1..]);
    }
  }

  // ---- the theorems ----

  lemma RunInv(acts: seq<Action>)
    requires Legal(FRESH, acts)
    ensures Inv(Exec(FRESH, acts))
  {
    assert forall r: Req :: RequestOk(FRESH, r);
    ExecKeepsInv(FRESH, acts);
  }

  /** No run of any number of interleaved requests runs either half of a split callback
      a second time, so the CHECK inside never fails. */
  lemma SplitCallbacksRunOnce(acts: seq<Action>)
    requires Legal(FRESH, acts)
    ensures !Exec(FRESH, acts).crashed
  {
    RunInv(acts);
  }

  // ---- the results due, read off the actions ----

  /** What a request is owed once its backend has answered: the doom's result if there is a
      backend and the doom ended at once, GetBackend's if there is none. */
  function Owed(rv: int, backend: bool, doomRv: int): Option<int> {
    if !backend then Some(rv) else if doomRv == ERR_IO_PENDING then None else Some(doomRv)
  }

  function OwedAfter(st: State, a: Action, r: Req, owed: Option<int>): Option<int>
    requires Enabled(st, a)
  {
    match a
    case RunClear(rv, backend, doomRv) =>
      if st.network[0] != r || rv == ERR_IO_PENDING then owed else Owed(rv, backend, doomRv)
    case BackendReady(i, error, backend, doomRv) => if st.gettingBackend[i] != r then owed else Owed(error, backend, doomRv)
    case DoomDone(i, rv) => if st.dooming[i] != r then owed else Some(rv)
    case _ => owed
  }

  function AllOwed(st: State, acts: seq<Action>, r: Req, owed: Option<int>): Option<int>
    requires Legal(st, acts)
    decreases |acts|
  {
    if acts == [] then owed else AllOwed(Step(st, acts[0]), acts[1..], r, OwedAfter(st, acts[0], r, owed))
  }

  lemma DoomOwes(st: State, req: Req, error: int, backend: bool, doomRv: int, r: Req)
    requires req < |st.requests| && st.requests[req].doom == Unused
    ensures Due(RunDoom(BackendSays(st, req, error, backend), req, error, doomRv).answers, r)
         == if r == req then Owed(error, backend, doomRv) else Due(st.answers, r)
  {
    DueSnoc(st.answers, BackendAnswer(req, error, backend), r);
    if backend && doomRv != ERR_IO_PENDING {
      DueSnoc(st.answers + [BackendAnswer(req, error, backend)], DoomAnswer(req, doomRv), r);
    }
  }

  lemma StepOwes(st: State, a: Action, r: Req)
    requires Inv(st) && Enabled(st, a)
    ensures Due(Step(st, a).answers, r) == OwedAfter(st, a, r, Due(st.answers, r))
  {
    match a {
      case Call(_) =>
      case ClientRuns(_) =>
      case RunClear(rv, backend, doomRv) =>
        var req := st.network[0];
        var begun := st.(network := st.network[1..], requests := st.requests[req := st.requests[req].(doom := Unused)]);
        if rv != ERR_IO_PENDING { DoomOwes(begun, req, rv, backend, doomRv, r); }
      case BackendReady(i, error, backend, doomRv) =>
        var req := st.gettingBackend[i];
        assert RequestOk(st, req);
        QueueMember(st.gettingBackend, i);
        DoomOwes(st.(gettingBackend := Drop(st.gettingBackend, i)), req, error, backend, doomRv, r);
      case DoomDone(i, rv) => DueSnoc(st.answers, DoomAnswer(st.dooming[i], rv), r);
    }
  }

  lemma {:induction false} RunOwes(st: State, acts: seq<Action>, r: Req)
    requires Inv(st) && Legal(st, acts)
    ensures Due(Exec(st, acts).answers, r) == AllOwed(st, acts, r, Due(st.answers, r))
    decreases |acts|
  {
    if acts != [] {
      StepOwes(st, acts[0], r);
      StepKeepsInv(st, acts[0]);
      RunOwes(Step(st, acts[0]), acts[1..], r);
    }
  }

  /** The clients that asked, in order. */
  function Callers(acts: seq<Action>): seq<Client>
    decreases |acts|
  {
    if acts == [] then [] else (if acts[0].Call? then [acts[0].client] else []) + Callers(acts[1..])
  }

  function Clients(requests: seq<Request>): seq<Client> {
    seq(|requests|, i requires 0 <= i < |requests| => requests[i].client)
  }

  lemma StepCalls(st: State, a: Action)
    requires Enabled(st, a)
    ensures Clients(Step(st, a).requests) == Clients(st.requests) + if a.Call? then [a.client] else []
  {
  }

  lemma Associate(a: seq<Client>, b: seq<Client>, c: seq<Client>)
    ensures a + b + c == a + (b + c) && a + [] == a
  {
  }

  lemma {:induction false} RunCalls(st: State, acts: seq<Action>)
    requires Legal(st, acts)
    ensures Clients(Exec(st, acts).requests) == Clients(st.requests) + Callers(acts)
    decreases |acts|
  {
    if acts != [] {
      StepCalls(st, acts[0]);
      RunCalls(Step(st, acts[0]), acts[1..]);
      Associate(Clients(st.requests), if acts[0].Call? then [acts[0].client] else [], Callers(acts[1..]));
    } else {
      Associate(Clients(st.requests), [], []);
    }
  }

  /** Every request belongs to the client whose call made it, and no other is made. */
  lemma RequestsAreCalls(acts: seq<Action>)
    requires Legal(FRESH, acts)
    ensures Clients(Exec(FRESH, acts).requests) == Callers(acts)
  {
    RunCalls(FRESH, acts);
    assert Clients(FRESH.requests) == [];
  }

  /** In every run each request made has exactly one continuation or reply, on the
      runner of the client that made it. */
  lemma OneReplyEach(acts: seq<Action>, r: Req)
    requires Legal(FRESH, acts) && r < |Callers(acts)|
    ensures Places(Exec(FRESH, acts), r) == 1
    ensures forall i :: 0 <= i < |Exec(FRESH, acts).replies| && Exec(FRESH, acts).replies[i].req == r ==>
      Exec(FRESH, acts).replies[i].runner == Callers(acts)[r]
  {
    RunInv(acts);
    RequestsAreCalls(acts);
    assert RequestOk(Exec(FRESH, acts), r);
    assert forall i :: 0 <= i < |Exec(FRESH, acts).replies| ==> ReplyOk(Exec(FRESH, acts), Exec(FRESH, acts).replies[i]);
  }

  predicate Finished(st: State) {
    st.network == [] && st.gettingBackend == [] && st.dooming == [] && st.posted == []
  }

  /** Once both stages of everything have completed, each request has exactly one reply. */
  lemma FinishedMeansAnswered(acts: seq<Action>, r: Req)
    requires Legal(FRESH, acts) && Finished(Exec(FRESH, acts)) && r < |Callers(acts)|
    ensures InReplies(Exec(FRESH, acts).replies, r) == 1
  {
    OneReplyEach(acts, r);
  }

  /** A reply carries what the actions of its request say: the doom's result if there was a
      backend, else GetBackend's. */
  lemma RepliesCarryTheResult(acts: seq<Action>, i: nat)
    requires Legal(FRESH, acts) && i < |Exec(FRESH, acts).replies|
    ensures var reply := Exec(FRESH, acts).replies[i]; AllOwed(FRESH, acts, reply.req, None) == Some(reply.result)
  {
    RunInv(acts);
    assert forall r: Req :: RequestOk(FRESH, r);
    RunOwes(FRESH, acts, Exec(FRESH, acts).replies[i].req);
    assert ReplyOk(Exec(FRESH, acts), Exec(FRESH, acts).replies[i]);
  }

  /** So does every reply that is still on its way. */
  lemma PostedCarryTheResult(acts: seq<Action>, i: nat)
    requires Legal(FRESH, acts) && i < |Exec(FRESH, acts).posted|
    ensures var p := Exec(FRESH, acts).posted[i];
      && AllOwed(FRESH, acts, p.req, None) == Some(p.result)
      && p.req < |Callers(acts)| && p.client == Callers(acts)[p.req]
  {
    RunInv(acts);
    assert forall r: Req :: RequestOk(FRESH, r);
    var p := Exec(FRESH, acts).posted[i];
    assert PostedOk(Exec(FRESH, acts), p);
    RunOwes(FRESH, acts, p.req);
    RequestsAreCalls(acts);
    assert Clients(Exec(FRESH, acts).requests)[p.req] == p.client;
  }

  // ---- the functions themselves, posting and moving in place ----

  class CacheClearer {
    var requests: seq<Request>
    var network: seq<Req>
    var gettingBackend: seq<Req>
    var dooming: seq<Req>
    var posted: seq<Posted>
    ghost var replies: seq<Reply>
    ghost var answers: seq<Answer>

    ghost function View(): State
      reads this
    {
      State(requests, network, gettingBackend, dooming, posted, replies, answers, false)
    }

    constructor ()
      ensures View() == FRESH && Inv(View())
    {
      requests, network, gettingBackend, dooming, posted := [], [], [], [], [];
      replies, answers := [], [];
      new;
      RunInv([]);
    }

    /** A client asks; the work is posted to the network runner. */
    method ClearHttpCache(client: Client)
      requires Inv(View())
      modifies this
      ensures View() == Step(old(View()), Call(client)) && Inv(View())
    {
      CallKeepsInv(View(), client);
      network := network + [|requests|];
      requests := requests + [Request(client, false, NotMade, NotMade)];
    }

    /** DoomHttpCache. */
    method Doom(req: Req, error: int, doomRv: int)
      requires req < |requests|
      modifies this
      ensures View() == DoomHttpCache(old(View()), req, error, doomRv)
    {
      if requests[req].backend {
        requests := requests[req := requests[req].(reply := Unused)];
        if doomRv != ERR_IO_PENDING {
          answers := answers + [DoomAnswer(req, doomRv)];
          posted := posted + [Posted(requests[req].client, req, doomRv, true)];
        } else {
          dooming := dooming + [req];
        }
      } else {
        posted := posted + [Posted(requests[req].client, req, error, false)];
      }
    }

    /** The network runner's next task, with what GetBackend returns and fills in. */
    method ClearHttpCacheOnIOThread(rv: int, backend: bool, doomRv: int)
      requires Inv(View()) && network != []
      modifies this
      ensures View() == Step(old(View()), RunClear(rv, backend, doomRv)) && Inv(View())
    {
      RunClearKeepsInv(View(), rv, backend, doomRv);
      var req := network[0];
      network := network[1..];
      requests := requests[req := requests[req].(doom := Unused)];
      if rv != ERR_IO_PENDING {
        requests := requests[req := requests[req].(backend := backend)];
        answers := answers + [BackendAnswer(req, rv, backend)];
        requests := requests[req := requests[req].(doom := Used)];
        Doom(req, rv, doomRv);
      } else {
        gettingBackend := gettingBackend + [req];
      }
    }

    /** The posted half of a pending GetBackend. */
    method OnBackendReady(i: nat, error: int, backend: bool, doomRv: int)
      requires Inv(View()) && i < |gettingBackend|
      modifies this
      ensures View() == Step(old(View()), BackendReady(i, error, backend, doomRv)) && Inv(View())
    {
      BackendReadyKeepsInv(View(), i, error, backend, doomRv);
      var req := gettingBackend[i];
      QueueMember(gettingBackend, i);
      assert RequestOk(View(), req);
      gettingBackend := Drop(gettingBackend, i);
      requests := requests[req := requests[req].(backend := backend)];
      answers := answers + [BackendAnswer(req, error, backend)];
      assert requests[req].doom == Unused;
      requests := requests[req := requests[req].(doom := Used)];
      Doom(req, error, doomRv);
    }

    /** PostCallback, run when a pending doom completes. */
    method PostCallback(i: nat, error: int)
      requires Inv(View()) && i < |dooming|
      modifies this
      ensures View() == Step(old(View()), DoomDone(i, error)) && Inv(View())
    {
      DoomDoneKeepsInv(View(), i, error);
      var req := dooming[i];
      dooming := Drop(dooming, i);
      answers := answers + [DoomAnswer(req, error)];
      posted := posted + [Posted(requests[req].client, req, error, true)];
    }
  }
}
