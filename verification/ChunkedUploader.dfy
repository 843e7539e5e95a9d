/**
 ChunkedDataStreamUploader (net/chunked_data_stream_uploader.cc): a rendezvous
 between a network layer that reads and an application that says when data is
 ready, with completion callbacks that may call back into the uploader.

 The environment is a script: a sequence of calls, where a call that may fire a
 completion carries the calls its completion callback makes. Theorems quantify
 over all scripts, hence over every interleaving and every re-entrant callback.
 */
module ChunkedUploader {
  import opened Prelude

  type Byte = bv8
  type Buf = nat

  /** What the delegate's OnRead does if it is called: bytes, cut to the buffer, or an
      error code. No bytes means it returned zero. */
  datatype Answer = Data(bytes: seq<Byte>) | Error

  datatype Act =
    | Init                                                      // UploadDataStream::Init
    | Read(buf: Buf, len: nat, answer: Answer)                  // UploadDataStream::Read
    | Ready(final: bool, answer: Answer, onCompleted: seq<Act>) // UploadWhenReady
    | Reset                                                     // UploadDataStream::Reset

  datatype Event =
    | InitOk
    | InitFailed
    | Start(buf: Buf, len: nat)                        // ReadInternal entered
    | Sync(buf: Buf, bytes: seq<Byte>, final: bool)    // Read returned a byte count
    | Done(buf: Buf, bytes: seq<Byte>, final: bool)    // OnReadCompleted ran the callback
    | Drop(buf: Buf)                                   // a pending read was reset
    | AtEof(buf: Buf)                                  // Read after the end of stream: zero, at once
    | Told(final: bool)                                // UploadWhenReady called
    | Forgot                                           // ResetInternal called

  datatype Stream = Stream(
    pendingBuffer: Option<(Buf, nat)>,   // pending_read_buffer_ and its length
    pendingRead: bool,                   // pending_internal_read_
    isFinal: bool,                       // is_final_chunk_
    isFront: bool,                       // is_front_of_stream_
    inited: bool, eof: bool,             // the base class: initialized_successfully_, is_eof_
    waiting: bool,                       // the base class: a completion callback is stored
    mem: map<Buf, seq<Byte>>,            // what OnRead last put into each buffer
    produced: seq<Byte>,                 // all bytes the delegate handed out
    checks: bool,                        // no DCHECK has failed so far
    log: seq<Event>)

  const FRESH: Stream :=
    Stream(None, false, false, true, false, false, false, map[], [], true, [])

  function Log(st: Stream, e: Event): Stream {
    st.(log := st.log + [e])
  }

  function Check(st: Stream, b: bool): Stream {
    st.(checks := st.checks && b)
  }

  function Tell(st: Stream, final: bool): Stream {
    Log(st.(isFinal := final), Told(final))
  }

  /** The base class asks its callers: initialised, no read outstanding, room. */
  predicate CanRead(st: Stream, len: nat) {
    st.inited && !st.waiting && 0 < len
  }

  function OnRead(answer: Answer, len: nat): seq<Byte> {
    if answer.Data? then (if |answer.bytes| <= len then answer.bytes else answer.bytes[..len]) else []
  }

  function FirstBytes(st: Stream, buf: Buf, n: nat): seq<Byte> {
    if buf in st.mem && n <= |st.mem[buf]| then st.mem[buf][..n] else []
  }

  /** The front half of Upload: end the stream, or ask the delegate. None means the
      read stays pending. */
  function Fill(st: Stream, answer: Answer): (Stream, Option<nat>)
    requires st.pendingBuffer.Some?
  {
    var front := st.(isFront := false);
    if st.isFinal then
      (Check(front, st.inited && !st.eof).(eof := true), Some(0))
    else
      var (buf, len) := st.pendingBuffer.value;
      var got := OnRead(answer, len);
      var read := front.(mem := front.mem[buf := got], produced := front.produced + got);
      if |got| <= 0 then (read.(pendingRead := true), None) else (read, Some(|got|))
  }

  /** Upload up to the point where a pending read's completion would fire: the fields
      are idle again, and the flag says whether OnReadCompleted is called next. */
  function Settle(st: Stream, answer: Answer): (Stream, Option<nat>, bool)
  {
    if st.pendingBuffer.None? then (Check(st, false), None, false) else
      var (filled, n) := Fill(st, answer);
      if n.None? then (filled, None, false)
      else (filled.(pendingBuffer := None, pendingRead := false), n, filled.pendingRead)
  }

  /** The base class's OnReadCompleted up to its callback: the state the callback finds. */
  function Completed(st: Stream, buf: Buf, n: nat): Stream {
    var checked := Check(st, st.inited && (n != 0 || st.eof));
    if !checked.waiting then checked
    else Log(checked.(waiting := false), Done(buf, FirstBytes(st, buf, n), st.isFinal))
  }

  function ResetStream(st: Stream): Stream {
    var logged := if st.waiting && st.pendingBuffer.Some? then Log(st, Drop(st.pendingBuffer.value.0)) else st;
    Log(logged.(pendingBuffer := None, pendingRead := false, isFinal := false,
                inited := false, eof := false, waiting := false), Forgot)
  }

  /** The state ReadInternal hands to Upload. */
  function Begun(st: Stream, buf: Buf, len: nat): Stream {
    Log(Check(st, st.pendingBuffer.None?).(pendingBuffer := Some((buf, len))), Start(buf, len))
  }

  function RunAll(st: Stream, acts: seq<Act>): Stream
    decreases acts, 1
  {
    if acts == [] then st else RunAll(Do(st, acts[0]), acts[1..])
  }

  /** One call from outside. A Read its caller may not make is not made. */
  function Do(st: Stream, act: Act): Stream
    decreases act, 2
  {
    match act
    case Init =>
      var reset := ResetStream(st);
      if reset.isFront then Log(reset.(inited := true), InitOk) else Log(reset, InitFailed)
    case Reset => ResetStream(st)
    case Read(buf, len, answer) =>
      if !CanRead(st, len) then st
      else if st.eof then Log(st, AtEof(buf))
      else
        var (idle, n, fires) := Settle(Begun(st, buf, len), answer);
        if n.None? then idle.(waiting := true)
        else
          var after := if fires then Completed(idle, buf, n.value) else idle;
          Log(Check(after, n.value != 0 || after.eof), Sync(buf, FirstBytes(after, buf, n.value), after.isFinal))
    case Ready(final, answer, onCompleted) =>
      var told := Tell(st, final);
      if !told.pendingRead then told
      else
        var (idle, n, fires) := Settle(told, answer);
        if n.None? || !fires then idle
        else
          var entry := Completed(idle, st.pendingBuffer.value.0, n.value);
          if idle.waiting then RunAll(entry, onCompleted) else entry
  }

  // ---- reading the log ----

  datatype Open = Nothing | Reading(buf: Buf, len: nat) | Broken

  /** The outstanding read is of this buffer and has room for `n` bytes. */
  predicate Ends(o: Open, buf: Buf, n: nat) {
    o.Reading? && o.buf == buf && n <= o.len
  }

  /** One read at a time: a start, then one end of the same buffer, with no more bytes
      than it holds. */
  function Next(o: Open, e: Event): Open {
    match e
    case Start(buf, len) => if o == Nothing then Reading(buf, len) else Broken
    case Sync(buf, bytes, _) => if Ends(o, buf, |bytes|) then Nothing else Broken
    case Done(buf, bytes, _) => if Ends(o, buf, |bytes|) then Nothing else Broken
    case Drop(buf) => if Ends(o, buf, 0) then Nothing else Broken
    case AtEof(_) => if o == Nothing then Nothing else Broken
    case InitOk => if o == Nothing then Nothing else Broken
    case InitFailed => if o == Nothing then Nothing else Broken
    case Told(_) => o
    case Forgot => o
  }

  function Outstanding(log: seq<Event>): Open {
    if log == [] then Nothing else Next(Outstanding(log[..|log| - 1]), log[|log| - 1])
  }

  /** The bytes the network layer received, in order of completion. */
  function Received(log: seq<Event>): seq<Byte> {
    if log == [] then [] else
      var last := log[|log| - 1];
      Received(log[..|log| - 1]) + if last.Sync? || last.Done? then last.bytes else []
  }

  /** What UploadWhenReady last said, unless a reset came after it. */
  function LastTold(log: seq<Event>): bool {
    if log == [] then false else
      var last := log[|log| - 1];
      if last.Told? then last.final else if last.Forgot? then false else LastTold(log[..|log| - 1])
  }

  predicate Started(log: seq<Event>) {
    exists i :: 0 <= i < |log| && log[i].Start?
  }

  /** Zero bytes mean the final chunk and only that; nothing initialises after a start. */
  predicate LogOk(log: seq<Event>) {
    && (forall i :: 0 <= i < |log| && (log[i].Sync? || log[i].Done?) ==> (log[i].bytes == [] <==> log[i].final))
    && (forall i, j :: 0 <= i < j < |log| && log[i].Start? ==> log[j] != InitOk)
  }

  lemma LogOne(st: Stream, e: Event)
    ensures Outstanding(Log(st, e).log) == Next(Outstanding(st.log), e)
    ensures Received(Log(st, e).log) == Received(st.log) + if e.Sync? || e.Done? then e.bytes else []
    ensures LastTold(Log(st, e).log) == if e.Told? then e.final else if e.Forgot? then false else LastTold(st.log)
    ensures Started(Log(st, e).log) <==> Started(st.log) || e.Start?
    ensures LogOk(Log(st, e).log) <==>
      && LogOk(st.log)
      && (e.Sync? || e.Done? ==> (e.bytes == [] <==> e.final))
      && (Started(st.log) ==> e != InitOk)
  {
    var log := Log(st, e).log;
    assert log[..|log| - 1] == st.log && log[|st.log|] == e;
    assert forall i :: 0 <= i < |st.log| ==> log[i] == st.log[i];
  }

  predicate Inv(st: Stream) {
    && st.checks
    && (st.pendingBuffer.Some? <==> st.pendingRead)
    && (st.waiting <==> st.pendingRead)
    && (st.waiting ==> st.inited && !st.eof && 0 < st.pendingBuffer.value.1)
    && Outstanding(st.log) == (if st.waiting then Reading(st.pendingBuffer.value.0, st.pendingBuffer.value.1) else Nothing)
    && st.produced == Received(st.log)
    && st.isFinal == LastTold(st.log)
    && (st.isFront <==> !Started(st.log))
    && LogOk(st.log)
  }

  /** Between calls the uploader holds nothing: this is what a callback finds. */
  predicate Idle(st: Stream) {
    st.pendingBuffer.None? && !st.pendingRead && !st.waiting
  }

  /** What the delegate hands out is what lands in the buffer and is counted. */
  lemma FillMovesBytes(st: Stream, answer: Answer)
    requires st.pendingBuffer.Some?
    ensures var (idle, n, fires) := Settle(st, answer);
      var got := if n.Some? then FirstBytes(idle, st.pendingBuffer.value.0, n.value) else [];
      && idle.produced == st.produced + got
      && (n.Some? ==> |got| == n.value <= st.pendingBuffer.value.1 && (n.value == 0 <==> st.isFinal))
      && (n.Some? <==> st.isFinal || OnRead(answer, st.pendingBuffer.value.1) != [])
      && (n.Some? ==> fires == st.pendingRead && idle.eof == (st.eof || st.isFinal))
  {
    var (buf, len) := st.pendingBuffer.value;
    var got := OnRead(answer, len);
    assert got[..|got|] == got;
    assert st.produced + [] == st.produced;
  }

  lemma {:induction false} StartedWhileReading(log: seq<Event>)
    requires Outstanding(log).Reading?
    ensures Started(log)
  {
    var front := log[..|log| - 1];
    if log[|log| - 1].Start? {
    } else {
      StartedWhileReading(front);
      var i :| 0 <= i < |front| && front[i].Start?;
      assert log[i].Start?;
    }
  }

  lemma TellKeepsInv(st: Stream, final: bool)
    requires Inv(st)
    ensures Inv(Tell(st, final))
  {
    LogOne(st.(isFinal := final), Told(final));
  }

  /** When OnReadCompleted runs the callback the fields are idle already, all checks
      hold, and a read made right there is a legal one. */
  lemma CallbackFindsIdleStream(st: Stream, answer: Answer)
    requires Inv(st) && st.pendingRead
    ensures var (idle, n, fires) := Settle(st, answer);
      if n.Some? then
        var entry := Completed(idle, st.pendingBuffer.value.0, n.value);
        fires && idle.waiting && Inv(entry) && Idle(entry) && forall len: nat :: 0 < len ==> CanRead(entry, len)
      else Inv(idle)
  {
    var (idle, n, fires) := Settle(st, answer);
    StartedWhileReading(st.log);
    FillMovesBytes(st, answer);
    if n.Some? {
      LogOne(idle, Done(st.pendingBuffer.value.0, FirstBytes(idle, st.pendingBuffer.value.0, n.value), st.isFinal));
    }
  }

  lemma ResetKeepsInv(st: Stream)
    requires Inv(st)
    ensures Inv(ResetStream(st)) && Idle(ResetStream(st))
  {
    var dropped := if st.waiting then Log(st, Drop(st.pendingBuffer.value.0)) else st;
    if st.waiting { LogOne(st, Drop(st.pendingBuffer.value.0)); }
    LogOne(dropped, Forgot);
  }

  predicate BegunLogOk(begun: Stream) {
    Started(begun.log) && LogOk(begun.log) && begun.isFinal == LastTold(begun.log)
  }

  /** A read that ends at once: its event closes what its start opened. */
  lemma SyncKeepsInv(begun: Stream, buf: Buf, answer: Answer)
    requires begun.checks && begun.pendingBuffer.Some? && begun.pendingBuffer.value.0 == buf
    requires begun.inited && !begun.eof && !begun.pendingRead && !begun.waiting
    requires Outstanding(begun.log) == Reading(buf, begun.pendingBuffer.value.1)
    requires Received(begun.log) == begun.produced && BegunLogOk(begun)
    ensures var (idle, n, fires) := Settle(begun, answer);
      n.Some? ==>
        && !fires
        && Inv(Log(Check(idle, n.value != 0 || idle.eof), Sync(buf, FirstBytes(idle, buf, n.value), idle.isFinal)))
  {
    FillMovesBytes(begun, answer);
    var (idle, n, fires) := Settle(begun, answer);
    if n.Some? {
      LogOne(idle, Sync(buf, FirstBytes(idle, buf, n.value), idle.isFinal));
    }
  }

  lemma BegunKeepsInv(st: Stream, buf: Buf, len: nat, answer: Answer)
    requires Inv(st) && CanRead(st, len) && !st.eof
    requires var begun := Begun(st, buf, len);
      Outstanding(begun.log) == Reading(buf, len) && Received(begun.log) == begun.produced && BegunLogOk(begun)
    ensures Inv(Do(st, Read(buf, len, answer)))
  {
    var begun := Begun(st, buf, len);
    FillMovesBytes(begun, answer);
    var (idle, n, fires) := Settle(begun, answer);
    if n.Some? {
      SyncKeepsInv(begun, buf, answer);
    }
  }

  lemma ReadKeepsInv(st: Stream, buf: Buf, len: nat, answer: Answer)
    requires Inv(st) && CanRead(st, len)
    ensures Inv(Do(st, Read(buf, len, answer)))
  {
    if st.eof {
      LogOne(st, AtEof(buf));
    } else {
      LogOne(st, Start(buf, len));
      BegunKeepsInv(st, buf, len, answer);
    }
  }

  lemma DoKeepsInv(st: Stream, act: Act)
    requires Inv(st)
    ensures Inv(Do(st, act))
    decreases act, 2
  {
    match act {
      case Init =>
        ResetKeepsInv(st);
        LogOne(ResetStream(st), InitOk);
        LogOne(ResetStream(st), InitFailed);
      case Reset => ResetKeepsInv(st);
      case Read(buf, len, answer) => if CanRead(st, len) { ReadKeepsInv(st, buf, len, answer); }
      case Ready(final, answer, onCompleted) =>
        TellKeepsInv(st, final);
        if st.pendingRead {
          CallbackFindsIdleStream(Tell(st, final), answer);
          var (idle, n, fires) := Settle(Tell(st, final), answer);
          if n.Some? {
            RunAllKeepsInv(Completed(idle, st.pendingBuffer.value.0, n.value), onCompleted);
          }
        }
    }
  }

  lemma {:induction false} RunAllKeepsInv(st: Stream, acts: seq<Act>)
    requires Inv(st)
    ensures Inv(RunAll(st, acts))
    decreases acts, 1
  {
    if acts != [] {
      DoKeepsInv(st, acts[0]);
      RunAllKeepsInv(Do(st, acts[0]), acts[1..]);
    }
  }

  // ---- whole scripts ----

  /** The stream after any script from a new uploader. */
  function After(acts: seq<Act>): Stream {
    RunAll(FRESH, acts)
  }

  lemma AfterInv(acts: seq<Act>)
    ensures Inv(After(acts))
  {
    RunAllKeepsInv(FRESH, acts);
  }

  /** The bytes an answer puts into a buffer: as many of the first as fit. */
  function Handed(answer: Answer, len: nat): (got: seq<Byte>)
    ensures answer.Data? ==> got <= answer.bytes && (|got| == len <= |answer.bytes| || |got| == |answer.bytes| <= len)
    ensures answer.Error? ==> got == []
  {
    match answer
    case Error => []
    case Data(bytes) => bytes[..if len < |bytes| then len else |bytes|]
  }

  /** What the delegate is asked for by a call: it is asked by a read, or by an
      announcement that finds one pending, unless the end has been announced. The
      completion's own calls follow if the read ended. */
  function Offered(st: Stream, act: Act): seq<Byte>
    decreases act, 2
  {
    match act
    case Read(_, len, answer) => if CanRead(st, len) && !st.eof && !LastTold(st.log) then Handed(answer, len) else []
    case Ready(final, answer, onCompleted) =>
      if st.pendingBuffer.None? then []
      else
        var got := if final then [] else Handed(answer, st.pendingBuffer.value.1);
        if final || got != [] then got + AllOffered(Do(st, Ready(final, answer, [])), onCompleted) else []
    case _ => []
  }

  function AllOffered(st: Stream, acts: seq<Act>): seq<Byte>
    decreases acts, 1
  {
    if acts == [] then [] else Offered(st, acts[0]) + AllOffered(Do(st, acts[0]), acts[1..])
  }

  /** A read with the delegate's data at hand ends at once with as much as fits. */
  lemma ReadGetsData(st: Stream, buf: Buf, len: nat, answer: Answer)
    requires Inv(st) && CanRead(st, len) && !st.eof && !LastTold(st.log)
    ensures var got, st' := Handed(answer, len), Do(st, Read(buf, len, answer));
      && st'.produced == st.produced + got
      && (if got != [] then !st'.pendingRead && st'.log == st.log + [Start(buf, len), Sync(buf, got, false)]
          else st'.pendingBuffer == Some((buf, len)) && st'.pendingRead && st'.log == st.log + [Start(buf, len)])
  {
    var got := Handed(answer, len);
    assert OnRead(answer, len) == got && got[..|got|] == got;
    assert st.log + [Start(buf, len)] + [Sync(buf, got, false)] == st.log + [Start(buf, len), Sync(buf, got, false)];
  }

  /** So does a pending read when data is announced; without data it goes on waiting. */
  lemma ReadyGetsData(st: Stream, answer: Answer, onCompleted: seq<Act>)
    requires Inv(st) && st.pendingRead
    ensures var (buf, len) := st.pendingBuffer.value;
      var got, st' := Handed(answer, len), Do(st, Ready(false, answer, []));
      && st'.produced == st.produced + got
      && (if got != [] then !st'.pendingRead && st'.log == st.log + [Told(false), Done(buf, got, false)]
          else st'.pendingBuffer == Some((buf, len)) && st'.pendingRead && st'.log == st.log + [Told(false)])
      && Do(st, Ready(false, answer, onCompleted)) == if got != [] then RunAll(st', onCompleted) else st'
  {
    var (buf, len) := st.pendingBuffer.value;
    var got := Handed(answer, len);
    assert OnRead(answer, len) == got && got[..|got|] == got;
    assert st.log + [Told(false)] + [Done(buf, got, false)] == st.log + [Told(false), Done(buf, got, false)];
  }

  /** The end of the stream hands out nothing. */
  lemma EndHandsOutNothing(st: Stream, answer: Answer, onCompleted: seq<Act>)
    requires Inv(st) && st.pendingRead
    ensures Do(st, Ready(true, answer, [])).produced == st.produced
    ensures Do(st, Ready(true, answer, onCompleted)) == RunAll(Do(st, Ready(true, answer, [])), onCompleted)
  {
  }

  lemma ReadOffers(st: Stream, buf: Buf, len: nat, answer: Answer)
    requires Inv(st)
    ensures Do(st, Read(buf, len, answer)).produced == st.produced + Offered(st, Read(buf, len, answer))
  {
    if CanRead(st, len) && !st.eof && !LastTold(st.log) { ReadGetsData(st, buf, len, answer); }
  }

  /** What happens before the completion's own calls, and that they come next if it fired. */
  lemma ReadyFirst(st: Stream, final: bool, answer: Answer, onCompleted: seq<Act>)
    requires Inv(st) && st.pendingRead
    ensures var entry := Do(st, Ready(final, answer, []));
      var got := if final then [] else Handed(answer, st.pendingBuffer.value.1);
      && entry.produced == st.produced + got
      && Do(st, Ready(final, answer, onCompleted)) == if final || got != [] then RunAll(entry, onCompleted) else entry
  {
    if final {
      EndHandsOutNothing(st, answer, onCompleted);
    } else {
      ReadyGetsData(st, answer, onCompleted);
    }
  }

  lemma Joined(a: seq<Byte>, b: seq<Byte>, c: seq<Byte>)
    ensures a + b + c == a + (b + c) && a + [] == a
  {
  }

  lemma {:induction false} DoOffers(st: Stream, act: Act)
    requires Inv(st)
    ensures Do(st, act).produced == st.produced + Offered(st, act)
    decreases act, 2
  {
    match act {
      case Init =>
      case Reset =>
      case Read(buf, len, answer) => ReadOffers(st, buf, len, answer);
      case Ready(final, answer, onCompleted) =>
        if st.pendingRead {
          var entry := Do(st, Ready(final, answer, []));
          ReadyFirst(st, final, answer, onCompleted);
          DoKeepsInv(st, Ready(final, answer, []));
          AllOffers(entry, onCompleted);
          Joined(st.produced, if final then [] else Handed(answer, st.pendingBuffer.value.1), AllOffered(entry, onCompleted));
        }
    }
  }

  lemma {:induction false} AllOffers(st: Stream, acts: seq<Act>)
    requires Inv(st)
    ensures RunAll(st, acts).produced == st.produced + AllOffered(st, acts)
    decreases acts, 1
  {
    if acts != [] {
      DoOffers(st, acts[0]);
      DoKeepsInv(st, acts[0]);
      AllOffers(Do(st, acts[0]), acts[1..]);
      Joined(st.produced, Offered(st, acts[0]), AllOffered(Do(st, acts[0]), acts[1..]));
    } else {
      Joined(st.produced, [], []);
    }
  }

  /** Byte conservation: what the network layer received is what the script's own answers
      put into the buffers they were offered, in order, with nothing kept back between
      calls. */
  lemma BytesConserved(acts: seq<Act>)
    ensures Received(After(acts).log) == AllOffered(FRESH, acts)
    ensures After(acts).produced == AllOffered(FRESH, acts)
  {
    AfterInv(acts);
    AllOffers(FRESH, acts);
  }

  lemma {:induction false} BrokenStays(log: seq<Event>, i: nat)
    requires i <= |log| && Outstanding(log) != Broken
    ensures Outstanding(log[..i]) != Broken
  {
    if i < |log| {
      var front := log[..|log| - 1];
      BrokenStays(front, i);
      assert front[..i] == log[..i];
    } else {
      assert log[..i] == log;
    }
  }

  /** No read ends with more bytes than its buffer holds. */
  lemma NoReadOverflows(acts: seq<Act>, i: nat)
    requires i < |After(acts).log| && (After(acts).log[i].Sync? || After(acts).log[i].Done?)
    ensures var log := After(acts).log;
      Outstanding(log[..i]).Reading? && Outstanding(log[..i]).buf == log[i].buf && |log[i].bytes| <= Outstanding(log[..i]).len
  {
    AfterInv(acts);
    var log := After(acts).log;
    BrokenStays(log, i + 1);
    assert log[..i + 1][..i] == log[..i];
  }

  /** No DCHECK of the uploader or of the base class fails, re-entrant calls included. */
  lemma NoCheckFails(acts: seq<Act>)
    ensures After(acts).checks
  {
    AfterInv(acts);
  }

  function Starts(log: seq<Event>, buf: Buf): nat {
    if log == [] then 0 else
      Starts(log[..|log| - 1], buf) + if log[|log| - 1].Start? && log[|log| - 1].buf == buf then 1 else 0
  }

  predicate Finish(e: Event, buf: Buf) {
    (e.Sync? || e.Done? || e.Drop?) && e.buf == buf
  }

  function Finishes(log: seq<Event>, buf: Buf): nat {
    if log == [] then 0 else
      Finishes(log[..|log| - 1], buf) + if Finish(log[|log| - 1], buf) then 1 else 0
  }

  lemma {:induction false} BracketedCounts(log: seq<Event>, buf: Buf)
    requires Outstanding(log) != Broken
    ensures Starts(log, buf) == Finishes(log, buf) + if Outstanding(log).Reading? && Outstanding(log).buf == buf then 1 else 0
  {
    if log != [] {
      BracketedCounts(log[..|log| - 1], buf);
    }
  }

  /** Each read that enters the uploader ends once: at once, by one OnReadCompleted, or
      dropped by a reset; a buffer is held exactly while one is outstanding. */
  lemma EveryReadEndsOnce(acts: seq<Act>, buf: Buf)
    ensures var st := After(acts);
      && (st.pendingBuffer.Some? <==> st.pendingRead)
      && Outstanding(st.log) == (if st.pendingRead then Reading(st.pendingBuffer.value.0, st.pendingBuffer.value.1) else Nothing)
      && Starts(st.log, buf) == Finishes(st.log, buf)
         + if st.pendingRead && st.pendingBuffer.value.0 == buf then 1 else 0
  {
    AfterInv(acts);
    BracketedCounts(After(acts).log, buf);
  }

  /** A read ends with zero bytes exactly when the final-chunk flag is set. */
  lemma ZeroMeansFinalChunk(acts: seq<Act>, i: nat)
    requires i < |After(acts).log| && (After(acts).log[i].Sync? || After(acts).log[i].Done?)
    ensures After(acts).log[i].bytes == [] <==> After(acts).log[i].final
  {
    AfterInv(acts);
  }

  lemma {:induction false} RunAllAppends(st: Stream, acts: seq<Act>, more: seq<Act>)
    ensures RunAll(st, acts + more) == RunAll(RunAll(st, acts), more)
    decreases |acts|
  {
    if acts == [] {
      assert [] + more == more;
    } else {
      assert (acts + more)[1..] == acts[1..] + more;
      RunAllAppends(Do(st, acts[0]), acts[1..], more);
    }
  }

  lemma {:induction false} DoKeepsStarted(st: Stream, act: Act)
    requires !st.isFront
    ensures !Do(st, act).isFront
    decreases act, 2
  {
    if act.Ready? {
      var told := Tell(st, act.final);
      var (idle, n, fires) := Settle(told, act.answer);
      if told.pendingRead && n.Some? && fires && idle.waiting {
        RunAllKeepsStarted(Completed(idle, st.pendingBuffer.value.0, n.value), act.onCompleted);
      }
    }
  }

  lemma {:induction false} RunAllKeepsStarted(st: Stream, acts: seq<Act>)
    requires !st.isFront
    ensures !RunAll(st, acts).isFront
    decreases acts, 1
  {
    if acts != [] {
      DoKeepsStarted(st, acts[0]);
      RunAllKeepsStarted(Do(st, acts[0]), acts[1..]);
    }
  }

  /** No rewind: initialisation succeeds exactly while no read has ever started, and
      once one has, it fails after every continuation. */
  lemma InitFailsOnceReading(acts: seq<Act>, more: seq<Act>)
    ensures Do(After(acts), Init).inited <==> !Started(After(acts).log)
    ensures Started(After(acts).log) ==> !Do(After(acts + more), Init).inited
  {
    AfterInv(acts);
    RunAllAppends(FRESH, acts, more);
    AfterInv(acts + more);
    if Started(After(acts).log) {
      RunAllKeepsStarted(After(acts), more);
    }
  }

  /** When an announced end is reported: whatever was called before, a read ends the
      stream, at once and with zero bytes, if and only if the last announcement since the
      last reset was of the final chunk. */
  lemma EndReachesReadIffLastTold(acts: seq<Act>, buf: Buf, len: nat, answer: Answer)
    requires CanRead(After(acts), len) && !After(acts).eof
    ensures var st := Do(After(acts), Read(buf, len, answer));
      && (st.eof <==> LastTold(After(acts).log))
      && (st.eof ==> !st.waiting && st.log == After(acts).log + [Start(buf, len), Sync(buf, [], true)])
  {
    AfterInv(acts);
    var st, log := After(acts), After(acts).log;
    if st.isFinal {
      assert log + [Start(buf, len)] + [Sync(buf, [], true)] == log + [Start(buf, len), Sync(buf, [], true)];
    }
  }

  /** And a read already pending: an announcement ends the stream if and only if it is of
      the final chunk, before the completion callback makes its own calls. */
  lemma EndReachesPendingReadIffTold(acts: seq<Act>, final: bool, answer: Answer, onCompleted: seq<Act>)
    requires After(acts).pendingRead
    ensures After(acts).pendingBuffer.Some?
    ensures var done, entry := Done(After(acts).pendingBuffer.value.0, [], true), Do(After(acts), Ready(final, answer, []));
      && (entry.eof <==> final)
      && (final ==> entry.log == After(acts).log + [Told(true), done])
      && (final ==> Do(After(acts), Ready(final, answer, onCompleted)) == RunAll(entry, onCompleted))
  {
    AfterInv(acts);
    var log, done := After(acts).log, Done(After(acts).pendingBuffer.value.0, [], true);
    if final {
      assert log + [Told(true)] + [done] == log + [Told(true), done];
    }
  }

  /** The comment in ResetInternal notwithstanding, a reset forgets the final-chunk flag:
      announced before initialisation, the end of an empty stream is not reported to the
      first read; announced after it, it is. */
  lemma InitForgetsFinalChunk(acts: seq<Act>, buf: Buf, len: nat, early: Answer)
    requires !Started(After(acts).log) && 0 < len
    ensures var st := Do(Do(Do(After(acts), Ready(true, early, [])), Init), Read(buf, len, Error)); st.waiting && !st.eof
    ensures var st := Do(Do(Do(After(acts), Init), Ready(true, early, [])), Read(buf, len, Error)); !st.waiting && st.eof
  {
    AfterInv(acts);
    var st := After(acts);
    if st.waiting {
      StartedWhileReading(st.log);
    }
  }

  // ---- the object ----

  function SizeAll(acts: seq<Act>): nat {
    if acts == [] then 0 else Size(acts[0]) + SizeAll(acts[1..])
  }

  function Size(act: Act): nat {
    if act.Ready? then 1 + SizeAll(act.onCompleted) else 1
  }

  /** The uploader itself. Its asserts are the source's DCHECKs. */
  class Uploader {
    var pendingReadBuffer: Option<(Buf, nat)>
    var pendingInternalRead: bool
    var isFinalChunk: bool
    var isFrontOfStream: bool
    var initialized: bool
    var isEof: bool
    var hasCallback: bool
    var mem: map<Buf, seq<Byte>>
    ghost var produced: seq<Byte>
    ghost var log: seq<Event>

    ghost function View(): Stream
      reads this
    {
      Stream(pendingReadBuffer, pendingInternalRead, isFinalChunk, isFrontOfStream,
             initialized, isEof, hasCallback, mem, produced, true, log)
    }

    constructor ()
      ensures View() == FRESH && Inv(View())
    {
      pendingReadBuffer, pendingInternalRead, isFinalChunk, isFrontOfStream := None, false, false, true;
      initialized, isEof, hasCallback := false, false, false;
      mem, produced, log := map[], [], [];
    }

    method ResetInternal()
      modifies this`pendingReadBuffer, this`pendingInternalRead, this`isFinalChunk
      ensures pendingReadBuffer == None && !pendingInternalRead && !isFinalChunk
    {
      pendingReadBuffer, pendingInternalRead := None, false;
      isFinalChunk := false;
    }

    method Reset()
      requires Inv(View())
      modifies this
      ensures View() == Do(old(View()), Act.Reset) && Inv(View())
    {
      ghost var st := View();
      DoKeepsInv(st, Act.Reset);
      if hasCallback {
        log := log + [Drop(pendingReadBuffer.value.0)];
      }
      initialized, isEof, hasCallback := false, false, false;
      ResetInternal();
      log := log + [Forgot];
      assert View() == ResetStream(st);
    }

    method Init() returns (ok: bool)
      requires Inv(View())
      modifies this
      ensures View() == Do(old(View()), Act.Init) && Inv(View())
      ensures ok <==> old(isFrontOfStream)
    {
      DoKeepsInv(View(), Act.Init);
      Reset();
      ok := isFrontOfStream;
      if ok {
        initialized := true;
        log := log + [InitOk];
      } else {
        log := log + [InitFailed];
      }
    }

    /** A read by the network layer; None is ERR_IO_PENDING. */
    method Read(buf: Buf, len: nat, answer: Answer) returns (n: Option<nat>)
      requires Inv(View()) && CanRead(View(), len)
      modifies this
      ensures View() == Do(old(View()), Act.Read(buf, len, answer)) && Inv(View())
      ensures n.None? <==> hasCallback
      decreases 0, 5
    {
      DoKeepsInv(View(), Act.Read(buf, len, answer));
      if isEof {
        log := log + [AtEof(buf)];
        return Some(0);
      }
      ghost var st := View();
      FillMovesBytes(Log(st.(pendingBuffer := Some((buf, len))), Start(buf, len)), answer);
      n := ReadInternal(buf, len, answer);
      if n.None? {
        hasCallback := true;
      } else {
        assert n.value != 0 || isEof;
        log := log + [Sync(buf, FirstBytes(View(), buf, n.value), isFinalChunk)];
      }
    }

    method ReadInternal(buf: Buf, len: nat, answer: Answer) returns (n: Option<nat>)
      requires Inv(View()) && CanRead(View(), len) && !isEof
      modifies this
      ensures var (idle, m, fires) := Settle(Log(old(View()).(pendingBuffer := Some((buf, len))), Start(buf, len)), answer);
        n == m && !fires && View() == idle
      decreases 0, 4
    {
      assert 0 < len;
      assert pendingReadBuffer.None?;
      pendingReadBuffer := Some((buf, len));
      log := log + [Start(buf, len)];
      n := Upload(answer, []);
    }

    /** The application says that data is ready, or that the last chunk has come. */
    method UploadWhenReady(isFinal: bool, answer: Answer, onCompleted: seq<Act>)
      requires Inv(View())
      modifies this
      ensures View() == Do(old(View()), Ready(isFinal, answer, onCompleted)) && Inv(View())
      decreases SizeAll(onCompleted), 4
    {
      DoKeepsInv(View(), Ready(isFinal, answer, onCompleted));
      TellKeepsInv(View(), isFinal);
      isFinalChunk := isFinal;
      log := log + [Told(isFinal)];
      if pendingInternalRead {
        CallbackFindsIdleStream(View(), answer);
        var _ := Upload(answer, onCompleted);
      }
    }

    method Upload(answer: Answer, onCompleted: seq<Act>) returns (n: Option<nat>)
      requires pendingReadBuffer.Some? && initialized && !isEof
      requires if pendingInternalRead then Inv(View()) else !hasCallback
      modifies this
      ensures var (idle, m, fires) := Settle(old(View()), answer);
        && n == m
        && (fires <==> m.Some? && old(pendingInternalRead))
        && View() == if fires then RunAll(Completed(idle, old(pendingReadBuffer).value.0, m.value), onCompleted) else idle
      decreases SizeAll(onCompleted), 3
    {
      ghost var st := View();
      FillMovesBytes(st, answer);
      if pendingInternalRead {
        CallbackFindsIdleStream(st, answer);
      }
      assert pendingReadBuffer.Some?;
      var (buf, len) := pendingReadBuffer.value;
      isFrontOfStream := false;
      var bytesRead := 0;
      if isFinalChunk {
        assert initialized && !isEof;
        isEof := true;
      } else {
        var got := OnRead(answer, len);
        mem := mem[buf := got];
        produced := produced + got;
        bytesRead := |got|;
        if bytesRead <= 0 {
          pendingInternalRead := true;
          return None;
        }
      }
      pendingReadBuffer := None;
      if pendingInternalRead {
        pendingInternalRead := false;
        OnReadCompleted(buf, bytesRead, onCompleted);
      }
      return Some(bytesRead);
    }

    /** The base class: run the stored callback, which may call back into the uploader. */
    method OnReadCompleted(buf: Buf, n: nat, onCompleted: seq<Act>)
      requires hasCallback && Inv(Completed(View(), buf, n))
      modifies this
      ensures View() == RunAll(Completed(old(View()), buf, n), onCompleted) && Inv(View())
      decreases SizeAll(onCompleted), 2
    {
      assert initialized && (n != 0 || isEof);
      hasCallback := false;
      log := log + [Done(buf, FirstBytes(View(), buf, n), isFinalChunk)];
      PerformAll(onCompleted);
    }

    method PerformAll(acts: seq<Act>)
      requires Inv(View())
      modifies this
      ensures View() == RunAll(old(View()), acts) && Inv(View())
      decreases SizeAll(acts), 1
    {
      if acts != [] {
        Perform(acts[0]);
        PerformAll(acts[1..]);
      }
    }

    method Perform(act: Act)
      requires Inv(View())
      modifies this
      ensures View() == Do(old(View()), act) && Inv(View())
      decreases Size(act), 0
    {
      match act {
        case Init => var _ := Init();
        case Reset => Reset();
        case Read(buf, len, answer) =>
          if initialized && !hasCallback && 0 < len {
            var _ := Read(buf, len, answer);
          }
        case Ready(final, answer, onCompleted) => UploadWhenReady(final, answer, onCompleted);
      }
    }
  }
}
