/**
 One TCP connection as its loop thread and other threads see it: sending with a pending buffer
 and write interest, half-close, and close. The kernel is a parameter of every send.
 */
module TCPConnection {
  import opened Common

  type Thread = nat

  const LOOP: Thread := 0

  datatype ConnState = DISCONNECTED | CONNECTING | CONNECTED | DISCONNECTING

  /** What ::send returns: a count, or -1 with EWOULDBLOCK, with EPIPE or ECONNRESET, or with
      any other error. */
  datatype Sent = Accepted(count: nat) | WouldBlock | Broken | OtherError

  /** Tasks on their way to the loop thread: they hold a raw pointer to the connection. */
  datatype LoopTask = SendTask(data: seq<byte>, caller: Thread) | ShutdownTask

  /** One executed sendInLoop: what became of its data. */
  datatype Fate = Taken | GivenUp | Dropped
  datatype Done = Done(data: seq<byte>, caller: Thread, fate: Fate)

  /**
   The connection object. kernel: the bytes that ::send has accepted. halfClosed: ::shutdown has
   been called. closed: handleClose has run at least once. completions: queued write-complete
   callbacks. log: every executed sendInLoop, in order.
   */
  datatype Wire = Wire(
    state: ConnState, sendBuffer: seq<byte>, sending: bool, recving: bool,
    kernel: seq<byte>, halfClosed: bool, closed: bool, completions: nat, log: seq<Done>)

  /** After SHUT_WR the kernel refuses with EPIPE; otherwise it takes at most what is offered. */
  ghost predicate KernelMay(c: Wire, offered: seq<byte>, r: Sent) {
    if c.halfClosed then r.Broken? else r.Accepted? ==> r.count <= |offered|
  }

  function AfterSendInLoop(c: Wire, data: seq<byte>, caller: Thread, r: Sent): Wire {
    Transfer(c, data, r).(log := c.log + [Done(data, caller, FateOf(c, r))])
  }

  /** Only an empty buffer without write interest lets sendInLoop try the kernel at once. */
  predicate Direct(c: Wire) {
    c.state != DISCONNECTED && !c.sending && c.sendBuffer == []
  }

  function FateOf(c: Wire, r: Sent): Fate {
    if c.state == DISCONNECTED then GivenUp else if Direct(c) && r.Broken? then Dropped else Taken
  }

  function Transfer(c: Wire, data: seq<byte>, r: Sent): Wire {
    if FateOf(c, r) != Taken then c
    else if Direct(c) && r.Accepted? then
      var k := if r.count <= |data| then r.count else |data|;
      var sent := c.(kernel := c.kernel + data[..k]);
      if k == |data| then sent.(completions := c.completions + 1) else Pend(sent, data[k..])
    else Pend(c, data)
  }

  /** The rest goes to the buffer, and write interest is turned on if anything is left. */
  function Pend(c: Wire, data: seq<byte>): Wire {
    c.(sendBuffer := c.sendBuffer + data, sending := c.sending || data != [])
  }

  function AfterShutdownInLoop(c: Wire): Wire {
    if c.sending then c else c.(halfClosed := true)
  }

  function AfterHandleSend(c: Wire, r: Sent): Wire {
    if c.sending && r.Accepted? && r.count > 0 then
      var k := if r.count <= |c.sendBuffer| then r.count else |c.sendBuffer|;
      var sent := c.(kernel := c.kernel + c.sendBuffer[..k], sendBuffer := c.sendBuffer[k..]);
      var drained := if sent.sendBuffer == [] then sent.(sending := false, completions := c.completions + 1) else sent;
      if c.state == DISCONNECTING then AfterShutdownInLoop(drained) else drained
    else c
  }

  function AfterHandleClose(c: Wire): Wire {
    c.(state := DISCONNECTED, sending := false, recving := false, closed := true)
  }

  function AfterEstablished(c: Wire): Wire {
    c.(state := CONNECTED, recving := true)
  }

  /** shutdown() called in the loop thread. */
  function AfterShutdown(c: Wire): Wire {
    if c.state == CONNECTED then AfterShutdownInLoop(c.(state := DISCONNECTING)) else c
  }

  /** What becomes of the bytes of one sendInLoop: nothing is sent on a closed connection; behind
      pending bytes or write interest everything waits; otherwise the kernel is tried, and what it
      does not take waits, unless the peer is gone. */
  ghost predicate Fares(w: Wire, data: seq<byte>, r: Sent, v: Wire, fate: Fate) {
    && (r.Accepted? ==> r.count <= |data|)
    && (fate == GivenUp <==> w.state == DISCONNECTED)
    && (fate == Dropped <==> w.state != DISCONNECTED && !w.sending && w.sendBuffer == [] && r.Broken?)
    && (fate != Taken ==>
          && v.kernel == w.kernel && v.sendBuffer == w.sendBuffer
          && v.sending == w.sending && v.completions == w.completions)
    && (w.state != DISCONNECTED && (w.sending || w.sendBuffer != []) ==>
          && v.kernel == w.kernel && v.sendBuffer == w.sendBuffer + data
          && v.sending == (w.sending || data != []) && v.completions == w.completions)
    && (fate == Taken && !w.sending && w.sendBuffer == [] ==>
          var k := if r.Accepted? then r.count else 0;
          && v.kernel == w.kernel + data[..k] && v.sendBuffer == data[k..]
          && v.sending == (k < |data|)
          && v.completions == w.completions + (if r.Accepted? && k == |data| then 1 else 0))
  }

  /** The cases of sendInLoop leave nothing open. */
  lemma FaresAlone(c: Wire, data: seq<byte>, caller: Thread, fate: Fate, r: Sent, v: Wire)
    requires (v.state, v.recving, v.halfClosed, v.closed) == (c.state, c.recving, c.halfClosed, c.closed)
    requires v.log == c.log + [Done(data, caller, fate)]
    requires Fares(c, data, r, v, fate)
    ensures Fares(c, data, r, v, fate)
    ensures v == AfterSendInLoop(c, data, caller, r)
  {
  }

  // ----- The object -----

  class Connection {
    var state: ConnState
    var sendBuffer: seq<byte>
    var sending: bool
    var recving: bool
    var halfClosed: bool
    var completions: nat
    ghost var kernel: seq<byte>
    ghost var closed: bool
    ghost var log: seq<Done>

    ghost function View(): Wire
      reads this
    {
      Wire(state, sendBuffer, sending, recving, kernel, halfClosed, closed, completions, log)
    }

    constructor ()
      ensures View() == Wire(CONNECTING, [], false, false, [], false, false, 0, [])
    {
      state, sendBuffer, sending, recving, halfClosed, completions := CONNECTING, [], false, false, false, 0;
      kernel, closed, log := [], false, [];
    }

    method SendInLoop(data: seq<byte>, ghost caller: Thread, r: Sent) returns (ghost fate: Fate)
      requires r.Accepted? ==> r.count <= |data|
      modifies this
      ensures View() == AfterSendInLoop(old(View()), data, caller, r)
      ensures (state, recving, halfClosed, closed) == old((state, recving, halfClosed, closed))
      ensures log == old(log) + [Done(data, caller, fate)] && Fares(old(View()), data, r, View(), fate)
    {
      hide AfterSendInLoop;
      ghost var before := View();
      if state == DISCONNECTED {
        fate := GivenUp;
      } else {
        var nsend, sendError := 0, false;
        if !sending && |sendBuffer| == 0 {
          if r.Accepted? {
            nsend := r.count;
            if nsend == |data| {
              completions := completions + 1;
            }
          } else if r.Broken? {
            sendError := true;
          }
        }
        kernel := kernel + data[..nsend];
        fate := if sendError then Dropped else Taken;
        var remaining := |data| - nsend;
        assert [] + data[nsend..] == data[nsend..] && data[0..] == data;
        assert sendBuffer + [] == sendBuffer && data[|data|..] == [];
        if !sendError && remaining > 0 {
          sendBuffer := sendBuffer + data[nsend..];
          if !sending {
            sending := true;
          }
        }
      }
      log := log + [Done(data, caller, fate)];
      FaresAlone(before, data, caller, fate, r, View());
      hide Fares;
    }

    method HandleSend(r: Sent)
      requires r.Accepted? ==> r.count <= |sendBuffer|
      modifies this
      ensures View() == AfterHandleSend(old(View()), r)
      ensures (state, recving, closed, log) == old((state, recving, closed, log))
      ensures !old(sending) || !r.Accepted? || r.count == 0 ==>
        (sendBuffer, sending, kernel, completions, halfClosed)
        == old((sendBuffer, sending, kernel, completions, halfClosed))
      ensures old(sending) && r.Accepted? && r.count > 0 ==>
        var drained := r.count == old(|sendBuffer|);
        && (kernel, sendBuffer) == (old(kernel) + old(sendBuffer)[..r.count], old(sendBuffer)[r.count..])
        && sending == !drained && completions == old(completions) + (if drained then 1 else 0)
        && halfClosed == (old(halfClosed) || (drained && state == DISCONNECTING))
    {
      if sending && r.Accepted? && r.count > 0 {
        kernel := kernel + sendBuffer[..r.count];
        sendBuffer := sendBuffer[r.count..];
        if |sendBuffer| == 0 {
          sending := false;
          completions := completions + 1;
        }
        if state == DISCONNECTING {
          ShutdownInLoop();
        }
      }
    }

    method ShutdownInLoop()
      modifies this`halfClosed
      ensures View() == AfterShutdownInLoop(old(View()))
      ensures halfClosed == (old(halfClosed) || !sending)
    {
      if !sending {
        halfClosed := true;
      }
    }

    method ShutdownFromLoop()
      modifies this`state, this`halfClosed
      ensures View() == AfterShutdown(old(View()))
      ensures state == (if old(state) == CONNECTED then DISCONNECTING else old(state))
      ensures halfClosed == (old(halfClosed) || (old(state) == CONNECTED && !sending))
    {
      if state == CONNECTED {
        state := DISCONNECTING;
        ShutdownInLoop();
      }
    }

    method ConnectEstablished()
      modifies this`state, this`recving
      ensures View() == AfterEstablished(old(View()))
      ensures state == CONNECTED && recving
    {
      state := CONNECTED;
      recving := true;
    }

    method HandleClose()
      modifies this
      ensures View() == AfterHandleClose(old(View()))
      ensures state == DISCONNECTED && !sending && !recving && closed
      ensures (sendBuffer, kernel, halfClosed, completions, log)
        == old((sendBuffer, kernel, halfClosed, completions, log))
    {
      state := DISCONNECTED;
      sending, recving := false, false;
      closed := true;
    }
  }

  // ----- The protocol -----

  /**
   tasks: the loop's queue, as far as it concerns this connection.
   calls: every send made by another thread, in the order of the pushes.
   checked, stored: other threads inside shutdown(), after its test and after its store.
   overtaken: such a store has hit a connection that was closed after the test.
   */
  datatype Conn = Conn(
    wire: Wire, tasks: seq<LoopTask>, calls: seq<LoopTask>,
    checked: set<Thread>, stored: set<Thread>, overtaken: bool)

  datatype Action =
    // the loop thread
    | Establish
    | SendFromLoop(data: seq<byte>, r: Sent)
    | RunTask(r: Sent)
    | Writable(r: Sent)
    | CloseEvent
    | ShutdownFromLoop
    // other threads
    | PushSend(t: Thread, data: seq<byte>)
    | ShutdownTest(t: Thread)
    | ShutdownStore(t: Thread)
    | ShutdownPush(t: Thread)

  ghost predicate Enabled(c: Conn, a: Action) {
    match a
    case Establish => c.wire.state == CONNECTING
    case SendFromLoop(data, r) => KernelMay(c.wire, data, r)
    case RunTask(r) => c.tasks != [] && (c.tasks[0].SendTask? ==> KernelMay(c.wire, c.tasks[0].data, r))
    case Writable(r) => c.wire.sending && KernelMay(c.wire, c.wire.sendBuffer, r)
    case CloseEvent => c.wire.recving || c.wire.sending
    case ShutdownFromLoop => true
    case PushSend(t, _) => t != LOOP && t !in c.checked && t !in c.stored
    case ShutdownTest(t) => t != LOOP && t !in c.checked && t !in c.stored
    case ShutdownStore(t) => t in c.checked
    case ShutdownPush(t) => t in c.stored
  }

  /** What the step does to the connection object. */
  function WireAfter(c: Conn, a: Action): Wire {
    match a
    case Establish => AfterEstablished(c.wire)
    case SendFromLoop(data, r) => AfterSendInLoop(c.wire, data, LOOP, r)
    case RunTask(r) =>
      if c.tasks == [] then c.wire
      else if c.tasks[0].SendTask? then AfterSendInLoop(c.wire, c.tasks[0].data, c.tasks[0].caller, r)
      else AfterShutdownInLoop(c.wire)
    case Writable(r) => AfterHandleSend(c.wire, r)
    case CloseEvent => AfterHandleClose(c.wire)
    case ShutdownFromLoop => AfterShutdown(c.wire)
    case ShutdownStore(t) => c.wire.(state := DISCONNECTING)
    case _ => c.wire
  }

  /** What it does to the queue and to the other threads. */
  function Apply(c: Conn, a: Action): Conn {
    var d := c.(wire := WireAfter(c, a));
    match a
    case RunTask(_) => if c.tasks == [] then d else d.(tasks := c.tasks[1..])
    case PushSend(t, data) =>
      d.(tasks := c.tasks + [SendTask(data, t)], calls := c.calls + [SendTask(data, t)])
    case ShutdownTest(t) => if c.wire.state == CONNECTED then d.(checked := c.checked + {t}) else d
    case ShutdownStore(t) =>
      d.(checked := c.checked - {t}, stored := c.stored + {t}, overtaken := c.overtaken || c.wire.state == DISCONNECTED)
    case ShutdownPush(t) => d.(tasks := c.tasks + [ShutdownTask], stored := c.stored - {t})
    case _ => d
  }

  ghost predicate Init(c: Conn) {
    c == Conn(Wire(CONNECTING, [], false, false, [], false, false, 0, []), [], [], {}, {}, false)
  }

  ghost predicate Runs(c: Conn, acts: seq<Action>, d: Conn)
    decreases |acts|
  {
    if acts == [] then c == d
    else Enabled(c, acts[0]) && Runs(Apply(c, acts[0]), acts[1..], d)
  }

  // ----- Bytes -----

  /** The data of every chunk that a sendInLoop took on, in execution order. */
  function TakenBytes(log: seq<Done>): seq<byte> {
    if log == [] then []
    else TakenBytes(log[..|log| - 1]) + (if log[|log| - 1].fate == Taken then log[|log| - 1].data else [])
  }

  lemma TakenSnoc(log: seq<Done>, d: Done)
    ensures TakenBytes(log + [d]) == TakenBytes(log) + (if d.fate == Taken then d.data else [])
  {
    assert (log + [d])[..|log|] == log;
  }

  ghost predicate Conserved(w: Wire) {
    w.kernel + w.sendBuffer == TakenBytes(w.log)
  }

  lemma TransferMovesBytes(w: Wire, data: seq<byte>, r: Sent)
    ensures var w' := Transfer(w, data, r);
      w'.kernel + w'.sendBuffer == w.kernel + w.sendBuffer + (if FateOf(w, r) == Taken then data else [])
  {
    if Direct(w) && r.Accepted? {
      var k := if r.count <= |data| then r.count else |data|;
      assert data == data[..k] + data[k..];
      assert w.kernel + data[..k] + data[k..] == w.kernel + data;
    } else if FateOf(w, r) == Taken {
      assert w.kernel + (w.sendBuffer + data) == w.kernel + w.sendBuffer + data;
    } else {
      assert w.kernel + w.sendBuffer + [] == w.kernel + w.sendBuffer;
    }
  }

  lemma SendConserves(w: Wire, data: seq<byte>, caller: Thread, r: Sent)
    requires Conserved(w)
    ensures Conserved(AfterSendInLoop(w, data, caller, r))
  {
    TakenSnoc(w.log, Done(data, caller, FateOf(w, r)));
    TransferMovesBytes(w, data, r);
  }

  lemma HandleSendConserves(w: Wire, r: Sent)
    requires Conserved(w)
    ensures Conserved(AfterHandleSend(w, r))
  {
    if w.sending && r.Accepted? && r.count > 0 {
      MoveBytes(w.kernel, w.sendBuffer, if r.count <= |w.sendBuffer| then r.count else |w.sendBuffer|);
    }
    hide TakenBytes;
  }

  lemma MoveBytes(kernel: seq<byte>, buffer: seq<byte>, n: nat)
    requires n <= |buffer|
    ensures kernel + buffer[..n] + buffer[n..] == kernel + buffer
  {
    assert buffer[..n] + buffer[n..] == buffer;
  }

  lemma StepConserves(c: Conn, a: Action)
    requires Conserved(c.wire) && Enabled(c, a)
    ensures Conserved(Apply(c, a).wire)
  {
    match a
    case SendFromLoop(data, r) => SendConserves(c.wire, data, LOOP, r);
    case RunTask(r) =>
      if c.tasks[0].SendTask? {
        SendConserves(c.wire, c.tasks[0].data, c.tasks[0].caller, r);
      }
    case Writable(r) => HandleSendConserves(c.wire, r);
    case _ =>
  }

  // ----- Write interest and half-close -----

  /** Write interest is on exactly while bytes are pending, until the connection is closed. */
  ghost predicate Agrees(w: Wire) {
    w.state != DISCONNECTED ==> (w.sending <==> w.sendBuffer != [])
  }

  /** A half-closed connection that is not closed has nothing pending. */
  ghost predicate HalfCloseLast(w: Wire) {
    w.halfClosed && w.state == DISCONNECTING ==> w.sendBuffer == []
  }

  ghost predicate Shape(c: Conn) {
    var w := c.wire;
    && (w.state == DISCONNECTED && !c.overtaken ==> !w.sending && w.closed)
    && (w.halfClosed ==> w.state == DISCONNECTING || w.state == DISCONNECTED)
    && (c.checked != {} || c.stored != {} || ShutdownTask in c.tasks ==> w.state != CONNECTING)
    && (c.stored != {} || ShutdownTask in c.tasks ==> w.state != CONNECTED)
    && (w.state == CONNECTING ==> !w.closed)
    && (w.closed && !c.overtaken ==> w.state == DISCONNECTED)
  }

  /** A requested half-close is still on its way, or waits for the buffer, or has happened. */
  ghost predicate HalfCloseComing(c: Conn) {
    c.wire.state == DISCONNECTING ==>
      ShutdownTask in c.tasks || c.stored != {} || c.wire.sending || c.wire.halfClosed
  }

  /** What holds in every run, also after a store that has overtaken the close. */
  ghost predicate Steady(w: Wire) {
    && (w.state == DISCONNECTED ==> !w.sending)
    && (w.sending ==> w.sendBuffer != [])
    && (w.state == CONNECTING || w.state == CONNECTED ==> Agrees(w))
  }

  ghost predicate Ordered(c: Conn) {
    && Shape(c)
    && Steady(c.wire)
    && HalfCloseComing(c)
    && (!c.overtaken ==> Agrees(c.wire) && HalfCloseLast(c.wire))
  }

  lemma SendKeepsOrdered(c: Conn, data: seq<byte>, caller: Thread, r: Sent)
    requires Ordered(c) && KernelMay(c.wire, data, r)
    ensures Ordered(c.(wire := AfterSendInLoop(c.wire, data, caller, r)))
  {
  }

  lemma RunTaskKeepsOrdered(c: Conn, r: Sent)
    requires Ordered(c) && Enabled(c, RunTask(r))
    ensures Ordered(Apply(c, RunTask(r)))
  {
    var task, later := c.tasks[0], c.tasks[1..];
    assert c.tasks == [task] + later;
    if task.SendTask? {
      assert ShutdownTask in c.tasks <==> ShutdownTask in later;
      SendKeepsOrdered(c.(tasks := later), task.data, task.caller, r);
    } else {
      assert ShutdownTask in c.tasks;
    }
  }

  lemma StepKeepsOrdered(c: Conn, a: Action)
    requires Ordered(c) && Enabled(c, a)
    ensures Ordered(Apply(c, a))
  {
    match a
    case SendFromLoop(data, r) => SendKeepsOrdered(c, data, LOOP, r);
    case RunTask(r) => RunTaskKeepsOrdered(c, r);
    case PushSend(t, data) => assert ShutdownTask in c.tasks + [SendTask(data, t)] <==> ShutdownTask in c.tasks;
    case ShutdownStore(t) => assert t in Apply(c, a).stored;
    case ShutdownPush(t) => assert ShutdownTask in Apply(c, a).tasks;
    case _ =>
  }

  // ----- Send order -----

  function SentBy(log: seq<Done>, t: Thread): seq<seq<byte>> {
    if log == [] then []
    else SentBy(log[..|log| - 1], t) + (if log[|log| - 1].caller == t then [log[|log| - 1].data] else [])
  }

  function Own(q: LoopTask, t: Thread): seq<seq<byte>> {
    if q.SendTask? && q.caller == t then [q.data] else []
  }

  function QueuedBy(tasks: seq<LoopTask>, t: Thread): seq<seq<byte>> {
    if tasks == [] then []
    else
      QueuedBy(tasks[..|tasks| - 1], t) + Own(tasks[|tasks| - 1], t)
  }

  lemma SentSnoc(log: seq<Done>, d: Done, t: Thread)
    ensures SentBy(log + [d], t) == SentBy(log, t) + (if d.caller == t then [d.data] else [])
  {
    assert (log + [d])[..|log|] == log;
  }

  lemma QueuedSnoc(tasks: seq<LoopTask>, q: LoopTask, t: Thread)
    ensures QueuedBy(tasks + [q], t) == QueuedBy(tasks, t) + Own(q, t)
  {
    assert (tasks + [q])[..|tasks|] == tasks;
  }

  lemma {:induction false} QueuedCons(tasks: seq<LoopTask>, t: Thread)
    requires tasks != []
    ensures QueuedBy(tasks, t) == Own(tasks[0], t) + QueuedBy(tasks[1..], t)
    decreases |tasks|
  {
    var n := |tasks| - 1;
    assert QueuedBy(tasks, t) == QueuedBy(tasks[..n], t) + Own(tasks[n], t);
    if n == 0 {
      assert tasks[..0] == tasks[1..] == [];
    } else {
      QueuedCons(tasks[..n], t);
      var later := tasks[1..];
      assert later[..n - 1] == tasks[..n][1..] && later[n - 1] == tasks[n];
      assert QueuedBy(later, t) == QueuedBy(later[..n - 1], t) + Own(tasks[n], t);
      Assoc(Own(tasks[0], t), QueuedBy(later[..n - 1], t), Own(tasks[n], t));
    }
  }

  /** For each other thread: what has been executed for it, then what is queued for it, is the
      sequence of its calls. */
  ghost predicate InCallOrder(c: Conn, t: Thread) {
    SentBy(c.wire.log, t) + QueuedBy(c.tasks, t) == QueuedBy(c.calls, t)
  }

  /** A step that executes a sendInLoop adds one entry to the log; no other step touches it. */
  function Executed(c: Conn, a: Action): Option<Done> {
    match a
    case SendFromLoop(data, r) => Some(Done(data, LOOP, FateOf(c.wire, r)))
    case RunTask(r) =>
      if c.tasks != [] && c.tasks[0].SendTask?
      then Some(Done(c.tasks[0].data, c.tasks[0].caller, FateOf(c.wire, r)))
      else None
    case _ => None
  }

  lemma LogAfter(c: Conn, a: Action)
    ensures match Executed(c, a)
      case Some(d) => Apply(c, a).wire.log == c.wire.log + [d]
      case None => Apply(c, a).wire.log == c.wire.log
  {
  }

  lemma RunTaskKeepsCallOrder(c: Conn, r: Sent, t: Thread)
    requires InCallOrder(c, t) && Enabled(c, RunTask(r))
    ensures InCallOrder(Apply(c, RunTask(r)), t)
  {
    LogAfter(c, RunTask(r));
    QueuedCons(c.tasks, t);
    hide WireAfter, SentBy, QueuedBy, FateOf;
    var head, later := c.tasks[0], c.tasks[1..];
    assert Apply(c, RunTask(r)).tasks == later && Apply(c, RunTask(r)).calls == c.calls;
    if head.SendTask? {
      SentSnoc(c.wire.log, Done(head.data, head.caller, FateOf(c.wire, r)), t);
      assert SentBy(Apply(c, RunTask(r)).wire.log, t) == SentBy(c.wire.log, t) + Own(head, t);
      hide Apply, Enabled;
      Assoc(SentBy(c.wire.log, t), Own(head, t), QueuedBy(later, t));
    } else {
      assert [] + QueuedBy(later, t) == QueuedBy(later, t);
    }
  }

  lemma StepKeepsCallOrder(c: Conn, a: Action, t: Thread)
    requires InCallOrder(c, t) && Enabled(c, a) && t != LOOP
    ensures InCallOrder(Apply(c, a), t)
  {
    LogAfter(c, a);
    hide WireAfter, SentBy, QueuedBy;
    match a
    case SendFromLoop(data, r) => SentSnoc(c.wire.log, Done(data, LOOP, FateOf(c.wire, r)), t);
    case RunTask(r) => RunTaskKeepsCallOrder(c, r, t);
    case PushSend(u, data) =>
      QueuedSnoc(c.tasks, SendTask(data, u), t);
      QueuedSnoc(c.calls, SendTask(data, u), t);
    case ShutdownPush(u) => QueuedSnoc(c.tasks, ShutdownTask, t);
    case _ =>
  }

  // ----- Whole runs -----

  ghost predicate Inv(c: Conn) {
    Conserved(c.wire) && Ordered(c) && forall t {:trigger InCallOrder(c, t)} :: t != LOOP ==> InCallOrder(c, t)
  }

  lemma {:induction false} RunKeepsInv(c: Conn, acts: seq<Action>, d: Conn)
    requires Inv(c) && Runs(c, acts, d)
    ensures Inv(d)
    decreases |acts|
  {
    if acts != [] {
      StepConserves(c, acts[0]);
      StepKeepsOrdered(c, acts[0]);
      forall t {:trigger InCallOrder(Apply(c, acts[0]), t)} | t != LOOP
        ensures InCallOrder(Apply(c, acts[0]), t)
      {
        assert InCallOrder(c, t);
        StepKeepsCallOrder(c, acts[0], t);
      }
      hide Enabled, Apply, Conserved, Ordered, InCallOrder;
      RunKeepsInv(Apply(c, acts[0]), acts[1..], d);
    }
  }

  lemma InitInv(c: Conn)
    requires Init(c)
    ensures Inv(c)
  {
  }

  /** Byte conservation: in every run, also one that closes in the middle, what the kernel has
      accepted followed by the pending buffer is exactly the chunks taken on, in order. */
  lemma ByteConservation(c: Conn, acts: seq<Action>, d: Conn)
    requires Init(c) && Runs(c, acts, d)
    ensures d.wire.kernel + d.wire.sendBuffer == TakenBytes(d.wire.log)
  {
    InitInv(c);
    RunKeepsInv(c, acts, d);
  }

  /** The chunks that one other thread sends are executed in the order of its calls. */
  lemma ThreadSendOrder(c: Conn, acts: seq<Action>, d: Conn, t: Thread)
    requires Init(c) && Runs(c, acts, d) && t != LOOP
    ensures SentBy(d.wire.log, t) + QueuedBy(d.tasks, t) == QueuedBy(SendsIn(acts), t)
  {
    CallsAreSends(c, acts, d);
    assert [] + SendsIn(acts) == SendsIn(acts);
    InitInv(c);
    RunKeepsInv(c, acts, d);
    assert InCallOrder(d, t);
  }

  /** The sends of other threads that a run contains, as they were called. */
  function SendsIn(acts: seq<Action>): seq<LoopTask>
    decreases |acts|
  {
    if acts == [] then []
    else (if acts[0].PushSend? then [SendTask(acts[0].data, acts[0].t)] else []) + SendsIn(acts[1..])
  }

  lemma {:induction false} CallsAreSends(c: Conn, acts: seq<Action>, d: Conn)
    requires Runs(c, acts, d)
    ensures d.calls == c.calls + SendsIn(acts)
    decreases |acts|
  {
    if acts == [] {
      assert c.calls + [] == c.calls;
    } else {
      var one := if acts[0].PushSend? then [SendTask(acts[0].data, acts[0].t)] else [];
      assert Apply(c, acts[0]).calls == c.calls + one by {
        assert c.calls + [] == c.calls;
        hide WireAfter;
      }
      hide Apply, Enabled;
      CallsAreSends(Apply(c, acts[0]), acts[1..], d);
      Assoc(c.calls, one, SendsIn(acts[1..]));
    }
  }

  /** Write interest is never on without pending bytes. Until a shutdown is called it is on exactly
      when bytes are pending, and so it is until the connection is closed unless a store has
      overtaken a close. */
  lemma WriteInterest(c: Conn, acts: seq<Action>, d: Conn)
    requires Init(c) && Runs(c, acts, d)
    ensures d.wire.sending ==> d.wire.sendBuffer != [] && d.wire.state != DISCONNECTED
    ensures d.wire.state == CONNECTING || d.wire.state == CONNECTED ==> (d.wire.sending <==> d.wire.sendBuffer != [])
    ensures d.wire.state == DISCONNECTING && !d.overtaken ==> (d.wire.sending <==> d.wire.sendBuffer != [])
  {
    InitInv(c);
    RunKeepsInv(c, acts, d);
  }

  /** Half-close comes last: once the socket is shut down, and until it is closed, every chunk
      taken on is already with the kernel, unless a store has overtaken a close. */
  lemma HalfCloseOrder(c: Conn, acts: seq<Action>, d: Conn)
    requires Init(c) && Runs(c, acts, d)
    ensures d.wire.halfClosed && d.wire.state == DISCONNECTING ==>
              d.overtaken || d.wire.kernel == TakenBytes(d.wire.log)
  {
    InitInv(c);
    RunKeepsInv(c, acts, d);
    assert d.wire.kernel + [] == d.wire.kernel;
  }

  /** No half-close gets stuck: with none queued and none about to be queued, either write
      interest is on, so that draining will trigger it, or it has been issued. */
  lemma NoStuckHalfClose(c: Conn, acts: seq<Action>, d: Conn)
    requires Init(c) && Runs(c, acts, d)
    requires d.wire.state == DISCONNECTING && ShutdownTask !in d.tasks && d.stored == {}
    ensures d.wire.sending || d.wire.halfClosed
  {
    InitInv(c);
    RunKeepsInv(c, acts, d);
  }

  /** Draining the buffer of a connection that is half-closing does half-close it. */
  lemma DrainHalfCloses(c: Conn, acts: seq<Action>, d: Conn)
    requires Init(c) && Runs(c, acts, d)
    requires d.wire.state == DISCONNECTING && Enabled(d, Writable(Accepted(|d.wire.sendBuffer|)))
    ensures var e := Apply(d, Writable(Accepted(|d.wire.sendBuffer|)));
      e.wire.halfClosed && e.wire.sendBuffer == [] && !e.wire.sending && e.wire.kernel == TakenBytes(e.wire.log)
  {
    InitInv(c);
    RunKeepsInv(c, acts, d);
    StepConserves(d, Writable(Accepted(|d.wire.sendBuffer|)));
    var e := Apply(d, Writable(Accepted(|d.wire.sendBuffer|)));
    assert e.wire.kernel + [] == e.wire.kernel;
  }

  lemma CompletionDrains(c: Conn, a: Action)
    requires Enabled(c, a) && Apply(c, a).wire.completions > c.wire.completions
    ensures Apply(c, a).wire.sendBuffer == []
  {
    match a
    case SendFromLoop(_, _) =>
    case RunTask(_) =>
    case Writable(_) =>
    case _ =>
      hide AfterSendInLoop, AfterHandleSend, KernelMay;
  }

  /** A write-complete callback is queued only at a moment when every chunk taken on is with
      the kernel. */
  lemma CompleteMeansDrained(c: Conn, acts: seq<Action>, d: Conn, a: Action)
    requires Init(c) && Runs(c, acts, d) && Enabled(d, a)
    requires Apply(d, a).wire.completions > d.wire.completions
    ensures Apply(d, a).wire.sendBuffer == [] && Apply(d, a).wire.kernel == TakenBytes(Apply(d, a).wire.log)
  {
    InitInv(c);
    RunKeepsInv(c, acts, d);
    StepConserves(d, a);
    CompletionDrains(d, a);
    hide Enabled, Apply, TakenBytes;
    assert Apply(d, a).wire.kernel + [] == Apply(d, a).wire.kernel;
  }

  /** shutdown() in another thread, undisturbed: on a connection that is CONNECTED it stores
      DISCONNECTING and queues the half-close; on any other it does nothing. */
  lemma ShutdownIsRun(c: Conn, t: Thread)
    requires Enabled(c, ShutdownTest(t))
    ensures c.wire.state != CONNECTED ==> Apply(c, ShutdownTest(t)) == c
    ensures c.wire.state == CONNECTED ==>
      Runs(c, [ShutdownTest(t), ShutdownStore(t), ShutdownPush(t)],
           c.(wire := c.wire.(state := DISCONNECTING), tasks := c.tasks + [ShutdownTask]))
  {
    if c.wire.state == CONNECTED {
      var c1 := Apply(c, ShutdownTest(t));
      var c2 := Apply(c1, ShutdownStore(t));
      var d := Apply(c2, ShutdownPush(t));
      assert c2.checked == c.checked && d.stored == c.stored;
      var acts := RunsCons(c2, ShutdownPush(t), [], d);
      acts := RunsCons(c1, ShutdownStore(t), acts, d);
      acts := RunsCons(c, ShutdownTest(t), acts, d);
      assert acts == [ShutdownTest(t), ShutdownStore(t), ShutdownPush(t)];
    }
  }

  // ----- The fate of every chunk -----

  /** The sendInLoop that a step executes, if any: its data, its caller and the kernel's answer. */
  function Sends(c: Conn, a: Action): Option<(seq<byte>, Thread, Sent)> {
    match a
    case SendFromLoop(data, r) => Some((data, LOOP, r))
    case RunTask(r) =>
      if c.tasks != [] && c.tasks[0].SendTask? then Some((c.tasks[0].data, c.tasks[0].caller, r)) else None
    case _ => None
  }

  lemma StepFate(c: Conn, a: Action)
    requires Enabled(c, a)
    ensures var v := Apply(c, a).wire;
      match Sends(c, a)
      case Some((data, caller, r)) =>
        && |v.log| == |c.wire.log| + 1 && v.log[..|c.wire.log|] == c.wire.log
        && (v.log[|c.wire.log|].data, v.log[|c.wire.log|].caller) == (data, caller)
        && Fares(c.wire, data, r, v, v.log[|c.wire.log|].fate)
      case None => v.log == c.wire.log
  {
    match Sends(c, a)
    case Some((data, caller, r)) =>
      SendFares(c.wire, data, caller, r);
    case None =>
  }

  lemma SendFares(w: Wire, data: seq<byte>, caller: Thread, r: Sent)
    requires r.Accepted? ==> r.count <= |data|
    ensures var v := AfterSendInLoop(w, data, caller, r);
      && |v.log| == |w.log| + 1 && v.log[..|w.log|] == w.log
      && (v.log[|w.log|].data, v.log[|w.log|].caller) == (data, caller)
      && Fares(w, data, r, v, v.log[|w.log|].fate)
  {
    assert [] + data == data;
  }

  /** Every entry of the log, in every run, comes from a sendInLoop of the run and fares as the
      state before it says. */
  lemma {:induction false} EveryFate(c: Conn, acts: seq<Action>, d: Conn, i: nat)
    returns (before: seq<Action>, m: Conn, a: Action)
    requires Runs(c, acts, d) && |c.wire.log| <= i < |d.wire.log|
    ensures before + [a] <= acts && Runs(c, before, m) && Enabled(m, a) && |m.wire.log| == i
    ensures Sends(m, a).Some?
    ensures var (data, caller, r) := Sends(m, a).value;
      && (d.wire.log[i].data, d.wire.log[i].caller) == (data, caller)
      && Fares(m.wire, data, r, Apply(m, a).wire, d.wire.log[i].fate)
    decreases |acts|
  {
    var n := Apply(c, acts[0]);
    StepFate(c, acts[0]);
    LogGrows(n, acts[1..], d);
    hide Apply, Enabled, Fares, Sends;
    if i < |n.wire.log| {
      before, m, a := [], c, acts[0];
      assert d.wire.log[i] == n.wire.log[i];
    } else {
      var later;
      later, m, a := EveryFate(n, acts[1..], d, i);
      before := [acts[0]] + later;
      assert before[1..] == later;
      assert acts == [acts[0]] + acts[1..];
    }
  }

  lemma {:induction false} LogGrows(c: Conn, acts: seq<Action>, d: Conn)
    requires Runs(c, acts, d)
    ensures c.wire.log <= d.wire.log
    decreases |acts|
  {
    if acts != [] {
      StepFate(c, acts[0]);
      hide Apply, Enabled, Fares, Sends;
      LogGrows(Apply(c, acts[0]), acts[1..], d);
    }
  }

  /** A write-complete callback is queued exactly when a chunk goes to the kernel whole at once, or
      a write event empties the buffer. */
  lemma CompletesExactly(c: Conn, acts: seq<Action>, d: Conn, a: Action)
    requires Init(c) && Runs(c, acts, d) && Enabled(d, a)
    ensures var more := Apply(d, a).wire.completions - d.wire.completions;
      && 0 <= more <= 1
      && (more == 1 <==>
            || (Sends(d, a).Some? && d.wire.state != DISCONNECTED && !d.wire.sending && d.wire.sendBuffer == []
                && Sends(d, a).value.2 == Accepted(|Sends(d, a).value.0|))
            || a == Writable(Accepted(|d.wire.sendBuffer|)))
  {
    InitInv(c);
    RunKeepsInv(c, acts, d);
    hide Conserved, Shape, HalfCloseComing, HalfCloseLast, InCallOrder, Runs, Agrees, Apply, Enabled, Sends;
    StepCompletes(d, a);
  }

  lemma SendCompletes(w: Wire, data: seq<byte>, caller: Thread, r: Sent)
    requires KernelMay(w, data, r)
    ensures AfterSendInLoop(w, data, caller, r).completions
         == w.completions + if Direct(w) && r == Accepted(|data|) then 1 else 0
  {
  }

  lemma StepCompletes(c: Conn, a: Action)
    requires Steady(c.wire) && Enabled(c, a)
    ensures var more := Apply(c, a).wire.completions - c.wire.completions;
      && 0 <= more <= 1
      && (more == 1 <==>
            || (Sends(c, a).Some? && c.wire.state != DISCONNECTED && !c.wire.sending && c.wire.sendBuffer == []
                && Sends(c, a).value.2 == Accepted(|Sends(c, a).value.0|))
            || a == Writable(Accepted(|c.wire.sendBuffer|)))
  {
    match a
    case SendFromLoop(data, r) =>
      SendCompletes(c.wire, data, LOOP, r);
      hide AfterSendInLoop, KernelMay;
    case RunTask(r) =>
      if c.tasks[0].SendTask? {
        SendCompletes(c.wire, c.tasks[0].data, c.tasks[0].caller, r);
      }
      hide AfterSendInLoop, KernelMay;
    case Writable(_) =>
      hide AfterSendInLoop;
    case _ =>
      hide AfterSendInLoop, AfterHandleSend, KernelMay;
  }

  // ----- When the agreement breaks -----

  lemma SendAgrees(w: Wire, data: seq<byte>, caller: Thread, r: Sent)
    requires Agrees(w)
    ensures Agrees(AfterSendInLoop(w, data, caller, r))
  {
  }

  lemma HandleSendAgrees(w: Wire, r: Sent)
    requires Agrees(w)
    ensures Agrees(AfterHandleSend(w, r))
  {
  }

  lemma StepAgrees(c: Conn, a: Action)
    requires Steady(c.wire) && Agrees(c.wire) && Enabled(c, a) && !a.ShutdownStore?
    ensures Agrees(Apply(c, a).wire)
  {
    hide AfterSendInLoop, AfterHandleSend, KernelMay;
    match a
    case SendFromLoop(data, r) => SendAgrees(c.wire, data, LOOP, r);
    case RunTask(r) =>
      if c.tasks[0].SendTask? {
        SendAgrees(c.wire, c.tasks[0].data, c.tasks[0].caller, r);
      }
    case Writable(r) => HandleSendAgrees(c.wire, r);
    case _ =>
  }

  /** The only step that can break the agreement of buffer and write interest, in any run, is the
      store of a shutdown() in another thread, and it does exactly when the connection is closed,
      as it can be since that thread's test, with bytes still pending. */
  lemma AgreementBreaksExactly(c: Conn, acts: seq<Action>, d: Conn, a: Action)
    requires Init(c) && Runs(c, acts, d) && Agrees(d.wire) && Enabled(d, a)
    ensures !Agrees(Apply(d, a).wire) <==> a.ShutdownStore? && d.wire.state == DISCONNECTED && d.wire.sendBuffer != []
  {
    InitInv(c);
    RunKeepsInv(c, acts, d);
    hide Conserved, Shape, HalfCloseComing, HalfCloseLast, InCallOrder, Runs;
    if !a.ShutdownStore? {
      StepAgrees(d, a);
    }
  }

  lemma SendAfterHalfClose(w: Wire, data: seq<byte>, caller: Thread, r: Sent)
    requires Steady(w) && HalfCloseLast(w) && KernelMay(w, data, r)
    ensures HalfCloseLast(AfterSendInLoop(w, data, caller, r))
  {
  }

  lemma HandleSendAfterHalfClose(w: Wire, r: Sent)
    requires Steady(w) && HalfCloseLast(w) && w.sending && KernelMay(w, w.sendBuffer, r)
    ensures HalfCloseLast(AfterHandleSend(w, r))
  {
  }

  /** A queued shutdownInLoop finds bytes pending without write interest, or a store makes a closed
      and half-closed connection with bytes pending look open. */
  ghost predicate PassesBytes(c: Conn, a: Action) {
    || (a.RunTask? && c.tasks != [] && c.tasks[0].ShutdownTask? && c.wire.state == DISCONNECTING
        && !c.wire.sending && c.wire.sendBuffer != [])
    || (a.ShutdownStore? && c.wire.state == DISCONNECTED && c.wire.halfClosed && c.wire.sendBuffer != [])
  }

  lemma StepHalfCloses(c: Conn, a: Action)
    requires Steady(c.wire) && HalfCloseLast(c.wire) && Enabled(c, a)
    requires c.wire.halfClosed ==> c.wire.state == DISCONNECTING || c.wire.state == DISCONNECTED
    ensures !HalfCloseLast(Apply(c, a).wire) <==> PassesBytes(c, a)
  {
    match a
    case SendFromLoop(data, r) =>
      SendAfterHalfClose(c.wire, data, LOOP, r);
    case RunTask(r) =>
      if c.tasks[0].SendTask? {
        SendAfterHalfClose(c.wire, c.tasks[0].data, c.tasks[0].caller, r);
      }
      hide AfterSendInLoop, KernelMay;
    case Writable(r) =>
      HandleSendAfterHalfClose(c.wire, r);
    case _ =>
      hide AfterSendInLoop, AfterHandleSend, KernelMay;
  }

  /** Bytes come to be pending behind a half-close in exactly two ways, in any run. */
  lemma HalfCloseBreaksExactly(c: Conn, acts: seq<Action>, d: Conn, a: Action)
    requires Init(c) && Runs(c, acts, d) && HalfCloseLast(d.wire) && Enabled(d, a)
    ensures !HalfCloseLast(Apply(d, a).wire) <==> PassesBytes(d, a)
  {
    InitInv(c);
    RunKeepsInv(c, acts, d);
    hide Conserved, HalfCloseComing, InCallOrder, Runs, Apply, Enabled, PassesBytes, HalfCloseLast;
    StepHalfCloses(d, a);
  }

  /** The first of the two needs the agreement to be broken before, so both begin with a store
      that finds the connection DISCONNECTED with bytes pending. */
  lemma HalfCloseBreaksLate(c: Conn, acts: seq<Action>, d: Conn, a: Action)
    requires Init(c) && Runs(c, acts, d) && HalfCloseLast(d.wire) && Enabled(d, a) && !HalfCloseLast(Apply(d, a).wire)
    ensures Apply(d, a).overtaken && (a.ShutdownStore? || !Agrees(d.wire))
  {
    InitInv(c);
    RunKeepsInv(c, acts, d);
    HalfCloseBreaksExactly(c, acts, d, a);
  }

  /** It can happen: another thread tests, the peer closes, the other thread stores. */
  lemma StoreOvertakesClose(c: Conn) returns (acts: seq<Action>, d: Conn)
    requires Init(c)
    ensures Runs(c, acts, d)
    ensures d.wire.state == DISCONNECTING && d.wire.halfClosed && d.wire.sendBuffer == [7] && !d.wire.sending
  {
    var m;
    acts, m := ClosedAfterTest(c);
    var c5 := Apply(m, ShutdownStore(1));
    var c6 := Apply(c5, ShutdownPush(1));
    d := Apply(c6, RunTask(WouldBlock));
    assert d.wire.state == DISCONNECTING && d.wire.halfClosed && d.wire.sendBuffer == [7] && !d.wire.sending;
    var later := RunsCons(c6, RunTask(WouldBlock), [], d);
    later := RunsCons(c5, ShutdownPush(1), later, d);
    later := RunsCons(m, ShutdownStore(1), later, d);
    hide Apply, Enabled;
    RunsJoin(c, acts, m, later, d);
    acts := acts + later;
  }

  lemma ClosedAfterTest(c: Conn) returns (acts: seq<Action>, d: Conn)
    requires Init(c)
    ensures Runs(c, acts, d)
    ensures d.wire.state == DISCONNECTED && d.wire.sendBuffer == [7] && !d.wire.sending && !d.wire.halfClosed
    ensures d.checked == {1} && d.tasks == []
  {
    var c1 := Apply(c, Establish);
    var c2 := Apply(c1, SendFromLoop([7], WouldBlock));
    assert c2.wire.sendBuffer == [7] && c2.wire.state == CONNECTED;
    var c3 := Apply(c2, ShutdownTest(1));
    d := Apply(c3, CloseEvent);
    acts := RunsCons(c3, CloseEvent, [], d);
    acts := RunsCons(c2, ShutdownTest(1), acts, d);
    acts := RunsCons(c1, SendFromLoop([7], WouldBlock), acts, d);
    acts := RunsCons(c, Establish, acts, d);
  }

  lemma {:induction false} RunsJoin(c: Conn, a: seq<Action>, m: Conn, b: seq<Action>, d: Conn)
    requires Runs(c, a, m) && Runs(m, b, d)
    ensures Runs(c, a + b, d)
    decreases |a|
  {
    hide Apply, Enabled;
    if a == [] {
      assert a + b == b;
    } else {
      assert (a + b)[1..] == a[1..] + b;
      RunsJoin(Apply(c, a[0]), a[1..], m, b, d);
    }
  }

  lemma RunsCons(c: Conn, a: Action, later: seq<Action>, d: Conn) returns (acts: seq<Action>)
    requires Enabled(c, a) && Runs(Apply(c, a), later, d)
    ensures acts == [a] + later && Runs(c, acts, d)
  {
    acts := [a] + later;
    assert acts[1..] == later;
  }
}
