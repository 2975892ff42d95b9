/**
 The life of server connections across loops. The base loop accepts and owns the connection
 list; each connection's events run in its own loop; establish, remove and destroy travel
 between loops as queued closures that hold shared pointers. Every loop is one thread, and the
 steps of different loops interleave freely.
 */
module ConnectionLifetime {
  import opened Common
  import opened Registration

  type Cid = nat
  type LoopId = nat
  type Thread = nat

  const BASE: LoopId := 0

  /** A queued functor and the connection whose shared pointer it holds. */
  datatype Closure = Establish(c: Cid) | Remove(c: Cid) | Destroy(c: Cid)

  datatype ConnState = CONNECTING | CONNECTED | DISCONNECTING | DISCONNECTED

  /** Where a connection is in its life (ghost: no step looks at it). */
  datatype Stage = Created | Up | Closing | RemoveQueued | DestroyQueued | Gone {
    /** Its channel is in its loop's channels_. */
    predicate Attached() {
      Up? || Closing? || RemoveQueued? || DestroyQueued?
    }

    predicate Listed() {
      Created? || Up? || Closing? || RemoveQueued?
    }
  }

  datatype Conn = Conn(
    loop: LoopId, state: ConnState, chan: Chan, stage: Stage, ups: nat, downs: nat, destroys: nat)

  /** What epoll_wait reports for one descriptor. */
  datatype Event = Event(c: Cid, hup: bool, readable: bool, writable: bool)

  /** The event being handled: its guard holds the connection. closing: handleClose has turned
      the channel off and reported DOWN, and is about to call the close callback. */
  datatype Handling = Handling(c: Cid, readable: bool, writable: bool, closing: bool)

  datatype Phase =
    | Polling
    | Events(pending: seq<Event>, current: Option<Handling>)
    | Tasks(rest: seq<Closure>, ran: seq<Closure>)

  datatype Loop = Loop(reg: Tables<Cid>, queue: seq<Closure>, phase: Phase)

  /** conns: every connection ever made. list: connections_. ok: no assertion has failed and no
      event was dispatched to a channel that the loop no longer knows. checked: threads inside
      shutdown(), between its test and its store. History: overtaken are the connections that such
      a store has found DISCONNECTED, revived those that were sent on after that. */
  datatype World = World(
    conns: map<Cid, Conn>, list: set<Cid>, loops: map<LoopId, Loop>, ok: bool,
    checked: set<(Thread, Cid)>, overtaken: set<Cid>, revived: set<Cid>)
  {
    function WithConn(c: Cid, cn: Conn): World {
      this.(conns := conns[c := cn])
    }

    function WithPhase(l: LoopId, phase: Phase): World
      requires l in loops
    {
      this.(loops := loops[l := loops[l].(phase := phase)])
    }

    function Push(l: LoopId, k: Closure): World
      requires l in loops
    {
      this.(loops := loops[l := loops[l].(queue := loops[l].queue + [k])])
    }
  }

  /** Closures that a loop still has to run. */
  function Pending(lp: Loop): multiset<Closure> {
    multiset(lp.queue) + multiset(if lp.phase.Tasks? then lp.phase.rest else [])
  }

  /** A strong reference: the list, a closure still to run, the guard of a running event, or a
      functor that has run and is not destroyed before its batch is over. */
  ghost predicate StrongRef(w: World, c: Cid) {
    || c in w.list
    || (exists l <- w.loops, k: Closure :: k.c == c && k in Pending(w.loops[l]))
    || (exists l <- w.loops :: Guards(w.loops[l].phase, c))
    || Lingers(w, c)
  }

  ghost predicate Lingers(w: World, c: Cid) {
    exists l <- w.loops :: RanAbout(w.loops[l].phase, c)
  }

  predicate RanAbout(phase: Phase, c: Cid) {
    phase.Tasks? && exists k <- phase.ran :: k.c == c
  }

  predicate Guards(phase: Phase, c: Cid) {
    phase.Events? && phase.current.Some? && phase.current.value.c == c
  }

  // ----- The code's operations -----

  /** channel_->enable.../disable...: events_ changed, then update(). */
  function SetInterest(w: World, c: Cid, e: Interest): World
    requires c in w.conns && w.conns[c].loop in w.loops
  {
    var cn := w.conns[c];
    var ch := cn.chan.(events := e);
    var lp := w.loops[cn.loop];
    w.(
      conns := w.conns[c := cn.(chan := ChanAfterUpdate(ch))],
      loops := w.loops[cn.loop := lp.(reg := AfterUpdate(lp.reg, c, ch))],
      ok := w.ok && UpdateAsserts(lp.reg, ch) && CtlLegal(lp.reg.epoll, UpdateOp(ch), ch.fd))
  }

  function ConnectEstablished(w: World, c: Cid): World
    requires c in w.conns && w.conns[c].loop in w.loops
  {
    var w' := SetInterest(w, c, w.conns[c].chan.events.(recv := true));
    w'.WithConn(c, w'.conns[c].(state := CONNECTED, stage := Up, ups := w.conns[c].ups + 1))
  }

  /** handleClose up to the connection callback; the close callback is the next step. */
  function CloseBegin(w: World, c: Cid): World
    requires c in w.conns && w.conns[c].loop in w.loops
  {
    var w' := SetInterest(w, c, NONE);
    w'.WithConn(c, w'.conns[c].(state := DISCONNECTED, stage := Closing, downs := w.conns[c].downs + 1))
  }

  /** TCPServer::removeConnectionInLoop, in the base loop. */
  function RemoveConnectionInLoop(w: World, c: Cid): World
    requires c in w.conns && w.conns[c].loop in w.loops
  {
    w.(list := w.list - {c}).WithConn(c, w.conns[c].(stage := DestroyQueued)).Push(w.conns[c].loop, Destroy(c))
  }

  /** TCPServer::removeConnection: run at once in the base loop, queued for it elsewhere. */
  function RemoveConnection(w: World, c: Cid): World
    requires c in w.conns && w.conns[c].loop in w.loops && BASE in w.loops
  {
    if w.conns[c].loop == BASE then RemoveConnectionInLoop(w, c)
    else w.WithConn(c, w.conns[c].(stage := RemoveQueued)).Push(BASE, Remove(c))
  }

  function ConnectDestroyed(w: World, c: Cid): World
    requires c in w.conns && w.conns[c].loop in w.loops
  {
    var v := if w.conns[c].state == CONNECTED then CloseBegin(w, c) else w;
    var cn := v.conns[c];
    var lp := v.loops[cn.loop];
    v.(
      conns := v.conns[c := cn.(chan := cn.chan.(state := NEW), stage := Gone, destroys := cn.destroys + 1)],
      loops := v.loops[cn.loop := lp.(reg := AfterRemove(lp.reg, cn.chan))],
      ok := v.ok && RemoveAsserts(lp.reg, cn.chan)
            && (cn.chan.state.ADD? ==> CtlLegal(lp.reg.epoll, CtlDel, cn.chan.fd)))
  }

  /** TCPServer::newConnection, in the base loop; the handle owns the descriptor. */
  function NewConnection(w: World, c: Cid, fd: int, l: LoopId): World
    requires l in w.loops
  {
    var w' := w.(list := w.list + {c}).WithConn(c, Conn(l, CONNECTING, Chan(fd, NONE, NEW), Created, 0, 0, 0));
    if l == BASE then ConnectEstablished(w', c) else w'.Push(l, Establish(c))
  }

  // ----- Steps -----

  datatype Action =
    | Accept(c: Cid, fd: int, l: LoopId)
    | Poll(l: LoopId, events: seq<Event>)
    | StartEvent(l: LoopId)
    | NotifyClose(l: LoopId)
    | HandleRecv(l: LoopId, eof: bool)
    | HandleSend(l: LoopId, drained: bool)
    | EndEvent(l: LoopId)
    | BeginTasks(l: LoopId)
    | RunTask(l: LoopId)
    | EndTasks(l: LoopId)
    | UserSend(c: Cid)
    | ShutdownTest(t: Thread, c: Cid)
    | ShutdownStore(t: Thread, c: Cid)

  ghost predicate Enabled(w: World, a: Action) {
    match a
    // a new object; the kernel hands out a descriptor that is not open, and a connection
    // keeps its descriptor open while a strong reference keeps the connection
    case Accept(c, fd, l) =>
      && l in w.loops && BASE in w.loops && c !in w.conns
      && w.loops[BASE].phase.Events? && w.loops[BASE].phase.current.None?
      && (forall d <- w.conns :: StrongRef(w, d) ==> w.conns[d].chan.fd != fd)
    // at most one report per descriptor, of registered interest or of a hang-up
    case Poll(l, events) =>
      && l in w.loops && w.loops[l].phase.Polling?
      && (forall i | 0 <= i < |events| :: Reportable(w, l, events[i]))
      && (forall i, j | 0 <= i < j < |events| :: events[i].c != events[j].c)
    case StartEvent(l) =>
      && l in w.loops && w.loops[l].phase.Events? && w.loops[l].phase.current.None?
      && w.loops[l].phase.pending != [] && Handled(w, l, w.loops[l].phase.pending[0].c)
    case NotifyClose(l) => InEvent(w, l) && w.loops[l].phase.current.value.closing && BASE in w.loops
    case HandleRecv(l, _) =>
      var h := InEvent(w, l); h && !w.loops[l].phase.current.value.closing && w.loops[l].phase.current.value.readable
    case HandleSend(l, _) =>
      && InEvent(w, l) && !w.loops[l].phase.current.value.closing
      && !w.loops[l].phase.current.value.readable && w.loops[l].phase.current.value.writable
    case EndEvent(l) =>
      && InEvent(w, l) && !w.loops[l].phase.current.value.closing
      && !w.loops[l].phase.current.value.readable && !w.loops[l].phase.current.value.writable
    case BeginTasks(l) => l in w.loops && w.loops[l].phase == Events([], None)
    case RunTask(l) =>
      && l in w.loops && w.loops[l].phase.Tasks? && w.loops[l].phase.rest != []
      && w.loops[l].phase.rest[0].c in w.conns && w.conns[w.loops[l].phase.rest[0].c].loop in w.loops
    case EndTasks(l) => l in w.loops && w.loops[l].phase.Tasks? && w.loops[l].phase.rest == []
    // user code that has seen the connection: a sendInLoop in its loop that leaves bytes pending,
    // and a call of shutdown in any thread
    case UserSend(c) =>
      && c in w.conns && w.conns[c].ups > 0
      && w.conns[c].loop in w.loops && !w.loops[w.conns[c].loop].phase.Polling?
    case ShutdownTest(t, c) => c in w.conns && w.conns[c].ups > 0 && (t, c) !in w.checked
    case ShutdownStore(t, c) => (t, c) in w.checked && c in w.conns
  }

  /** The guard of the one harmful step: bytes are sent on a connection that has been closed, and
      that the late store of a shutdown() has made look open. */
  predicate Reviving(w: World, a: Action) {
    a.UserSend? && a.c in w.conns && w.conns[a.c].downs > 0 && w.conns[a.c].state != DISCONNECTED
  }

  ghost predicate Reportable(w: World, l: LoopId, e: Event)
    requires l in w.loops
  {
    exists fd <- w.loops[l].reg.epoll :: Reports(w.loops[l].reg.epoll[fd], e)
  }

  predicate Reports(entry: (Cid, Interest), e: Event) {
    && entry.0 == e.c
    && (e.readable ==> entry.1.recv)
    && (e.writable ==> entry.1.send)
  }

  predicate Handled(w: World, l: LoopId, c: Cid) {
    c in w.conns && w.conns[c].loop == l
  }

  predicate InEvent(w: World, l: LoopId) {
    && l in w.loops && w.loops[l].phase.Events? && w.loops[l].phase.current.Some?
    && Handled(w, l, w.loops[l].phase.current.value.c)
  }

  ghost function Apply(w: World, a: Action): World
    requires Enabled(w, a)
  {
    match a
    case Accept(c, fd, l) => NewConnection(w, c, fd, l)
    case Poll(l, events) => w.WithPhase(l, Events(events, None))
    case StartEvent(l) => AfterStart(w, l)
    case NotifyClose(l) =>
      var p := w.loops[l].phase;
      var h := p.current.value;
      RemoveConnection(w.WithPhase(l, Events(p.pending, Some(h.(closing := false)))), h.c)
    case HandleRecv(l, eof) => AfterRecv(w, l, eof)
    case HandleSend(l, drained) => AfterSend(w, l, drained)
    case EndEvent(l) => w.WithPhase(l, Events(w.loops[l].phase.pending, None))
    case BeginTasks(l) => w.(loops := w.loops[l := w.loops[l].(phase := Tasks(w.loops[l].queue, []), queue := [])])
    case RunTask(l) =>
      var rest := w.loops[l].phase.rest;
      var w' := w.WithPhase(l, Tasks(rest[1..], w.loops[l].phase.ran + [rest[0]]));
      (match rest[0]
       case Establish(c) => ConnectEstablished(w', c)
       case Remove(c) => RemoveConnectionInLoop(w', c)
       case Destroy(c) => ConnectDestroyed(w', c))
    case EndTasks(l) => w.WithPhase(l, Polling)
    case UserSend(c) =>
      if w.conns[c].state == DISCONNECTED then w
      else SetInterest(w, c, w.conns[c].chan.events.(send := true))
             .(revived := if Reviving(w, a) then w.revived + {c} else w.revived)
    case ShutdownTest(t, c) =>
      if w.conns[c].state == CONNECTED then w.(checked := w.checked + {(t, c)}) else w
    case ShutdownStore(t, c) =>
      w.WithConn(c, w.conns[c].(state := DISCONNECTING)).(
        checked := w.checked - {(t, c)},
        overtaken := if w.conns[c].state == DISCONNECTED then w.overtaken + {c} else w.overtaken)
  }

  /** handleEvents: the guard, then the close callback on a hang-up without input. */
  ghost function AfterStart(w: World, l: LoopId): World
    requires Enabled(w, StartEvent(l))
  {
    var p := w.loops[l].phase;
    var e := p.pending[0];
    var w' := w.(ok := w.ok && StrongRef(w, e.c) && AttachedIn(w, l, e.c));
    if e.hup && !e.readable
    then CloseBegin(w', e.c).WithPhase(l, Events(p.pending[1..], Some(Handling(e.c, false, e.writable, true))))
    else w'.WithPhase(l, Events(p.pending[1..], Some(Handling(e.c, e.readable, e.writable, false))))
  }

  /** handleRecv, with its assertion; reading the end of the stream closes. */
  ghost function AfterRecv(w: World, l: LoopId, eof: bool): World
    requires Enabled(w, HandleRecv(l, eof))
  {
    var p := w.loops[l].phase;
    var h := p.current.value;
    var w' := w.(ok := w.ok && w.conns[h.c].chan.events.recv);
    if eof
    then CloseBegin(w', h.c).WithPhase(l, Events(p.pending, Some(Handling(h.c, false, h.writable, true))))
    else w'.WithPhase(l, Events(p.pending, Some(h.(readable := false))))
  }

  /** handleSend: draining the buffer turns write interest off. */
  ghost function AfterSend(w: World, l: LoopId, drained: bool): World
    requires Enabled(w, HandleSend(l, drained))
  {
    var p := w.loops[l].phase;
    var h := p.current.value;
    var events := w.conns[h.c].chan.events;
    var w' := if events.send && drained then SetInterest(w, h.c, events.(send := false)) else w;
    w'.WithPhase(l, Events(p.pending, Some(h.(writable := false))))
  }

  predicate AttachedIn(w: World, l: LoopId, c: Cid) {
    && c in w.conns && l in w.loops
    && w.conns[c].chan.fd in w.loops[l].reg.channels
    && w.loops[l].reg.channels[w.conns[c].chan.fd] == c
  }

  ghost predicate Init(w: World) {
    && w.conns == map[] && w.list == {} && w.ok && BASE in w.loops
    && w.checked == {} && w.overtaken == {} && w.revived == {}
    && forall l <- w.loops :: w.loops[l] == Loop(Tables(map[], map[]), [], Polling)
  }

  ghost predicate Runs(w: World, acts: seq<Action>, v: World)
    decreases |acts|
  {
    if acts == [] then w == v
    else Enabled(w, acts[0]) && Runs(Apply(w, acts[0]), acts[1..], v)
  }

  // ----- The invariant -----

  /** What a stage says about the connection itself. */
  ghost predicate StageFacts(cn: Conn) {
    match cn.stage
    case Created => cn.state == CONNECTING && cn.chan.events == NONE && cn.chan.state.NEW? && Count(cn, 0, 0, 0)
    case Up =>
      && (cn.state == CONNECTED || cn.state == DISCONNECTING)
      && cn.chan.events.recv && cn.chan.state.ADD? && Count(cn, 1, 0, 0)
    case Gone => Down(cn) && cn.chan.events == NONE && cn.chan.state.NEW? && Count(cn, 1, 1, 1)
    case _ => Down(cn) && cn.chan.events == NONE && cn.chan.state.DELETE? && Count(cn, 1, 1, 0)
  }

  /** Closed, whatever a late store has made of it. */
  predicate Down(cn: Conn) {
    cn.state == DISCONNECTED || cn.state == DISCONNECTING
  }

  predicate Count(cn: Conn, ups: nat, downs: nat, destroys: nat) {
    cn.ups == ups && cn.downs == downs && cn.destroys == destroys
  }

  /** The closures about c that a loop should have to run: each of the three, exactly when and
      where its stage calls for it. */
  function Due(cn: Conn, c: Cid, l: LoopId): multiset<Closure> {
    if cn.stage.Created? && l == cn.loop then multiset{Establish(c)}
    else if cn.stage.RemoveQueued? && l == BASE then multiset{Remove(c)}
    else if cn.stage.DestroyQueued? && l == cn.loop then multiset{Destroy(c)}
    else multiset{}
  }

  ghost predicate ClosuresDue(cn: Conn, c: Cid, l: LoopId, pending: multiset<Closure>) {
    forall k: Closure :: k.c == c ==> pending[k] == Due(cn, c, l)[k]
  }

  ghost predicate ClosingNow(phase: Phase, c: Cid) {
    Guards(phase, c) && phase.current.value.closing
  }

  ghost predicate ConnOk(w: World, c: Cid)
    requires c in w.conns
  {
    var cn := w.conns[c];
    && cn.loop in w.loops
    && StageFacts(cn)
    && (c in w.list <==> cn.stage.Listed())
    && (forall l <- w.loops :: ClosuresDue(cn, c, l, Pending(w.loops[l])))
    && (cn.stage.Attached() ==> AttachedIn(w, cn.loop, c))
    && (cn.stage.Closing? <==> ClosingNow(w.loops[cn.loop].phase, c))
  }

  /** The tables of a loop agree with the channels of its connections. */
  ghost predicate RegOk(w: World, l: LoopId)
    requires l in w.loops
  {
    var reg := w.loops[l].reg;
    && (forall fd <- reg.channels :: Owner(w, l, fd, reg.channels[fd]))
    && (forall fd :: fd in reg.epoll <==> fd in reg.channels && Watched(w, reg.channels[fd]))
    && (forall fd <- reg.epoll :: fd in reg.channels && Entry(w, reg.channels[fd], reg.epoll[fd]))
  }

  predicate Owner(w: World, l: LoopId, fd: int, c: Cid) {
    c in w.conns && w.conns[c].chan.fd == fd && w.conns[c].loop == l && w.conns[c].stage.Attached()
  }

  predicate Watched(w: World, c: Cid) {
    c in w.conns && w.conns[c].chan.state.ADD?
  }

  predicate Entry(w: World, c: Cid, entry: (Cid, Interest)) {
    c in w.conns && entry == (c, w.conns[c].chan.events)
  }

  /** Reports still to be handled are for connections that are up; the one being handled is
      for a connection whose channel is still in the map. */
  ghost predicate PhaseOk(w: World, l: LoopId)
    requires l in w.loops
  {
    var phase := w.loops[l].phase;
    phase.Events? ==>
      && (forall i | 0 <= i < |phase.pending| :: UpIn(w, l, phase.pending[i].c))
      && (forall i, j | 0 <= i < j < |phase.pending| :: phase.pending[i].c != phase.pending[j].c)
      && (phase.current.Some? ==> HandlingOk(w, l, phase.current.value))
      && (phase.current.Some? ==> forall i | 0 <= i < |phase.pending| :: phase.pending[i].c != phase.current.value.c)
  }

  predicate UpIn(w: World, l: LoopId, c: Cid) {
    c in w.conns && w.conns[c].loop == l && w.conns[c].stage.Up?
  }

  predicate HandlingOk(w: World, l: LoopId, h: Handling) {
    && h.c in w.conns && w.conns[h.c].loop == l && w.conns[h.c].stage.Attached()
    && (h.readable ==> w.conns[h.c].stage.Up?)
    && (h.closing ==> w.conns[h.c].stage.Closing?)
  }

  ghost predicate ClosuresKnown(w: World, l: LoopId)
    requires l in w.loops
  {
    forall k <- Pending(w.loops[l]) :: k.c in w.conns
  }

  ghost predicate LoopOk(w: World, l: LoopId)
    requires l in w.loops
  {
    RegOk(w, l) && PhaseOk(w, l) && ClosuresKnown(w, l)
  }

  /** Connections that are not destroyed have different descriptors. */
  ghost predicate FdsDistinct(w: World) {
    forall c <- w.conns, d <- w.conns ::
      c != d && !w.conns[c].stage.Gone? && !w.conns[d].stage.Gone? ==> w.conns[c].chan.fd != w.conns[d].chan.fd
  }

  ghost predicate Inv(w: World) {
    && w.ok
    && BASE in w.loops
    && w.list <= w.conns.Keys
    && (forall c <- w.conns :: ConnOk(w, c))
    && (forall l <- w.loops :: LoopOk(w, l))
    && FdsDistinct(w)
    && Threads(w)
  }

  /** Threads inside shutdown() have seen the connection up; a closed connection looks open only
      to a late store's doing. */
  ghost predicate Threads(w: World) {
    && (forall x <- w.checked :: HasBeenUp(w, x.1))
    && (forall c <- w.conns :: LateOnly(w.conns[c], c, w.overtaken))
  }

  predicate HasBeenUp(w: World, c: Cid) {
    c in w.conns && w.conns[c].ups > 0
  }

  predicate LateOnly(cn: Conn, c: Cid, overtaken: set<Cid>) {
    cn.downs > 0 && cn.state != DISCONNECTED ==> c in overtaken
  }

  // ----- Steps about one connection -----

  /** Among connections, only c has changed; its loop and its descriptor never do. */
  ghost predicate ConnFrame(w: World, v: World, c: Cid) {
    && c in v.conns
    && v.loops.Keys == w.loops.Keys
    && v.conns.Keys == w.conns.Keys + {c}
    && (c in w.conns ==> w.conns[c].loop == v.conns[c].loop && w.conns[c].chan.fd == v.conns[c].chan.fd)
    && (forall d <- w.conns :: d != c ==> v.conns[d] == w.conns[d])
    && (forall d :: d != c ==> (d in v.list <==> d in w.list))
    && v.checked == w.checked && v.overtaken == w.overtaken
    && (c in w.conns ==> w.conns[c].ups <= v.conns[c].ups)
  }

  function DueIn(w: World, c: Cid, l: LoopId): multiset<Closure> {
    if c in w.conns then Due(w.conns[c], c, l) else multiset{}
  }

  /** The closures of a loop have changed by what c's stages call for. */
  predicate Balanced(w: World, v: World, c: Cid, l: LoopId) {
    l in w.loops && l in v.loops
    && Pending(v.loops[l]) + DueIn(w, c, l) == Pending(w.loops[l]) + DueIn(v, c, l)
  }

  /** A loop's phase: elsewhere at most one task has gone; in c's own loop also c's event. */
  ghost predicate PhaseFrame(p: Phase, p': Phase, c: Cid, own: bool) {
    || p' == p
    || (p.Tasks? && p'.Tasks?)
    || (own && p.Events? && p'.Events?
        && (p'.pending == p.pending || (p.pending != [] && p'.pending == p.pending[1..] && p.pending[0].c == c))
        && (p.current.Some? ==> p.current.value.c == c)
        && (p'.current.Some? ==> p'.current.value.c == c))
  }

  ghost predicate RegFrame(r: Tables<Cid>, r': Tables<Cid>, fd: int) {
    && (forall f :: f != fd ==> (f in r'.channels <==> f in r.channels) && (f in r'.epoll <==> f in r.epoll))
    && (forall f <- r.channels :: f != fd ==> r'.channels[f] == r.channels[f])
    && (forall f <- r.epoll :: f != fd ==> r'.epoll[f] == r.epoll[f])
  }

  ghost predicate LoopFrame(w: World, v: World, c: Cid, l: LoopId)
    requires c in v.conns && l in w.loops && l in v.loops
  {
    var own := l == v.conns[c].loop;
    && Balanced(w, v, c, l)
    && PhaseFrame(w.loops[l].phase, v.loops[l].phase, c, own)
    && (if own then RegFrame(w.loops[l].reg, v.loops[l].reg, v.conns[c].chan.fd)
        else v.loops[l].reg == w.loops[l].reg)
  }

  /** What a step has to establish about c: the facts of its new stage, its descriptor's entries
      in its loop's tables, and its loop's phase. */
  ghost predicate RegFor(reg: Tables<Cid>, cn: Conn, c: Cid) {
    var fd := cn.chan.fd;
    if cn.stage.Attached() then
      && fd in reg.channels && reg.channels[fd] == c
      && (fd in reg.epoll <==> cn.chan.state.ADD?)
      && (fd in reg.epoll ==> reg.epoll[fd] == (c, cn.chan.events))
    else fd !in reg.channels && fd !in reg.epoll
  }

  ghost predicate PhaseAbout(p: Phase, cn: Conn, c: Cid) {
    && (cn.stage.Closing? <==> ClosingNow(p, c))
    && (p.Events? ==> forall i | 0 <= i < |p.pending| :: p.pending[i].c == c ==> cn.stage.Up? && !Guards(p, c))
    && (Guards(p, c) ==>
          && cn.stage.Attached()
          && (p.current.value.readable ==> cn.stage.Up?))
  }

  ghost predicate LocalOk(v: World, c: Cid) {
    && c in v.conns && v.conns[c].loop in v.loops
    && StageFacts(v.conns[c])
    && LateOnly(v.conns[c], c, v.overtaken)
    && (c in v.list <==> v.conns[c].stage.Listed())
    && RegFor(v.loops[v.conns[c].loop].reg, v.conns[c], c)
    && PhaseAbout(v.loops[v.conns[c].loop].phase, v.conns[c], c)
  }

  ghost predicate FdFree(v: World, c: Cid)
    requires c in v.conns
  {
    v.conns[c].stage.Gone? || forall d <- v.conns ::
      d != c && !v.conns[d].stage.Gone? ==> v.conns[d].chan.fd != v.conns[c].chan.fd
  }

  ghost predicate Change(w: World, v: World, c: Cid) {
    && ConnFrame(w, v, c)
    && (forall l <- w.loops :: LoopFrame(w, v, c, l))
    && LocalOk(v, c)
    && FdFree(v, c)
    && (v.conns[c].stage.Gone? ==> c in w.conns && !w.conns[c].stage.Gone?)
  }

  // The same connection.

  lemma OwnClosures(w: World, v: World, c: Cid, l: LoopId)
    requires c in v.conns && Balanced(w, v, c, l)
    requires if c in w.conns then ClosuresDue(w.conns[c], c, l, Pending(w.loops[l])) else ClosuresKnown(w, l)
    ensures ClosuresDue(v.conns[c], c, l, Pending(v.loops[l]))
  {
    forall k: Closure | k.c == c
      ensures Pending(v.loops[l])[k] == Due(v.conns[c], c, l)[k]
    {
      hide Pending, Due;
      assert (Pending(v.loops[l]) + DueIn(w, c, l))[k] == (Pending(w.loops[l]) + DueIn(v, c, l))[k];
      if c !in w.conns {
        assert k !in Pending(w.loops[l]);
      }
    }
  }

  lemma OwnConnOk(w: World, v: World, c: Cid)
    requires Inv(w) && Change(w, v, c)
    ensures ConnOk(v, c)
  {
    hide Pending, RegFrame, PhaseFrame, StageFacts, RegOk, PhaseOk, ClosuresKnown, ClosuresDue, FdFree, FdsDistinct;
    forall l <- v.loops
      ensures ClosuresDue(v.conns[c], c, l, Pending(v.loops[l]))
    {
      assert l in w.loops.Keys;
      assert LoopFrame(w, v, c, l) && LoopOk(w, l);
      if c in w.conns {
        assert ConnOk(w, c);
        assert ClosuresDue(w.conns[c], c, l, Pending(w.loops[l]));
      }
      OwnClosures(w, v, c, l);
    }
  }

  // The other connections.

  lemma FdDiffers(w: World, v: World, c: Cid, d: Cid)
    requires FdsDistinct(w) && ConnFrame(w, v, c) && d in w.conns && d != c
    requires FdFree(v, c) && (v.conns[c].stage.Gone? ==> c in w.conns && !w.conns[c].stage.Gone?)
    ensures v.conns[d] == w.conns[d]
    ensures !w.conns[d].stage.Gone? ==> w.conns[d].chan.fd != v.conns[c].chan.fd
  {
  }

  lemma SameCount<T>(after: multiset<T>, due: multiset<T>, before: multiset<T>, due': multiset<T>, x: T)
    requires after + due == before + due' && due[x] == due'[x]
    ensures after[x] == before[x]
  {
    assert (after + due)[x] == (before + due')[x];
  }

  lemma DueToOthers(w: World, c: Cid, l: LoopId, k: Closure)
    requires k.c != c
    ensures DueIn(w, c, l)[k] == 0
  {
  }

  lemma OtherClosures(w: World, v: World, c: Cid, d: Cid, l: LoopId)
    requires Balanced(w, v, c, l) && d != c && d in w.conns && d in v.conns && v.conns[d] == w.conns[d]
    requires ClosuresDue(w.conns[d], d, l, Pending(w.loops[l]))
    ensures ClosuresDue(v.conns[d], d, l, Pending(v.loops[l]))
  {
    hide Pending, DueIn, Due;
    forall k: Closure | k.c == d
      ensures Pending(v.loops[l])[k] == Pending(w.loops[l])[k]
    {
      DueToOthers(w, c, l, k);
      DueToOthers(v, c, l, k);
      SameCount(Pending(v.loops[l]), DueIn(w, c, l), Pending(w.loops[l]), DueIn(v, c, l), k);
    }
  }

  lemma OtherClosing(p: Phase, p': Phase, c: Cid, d: Cid, own: bool)
    requires PhaseFrame(p, p', c, own) && d != c
    ensures ClosingNow(p', d) <==> ClosingNow(p, d)
  {
  }

  lemma OtherConnOk(w: World, v: World, c: Cid, d: Cid)
    requires FdsDistinct(w) && Change(w, v, c) && d in w.conns && d != c && ConnOk(w, d)
    ensures ConnOk(v, d)
  {
    hide Pending, StageFacts, ClosuresDue, LocalOk, FdsDistinct, FdFree;
    var l := w.conns[d].loop;
    FdDiffers(w, v, c, d);
    assert LoopFrame(w, v, c, l);
    OtherClosing(w.loops[l].phase, v.loops[l].phase, c, d, l == v.conns[c].loop);
    hide PhaseFrame, ClosingNow;
    forall m <- v.loops
      ensures ClosuresDue(v.conns[d], d, m, Pending(v.loops[m]))
    {
      assert m in w.loops.Keys;
      assert LoopFrame(w, v, c, m) && ClosuresDue(w.conns[d], d, m, Pending(w.loops[m]));
      OtherClosures(w, v, c, d, m);
    }
  }

  lemma StillDistinct(w: World, v: World, c: Cid)
    requires FdsDistinct(w) && ConnFrame(w, v, c) && FdFree(v, c)
    ensures FdsDistinct(v)
  {
  }

  // The loops.

  lemma RegStaysOk(w: World, v: World, c: Cid, l: LoopId)
    requires ConnFrame(w, v, c) && l in w.loops && l in v.loops && LoopFrame(w, v, c, l)
    requires LocalOk(v, c) && RegOk(w, l)
    ensures RegOk(v, l)
  {
    hide Balanced, PhaseFrame, PhaseAbout, StageFacts;
    var reg, reg' := w.loops[l].reg, v.loops[l].reg;
    var cn := v.conns[c];
    forall fd <- reg'.channels
      ensures Owner(v, l, fd, reg'.channels[fd])
      ensures fd in reg'.epoll <==> Watched(v, reg'.channels[fd])
      ensures fd in reg'.epoll ==> Entry(v, reg'.channels[fd], reg'.epoll[fd])
    {
      if l != cn.loop || fd != cn.chan.fd {
        assert Owner(w, l, fd, reg.channels[fd]);
      }
    }
    forall fd <- reg'.epoll
      ensures fd in reg'.channels
    {
      if l != cn.loop || fd != cn.chan.fd {
        assert fd in reg.epoll;
      }
    }
  }

  lemma PhaseStaysOk(w: World, v: World, c: Cid, l: LoopId)
    requires ConnFrame(w, v, c) && l in w.loops && l in v.loops && LoopFrame(w, v, c, l)
    requires LocalOk(v, c) && PhaseOk(w, l)
    ensures PhaseOk(v, l)
  {
    hide Balanced, RegFrame, RegFor, StageFacts;
    var p, p' := w.loops[l].phase, v.loops[l].phase;
    if p'.Events? {
      assert p.Events?;
      var k := if p'.pending == p.pending then 0 else 1;
      assert p'.pending == p.pending[k..];
      forall i | 0 <= i < |p'.pending|
        ensures UpIn(v, l, p'.pending[i].c)
      {
        assert p'.pending[i] == p.pending[i + k];
        assert UpIn(w, l, p.pending[i + k].c);
      }
      forall i, j | 0 <= i < j < |p'.pending|
        ensures p'.pending[i].c != p'.pending[j].c
      {
        assert p'.pending[i] == p.pending[i + k] && p'.pending[j] == p.pending[j + k];
      }
    }
  }

  lemma ClosuresStayKnown(w: World, v: World, c: Cid, l: LoopId)
    requires ConnFrame(w, v, c) && Balanced(w, v, c, l) && ClosuresKnown(w, l)
    ensures ClosuresKnown(v, l)
  {
    forall k <- Pending(v.loops[l])
      ensures k.c in v.conns
    {
      if k.c != c {
        DueToOthers(w, c, l, k);
        DueToOthers(v, c, l, k);
        SameCount(Pending(v.loops[l]), DueIn(w, c, l), Pending(w.loops[l]), DueIn(v, c, l), k);
        assert k in Pending(w.loops[l]);
      }
    }
  }

  lemma AllConnsOk(w: World, v: World, c: Cid)
    requires Inv(w) && Change(w, v, c)
    ensures forall d <- v.conns :: ConnOk(v, d)
  {
    hide LoopFrame, ConnOk, LocalOk, FdFree, LoopOk, FdsDistinct;
    OwnConnOk(w, v, c);
    forall d <- v.conns
      ensures ConnOk(v, d)
    {
      if d != c {
        assert d in w.conns.Keys;
        OtherConnOk(w, v, c, d);
      }
    }
  }

  lemma AllLoopsOk(w: World, v: World, c: Cid)
    requires Inv(w) && Change(w, v, c)
    ensures forall l <- v.loops :: LoopOk(v, l)
  {
    hide ConnOk, LocalOk, RegOk, PhaseOk, ClosuresKnown, RegFrame, PhaseFrame, Balanced, FdFree, FdsDistinct;
    forall l <- v.loops
      ensures LoopOk(v, l)
    {
      assert l in w.loops.Keys;
      assert LoopOk(w, l) && LoopFrame(w, v, c, l);
      RegStaysOk(w, v, c, l);
      PhaseStaysOk(w, v, c, l);
      ClosuresStayKnown(w, v, c, l);
    }
  }

  lemma ThreadsStay(w: World, v: World, c: Cid)
    requires Threads(w) && ConnFrame(w, v, c) && LocalOk(v, c)
    ensures Threads(v)
  {
    hide StageFacts, RegFor, PhaseAbout;
    forall x <- v.checked
      ensures HasBeenUp(v, x.1)
    {
      assert HasBeenUp(w, x.1);
    }
  }

  /** A step that changes one connection, consistently, keeps the invariant. */
  lemma ChangeKeepsInv(w: World, v: World, c: Cid)
    requires Inv(w) && Change(w, v, c) && v.ok && v.list <= v.conns.Keys
    ensures Inv(v)
  {
    hide LoopFrame, ConnOk, LocalOk, FdFree, LoopOk, FdsDistinct, Threads;
    ThreadsStay(w, v, c);
    StillDistinct(w, v, c);
    AllConnsOk(w, v, c);
    AllLoopsOk(w, v, c);
  }

  // ----- What the invariant says about one connection -----

  lemma Knows(w: World, c: Cid)
    requires Inv(w) && c in w.conns && !w.conns[c].stage.Gone?
    ensures LocalOk(w, c) && FdFree(w, c) && w.ok && w.list <= w.conns.Keys && BASE in w.loops
  {
    assert ConnOk(w, c);
    KnowsReg(w, c);
    KnowsPhase(w, c);
    hide LoopOk, RegFor, PhaseAbout, StageFacts;
  }

  lemma KnowsReg(w: World, c: Cid)
    requires Inv(w) && c in w.conns && ConnOk(w, c) && !w.conns[c].stage.Gone?
    ensures RegFor(w.loops[w.conns[c].loop].reg, w.conns[c], c)
  {
    hide PhaseOk, ClosuresKnown, ClosuresDue, StageFacts;
    var l, fd := w.conns[c].loop, w.conns[c].chan.fd;
    assert LoopOk(w, l);
    var reg := w.loops[l].reg;
    if fd in reg.channels {
      assert Owner(w, l, fd, reg.channels[fd]);
    }
  }

  lemma KnowsPhase(w: World, c: Cid)
    requires Inv(w) && c in w.conns && ConnOk(w, c)
    ensures PhaseAbout(w.loops[w.conns[c].loop].phase, w.conns[c], c)
  {
    hide RegOk, ClosuresKnown, ClosuresDue, StageFacts, AttachedIn;
    var l := w.conns[c].loop;
    assert LoopOk(w, l);
    var p := w.loops[l].phase;
    if p.Events? {
      forall i | 0 <= i < |p.pending| && p.pending[i].c == c
        ensures w.conns[c].stage.Up? && !Guards(p, c)
      {
        assert UpIn(w, l, p.pending[i].c);
      }
    }
  }

  // ----- Each step -----

  /** Only the states of connections differ. */
  ghost predicate SameButStates(w: World, v: World) {
    && v.conns.Keys == w.conns.Keys && v.list == w.list && v.loops == w.loops && v.ok == w.ok
    && (forall c <- w.conns :: v.conns[c] == w.conns[c].(state := v.conns[c].state))
  }

  lemma StatesConnOk(w: World, v: World, c: Cid)
    requires SameButStates(w, v) && c in w.conns && ConnOk(w, c) && StageFacts(v.conns[c])
    ensures ConnOk(v, c)
  {
    hide Pending, StageFacts;
    forall l <- v.loops
      ensures ClosuresDue(v.conns[c], c, l, Pending(v.loops[l]))
    {
      assert ClosuresDue(w.conns[c], c, l, Pending(w.loops[l]));
    }
  }

  lemma StatesLoopOk(w: World, v: World, l: LoopId)
    requires SameButStates(w, v) && l in w.loops && LoopOk(w, l)
    ensures LoopOk(v, l)
  {
    hide Pending;
    var reg, p := v.loops[l].reg, v.loops[l].phase;
    forall fd <- reg.channels
      ensures Owner(v, l, fd, reg.channels[fd])
      ensures Watched(v, reg.channels[fd]) <==> Watched(w, reg.channels[fd])
    {
      assert Owner(w, l, fd, reg.channels[fd]);
    }
    forall fd <- reg.epoll
      ensures fd in reg.channels && Entry(v, reg.channels[fd], reg.epoll[fd])
    {
      assert Entry(w, reg.channels[fd], reg.epoll[fd]);
    }
    if p.Events? {
      forall i | 0 <= i < |p.pending|
        ensures UpIn(v, l, p.pending[i].c)
      {
        assert UpIn(w, l, p.pending[i].c);
      }
    }
  }

  lemma StatesKeepInv(w: World, v: World)
    requires Inv(w) && SameButStates(w, v) && Threads(v)
    requires forall c <- v.conns :: StageFacts(v.conns[c])
    ensures Inv(v)
  {
    hide ConnOk, LoopOk, StageFacts, Threads;
    forall c <- v.conns
      ensures ConnOk(v, c)
    {
      StatesConnOk(w, v, c);
    }
    forall l <- v.loops
      ensures LoopOk(v, l)
    {
      StatesLoopOk(w, v, l);
    }
  }

  /** Neither half of shutdown() disturbs anything, however late the store is. */
  lemma ShutdownKeepsInv(w: World, a: Action)
    requires Inv(w) && Enabled(w, a) && (a.ShutdownTest? || a.ShutdownStore?)
    ensures Inv(Apply(w, a))
  {
    hide Pending, AttachedIn, LoopOk, FdsDistinct, ConnOk;
    var v := Apply(w, a);
    assert HasBeenUp(w, a.c);
    forall c <- v.conns
      ensures StageFacts(v.conns[c])
    {
      StageOf(w, c);
    }
    ShutdownThreads(w, a);
    hide StageFacts, Threads, Inv;
    StatesKeepInv(w, v);
  }

  lemma ShutdownThreads(w: World, a: Action)
    requires Threads(w) && Enabled(w, a) && (a.ShutdownTest? || a.ShutdownStore?)
    ensures Threads(Apply(w, a))
  {
    var v := Apply(w, a);
    forall x <- v.checked
      ensures HasBeenUp(v, x.1)
    {
      assert x in w.checked || x.1 == a.c;
      assert HasBeenUp(w, x.1);
    }
    forall c <- v.conns
      ensures LateOnly(v.conns[c], c, v.overtaken)
    {
      assert LateOnly(w.conns[c], c, w.overtaken);
    }
  }

  lemma StageOf(w: World, c: Cid)
    requires Inv(w) && c in w.conns
    ensures StageFacts(w.conns[c])
  {
    assert ConnOk(w, c);
  }

  /** The general form of a step about one connection: its new record, the new tables of its
      own loop, the new phase of the loop that takes the step, whether that took a task out of
      the batch, and a closure pushed somewhere. */
  datatype Delta = Delta(
    cn: Conn, reg: Tables<Cid>, l: LoopId, phase: Phase, pop: bool, push: Option<(LoopId, Closure)>)

  function Become(w: World, c: Cid, d: Delta): World {
    w.(
      conns := w.conns[c := d.cn],
      list := if d.cn.stage.Listed() then w.list + {c} else w.list - {c},
      loops := map m | m in w.loops :: LoopAfter(w, d, m),
      ok := true)
  }

  function LoopAfter(w: World, d: Delta, m: LoopId): Loop
    requires m in w.loops
  {
    Loop(
      if m == d.cn.loop then d.reg else w.loops[m].reg,
      if PushesAt(d, m) then w.loops[m].queue + [d.push.value.1] else w.loops[m].queue,
      if m == d.l then d.phase else w.loops[m].phase)
  }

  predicate PushesAt(d: Delta, m: LoopId) {
    d.push.Some? && d.push.value.0 == m
  }

  function Pushed(d: Delta, m: LoopId): multiset<Closure> {
    if PushesAt(d, m) then multiset{d.push.value.1} else multiset{}
  }

  /** The closure that the step takes out of its loop's batch. */
  function Popped(w: World, d: Delta, m: LoopId): multiset<Closure> {
    if d.pop && m == d.l && m in w.loops && w.loops[m].phase.Tasks? && w.loops[m].phase.rest != []
    then multiset{w.loops[m].phase.rest[0]} else multiset{}
  }

  /** Either a task is taken, or the loop is in the same phase or in the same event batch. */
  predicate PhaseMoves(p: Phase, p': Phase, pop: bool) {
    if pop then p.Tasks? && p.rest != [] && p' == Tasks(p.rest[1..], p.ran + [p.rest[0]])
    else p' == p || (p.Events? && p'.Events?)
  }

  ghost predicate Consistent(w: World, c: Cid, d: Delta) {
    && c in w.conns && d.l in w.loops && w.conns[c].loop in w.loops && !w.conns[c].stage.Gone?
    && d.cn.loop == w.conns[c].loop && d.cn.chan.fd == w.conns[c].chan.fd
    && StageFacts(d.cn) && LateOnly(d.cn, c, w.overtaken) && w.conns[c].ups <= d.cn.ups
    && RegFrame(w.loops[d.cn.loop].reg, d.reg, d.cn.chan.fd) && RegFor(d.reg, d.cn, c)
    && PhaseMoves(w.loops[d.l].phase, d.phase, d.pop)
    && PhaseFrame(w.loops[d.l].phase, d.phase, c, d.l == d.cn.loop)
    && PhaseAbout(if d.l == d.cn.loop then d.phase else w.loops[d.cn.loop].phase, d.cn, c)
    && (forall m <- w.loops :: ClosuresMove(w, c, d, m))
  }

  predicate ClosuresMove(w: World, c: Cid, d: Delta, m: LoopId)
    requires c in w.conns
  {
    Pushed(d, m) + Due(w.conns[c], c, m) == Popped(w, d, m) + Due(d.cn, c, m)
  }

  lemma PendingAfter(w: World, d: Delta, m: LoopId)
    requires m in w.loops && d.l in w.loops && PhaseMoves(w.loops[d.l].phase, d.phase, d.pop)
    ensures Pending(LoopAfter(w, d, m)) + Popped(w, d, m) == Pending(w.loops[m]) + Pushed(d, m)
  {
    var p := w.loops[m].phase;
    if m == d.l && d.pop {
      assert p.rest == [p.rest[0]] + p.rest[1..];
    }
  }

  lemma BecomeBalances(w: World, c: Cid, d: Delta, m: LoopId)
    requires Consistent(w, c, d) && m in w.loops
    ensures Balanced(w, Become(w, c, d), c, m)
  {
    PendingAfter(w, d, m);
    assert ClosuresMove(w, c, d, m);
    hide Consistent, Pending, Popped, Pushed, Due, LoopAfter;
    var v := Become(w, c, d);
    assert v.loops[m] == LoopAfter(w, d, m);
    Balance(Pending(v.loops[m]), Popped(w, d, m), Pending(w.loops[m]), Pushed(d, m),
            Due(w.conns[c], c, m), Due(d.cn, c, m));
  }

  lemma Balance<T>(after: multiset<T>, popped: multiset<T>, before: multiset<T>, pushed: multiset<T>,
                   due: multiset<T>, due': multiset<T>)
    requires after + popped == before + pushed && pushed + due == popped + due'
    ensures after + due == before + due'
  {
    forall x: T
      ensures (after + due)[x] == (before + due')[x]
    {
      assert (after + popped)[x] == (before + pushed)[x] && (pushed + due)[x] == (popped + due')[x];
    }
  }

  lemma BecomeFrames(w: World, c: Cid, d: Delta, m: LoopId)
    requires Consistent(w, c, d) && m in w.loops
    ensures LoopFrame(w, Become(w, c, d), c, m)
  {
    BecomeBalances(w, c, d, m);
    hide Balanced, RegFor, PhaseAbout, StageFacts, RegFrame, ClosuresMove;
  }

  lemma BecomeLocal(w: World, c: Cid, d: Delta)
    requires Consistent(w, c, d) && FdFree(w, c)
    ensures var v := Become(w, c, d); ConnFrame(w, v, c) && LocalOk(v, c) && FdFree(v, c)
  {
    hide RegFor, PhaseAbout, StageFacts, RegFrame, ClosuresMove, PhaseFrame, PhaseMoves;
  }

  lemma BecomeKeepsInv(w: World, c: Cid, d: Delta)
    requires Inv(w) && Consistent(w, c, d)
    ensures Inv(Become(w, c, d))
  {
    hide Inv, LoopFrame, ConnFrame, LocalOk, FdFree, StageFacts, RegFor, RegFrame, PhaseAbout, PhaseFrame,
      PhaseMoves, ClosuresMove;
    var v := Become(w, c, d);
    Knows(w, c);
    BecomeLocal(w, c, d);
    forall m <- w.loops
      ensures LoopFrame(w, v, c, m)
    {
      BecomeFrames(w, c, d, m);
    }
    ChangeKeepsInv(w, v, c);
  }

  // What a connection that is up turns into.

  function WithInterest(cn: Conn, e: Interest): Conn {
    cn.(chan := cn.chan.(events := e))
  }

  function Closed(cn: Conn): Conn {
    cn.(chan := Chan(cn.chan.fd, NONE, DELETE), state := DISCONNECTED, stage := Closing, downs := cn.downs + 1)
  }

  function InterestDelta(w: World, c: Cid, e: Interest, l: LoopId, phase: Phase): Delta
    requires c in w.conns && w.conns[c].loop in w.loops
  {
    var cn := w.conns[c];
    var reg := w.loops[cn.loop].reg;
    Delta(WithInterest(cn, e), reg.(epoll := reg.epoll[cn.chan.fd := (c, e)]), l, phase, false, None)
  }

  function CloseDelta(w: World, c: Cid, l: LoopId, phase: Phase): Delta
    requires c in w.conns && w.conns[c].loop in w.loops
  {
    var cn := w.conns[c];
    var reg := w.loops[cn.loop].reg;
    Delta(Closed(cn), reg.(epoll := reg.epoll - {cn.chan.fd}), l, phase, false, None)
  }

  lemma InterestIs(w: World, c: Cid, e: Interest, l: LoopId, phase: Phase)
    requires LocalOk(w, c) && w.conns[c].stage.Up? && w.ok && l in w.loops && e.recv
    ensures SetInterest(w, c, e).WithPhase(l, phase) == Become(w, c, InterestDelta(w, c, e, l, phase))
  {
    hide PhaseAbout;
    assert w.list + {c} == w.list;
    assert SetInterest(w, c, e).WithPhase(l, phase).loops == Become(w, c, InterestDelta(w, c, e, l, phase)).loops;
  }

  lemma CloseIs(w: World, c: Cid, l: LoopId, phase: Phase)
    requires LocalOk(w, c) && w.conns[c].stage.Up? && w.ok && l in w.loops
    ensures CloseBegin(w, c).WithPhase(l, phase) == Become(w, c, CloseDelta(w, c, l, phase))
  {
    hide PhaseAbout;
    assert w.list + {c} == w.list;
    assert CloseBegin(w, c).WithPhase(l, phase).loops == Become(w, c, CloseDelta(w, c, l, phase)).loops;
  }

  lemma InterestConsistent(w: World, c: Cid, e: Interest, l: LoopId, phase: Phase)
    requires LocalOk(w, c) && w.conns[c].stage.Up? && l in w.loops && e.recv
    requires PhaseMoves(w.loops[l].phase, phase, false)
    requires PhaseFrame(w.loops[l].phase, phase, c, l == w.conns[c].loop)
    requires PhaseAbout(if l == w.conns[c].loop then phase else w.loops[w.conns[c].loop].phase, w.conns[c], c)
    ensures Consistent(w, c, InterestDelta(w, c, e, l, phase))
  {
    hide PhaseMoves, PhaseFrame;
  }

  lemma InterestKeepsInv(w: World, c: Cid, e: Interest, l: LoopId, phase: Phase)
    requires Inv(w) && LocalOk(w, c) && w.conns[c].stage.Up? && l in w.loops && e.recv
    requires PhaseMoves(w.loops[l].phase, phase, false)
    requires PhaseFrame(w.loops[l].phase, phase, c, l == w.conns[c].loop)
    requires PhaseAbout(if l == w.conns[c].loop then phase else w.loops[w.conns[c].loop].phase, w.conns[c], c)
    ensures Inv(SetInterest(w, c, e).WithPhase(l, phase))
  {
    hide Inv, PhaseFrame, PhaseMoves, PhaseAbout, Consistent, Become;
    WorldOk(w);
    InterestIs(w, c, e, l, phase);
    InterestConsistent(w, c, e, l, phase);
    BecomeKeepsInv(w, c, InterestDelta(w, c, e, l, phase));
  }

  lemma CloseConsistent(w: World, c: Cid, l: LoopId, phase: Phase)
    requires LocalOk(w, c) && w.conns[c].stage.Up? && l == w.conns[c].loop
    requires w.loops[l].phase.Events? && phase.Events? && PhaseFrame(w.loops[l].phase, phase, c, true)
    requires PhaseAbout(phase, Closed(w.conns[c]), c)
    ensures Consistent(w, c, CloseDelta(w, c, l, phase))
  {
    hide PhaseFrame;
  }

  lemma CloseKeepsInv(w: World, c: Cid, l: LoopId, phase: Phase)
    requires Inv(w) && LocalOk(w, c) && w.conns[c].stage.Up? && l == w.conns[c].loop
    requires w.loops[l].phase.Events? && phase.Events? && PhaseFrame(w.loops[l].phase, phase, c, true)
    requires PhaseAbout(phase, Closed(w.conns[c]), c)
    ensures Inv(CloseBegin(w, c).WithPhase(l, phase))
  {
    hide Inv, PhaseFrame, PhaseAbout, Consistent, Become;
    WorldOk(w);
    CloseIs(w, c, l, phase);
    CloseConsistent(w, c, l, phase);
    BecomeKeepsInv(w, c, CloseDelta(w, c, l, phase));
  }

  lemma WorldOk(w: World)
    requires Inv(w)
    ensures w.ok && BASE in w.loops && w.list <= w.conns.Keys
  {
  }

  // ----- Each step -----

  lemma UserSendKeepsInv(w: World, c: Cid)
    requires Inv(w) && Enabled(w, UserSend(c)) && !Reviving(w, UserSend(c))
    ensures Inv(Apply(w, UserSend(c)))
  {
    hide Inv;
    StageOf(w, c);
    if w.conns[c].state != DISCONNECTED {
      Knows(w, c);
      var l := w.conns[c].loop;
      var e := w.conns[c].chan.events.(send := true);
      var v := SetInterest(w, c, e);
      InterestKeepsInv(w, c, e, l, w.loops[l].phase);
      assert v.WithPhase(l, w.loops[l].phase) == v by {
        assert v.loops[l := v.loops[l]] == v.loops;
      }
    }
  }

  /** What the loop's phase says about the event next to be handled and the one in hand. */
  lemma KnowsPending(w: World, l: LoopId)
    requires Inv(w) && l in w.loops && w.loops[l].phase.Events? && w.loops[l].phase.pending != []
    ensures UpIn(w, l, w.loops[l].phase.pending[0].c)
    ensures forall e <- w.loops[l].phase.pending[1..] :: e.c != w.loops[l].phase.pending[0].c
  {
    assert LoopOk(w, l);
  }

  lemma KnowsCurrent(w: World, l: LoopId)
    requires Inv(w) && InEvent(w, l)
    ensures HandlingOk(w, l, w.loops[l].phase.current.value)
    ensures forall e <- w.loops[l].phase.pending :: e.c != w.loops[l].phase.current.value.c
  {
    assert LoopOk(w, l);
  }

  lemma StartEventKeepsInv(w: World, l: LoopId)
    requires Inv(w) && Enabled(w, StartEvent(l))
    ensures Inv(Apply(w, StartEvent(l)))
  {
    KnowsPending(w, l);
    var p := w.loops[l].phase;
    var e := p.pending[0];
    Knows(w, e.c);
    Referenced(w, e.c);
    hide Inv, StrongRef;
    assert w.(ok := w.ok && StrongRef(w, e.c) && AttachedIn(w, l, e.c)) == w;
    if e.hup && !e.readable {
      CloseKeepsInv(w, e.c, l, Events(p.pending[1..], Some(Handling(e.c, false, e.writable, true))));
    } else {
      EventPhaseKeepsInv(w, e.c, l, Events(p.pending[1..], Some(Handling(e.c, e.readable, e.writable, false))));
    }
  }

  function PhaseDelta(w: World, c: Cid, l: LoopId, phase: Phase): Delta
    requires c in w.conns && l in w.loops
  {
    Delta(w.conns[c], w.loops[l].reg, l, phase, false, None)
  }

  lemma EventPhaseIs(w: World, c: Cid, l: LoopId, phase: Phase)
    requires LocalOk(w, c) && l == w.conns[c].loop && !w.conns[c].stage.Gone? && w.ok
    requires w.loops[l].phase.Events? && phase.Events? && PhaseFrame(w.loops[l].phase, phase, c, true)
    requires PhaseAbout(phase, w.conns[c], c)
    ensures w.WithPhase(l, phase) == Become(w, c, PhaseDelta(w, c, l, phase))
    ensures Consistent(w, c, PhaseDelta(w, c, l, phase))
  {
    hide PhaseFrame;
    var d := PhaseDelta(w, c, l, phase);
    assert w.conns[c := w.conns[c]] == w.conns;
    assert (if d.cn.stage.Listed() then w.list + {c} else w.list - {c}) == w.list;
    assert w.WithPhase(l, phase).loops == Become(w, c, d).loops;
  }

  /** A step that only moves on in the handling of c's event. */
  lemma EventPhaseKeepsInv(w: World, c: Cid, l: LoopId, phase: Phase)
    requires Inv(w) && LocalOk(w, c) && l == w.conns[c].loop && !w.conns[c].stage.Gone?
    requires w.loops[l].phase.Events? && phase.Events? && PhaseFrame(w.loops[l].phase, phase, c, true)
    requires PhaseAbout(phase, w.conns[c], c)
    ensures Inv(w.WithPhase(l, phase))
  {
    hide Inv, PhaseFrame, PhaseAbout, Consistent, Become;
    WorldOk(w);
    EventPhaseIs(w, c, l, phase);
    BecomeKeepsInv(w, c, PhaseDelta(w, c, l, phase));
  }

  lemma HandleRecvKeepsInv(w: World, l: LoopId, eof: bool)
    requires Inv(w) && Enabled(w, HandleRecv(l, eof))
    ensures Inv(Apply(w, HandleRecv(l, eof)))
  {
    KnowsCurrent(w, l);
    var p := w.loops[l].phase;
    var h := p.current.value;
    Knows(w, h.c);
    hide Inv, RegFor, StrongRef;
    assert w.(ok := w.ok && w.conns[h.c].chan.events.recv) == w;
    if eof {
      CloseKeepsInv(w, h.c, l, Events(p.pending, Some(Handling(h.c, false, h.writable, true))));
    } else {
      EventPhaseKeepsInv(w, h.c, l, Events(p.pending, Some(h.(readable := false))));
    }
  }

  lemma HandleSendKeepsInv(w: World, l: LoopId, drained: bool)
    requires Inv(w) && Enabled(w, HandleSend(l, drained))
    ensures Inv(Apply(w, HandleSend(l, drained)))
  {
    KnowsCurrent(w, l);
    var p := w.loops[l].phase;
    var h := p.current.value;
    Knows(w, h.c);
    hide Inv;
    var phase := Events(p.pending, Some(h.(writable := false)));
    if w.conns[h.c].chan.events.send && drained {
      InterestKeepsInv(w, h.c, w.conns[h.c].chan.events.(send := false), l, phase);
    } else {
      EventPhaseKeepsInv(w, h.c, l, phase);
    }
  }

  function NotifyDelta(w: World, l: LoopId): Delta
    requires InEvent(w, l)
  {
    var p := w.loops[l].phase;
    var h := p.current.value;
    var phase := Events(p.pending, Some(h.(closing := false)));
    var cn := w.conns[h.c];
    if l == BASE
    then Delta(cn.(stage := DestroyQueued), w.loops[l].reg, l, phase, false, Some((l, Destroy(h.c))))
    else Delta(cn.(stage := RemoveQueued), w.loops[l].reg, l, phase, false, Some((BASE, Remove(h.c))))
  }

  lemma NotifyCloseIs(w: World, l: LoopId)
    requires Enabled(w, NotifyClose(l)) && w.ok && HandlingOk(w, l, w.loops[l].phase.current.value)
    requires LocalOk(w, w.loops[l].phase.current.value.c)
    ensures Apply(w, NotifyClose(l)) == Become(w, w.loops[l].phase.current.value.c, NotifyDelta(w, l))
  {
    hide RegFor, PhaseAbout;
    var c := w.loops[l].phase.current.value.c;
    var d := NotifyDelta(w, l);
    assert w.list + {c} == w.list;
    assert Apply(w, NotifyClose(l)).loops == Become(w, c, d).loops;
  }

  lemma NotifyCloseConsistent(w: World, l: LoopId)
    requires Enabled(w, NotifyClose(l)) && HandlingOk(w, l, w.loops[l].phase.current.value)
    requires LocalOk(w, w.loops[l].phase.current.value.c)
    ensures Consistent(w, w.loops[l].phase.current.value.c, NotifyDelta(w, l))
  {
    hide ClosuresMove;
    forall m <- w.loops
      ensures ClosuresMove(w, w.loops[l].phase.current.value.c, NotifyDelta(w, l), m)
    {
      NotifyClosuresMove(w, l, m);
    }
  }

  lemma NotifyClosuresMove(w: World, l: LoopId, m: LoopId)
    requires Enabled(w, NotifyClose(l)) && HandlingOk(w, l, w.loops[l].phase.current.value) && m in w.loops
    ensures ClosuresMove(w, w.loops[l].phase.current.value.c, NotifyDelta(w, l), m)
  {
  }

  lemma NotifyCloseKeepsInv(w: World, l: LoopId)
    requires Inv(w) && Enabled(w, NotifyClose(l))
    ensures Inv(Apply(w, NotifyClose(l)))
  {
    hide Inv, Consistent, Become, LocalOk, HandlingOk, Apply;
    KnowsCurrent(w, l);
    WorldOk(w);
    var c := w.loops[l].phase.current.value.c;
    CurrentAttached(w, l);
    Knows(w, c);
    NotifyCloseIs(w, l);
    NotifyCloseConsistent(w, l);
    BecomeKeepsInv(w, c, NotifyDelta(w, l));
  }

  lemma CurrentAttached(w: World, l: LoopId)
    requires InEvent(w, l) && HandlingOk(w, l, w.loops[l].phase.current.value)
    ensures !w.conns[w.loops[l].phase.current.value.c].stage.Gone?
  {
  }

  /** A closure at the head of a batch tells the stage of its connection. */
  lemma KnowsTask(w: World, l: LoopId)
    requires Inv(w) && l in w.loops && w.loops[l].phase.Tasks? && w.loops[l].phase.rest != []
    ensures TaskFits(w, l, w.loops[l].phase.rest[0])
  {
    hide Pending, Inv, ClosuresDue, Due, TaskFits;
    var k := w.loops[l].phase.rest[0];
    PopPending(w.loops[l]);
    ClosuresOf(w, l, k);
    DueFits(w, l, k, Pending(w.loops[l]));
  }

  lemma DueFits(w: World, l: LoopId, k: Closure, pending: multiset<Closure>)
    requires k.c in w.conns && k in pending && ClosuresDue(w.conns[k.c], k.c, l, pending)
    ensures TaskFits(w, l, k)
  {
    assert Due(w.conns[k.c], k.c, l)[k] > 0;
  }

  lemma ClosuresOf(w: World, l: LoopId, k: Closure)
    requires Inv(w) && l in w.loops && k in Pending(w.loops[l])
    ensures k.c in w.conns && ClosuresDue(w.conns[k.c], k.c, l, Pending(w.loops[l]))
  {
    hide RegOk, PhaseOk, FdsDistinct, StageFacts, AttachedIn, ClosingNow, Pending, ClosuresDue;
    assert LoopOk(w, l);
    assert ConnOk(w, k.c);
  }

  lemma PopPending(lp: Loop)
    requires lp.phase.Tasks? && lp.phase.rest != []
    ensures lp.phase.rest[0] in Pending(lp)
  {
  }

  function EstablishDelta(w: World, c: Cid, l: LoopId, phase: Phase, pop: bool): Delta
    requires c in w.conns && w.conns[c].loop in w.loops
  {
    var cn := w.conns[c];
    var reg := w.loops[cn.loop].reg;
    var e := cn.chan.events.(recv := true);
    Delta(
      cn.(chan := Chan(cn.chan.fd, e, ADD), state := CONNECTED, stage := Up, ups := cn.ups + 1),
      Tables(reg.channels[cn.chan.fd := c], reg.epoll[cn.chan.fd := (c, e)]), l, phase, pop, None)
  }

  /** What the closure at the head of the batch does, in the general form. */
  function TaskDelta(w: World, l: LoopId): Delta
    requires Enabled(w, RunTask(l))
  {
    var rest := w.loops[l].phase.rest;
    var phase := Tasks(rest[1..], w.loops[l].phase.ran + [rest[0]]);
    var c := rest[0].c;
    var cn := w.conns[c];
    var reg := w.loops[cn.loop].reg;
    match rest[0]
    case Establish(_) => EstablishDelta(w, c, l, phase, true)
    case Remove(_) => Delta(cn.(stage := DestroyQueued), reg, l, phase, true, Some((cn.loop, Destroy(c))))
    case Destroy(_) => Delta(
      cn.(chan := Chan(cn.chan.fd, NONE, NEW), stage := Gone, destroys := cn.destroys + 1),
      reg.(channels := reg.channels - {cn.chan.fd}), l, phase, true, None)
  }

  predicate TaskFits(w: World, l: LoopId, k: Closure) {
    && k.c in w.conns
    && (k.Establish? ==> w.conns[k.c].stage.Created? && w.conns[k.c].loop == l)
    && (k.Remove? ==> w.conns[k.c].stage.RemoveQueued? && l == BASE)
    && (k.Destroy? ==> w.conns[k.c].stage.DestroyQueued? && w.conns[k.c].loop == l)
  }

  lemma RunTaskIs(w: World, l: LoopId)
    requires Enabled(w, RunTask(l)) && w.ok && TaskFits(w, l, w.loops[l].phase.rest[0])
    requires LocalOk(w, w.loops[l].phase.rest[0].c)
    ensures Apply(w, RunTask(l)) == Become(w, w.loops[l].phase.rest[0].c, TaskDelta(w, l))
  {
    hide PhaseAbout, StrongRef;
    var c := w.loops[l].phase.rest[0].c;
    var v, b := Apply(w, RunTask(l)), Become(w, c, TaskDelta(w, l));
    match w.loops[l].phase.rest[0]
    case Establish(_) =>
      hide ConnectDestroyed, RemoveConnectionInLoop, RemoveAsserts, AfterRemove;
      assert v.conns == b.conns && v.list == b.list && v.loops == b.loops && v.ok;
    case Remove(_) =>
      hide ConnectDestroyed, ConnectEstablished, RemoveAsserts, AfterRemove, UpdateAsserts, AfterUpdate;
      assert v.conns == b.conns && v.list == b.list && v.loops == b.loops && v.ok;
    case Destroy(_) =>
      hide ConnectEstablished, RemoveConnectionInLoop, UpdateAsserts, AfterUpdate, CloseBegin;
      assert v.conns == b.conns && v.list == b.list && v.loops == b.loops && v.ok;
  }

  lemma TaskClosuresMove(w: World, l: LoopId, m: LoopId)
    requires Enabled(w, RunTask(l)) && TaskFits(w, l, w.loops[l].phase.rest[0]) && m in w.loops
    ensures ClosuresMove(w, w.loops[l].phase.rest[0].c, TaskDelta(w, l), m)
  {
  }

  lemma RunTaskConsistent(w: World, l: LoopId)
    requires Enabled(w, RunTask(l)) && TaskFits(w, l, w.loops[l].phase.rest[0])
    requires LocalOk(w, w.loops[l].phase.rest[0].c)
    ensures Consistent(w, w.loops[l].phase.rest[0].c, TaskDelta(w, l))
  {
    hide ClosuresMove;
    forall m <- w.loops
      ensures ClosuresMove(w, w.loops[l].phase.rest[0].c, TaskDelta(w, l), m)
    {
      TaskClosuresMove(w, l, m);
    }
  }

  lemma RunTaskKeepsInv(w: World, l: LoopId)
    requires Inv(w) && Enabled(w, RunTask(l))
    ensures Inv(Apply(w, RunTask(l)))
  {
    hide Inv, Consistent, Become, LocalOk, Apply, TaskDelta;
    KnowsTask(w, l);
    WorldOk(w);
    var c := w.loops[l].phase.rest[0].c;
    Knows(w, c);
    RunTaskIs(w, l);
    RunTaskConsistent(w, l);
    BecomeKeepsInv(w, c, TaskDelta(w, l));
  }

  /** A connection that is not destroyed has a strong reference. */
  lemma Referenced(w: World, c: Cid)
    requires Inv(w) && c in w.conns && !w.conns[c].stage.Gone?
    ensures StrongRef(w, c)
  {
    assert ConnOk(w, c);
    if w.conns[c].stage.DestroyQueued? {
      var l := w.conns[c].loop;
      assert ClosuresDue(w.conns[c], c, l, Pending(w.loops[l]));
      assert Pending(w.loops[l])[Destroy(c)] == 1;
      assert Destroy(c).c == c && Destroy(c) in Pending(w.loops[l]);
    }
  }

  lemma EndEventPhase(w: World, l: LoopId, c: Cid)
    requires Enabled(w, EndEvent(l)) && c == w.loops[l].phase.current.value.c && LocalOk(w, c) && w.conns[c].loop == l
    ensures PhaseFrame(w.loops[l].phase, Events(w.loops[l].phase.pending, None), c, true)
    ensures PhaseAbout(Events(w.loops[l].phase.pending, None), w.conns[c], c)
  {
  }

  lemma EndEventKeepsInv(w: World, l: LoopId)
    requires Inv(w) && Enabled(w, EndEvent(l))
    ensures Inv(Apply(w, EndEvent(l)))
  {
    hide Inv, LocalOk, PhaseFrame, PhaseAbout;
    KnowsCurrent(w, l);
    var c := w.loops[l].phase.current.value.c;
    Knows(w, c);
    EndEventPhase(w, l, c);
    EventPhaseKeepsInv(w, c, l, Events(w.loops[l].phase.pending, None));
  }

  /** A loop between event batch and task batch: same closures, nobody's event in hand. */
  lemma TurnKeepsInv(w: World, l: LoopId, lp: Loop)
    requires Inv(w) && l in w.loops && lp.reg == w.loops[l].reg && Pending(lp) == Pending(w.loops[l])
    requires forall c :: !ClosingNow(w.loops[l].phase, c) && !ClosingNow(lp.phase, c)
    requires PhaseOk(w.(loops := w.loops[l := lp]), l)
    ensures Inv(w.(loops := w.loops[l := lp]))
  {
    hide ConnOk, LoopOk, PhaseOk, ClosingNow, Pending;
    var v := w.(loops := w.loops[l := lp]);
    forall c <- v.conns
      ensures ConnOk(v, c)
    {
      assert ConnOk(w, c);
      TurnConnOk(w, l, lp, c);
    }
    forall m <- v.loops
      ensures LoopOk(v, m)
    {
      TurnLoopOk(w, l, lp, m);
    }
  }

  lemma TurnConnOk(w: World, l: LoopId, lp: Loop, c: Cid)
    requires c in w.conns && ConnOk(w, c)
    requires l in w.loops && lp.reg == w.loops[l].reg && Pending(lp) == Pending(w.loops[l])
    requires forall d :: !ClosingNow(w.loops[l].phase, d) && !ClosingNow(lp.phase, d)
    ensures ConnOk(w.(loops := w.loops[l := lp]), c)
  {
    hide Pending, StageFacts, ClosingNow, Due, ClosuresDue;
    var v := w.(loops := w.loops[l := lp]);
    forall m <- v.loops
      ensures ClosuresDue(v.conns[c], c, m, Pending(v.loops[m]))
    {
      assert ClosuresDue(w.conns[c], c, m, Pending(w.loops[m]));
    }
  }

  lemma SameReg(w: World, v: World, m: LoopId)
    requires v.conns == w.conns && m in w.loops && m in v.loops && v.loops[m].reg == w.loops[m].reg && RegOk(w, m)
    ensures RegOk(v, m)
  {
    forall fd <- v.loops[m].reg.channels
      ensures Owner(v, m, fd, v.loops[m].reg.channels[fd])
    {
      assert Owner(w, m, fd, w.loops[m].reg.channels[fd]);
    }
  }

  lemma SamePhase(w: World, v: World, m: LoopId)
    requires v.conns == w.conns && m in w.loops && m in v.loops && v.loops[m].phase == w.loops[m].phase && PhaseOk(w, m)
    ensures PhaseOk(v, m)
  {
    var p := v.loops[m].phase;
    if p.Events? {
      forall i | 0 <= i < |p.pending| ensures UpIn(v, m, p.pending[i].c) { assert UpIn(w, m, p.pending[i].c); }
    }
  }

  lemma TurnLoopOk(w: World, l: LoopId, lp: Loop, m: LoopId)
    requires Inv(w) && l in w.loops && lp.reg == w.loops[l].reg && Pending(lp) == Pending(w.loops[l])
    requires PhaseOk(w.(loops := w.loops[l := lp]), l) && m in w.loops
    ensures LoopOk(w.(loops := w.loops[l := lp]), m)
  {
    hide ConnOk, RegOk, PhaseOk, FdsDistinct, Pending;
    assert LoopOk(w, m);
    hide Inv;
    var v := w.(loops := w.loops[l := lp]);
    SameReg(w, v, m);
    if m != l {
      SamePhase(w, v, m);
    }
  }

  lemma BatchKeepsInv(w: World, l: LoopId, a: Action)
    requires Inv(w) && Enabled(w, a) && (a == BeginTasks(l) || a == EndTasks(l))
    ensures Inv(Apply(w, a))
  {
    hide Inv;
    var lp := if a.BeginTasks? then w.loops[l].(phase := Tasks(w.loops[l].queue, []), queue := [])
              else w.loops[l].(phase := Polling);
    assert Apply(w, a) == w.(loops := w.loops[l := lp]);
    TurnKeepsInv(w, l, lp);
  }

  /** What epoll reports is about connections that are up, by the registration agreement. */
  lemma ReportsUp(w: World, l: LoopId, e: Event)
    requires Inv(w) && l in w.loops && Reportable(w, l, e)
    ensures UpIn(w, l, e.c)
  {
    assert LoopOk(w, l);
    var reg := w.loops[l].reg;
    var fd :| fd in reg.epoll && Reports(reg.epoll[fd], e);
    assert fd in reg.channels && Owner(w, l, fd, reg.channels[fd]) && Entry(w, reg.channels[fd], reg.epoll[fd]);
    assert ConnOk(w, e.c);
  }

  lemma PollKeepsInv(w: World, l: LoopId, events: seq<Event>)
    requires Inv(w) && Enabled(w, Poll(l, events))
    ensures Inv(Apply(w, Poll(l, events)))
  {
    hide Inv;
    var lp := w.loops[l].(phase := Events(events, None));
    var v := w.(loops := w.loops[l := lp]);
    forall i | 0 <= i < |events|
      ensures UpIn(v, l, events[i].c)
    {
      assert Reportable(w, l, events[i]);
      ReportsUp(w, l, events[i]);
    }
    TurnKeepsInv(w, l, lp);
  }

  /** A descriptor that no referenced connection holds is in no loop's tables. */
  lemma NewFdUnknown(w: World, fd: int, l: LoopId)
    requires Inv(w) && l in w.loops && forall d <- w.conns :: StrongRef(w, d) ==> w.conns[d].chan.fd != fd
    ensures fd !in w.loops[l].reg.channels && fd !in w.loops[l].reg.epoll
  {
    assert LoopOk(w, l);
    var reg := w.loops[l].reg;
    if fd in reg.channels {
      assert Owner(w, l, fd, reg.channels[fd]);
      Referenced(w, reg.channels[fd]);
    }
  }

  lemma NewFdFree(w: World, fd: int)
    requires Inv(w) && forall d <- w.conns :: StrongRef(w, d) ==> w.conns[d].chan.fd != fd
    ensures forall d <- w.conns :: !w.conns[d].stage.Gone? ==> w.conns[d].chan.fd != fd
  {
    forall d <- w.conns | !w.conns[d].stage.Gone?
      ensures w.conns[d].chan.fd != fd
    {
      Referenced(w, d);
    }
  }

  lemma NewIdUnknown(w: World, c: Cid, l: LoopId)
    requires Inv(w) && c !in w.conns && l in w.loops
    ensures !Guards(w.loops[l].phase, c)
    ensures w.loops[l].phase.Events? ==> forall e <- w.loops[l].phase.pending :: e.c != c
  {
    assert LoopOk(w, l);
    var p := w.loops[l].phase;
    if p.Events? {
      forall i | 0 <= i < |p.pending|
        ensures p.pending[i].c != c
      {
        assert UpIn(w, l, p.pending[i].c);
      }
    }
  }

  ghost predicate Acceptable(w: World, c: Cid, fd: int, l: LoopId) {
    && Enabled(w, Accept(c, fd, l)) && w.ok
    && fd !in w.loops[l].reg.channels && fd !in w.loops[l].reg.epoll
    && (forall d <- w.conns :: !w.conns[d].stage.Gone? ==> w.conns[d].chan.fd != fd)
    && !Guards(w.loops[l].phase, c)
    && (w.loops[l].phase.Events? ==> forall e <- w.loops[l].phase.pending :: e.c != c)
  }

  /** A new connection is queued for its loop, or up at once if that is the base loop. */
  function Accepted(w: World, c: Cid, fd: int, l: LoopId): World
    requires l in w.loops
  {
    var lp := w.loops[l];
    var e := Interest(true, false);
    if l == BASE then w.(
      conns := w.conns[c := Conn(l, CONNECTED, Chan(fd, e, ADD), Up, 1, 0, 0)], list := w.list + {c},
      loops := w.loops[l := lp.(reg := Tables(lp.reg.channels[fd := c], lp.reg.epoll[fd := (c, e)]))], ok := true)
    else w.(
      conns := w.conns[c := Conn(l, CONNECTING, Chan(fd, NONE, NEW), Created, 0, 0, 0)], list := w.list + {c},
      loops := w.loops[l := lp.(queue := lp.queue + [Establish(c)])], ok := true)
  }

  lemma AcceptIs(w: World, c: Cid, fd: int, l: LoopId)
    requires Acceptable(w, c, fd, l)
    ensures Apply(w, Accept(c, fd, l)) == Accepted(w, c, fd, l)
  {
    hide StrongRef, Guards;
  }

  lemma AcceptBalances(w: World, c: Cid, fd: int, l: LoopId, m: LoopId)
    requires l in w.loops && m in w.loops && c !in w.conns
    ensures Balanced(w, Accepted(w, c, fd, l), c, m)
  {
    var v := Accepted(w, c, fd, l);
    if m == l && l != BASE {
      hide Pending;
      PushPending(w.loops[m], Establish(c));
      assert DueIn(v, c, m) == multiset{Establish(c)};
    } else {
      assert Pending(v.loops[m]) == Pending(w.loops[m]);
      hide Pending;
      assert DueIn(v, c, m) == multiset{};
    }
  }

  lemma PushPending(lp: Loop, k: Closure)
    ensures Pending(lp.(queue := lp.queue + [k])) == Pending(lp) + multiset{k}
  {
  }

  lemma AcceptLoops(w: World, c: Cid, fd: int, l: LoopId, m: LoopId)
    requires Acceptable(w, c, fd, l) && m in w.loops
    ensures LoopFrame(w, Accepted(w, c, fd, l), c, m)
  {
    hide StrongRef, Guards, Balanced;
    AcceptBalances(w, c, fd, l, m);
  }

  lemma AcceptLocal(w: World, c: Cid, fd: int, l: LoopId)
    requires Acceptable(w, c, fd, l)
    ensures var v := Accepted(w, c, fd, l); ConnFrame(w, v, c) && LocalOk(v, c) && FdFree(v, c)
  {
    hide StrongRef;
    var p := w.loops[l].phase;
    assert p.Events? ==> forall i | 0 <= i < |p.pending| :: p.pending[i].c != c;
  }

  lemma AcceptKeepsInv(w: World, c: Cid, fd: int, l: LoopId)
    requires Inv(w) && Enabled(w, Accept(c, fd, l))
    ensures Inv(Apply(w, Accept(c, fd, l)))
  {
    NewFdUnknown(w, fd, l);
    NewFdFree(w, fd);
    NewIdUnknown(w, c, l);
    WorldOk(w);
    hide Inv, LoopFrame, ConnFrame, LocalOk, FdFree, StrongRef, Guards;
    assert Acceptable(w, c, fd, l);
    AcceptIs(w, c, fd, l);
    hide Acceptable, Enabled, Apply;
    AcceptLocal(w, c, fd, l);
    var v := Accepted(w, c, fd, l);
    forall m <- w.loops
      ensures LoopFrame(w, v, c, m)
    {
      AcceptLoops(w, c, fd, l, m);
    }
    ChangeKeepsInv(w, v, c);
  }

  lemma StepKeepsInv(w: World, a: Action)
    requires Inv(w) && Enabled(w, a) && !Reviving(w, a)
    ensures Inv(Apply(w, a))
  {
    hide Inv, Apply;
    match a
    case Accept(c, fd, l) => AcceptKeepsInv(w, c, fd, l);
    case Poll(l, events) => PollKeepsInv(w, l, events);
    case StartEvent(l) => StartEventKeepsInv(w, l);
    case NotifyClose(l) => NotifyCloseKeepsInv(w, l);
    case HandleRecv(l, eof) => HandleRecvKeepsInv(w, l, eof);
    case HandleSend(l, drained) => HandleSendKeepsInv(w, l, drained);
    case EndEvent(l) => EndEventKeepsInv(w, l);
    case BeginTasks(l) => BatchKeepsInv(w, l, a);
    case RunTask(l) => RunTaskKeepsInv(w, l);
    case EndTasks(l) => BatchKeepsInv(w, l, a);
    case UserSend(c) => UserSendKeepsInv(w, c);
    case ShutdownTest(t, c) => ShutdownKeepsInv(w, a);
    case ShutdownStore(t, c) => ShutdownKeepsInv(w, a);
  }

  // ----- Whole runs -----

  lemma {:induction false} RunKeepsInv(w: World, acts: seq<Action>, v: World)
    requires Inv(w) && Runs(w, acts, v) && v.revived == {}
    ensures Inv(v)
    decreases |acts|
  {
    if acts != [] {
      var w' := Apply(w, acts[0]);
      RevivedGrows(w', acts[1..], v);
      RevivingIsRecorded(w, acts[0]);
      hide Inv, Enabled, Apply, Reviving;
      StepKeepsInv(w, acts[0]);
      RunKeepsInv(w', acts[1..], v);
    }
  }

  lemma RevivingIsRecorded(w: World, a: Action)
    requires Enabled(w, a)
    ensures w.revived <= Apply(w, a).revived
    ensures Reviving(w, a) ==> a.c in Apply(w, a).revived
  {
    hide StrongRef, AttachedIn, Reportable, UpdateAsserts, CtlLegal, AfterUpdate, RemoveAsserts, AfterRemove;
  }

  lemma {:induction false} RevivedGrows(w: World, acts: seq<Action>, v: World)
    requires Runs(w, acts, v)
    ensures w.revived <= v.revived
    decreases |acts|
  {
    if acts != [] {
      RevivingIsRecorded(w, acts[0]);
      RevivedGrows(Apply(w, acts[0]), acts[1..], v);
    }
  }

  lemma InitInv(w: World)
    requires Init(w)
    ensures Inv(w)
  {
  }

  lemma Reached(w: World, acts: seq<Action>, v: World)
    requires Init(w) && Runs(w, acts, v) && v.revived == {}
    ensures Inv(v)
  {
    InitInv(w);
    hide Inv;
    RunKeepsInv(w, acts, v);
  }

  // ----- What holds until a closed connection is sent on -----

  /** No assertion of the channel and connection code fails while no closed connection has been
      revived: no descriptor is registered twice, nothing is removed that is still watched or not
      in the map, no event reaches a channel whose connection is gone, and handleRecv always finds
      its interest on. Late stores alone do no harm. */
  lemma AssertionsHold(w: World, acts: seq<Action>, v: World)
    requires Init(w) && Runs(w, acts, v) && v.revived == {}
    ensures v.ok
  {
    Reached(w, acts, v);
  }

  /** At most one UP, DOWN and destroy, in this order, and no interest after the DOWN. */
  predicate QuietAfterDown(cn: Conn) {
    && cn.destroys <= cn.downs <= cn.ups <= 1
    && (cn.downs > 0 ==> cn.chan.events == NONE && !cn.chan.state.ADD?)
  }

  ghost predicate Disciplined(w: World) {
    forall c <- w.conns :: QuietAfterDown(w.conns[c])
  }

  lemma InvDisciplined(w: World)
    requires Inv(w)
    ensures Disciplined(w)
  {
    forall c <- w.conns
      ensures QuietAfterDown(w.conns[c])
    {
      StageOf(w, c);
    }
  }

  /** The one step that breaks the discipline, from any state reached without it: bytes are sent
      on a connection that is closed and whose state a store has set back to DISCONNECTING. */
  lemma DisciplineBreaksExactly(w: World, acts: seq<Action>, v: World, a: Action)
    requires Init(w) && Runs(w, acts, v) && v.revived == {} && Enabled(v, a)
    ensures Disciplined(v)
    ensures !Disciplined(Apply(v, a)) <==>
            a.UserSend? && v.conns[a.c].downs > 0 && v.conns[a.c].state == DISCONNECTING
  {
    Reached(w, acts, v);
    InvDisciplined(v);
    if a.UserSend? {
      StageOf(v, a.c);
    }
    if Reviving(v, a) {
      hide Inv, UpdateAsserts, CtlLegal, AfterUpdate;
      assert Apply(v, a).conns[a.c].chan.events.send;
      assert !QuietAfterDown(Apply(v, a).conns[a.c]);
    } else {
      hide Inv, Disciplined, Apply, StageFacts;
      StepKeepsInv(v, a);
      InvDisciplined(Apply(v, a));
    }
  }

  /** Such a connection is one that the store of a shutdown() found DISCONNECTED, because another
      thread had made its test before the close. */
  lemma RevivingNeedsLateStore(w: World, acts: seq<Action>, v: World, a: Action)
    requires Init(w) && Runs(w, acts, v) && v.revived == {} && Reviving(v, a)
    ensures a.c in v.overtaken
  {
    Reached(w, acts, v);
    assert LateOnly(v.conns[a.c], a.c, v.overtaken);
  }

  /** A connection held by nothing but functors that have run shares its descriptor, which is still
      open, with no connection that is not destroyed. */
  ghost predicate LingersAlone(w: World) {
    && (forall c :: Lingers(w, c) ==> c in w.conns)
    && (forall c <- w.conns, d <- w.conns ::
          c != d && Lingers(w, c) && w.conns[d].destroys == 0 ==> w.conns[c].chan.fd != w.conns[d].chan.fd)
  }

  /** Descriptors and destroys, whatever the step. */
  lemma StepKeepsFds(w: World, a: Action, d: Cid)
    requires Enabled(w, a) && d in Apply(w, a).conns && !(a.Accept? && d == a.c)
    ensures d in w.conns && Apply(w, a).conns[d].chan.fd == w.conns[d].chan.fd
    ensures w.conns[d].destroys <= Apply(w, a).conns[d].destroys
  {
    hide StrongRef, AttachedIn, Reportable, UpdateAsserts, CtlLegal, AfterUpdate, RemoveAsserts, AfterRemove;
  }

  lemma StepRan(w: World, a: Action, l: LoopId, c: Cid)
    requires Enabled(w, a) && l in Apply(w, a).loops && RanAbout(Apply(w, a).loops[l].phase, c)
    ensures l in w.loops
    ensures RanAbout(w.loops[l].phase, c) || (a == RunTask(l) && w.loops[l].phase.rest[0].c == c)
  {
    hide StrongRef, AttachedIn, Reportable, UpdateAsserts, CtlLegal, AfterUpdate, RemoveAsserts, AfterRemove;
    match a
    case RunTask(_) =>
      hide AfterStart, AfterRecv, AfterSend, NewConnection;
    case _ =>
      hide ConnectDestroyed, RanAbout;
  }

  lemma StepKeepsLingersAlone(w: World, a: Action)
    requires Inv(w) && LingersAlone(w) && Enabled(w, a)
    ensures LingersAlone(Apply(w, a))
  {
    var v := Apply(w, a);
    forall c | Lingers(v, c)
      ensures c in v.conns
    {
      var l :| l in v.loops && RanAbout(v.loops[l].phase, c);
      StepRan(w, a, l, c);
      RanKnown(w, a, l, c);
    }
    forall c <- v.conns, d <- v.conns | c != d && Lingers(v, c) && v.conns[d].destroys == 0
      ensures v.conns[c].chan.fd != v.conns[d].chan.fd
    {
      LingersApart(w, a, c, d);
    }
  }

  lemma ConnsStay(w: World, a: Action)
    requires Enabled(w, a)
    ensures w.conns.Keys <= Apply(w, a).conns.Keys
  {
    hide StrongRef, AttachedIn, Reportable, UpdateAsserts, CtlLegal, AfterUpdate, RemoveAsserts, AfterRemove;
  }

  lemma RanKnown(w: World, a: Action, l: LoopId, c: Cid)
    requires Inv(w) && LingersAlone(w) && Enabled(w, a) && l in w.loops
    requires RanAbout(w.loops[l].phase, c) || (a == RunTask(l) && w.loops[l].phase.rest[0].c == c)
    ensures c in w.conns && c in Apply(w, a).conns
  {
    if RanAbout(w.loops[l].phase, c) {
      assert Lingers(w, c);
    } else {
      KnowsTask(w, l);
    }
    ConnsStay(w, a);
  }

  lemma LingersApart(w: World, a: Action, c: Cid, d: Cid)
    requires Inv(w) && LingersAlone(w) && Enabled(w, a)
    requires var v := Apply(w, a);
      c in v.conns && d in v.conns && c != d && Lingers(v, c) && v.conns[d].destroys == 0
    ensures Apply(w, a).conns[c].chan.fd != Apply(w, a).conns[d].chan.fd
  {
    hide Inv, Apply, Enabled, LingersAlone;
    var l := LingeringSince(w, a, c);
    if a.Accept? {
      AcceptedApart(w, a, l, c, d);
    } else {
      StepKeepsFds(w, a, c);
      StepKeepsFds(w, a, d);
      if RanAbout(w.loops[l].phase, c) {
        StayApart(w, l, c, d);
      } else {
        TaskApart(w, l, c, d);
      }
    }
  }

  lemma LingeringSince(w: World, a: Action, c: Cid) returns (l: LoopId)
    requires Enabled(w, a) && Lingers(Apply(w, a), c)
    ensures l in w.loops
    ensures RanAbout(w.loops[l].phase, c)
      || (a == RunTask(l) && w.loops[l].phase.Tasks? && w.loops[l].phase.rest != [] && w.loops[l].phase.rest[0].c == c)
  {
    var v := Apply(w, a);
    hide Apply;
    l :| l in v.loops && RanAbout(v.loops[l].phase, c);
    StepRan(w, a, l, c);
  }

  lemma StayApart(w: World, l: LoopId, c: Cid, d: Cid)
    requires LingersAlone(w) && l in w.loops && RanAbout(w.loops[l].phase, c)
    requires c in w.conns && d in w.conns && c != d && w.conns[d].destroys == 0
    ensures w.conns[c].chan.fd != w.conns[d].chan.fd
  {
    assert Lingers(w, c);
  }

  lemma TaskApart(w: World, l: LoopId, c: Cid, d: Cid)
    requires Inv(w) && l in w.loops && w.loops[l].phase.Tasks? && w.loops[l].phase.rest != []
    requires w.loops[l].phase.rest[0].c == c && c in w.conns && d in w.conns && c != d && w.conns[d].destroys == 0
    ensures w.conns[c].chan.fd != w.conns[d].chan.fd
  {
    hide Inv;
    KnowsTask(w, l);
    StageOf(w, d);
    hide StageFacts;
    DistinctFds(w, c, d);
  }

  lemma DistinctFds(w: World, c: Cid, d: Cid)
    requires Inv(w) && c in w.conns && d in w.conns && c != d
    requires !w.conns[c].stage.Gone? && !w.conns[d].stage.Gone?
    ensures w.conns[c].chan.fd != w.conns[d].chan.fd
  {
  }

  lemma AcceptAdds(w: World, c: Cid, fd: int, l: LoopId)
    requires Enabled(w, Accept(c, fd, l))
    ensures var v := Apply(w, Accept(c, fd, l));
      && c !in w.conns && v.conns.Keys == w.conns.Keys + {c} && v.conns[c].chan.fd == fd
      && (forall d <- w.conns :: v.conns[d] == w.conns[d])
  {
    hide StrongRef, UpdateAsserts, CtlLegal, AfterUpdate;
  }

  lemma AcceptAvoids(w: World, a: Action, d: Cid)
    requires Enabled(w, a) && a.Accept? && d in w.conns && StrongRef(w, d)
    ensures w.conns[d].chan.fd != a.fd
  {
    hide StrongRef;
  }

  lemma AcceptedApart(w: World, a: Action, l: LoopId, c: Cid, d: Cid)
    requires LingersAlone(w) && Enabled(w, a) && a.Accept? && l in w.loops && RanAbout(w.loops[l].phase, c)
    requires d in Apply(w, a).conns && c != d && Apply(w, a).conns[d].destroys == 0
    ensures c in Apply(w, a).conns && Apply(w, a).conns[c].chan.fd != Apply(w, a).conns[d].chan.fd
  {
    hide Enabled, Apply, RanAbout;
    assert Lingers(w, c);
    assert StrongRef(w, c);
    hide StrongRef, Lingers;
    AcceptAdds(w, a.c, a.fd, a.l);
    AcceptAvoids(w, a, c);
  }

  lemma {:induction false} RunKeepsLingersAlone(w: World, acts: seq<Action>, v: World)
    requires Inv(w) && LingersAlone(w) && Runs(w, acts, v) && v.revived == {}
    ensures LingersAlone(v)
    decreases |acts|
  {
    if acts != [] {
      var w' := Apply(w, acts[0]);
      RevivedGrows(w', acts[1..], v);
      RevivingIsRecorded(w, acts[0]);
      hide Inv, Enabled, Apply, Reviving, LingersAlone;
      StepKeepsInv(w, acts[0]);
      StepKeepsLingersAlone(w, acts[0]);
      RunKeepsLingersAlone(w', acts[1..], v);
    }
  }

  lemma ReachedLingersAlone(w: World, acts: seq<Action>, v: World)
    requires Init(w) && Runs(w, acts, v) && v.revived == {}
    ensures LingersAlone(v)
  {
    InitInv(w);
    hide Inv;
    RunKeepsLingersAlone(w, acts, v);
  }

  /** No step fails an assertion at once on a connection that something still holds: the failures
      come later, from what the step has left in the tables. */
  lemma HeldSendsFailNothing(w: World, acts: seq<Action>, v: World, a: Action)
    requires Init(w) && Runs(w, acts, v) && v.revived == {} && Enabled(v, a)
    requires a.UserSend? ==> StrongRef(v, a.c)
    ensures Apply(v, a).ok
  {
    AssertionFailsExactly(w, acts, v, a);
  }

  /** The one step that fails an assertion at once is a use after release: a send on a destroyed
      connection that nothing holds, while its descriptor is in its loop's map again. */
  lemma AssertionFailsExactly(w: World, acts: seq<Action>, v: World, a: Action)
    requires Init(w) && Runs(w, acts, v) && v.revived == {} && Enabled(v, a)
    ensures !Apply(v, a).ok <==>
            && a.UserSend? && v.conns[a.c].state == DISCONNECTING && v.conns[a.c].destroys > 0
            && v.conns[a.c].chan.fd in v.loops[v.conns[a.c].loop].reg.channels
    ensures !Apply(v, a).ok ==> !StrongRef(v, a.c)
  {
    Reached(w, acts, v);
    ReachedLingersAlone(w, acts, v);
    if Reviving(v, a) {
      hide Runs, Init, Inv, LingersAlone, StrongRef, Apply, Enabled;
      RevivingFails(v, a.c);
      if v.conns[a.c].destroys > 0 && v.conns[a.c].chan.fd in v.loops[v.conns[a.c].loop].reg.channels {
        ReplacedIsReleased(v, a.c);
      }
    } else {
      if a.UserSend? {
        StageOf(v, a.c);
      }
      hide Inv, Apply, StageFacts;
      StepKeepsInv(v, a);
      WorldOk(Apply(v, a));
    }
  }

  lemma RevivingFails(w: World, c: Cid)
    requires Inv(w) && Enabled(w, UserSend(c)) && Reviving(w, UserSend(c))
    ensures w.conns[c].state == DISCONNECTING && w.conns[c].loop in w.loops
    ensures !Apply(w, UserSend(c)).ok <==>
            w.conns[c].destroys > 0 && w.conns[c].chan.fd in w.loops[w.conns[c].loop].reg.channels
  {
    StageOf(w, c);
    var l := w.conns[c].loop;
    assert LoopOk(w, l);
    if !w.conns[c].stage.Gone? {
      Knows(w, c);
    }
    hide Inv, LoopOk, PhaseOk, ClosuresKnown, PhaseAbout, StrongRef;
  }

  /** A destroyed connection whose descriptor is registered again has been released. */
  lemma ReplacedIsReleased(w: World, c: Cid)
    requires Inv(w) && LingersAlone(w) && c in w.conns && w.conns[c].destroys > 0 && w.conns[c].loop in w.loops
    requires w.conns[c].chan.fd in w.loops[w.conns[c].loop].reg.channels
    ensures !StrongRef(w, c)
  {
    StageOf(w, c);
    var l := w.conns[c].loop;
    assert LoopOk(w, l);
    var d := w.loops[l].reg.channels[w.conns[c].chan.fd];
    assert Owner(w, l, w.conns[c].chan.fd, d);
    StageOf(w, d);
    NothingHolds(w, c);
  }

  // ----- What each step does, by the events of the source -----

  /** A hang-up without input, or a read that finds the end of the stream. */
  predicate Closes(w: World, a: Action, c: Cid) {
    match a
    case StartEvent(l) =>
      && l in w.loops && w.loops[l].phase.Events? && w.loops[l].phase.pending != []
      && w.loops[l].phase.pending[0].c == c
      && w.loops[l].phase.pending[0].hup && !w.loops[l].phase.pending[0].readable
    case HandleRecv(l, eof) => eof && l in w.loops && Guards(w.loops[l].phase, c)
    case _ => false
  }

  predicate RunsClosure(w: World, a: Action, k: Closure) {
    a.RunTask? && a.l in w.loops && w.loops[a.l].phase.Tasks?
    && w.loops[a.l].phase.rest != [] && w.loops[a.l].phase.rest[0] == k
  }

  predicate Drains(w: World, a: Action, c: Cid) {
    a.HandleSend? && a.drained && a.l in w.loops && Guards(w.loops[a.l].phase, c)
  }

  /** What a step makes of one connection: when UP, DOWN and the destroy occur, and what becomes of
      its state and its interest. */
  ghost predicate Effect(w: World, a: Action, c: Cid, v: World) {
    c in w.conns && c in v.conns &&
    var x, y := w.conns[c], v.conns[c];
    var up, down := RunsClosure(w, a, Establish(c)), Closes(w, a, c);
    && y.loop == x.loop && y.chan.fd == x.chan.fd
    && y.ups == x.ups + (if up then 1 else 0)
    && y.downs == x.downs + (if down then 1 else 0)
    && y.destroys == x.destroys + (if RunsClosure(w, a, Destroy(c)) then 1 else 0)
    && y.state == (if up then CONNECTED else if down then DISCONNECTED
                   else if a.ShutdownStore? && a.c == c then DISCONNECTING else x.state)
    && y.chan.events ==
         (if up then Interest(true, x.chan.events.send)
          else if down then Interest(false, false)
          else if a == UserSend(c) && x.state != DISCONNECTED then Interest(x.chan.events.recv, true)
          else if Drains(w, a, c) then Interest(x.chan.events.recv, false)
          else x.chan.events)
  }

  lemma RawEffect(w: World, a: Action, c: Cid)
    requires Enabled(w, a) && c in w.conns && !a.RunTask? && !(a.Accept? && a.c == c)
    ensures Effect(w, a, c, Apply(w, a))
  {
    hide StrongRef, AttachedIn, Reportable, UpdateAsserts, CtlLegal, AfterUpdate, UpdateOp;
  }

  lemma TaskEffect(w: World, l: LoopId, c: Cid)
    requires Enabled(w, RunTask(l)) && c in w.conns
    requires w.loops[l].phase.rest[0] == Destroy(c) ==> w.conns[c].state != CONNECTED
    ensures Effect(w, RunTask(l), c, Apply(w, RunTask(l)))
  {
    hide StrongRef, AttachedIn, Reportable, UpdateAsserts, CtlLegal, AfterUpdate, UpdateOp, RemoveAsserts, AfterRemove;
  }

  /** From every state of a run without revivals, for every step and every connection: UP exactly at
      its establish closure, DOWN exactly at a hang-up without input or the end of its stream,
      the destroy exactly at its destroy closure; state and interest change then, at a store of
      shutdown(), at a send, and when a write event drains it, and at no other time. */
  lemma StepEffect(w: World, acts: seq<Action>, v: World, a: Action, c: Cid)
    requires Init(w) && Runs(w, acts, v) && v.revived == {} && Enabled(v, a) && c in v.conns
    ensures Effect(v, a, c, Apply(v, a))
  {
    hide Inv, Effect, Apply;
    Reached(w, acts, v);
    if a.RunTask? {
      KnowsTask(v, a.l);
      StageOf(v, c);
      TaskEffect(v, a.l, c);
    } else {
      RawEffect(v, a, c);
    }
  }

  /** A new connection: listed, in the loop it was given, watched and up at once in the base loop
      and otherwise still to be established there. */
  lemma AcceptEffect(w: World, acts: seq<Action>, v: World, c: Cid, fd: int, l: LoopId)
    requires Init(w) && Runs(w, acts, v) && v.revived == {} && Enabled(v, Accept(c, fd, l))
    ensures var x := Apply(v, Accept(c, fd, l));
      && c in x.conns && x.list == v.list + {c}
      && x.conns[c].loop == l && x.conns[c].chan.fd == fd && x.conns[c].downs == x.conns[c].destroys == 0
      && (l == BASE ==> x.conns[c].ups == 1 && x.conns[c].state == CONNECTED && x.conns[c].chan.events.recv
                        && fd in x.loops[l].reg.epoll && x.loops[l].reg.epoll[fd] == (c, Interest(true, false)))
      && (l != BASE ==> x.conns[c].ups == 0 && x.loops[l].queue == v.loops[l].queue + [Establish(c)])
  {
    hide StrongRef, AttachedIn, CtlLegal, UpdateAsserts, Inv;
    Reached(w, acts, v);
  }

  /** The closures a step pushes to a loop. */
  function Posted(w: World, a: Action, m: LoopId): seq<Closure> {
    match a
    case Accept(c, _, l) => if m == l && l != BASE then [Establish(c)] else []
    case NotifyClose(l) =>
      if l !in w.loops || !w.loops[l].phase.Events? || w.loops[l].phase.current.None? then []
      else
        var c := w.loops[l].phase.current.value.c;
        if l == BASE && m == BASE then [Destroy(c)] else if l != BASE && m == BASE then [Remove(c)] else []
    case RunTask(l) =>
      if l !in w.loops || !w.loops[l].phase.Tasks? || w.loops[l].phase.rest == [] then []
      else
        var k := w.loops[l].phase.rest[0];
        if k.Remove? && k.c in w.conns && w.conns[k.c].loop == m then [Destroy(k.c)] else []
    case _ => []
  }

  /** Every loop's queue grows by exactly these, at its end, and is emptied by the taking of a batch,
      which runs it in order. */
  lemma QueueEffect(w: World, a: Action, m: LoopId)
    requires Enabled(w, a) && m in w.loops
    ensures m in Apply(w, a).loops
    ensures a != BeginTasks(m) ==> Apply(w, a).loops[m].queue == w.loops[m].queue + Posted(w, a, m)
    ensures a == BeginTasks(m) ==>
      Apply(w, a).loops[m].queue == [] && Apply(w, a).loops[m].phase == Tasks(w.loops[m].queue, [])
  {
    hide StrongRef, AttachedIn, Reportable, UpdateAsserts, CtlLegal, AfterUpdate, RemoveAsserts, AfterRemove;
    assert w.loops[m].queue + [] == w.loops[m].queue;
  }

  /** A thread is between the test and the store of shutdown() only if its test has found the
      connection CONNECTED; which stores and which sends come too late is told by the state. */
  lemma ShutdownEffect(w: World, a: Action, t: Thread, c: Cid)
    requires Enabled(w, a)
    ensures var v := Apply(w, a);
      && ((t, c) in v.checked <==>
            || ((t, c) in w.checked && a != ShutdownStore(t, c))
            || (a == ShutdownTest(t, c) && w.conns[c].state == CONNECTED))
      && (c in v.overtaken <==> c in w.overtaken || (a.ShutdownStore? && a.c == c && w.conns[c].state == DISCONNECTED))
      && (c in v.revived <==>
            || c in w.revived
            || (a == UserSend(c) && w.conns[c].downs > 0 && w.conns[c].state != DISCONNECTED))
  {
    hide StrongRef, Reportable, UpdateAsserts, AfterUpdate, AfterRemove, RemoveAsserts, ChanAfterUpdate, CtlLegal;
  }

  /** A connection leaves the list exactly when the base loop removes it. */
  lemma ListEffect(w: World, a: Action, c: Cid)
    requires Enabled(w, a)
    ensures c in Apply(w, a).list <==>
      || (a.Accept? && a.c == c)
      || (c in w.list && !RunsClosure(w, a, Remove(c)) && !(a == NotifyClose(BASE) && Guards(w.loops[BASE].phase, c)))
  {
    hide StrongRef, AttachedIn, Reportable, UpdateAsserts, CtlLegal, AfterUpdate, RemoveAsserts, AfterRemove;
  }

  /** The dispatch of a report: with a hang-up and no input the connection is closed at once; input
      is read, and only then, or without it, is write readiness handled. */
  lemma DispatchExactly(w: World, l: LoopId)
    requires Enabled(w, StartEvent(l))
    ensures var e := w.loops[l].phase.pending[0]; var v := Apply(w, StartEvent(l));
      && (e.readable ==> v.conns == w.conns && forall eof: bool :: Enabled(v, HandleRecv(l, eof)))
      && (e.hup && !e.readable ==>
            v.conns[e.c].downs == w.conns[e.c].downs + 1 && (BASE in w.loops ==> Enabled(v, NotifyClose(l))))
      && (!e.hup && !e.readable ==> v.conns == w.conns)
      && (!e.hup && !e.readable && e.writable ==> forall drained: bool :: Enabled(v, HandleSend(l, drained)))
      && (!e.hup && !e.readable && !e.writable ==> Enabled(v, EndEvent(l)))
      && v.loops[l].phase.pending == w.loops[l].phase.pending[1..] && Guards(v.loops[l].phase, e.c)
  {
    hide StrongRef, AttachedIn, Reportable, UpdateAsserts, CtlLegal, AfterUpdate;
  }

  /** After the read: at the end of the stream the removal is next; otherwise, and after a removal,
      write readiness if it was reported. */
  lemma DispatchGoesOn(w: World, l: LoopId, a: Action)
    requires Enabled(w, a) && BASE in w.loops
    requires a == NotifyClose(l) || (a.HandleRecv? && a.l == l)
    ensures var h := w.loops[l].phase.current.value; var v := Apply(w, a);
      && (a == HandleRecv(l, true) ==> Enabled(v, NotifyClose(l)))
      && (a != HandleRecv(l, true) && (a.HandleRecv? || !h.readable) && h.writable ==>
            forall drained: bool :: Enabled(v, HandleSend(l, drained)))
      && (a != HandleRecv(l, true) && (a.HandleRecv? || !h.readable) && !h.writable ==> Enabled(v, EndEvent(l)))
  {
    hide StrongRef, AttachedIn, Reportable, UpdateAsserts, CtlLegal, AfterUpdate;
  }

  // ----- What goes wrong after that -----

  lemma RunsSnoc(w: World, acts: seq<Action>, v: World, a: Action) returns (acts': seq<Action>)
    requires Runs(w, acts, v) && Enabled(v, a)
    ensures acts' == acts + [a] && Runs(w, acts', Apply(v, a))
    decreases |acts|
  {
    acts' := acts + [a];
    hide Enabled, Apply;
    if acts == [] {
      assert acts'[1..] == [];
      assert Runs(Apply(w, a), [], Apply(v, a));
    } else {
      var later := RunsSnoc(Apply(w, acts[0]), acts[1..], v, a);
      assert acts'[1..] == later;
    }
  }

  /** What the send does: the closed channel is watched again, for its own connection. */
  lemma RevivedIsWatched(w: World, c: Cid)
    requires Enabled(w, UserSend(c)) && Reviving(w, UserSend(c)) && Down(w.conns[c]) && !w.conns[c].chan.state.ADD?
    ensures var v := Apply(w, UserSend(c)); var l := w.conns[c].loop; var fd := w.conns[c].chan.fd;
      && v.conns.Keys == w.conns.Keys && v.loops.Keys == w.loops.Keys && l in v.loops
      && v.conns[c].state == DISCONNECTING && v.conns[c].loop == l && v.conns[c].downs == w.conns[c].downs
      && v.conns[c].chan.events.send
      && fd in v.loops[l].reg.epoll && v.loops[l].reg.epoll[fd].0 == c
      && v.conns[c].chan.fd == fd
      && v.loops[l].phase == w.loops[l].phase && v.loops[l].queue == w.loops[l].queue
      && (forall d <- w.conns :: d != c ==> v.conns[d] == w.conns[d])
  {
    hide StrongRef, AttachedIn, CtlLegal, UpdateAsserts;
  }

  lemma DestroyWatchedFails(w: World, l: LoopId, c: Cid)
    requires Enabled(w, RunTask(l)) && w.loops[l].phase.rest[0] == Destroy(c)
    requires w.conns[c].state == DISCONNECTING && w.conns[c].chan.events.send
    ensures !Apply(w, RunTask(l)).ok
  {
    hide StrongRef, AttachedIn, CtlLegal;
  }

  /** A revived connection fails the assertion in Channel::remove when its destroy closure runs. */
  lemma RevivedDestroyFails(w: World, acts: seq<Action>, v: World, l: LoopId)
    requires Init(w) && Runs(w, acts, v) && v.revived == {}
    requires l in v.loops && v.loops[l].phase.Tasks? && v.loops[l].phase.rest != [] && v.loops[l].phase.rest[0].Destroy?
    requires Reviving(v, UserSend(v.loops[l].phase.rest[0].c))
    ensures var a := UserSend(v.loops[l].phase.rest[0].c);
      Enabled(v, a) && Enabled(Apply(v, a), RunTask(l)) && !Apply(Apply(v, a), RunTask(l)).ok
  {
    Reached(w, acts, v);
    KnowsTask(v, l);
    var c := v.loops[l].phase.rest[0].c;
    StageOf(v, c);
    hide Inv, Apply, Init, Runs;
    assert v.conns[c].ups > 0 && v.conns[c].loop == l;
    SendEnabled(v, c, l);
    hide StageFacts, Reviving;
    RevivedIsWatched(v, c);
    var v1 := Apply(v, UserSend(c));
    TaskEnabled(v1, l, c);
    hide Enabled;
    DestroyWatchedFails(v1, l, c);
  }

  lemma SendEnabled(w: World, c: Cid, l: LoopId)
    requires c in w.conns && w.conns[c].ups > 0 && w.conns[c].loop == l && l in w.loops && w.loops[l].phase.Tasks?
    ensures Enabled(w, UserSend(c))
  {
  }

  lemma TaskEnabled(w: World, l: LoopId, c: Cid)
    requires l in w.loops && w.loops[l].phase.Tasks?
    requires w.loops[l].phase.rest != [] && w.loops[l].phase.rest[0] == Destroy(c)
    requires c in w.conns && w.conns[c].loop == l
    ensures Enabled(w, RunTask(l))
  {
  }

  lemma HangUpCloses(w: World, c: Cid, l: LoopId) returns (later: seq<Action>, x: World)
    requires l in w.loops && w.loops[l].phase.Polling? && c in w.conns && w.conns[c].loop == l
    requires w.conns[c].chan.fd in w.loops[l].reg.epoll && w.loops[l].reg.epoll[w.conns[c].chan.fd].0 == c
    ensures Runs(w, later, x) && c in x.conns && x.conns[c].downs == w.conns[c].downs + 1
  {
    hide StrongRef, AttachedIn, UpdateAsserts, CtlLegal, AfterUpdate;
    var e := Event(c, true, false, false);
    assert Reports(w.loops[l].reg.epoll[w.conns[c].chan.fd], e);
    assert Reportable(w, l, e);
    var w1 := Apply(w, Poll(l, [e]));
    hide Reportable;
    x := Apply(w1, StartEvent(l));
    later := RunsSnoc(w, [], w, Poll(l, [e]));
    later := RunsSnoc(w, later, w1, StartEvent(l));
  }

  lemma PhaseEnds(w: World, l: LoopId)
    requires l in w.loops && w.loops[l].phase.Tasks? && w.loops[l].phase.rest == []
    ensures Enabled(w, EndTasks(l))
    ensures var v := Apply(w, EndTasks(l)); v.conns == w.conns && v.loops == w.loops[l := w.loops[l].(phase := Polling)]
  {
  }

  /** A revived connection that is not destroyed yet can be closed again: the kernel reports a
      hang-up for it, and there is a second DOWN. */
  lemma RevivedClosesAgain(w: World, acts: seq<Action>, v: World, c: Cid) returns (later: seq<Action>, x: World)
    requires Init(w) && Runs(w, acts, v) && v.revived == {} && Reviving(v, UserSend(c))
    requires v.conns[c].loop in v.loops
    requires v.loops[v.conns[c].loop].phase.Tasks? && v.loops[v.conns[c].loop].phase.rest == []
    ensures Runs(v, later, x) && c in x.conns && x.conns[c].downs == 2
  {
    hide Inv, Apply, Enabled, Runs, Init, StageFacts;
    Reached(w, acts, v);
    ClosedFacts(v, c);
    var l := v.conns[c].loop;
    SendEnabled(v, c, l);
    var v1 := Apply(v, UserSend(c));
    RevivedIsWatched(v, c);
    PhaseEnds(v1, l);
    var v2 := Apply(v1, EndTasks(l));
    later, x := HangUpCloses(v2, c, l);
    RunsCons(v1, EndTasks(l), later, x);
    RunsCons(v, UserSend(c), [EndTasks(l)] + later, x);
    later := [UserSend(c)] + ([EndTasks(l)] + later);
  }

  lemma ClosedFacts(w: World, c: Cid)
    requires Inv(w) && Reviving(w, UserSend(c))
    ensures var cn := w.conns[c]; cn.ups > 0 && cn.downs == 1 && Down(cn) && !cn.chan.state.ADD?
  {
    StageOf(w, c);
  }

  lemma RunsCons(w: World, a: Action, later: seq<Action>, v: World)
    requires Enabled(w, a) && Runs(Apply(w, a), later, v)
    ensures Runs(w, [a] + later, v)
  {
    assert ([a] + later)[1..] == later;
  }

  /** Ownership across loops: a connection whose channel is in some loop's map is in the
      connection list or held by a queued destroy closure, so its descriptor is still its own. */
  lemma OwnershipAcrossLoops(w: World, acts: seq<Action>, v: World, l: LoopId, fd: int)
    requires Init(w) && Runs(w, acts, v) && v.revived == {} && l in v.loops && fd in v.loops[l].reg.channels
    ensures var c := v.loops[l].reg.channels[fd];
      && c in v.conns && v.conns[c].chan.fd == fd && v.conns[c].loop == l
      && StrongRef(v, c)
      && (c in v.list || Destroy(c) in Pending(v.loops[l]))
  {
    Reached(w, acts, v);
    assert LoopOk(v, l);
    var c := v.loops[l].reg.channels[fd];
    assert Owner(v, l, fd, c);
    Referenced(v, c);
    assert ConnOk(v, c);
    assert ClosuresDue(v.conns[c], c, l, Pending(v.loops[l]));
    hide StrongRef;
    assert v.conns[c].stage.DestroyQueued? ==> Pending(v.loops[l])[Destroy(c)] == 1;
  }

  /** The server keeps a strong reference exactly until the connection has been destroyed; after
      that only functors that have run hold it, until their batch is over. */
  lemma ReleasedExactly(w: World, acts: seq<Action>, v: World, c: Cid)
    requires Init(w) && Runs(w, acts, v) && v.revived == {} && c in v.conns
    ensures StrongRef(v, c) <==> v.conns[c].destroys == 0 || Lingers(v, c)
  {
    Reached(w, acts, v);
    assert ConnOk(v, c);
    if v.conns[c].stage.Gone? {
      NothingHolds(v, c);
    } else {
      Referenced(v, c);
    }
  }

  lemma NothingHolds(w: World, c: Cid)
    requires Inv(w) && c in w.conns && w.conns[c].stage.Gone?
    ensures c !in w.list
    ensures forall l <- w.loops, k: Closure :: k.c == c ==> k !in Pending(w.loops[l])
    ensures forall l <- w.loops :: !Guards(w.loops[l].phase, c)
  {
    hide Pending, RegOk, ClosuresKnown, FdsDistinct, Threads;
    assert ConnOk(w, c);
    forall l <- w.loops, k: Closure | k.c == c
      ensures k !in Pending(w.loops[l])
    {
      assert ClosuresDue(w.conns[c], c, l, Pending(w.loops[l]));
    }
    forall l <- w.loops
      ensures !Guards(w.loops[l].phase, c)
    {
      assert LoopOk(w, l);
    }
  }

  /** Teardown discipline: one UP, then at most one DOWN, then at most one destroy, after which
      no loop knows the channel. */
  lemma TeardownDiscipline(w: World, acts: seq<Action>, v: World, c: Cid)
    requires Init(w) && Runs(w, acts, v) && v.revived == {} && c in v.conns
    ensures v.conns[c].destroys <= v.conns[c].downs <= v.conns[c].ups <= 1
    ensures v.conns[c].destroys == 1 ==> forall l <- v.loops :: !AttachedIn(v, l, c)
    ensures v.conns[c].ups == 1 && v.conns[c].destroys == 0 ==> AttachedIn(v, v.conns[c].loop, c)
  {
    Reached(w, acts, v);
    assert ConnOk(v, c);
    forall l <- v.loops | AttachedIn(v, l, c)
      ensures v.conns[c].stage.Attached()
    {
      assert LoopOk(v, l);
      assert Owner(v, l, v.conns[c].chan.fd, c);
    }
  }

  lemma DestroysNothing(w: World, a: Action, c: Cid)
    requires Enabled(w, a) && c in w.conns && !a.RunTask?
    ensures c in Apply(w, a).conns && Apply(w, a).conns[c].destroys == w.conns[c].destroys
  {
    hide StrongRef, AttachedIn, Reportable, UpdateAsserts, CtlLegal, AfterUpdate;
  }

  lemma TaskDestroysOnly(w: World, l: LoopId, c: Cid)
    requires Enabled(w, RunTask(l)) && c in w.conns && w.loops[l].phase.rest[0] != Destroy(c)
    ensures Apply(w, RunTask(l)).conns[c].destroys == w.conns[c].destroys
  {
    hide UpdateAsserts, CtlLegal, AfterUpdate, RemoveAsserts, AfterRemove;
  }

  /** The step that destroys a connection runs a closure of that connection's own loop. */
  lemma DestroyedOnlyInTaskPhase(w: World, acts: seq<Action>, v: World, a: Action, c: Cid)
    requires Init(w) && Runs(w, acts, v) && v.revived == {} && Enabled(v, a) && c in v.conns
    requires c in Apply(v, a).conns && Apply(v, a).conns[c].destroys != v.conns[c].destroys
    ensures a == RunTask(v.conns[c].loop) && v.loops[v.conns[c].loop].phase.Tasks?
  {
    hide Inv, Apply;
    Reached(w, acts, v);
    if a.RunTask? {
      KnowsTask(v, a.l);
      if v.loops[a.l].phase.rest[0] != Destroy(c) {
        TaskDestroysOnly(v, a.l, c);
      }
    } else {
      DestroysNothing(v, a, c);
    }
  }

  /** In the middle of an event batch: every connection with a report still to be handled, and
      the one whose event is being handled, is registered in this loop, not destroyed and held. */
  lemma EventsReachTheLiving(w: World, acts: seq<Action>, v: World, l: LoopId, c: Cid)
    requires Init(w) && Runs(w, acts, v) && v.revived == {} && l in v.loops && v.loops[l].phase.Events?
    requires (exists e <- v.loops[l].phase.pending :: e.c == c) || Guards(v.loops[l].phase, c)
    ensures c in v.conns && v.conns[c].loop == l && v.conns[c].destroys == 0
    ensures AttachedIn(v, l, c) && StrongRef(v, c)
  {
    Reached(w, acts, v);
    assert LoopOk(v, l);
    var p := v.loops[l].phase;
    if Guards(p, c) {
      assert HandlingOk(v, l, p.current.value);
    } else {
      var i :| 0 <= i < |p.pending| && p.pending[i].c == c;
      assert UpIn(v, l, p.pending[i].c);
    }
    assert ConnOk(v, c);
    Referenced(v, c);
  }

  /** The registration agreement, for every loop at every moment: the map holds exactly the
      channels in state ADD or DELETE, the kernel watches exactly those in ADD, with their own
      interest and their own channel behind it. */
  lemma RegistrationAgreement(w: World, acts: seq<Action>, v: World, l: LoopId, c: Cid)
    requires Init(w) && Runs(w, acts, v) && v.revived == {} && l in v.loops && c in v.conns && v.conns[c].loop == l
    requires !v.conns[c].chan.state.NEW? || v.conns[c].destroys == 0
    ensures var ch := v.conns[c].chan; var reg := v.loops[l].reg;
      && (AttachedIn(v, l, c) <==> !ch.state.NEW?)
      && (ch.fd in reg.epoll <==> ch.state.ADD?)
      && (ch.state.ADD? ==> reg.epoll[ch.fd] == (c, ch.events))
  {
    Reached(w, acts, v);
    assert ConnOk(v, c);
    Knows(v, c);
  }

  /** When all loops are idle, nothing is half torn down: each connection is listed, registered
      and not closed, or it has been destroyed, is in no map and is held by nothing. */
  lemma IdleMeansSettled(w: World, acts: seq<Action>, v: World, c: Cid)
    requires Init(w) && Runs(w, acts, v) && v.revived == {} && c in v.conns
    requires forall l <- v.loops :: v.loops[l].phase.Polling? && v.loops[l].queue == []
    ensures c in v.list <==> v.conns[c].downs == 0
    ensures c in v.list ==> v.conns[c].ups == 1 && v.conns[c].chan.state.ADD? && AttachedIn(v, v.conns[c].loop, c)
    ensures c !in v.list ==> v.conns[c].destroys == 1 && !StrongRef(v, c)
  {
    hide Inv, Runs, Init, StrongRef;
    Reached(w, acts, v);
    WorldOk(v);
    NothingDue(v, c);
    if v.conns[c].stage.Gone? {
      NothingHolds(v, c);
      IdleHoldsNothing(v, c);
    }
  }

  lemma IdleHoldsNothing(w: World, c: Cid)
    requires c !in w.list
    requires forall l <- w.loops :: w.loops[l].phase.Polling? && w.loops[l].queue == []
    ensures !StrongRef(w, c)
  {
    forall l <- w.loops
      ensures Pending(w.loops[l]) == multiset{}
    {
    }
  }

  /** Where no closure is pending, every connection is up or gone. */
  lemma NothingDue(w: World, c: Cid)
    requires Inv(w) && c in w.conns && BASE in w.loops
    requires forall l <- w.loops :: w.loops[l].phase.Polling? && w.loops[l].queue == []
    ensures var cn := w.conns[c];
      && (cn.stage.Up? || cn.stage.Gone?) && (c in w.list <==> cn.stage.Up?)
      && (cn.stage.Up? ==> AttachedIn(w, cn.loop, c))
      && StageFacts(cn)
  {
    hide LoopOk, FdsDistinct, Threads, AttachedIn, StageFacts;
    assert ConnOk(w, c);
    var cn := w.conns[c];
    assert Pending(w.loops[cn.loop]) == multiset{} && Pending(w.loops[BASE]) == multiset{};
    hide Inv;
    assert ClosuresDue(cn, c, cn.loop, Pending(w.loops[cn.loop]));
    assert ClosuresDue(cn, c, BASE, Pending(w.loops[BASE]));
    assert Due(cn, c, cn.loop)[Establish(c)] == 0 && Due(cn, c, cn.loop)[Destroy(c)] == 0;
    assert Due(cn, c, BASE)[Remove(c)] == 0;
  }

  /** No loop is ever stuck, so none of the conditions on its steps is ever in the way: some
      step of its own thread is always possible. */
  lemma LoopNeverStuck(w: World, acts: seq<Action>, v: World, l: LoopId) returns (a: Action)
    requires Init(w) && Runs(w, acts, v) && v.revived == {} && l in v.loops
    ensures Enabled(v, a) && !a.Accept? && !a.UserSend? && !a.ShutdownTest? && !a.ShutdownStore? && a.l == l
  {
    Reached(w, acts, v);
    WorldOk(v);
    var p := v.loops[l].phase;
    if p.Polling? {
      a := Poll(l, []);
    } else if p.Tasks? {
      a := if p.rest == [] then EndTasks(l) else RunTask(l);
      if p.rest != [] {
        KnowsTask(v, l);
        Knows(v, p.rest[0].c);
      }
    } else if p.current.Some? {
      assert LoopOk(v, l);
      var h := p.current.value;
      a := if h.closing then NotifyClose(l) else if h.readable then HandleRecv(l, false)
           else if h.writable then HandleSend(l, false) else EndEvent(l);
    } else {
      a := if p.pending == [] then BeginTasks(l) else StartEvent(l);
      if p.pending != [] {
        KnowsPending(v, l);
      }
    }
  }
}
