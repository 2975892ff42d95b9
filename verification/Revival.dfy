/**
 What a send on a closed connection leads to. Once its channel is watched again, its loop cannot
 get back to epoll_wait without running its destroy closure, which fails an assertion, and at
 epoll_wait the kernel can report a hang-up, which closes it a second time.
 */
module Revival {
  import opened Common
  import opened Registration
  import opened ConnectionLifetime

  /** The loop has a report, an event in hand or a closure about d. */
  ghost predicate Concerns(lp: Loop, d: Cid) {
    || (exists k <- lp.queue :: k.c == d)
    || (lp.phase.Tasks? && exists k <- lp.phase.rest :: k.c == d)
    || (lp.phase.Events? && exists e <- lp.phase.pending :: e.c == d)
    || Guards(lp.phase, d)
  }

  predicate Awaits(lp: Loop, k: Closure) {
    k in lp.queue || (lp.phase.Tasks? && k in lp.phase.rest)
  }

  /** Another connection, which the loop can handle without touching c's descriptor. */
  predicate Bystander(w: World, c: Cid, d: Cid) {
    c in w.conns && d in w.conns && w.conns[d].loop in w.loops && w.conns[d].chan.fd != w.conns[c].chan.fd
  }

  predicate InHand(phase: Phase, d: Cid) {
    phase.Events? && ((exists e <- phase.pending :: e.c == d) || Guards(phase, d))
  }

  /** Closed, sent on, and watched: only a destroy closure of c's can be about c, or an event that
      was being handled when it was closed. */
  ghost predicate Armed(w: World, c: Cid, l: LoopId) {
    && l in w.loops && BASE in w.loops && c in w.conns
    && w.conns[c].loop == l && w.conns[c].state == DISCONNECTING && w.conns[c].downs == 1
    && w.conns[c].chan.events.send
    && w.conns[c].chan.fd in w.loops[l].reg.epoll && w.loops[l].reg.epoll[w.conns[c].chan.fd].0 == c
    && Orderly(w, c, l)
  }

  ghost predicate Orderly(w: World, c: Cid, l: LoopId)
    requires l in w.loops && c in w.conns
  {
    var lp := w.loops[l];
    && !Awaits(lp, Establish(c))
    && (lp.phase.Events? ==> forall e <- lp.phase.pending :: e.c != c)
    && (Guards(lp.phase, c) ==> !lp.phase.current.value.readable)
    && (forall d :: d != c && Concerns(lp, d) ==> Bystander(w, c, d))
    && (forall d :: InHand(lp.phase, d) ==> Handled(w, l, d))
  }

  /** A step of the loop that leaves c and its entries alone and finds nothing new to do. */
  ghost predicate Quiet(w: World, v: World, c: Cid, l: LoopId)
    requires l in w.loops && c in w.conns
  {
    var fd := w.conns[c].chan.fd;
    && v.loops.Keys == w.loops.Keys && w.conns.Keys <= v.conns.Keys
    && (forall d <- w.conns :: v.conns[d].chan.fd == w.conns[d].chan.fd && v.conns[d].loop == w.conns[d].loop)
    && v.conns[c] == w.conns[c].(stage := v.conns[c].stage)
    && (fd in w.loops[l].reg.epoll ==>
          fd in v.loops[l].reg.epoll && v.loops[l].reg.epoll[fd] == w.loops[l].reg.epoll[fd])
    && NothingNew(w.loops[l], v.loops[l], c)
  }

  ghost predicate NothingNew(lp: Loop, lp': Loop, c: Cid) {
    && (forall d :: Concerns(lp', d) ==> Concerns(lp, d))
    && (forall d :: InHand(lp'.phase, d) ==> InHand(lp.phase, d))
    && (Awaits(lp', Establish(c)) ==> Awaits(lp, Establish(c)))
    && (lp'.phase.Events? ==> forall e <- lp'.phase.pending :: lp.phase.Events? && e in lp.phase.pending)
    && (Guards(lp'.phase, c) ==>
          || !lp'.phase.current.value.readable
          || (Guards(lp.phase, c) && lp.phase.current.value.readable)
          || (lp.phase.Events? && exists e <- lp.phase.pending :: e.c == c))
  }

  lemma QuietKeepsArmed(w: World, v: World, c: Cid, l: LoopId)
    requires Armed(w, c, l) && Quiet(w, v, c, l)
    ensures Armed(v, c, l)
  {
    hide Concerns, Awaits, Guards, InHand;
    forall d | d != c && Concerns(v.loops[l], d)
      ensures Bystander(v, c, d)
    {
      assert Bystander(w, c, d);
    }
    forall d | InHand(v.loops[l].phase, d)
      ensures Handled(v, l, d)
    {
      assert Handled(w, l, d);
    }
  }

  // ----- The steps of the loop -----

  /** What the loop does next, with nothing read to its end and nothing drained. */
  function NextStep(l: LoopId, p: Phase): Action
    requires !p.Polling?
  {
    if p.Tasks? then (if p.rest == [] then EndTasks(l) else RunTask(l))
    else if p.current.None? then (if p.pending == [] then BeginTasks(l) else StartEvent(l))
    else
      var h := p.current.value;
      if h.closing then NotifyClose(l) else if h.readable then HandleRecv(l, false)
      else if h.writable then HandleSend(l, false) else EndEvent(l)
  }

  lemma NextEnabled(w: World, c: Cid, l: LoopId)
    requires Armed(w, c, l) && !w.loops[l].phase.Polling?
    ensures Enabled(w, NextStep(l, w.loops[l].phase))
  {
    var p := w.loops[l].phase;
    if p.Tasks? && p.rest != [] {
      assert Concerns(w.loops[l], p.rest[0].c);
    } else if p.Events? && p.current.Some? {
      assert InHand(p, p.current.value.c);
    } else if p.Events? && p.pending != [] {
      assert InHand(p, p.pending[0].c);
    }
  }

  /** Only another connection d has changed, and c's entries are as they were. */
  ghost predicate Apart(w: World, v: World, c: Cid, d: Cid)
    requires c in w.conns && d in w.conns
  {
    var fd := w.conns[c].chan.fd;
    && v.loops.Keys == w.loops.Keys && v.conns.Keys == w.conns.Keys
    && (forall x <- w.conns :: x != d ==> v.conns[x] == w.conns[x])
    && v.conns[d].chan.fd == w.conns[d].chan.fd && v.conns[d].loop == w.conns[d].loop
    && (forall m <- w.loops ::
          && v.loops[m].queue == w.loops[m].queue && v.loops[m].phase == w.loops[m].phase
          && (fd in w.loops[m].reg.epoll ==>
                fd in v.loops[m].reg.epoll && v.loops[m].reg.epoll[fd] == w.loops[m].reg.epoll[fd]))
  }

  lemma CloseApart(w: World, c: Cid, d: Cid)
    requires Bystander(w, c, d)
    ensures Apart(w, CloseBegin(w, d), c, d)
  {
    hide CtlLegal, UpdateAsserts;
  }

  lemma EstablishApart(w: World, c: Cid, d: Cid)
    requires Bystander(w, c, d)
    ensures Apart(w, ConnectEstablished(w, d), c, d)
  {
    hide CtlLegal, UpdateAsserts;
  }

  lemma DestroyApart(w: World, c: Cid, d: Cid)
    requires Bystander(w, c, d)
    ensures Apart(w, ConnectDestroyed(w, d), c, d)
  {
    CloseApart(w, c, d);
    hide CtlLegal, UpdateAsserts, RemoveAsserts, CloseBegin;
  }

  lemma ApartThenPhase(w: World, u: World, c: Cid, d: Cid, l: LoopId, p: Phase)
    requires c in w.conns && d in w.conns && c != d && l in w.loops && Apart(w, u, c, d)
    requires NothingNew(w.loops[l], w.loops[l].(phase := p), c)
    ensures Quiet(w, u.WithPhase(l, p), c, l)
  {
    SameNews(w.loops[l], w.loops[l].(phase := p), u.WithPhase(l, p).loops[l], c);
    hide NothingNew;
  }

  lemma PhaseThenApart(w: World, v: World, c: Cid, d: Cid, l: LoopId, p: Phase)
    requires c in w.conns && d in w.conns && c != d && l in w.loops && Apart(w.WithPhase(l, p), v, c, d)
    requires NothingNew(w.loops[l], w.loops[l].(phase := p), c)
    ensures Quiet(w, v, c, l)
  {
    SameNews(w.loops[l], w.loops[l].(phase := p), v.loops[l], c);
    hide NothingNew;
  }

  lemma SameNews(lp: Loop, lp': Loop, lp2: Loop, c: Cid)
    requires NothingNew(lp, lp', c) && lp2.phase == lp'.phase && lp2.queue == lp'.queue
    ensures NothingNew(lp, lp2, c)
  {
    forall d
      ensures Concerns(lp2, d) == Concerns(lp', d)
    {
    }
    hide Concerns;
  }

  lemma StartsNothingNew(lp: Loop, h: Handling, c: Cid)
    requires lp.phase.Events? && lp.phase.pending != [] && h.c == lp.phase.pending[0].c && h.c != c
    ensures NothingNew(lp, lp.(phase := Events(lp.phase.pending[1..], Some(h))), c)
  {
    var p := lp.phase;
    assert p.pending == [p.pending[0]] + p.pending[1..];
    assert p.pending[0] in p.pending;
  }

  lemma StartEventQuiet(w: World, c: Cid, l: LoopId)
    requires Armed(w, c, l) && Enabled(w, StartEvent(l))
    ensures Quiet(w, Apply(w, StartEvent(l)), c, l)
  {
    var p := w.loops[l].phase;
    var e := p.pending[0];
    assert Concerns(w.loops[l], e.c) && e.c != c;
    assert Bystander(w, c, e.c);
    hide StrongRef, AttachedIn, SetInterest, Reportable, CloseBegin, Quiet, NothingNew, Armed, Concerns, Bystander;
    var w' := w.(ok := w.ok && StrongRef(w, e.c) && AttachedIn(w, l, e.c));
    var closes := e.hup && !e.readable;
    var h := Handling(e.c, !closes && e.readable, e.writable, closes);
    StartsNothingNew(w.loops[l], h, c);
    assert Bystander(w', c, e.c) by { BystanderOk(w, w', c, e.c); }
    CloseApart(w', c, e.c);
    ApartOk(w, w', CloseBegin(w', e.c), c, e.c);
    var next := Events(p.pending[1..], Some(h));
    ApartThenPhase(w, if closes then CloseBegin(w', e.c) else w', c, e.c, l, next);
    assert Apply(w, StartEvent(l)) == (if closes then CloseBegin(w', e.c) else w').WithPhase(l, next);
  }

  lemma BystanderOk(w: World, v: World, c: Cid, d: Cid)
    requires Bystander(w, c, d) && v.conns == w.conns && v.loops == w.loops
    ensures Bystander(v, c, d)
  {
  }

  lemma ApartOk(w: World, w': World, v: World, c: Cid, d: Cid)
    requires c in w.conns && d in w.conns && w'.conns == w.conns && w'.loops == w.loops && Apart(w', v, c, d)
    ensures Apart(w, v, c, d) && Apart(w, w', c, d)
  {
  }

  lemma InHandQuiet(w: World, c: Cid, l: LoopId)
    requires Armed(w, c, l) && w.loops[l].phase.Events? && w.loops[l].phase.current.Some?
    requires Enabled(w, NextStep(l, w.loops[l].phase)) && !w.loops[l].phase.current.value.closing
    ensures Quiet(w, Apply(w, NextStep(l, w.loops[l].phase)), c, l)
  {
    hide StrongRef, AttachedIn, SetInterest, Reportable, Orderly;
    var p := w.loops[l].phase;
    assert Guards(p, p.current.value.c);
  }

  lemma NotifyQuiet(w: World, c: Cid, l: LoopId)
    requires Armed(w, c, l) && Enabled(w, NotifyClose(l))
    ensures Quiet(w, Apply(w, NotifyClose(l)), c, l)
  {
    var lp := w.loops[l];
    var d := lp.phase.current.value.c;
    assert Guards(lp.phase, d) && Concerns(lp, d);
    NotifyNothingNew(lp, c);
    hide StrongRef, AttachedIn, Reportable, NothingNew, Orderly, Concerns;
    var v := Apply(w, NotifyClose(l));
    assert v.loops[l].queue == lp.queue || v.loops[l].queue == lp.queue + [Destroy(d)];
    assert v.loops[l].phase == Events(lp.phase.pending, Some(lp.phase.current.value.(closing := false)));
    assert v.loops[l].reg == lp.reg;
  }

  lemma NotifyNothingNew(lp: Loop, c: Cid)
    requires lp.phase.Events? && lp.phase.current.Some?
    ensures var next := Events(lp.phase.pending, Some(lp.phase.current.value.(closing := false)));
      && NothingNew(lp, lp.(phase := next), c)
      && NothingNew(lp, lp.(phase := next, queue := lp.queue + [Destroy(lp.phase.current.value.c)]), c)
  {
    assert Guards(lp.phase, lp.phase.current.value.c);
  }

  lemma TurnQuiet(w: World, c: Cid, l: LoopId, a: Action)
    requires Armed(w, c, l) && Enabled(w, a) && (a == BeginTasks(l) || a == EndTasks(l))
    ensures Quiet(w, Apply(w, a), c, l)
  {
    hide StrongRef, AttachedIn, Reportable, Orderly;
  }

  lemma PopsNothingNew(lp: Loop, c: Cid)
    requires lp.phase.Tasks? && lp.phase.rest != []
    ensures NothingNew(lp, lp.(phase := Tasks(lp.phase.rest[1..], lp.phase.ran + [lp.phase.rest[0]])), c)
  {
    assert lp.phase.rest == [lp.phase.rest[0]] + lp.phase.rest[1..];
  }

  lemma TaskQuiet(w: World, c: Cid, l: LoopId)
    requires Armed(w, c, l) && Enabled(w, RunTask(l)) && w.loops[l].phase.rest[0] != Destroy(c)
    ensures Quiet(w, Apply(w, RunTask(l)), c, l)
  {
    var p := w.loops[l].phase;
    var k := p.rest[0];
    assert Concerns(w.loops[l], k.c) && Awaits(w.loops[l], k);
    assert k.c == c || Bystander(w, c, k.c);
    PopsNothingNew(w.loops[l], c);
    var next := Tasks(p.rest[1..], p.ran + [k]);
    var w' := w.WithPhase(l, next);
    if k.Remove? {
      RemoveQuiet(w, c, l);
    } else {
      assert k.c != c;
      assert Bystander(w', c, k.c);
      hide ConnectEstablished, ConnectDestroyed, StrongRef, Reportable, Quiet, NothingNew, Armed, Concerns, Bystander,
        Apart;
      EstablishApart(w', c, k.c);
      DestroyApart(w', c, k.c);
      PhaseThenApart(w, Apply(w, RunTask(l)), c, k.c, l, next);
    }
  }

  lemma RemoveQuiet(w: World, c: Cid, l: LoopId)
    requires Armed(w, c, l) && Enabled(w, RunTask(l)) && w.loops[l].phase.rest[0].Remove?
    ensures Quiet(w, Apply(w, RunTask(l)), c, l)
  {
    var lp := w.loops[l];
    var k := lp.phase.rest[0];
    RemoveNothingNew(lp, c);
    hide StrongRef, Reportable, NothingNew, Orderly;
    var v := Apply(w, RunTask(l));
    assert v.loops[l].queue == lp.queue || v.loops[l].queue == lp.queue + [Destroy(k.c)];
    assert v.loops[l].phase == Tasks(lp.phase.rest[1..], lp.phase.ran + [k]);
    assert v.loops[l].reg == lp.reg;
  }

  lemma RemoveNothingNew(lp: Loop, c: Cid)
    requires lp.phase.Tasks? && lp.phase.rest != []
    ensures var next := Tasks(lp.phase.rest[1..], lp.phase.ran + [lp.phase.rest[0]]);
      && NothingNew(lp, lp.(phase := next), c)
      && NothingNew(lp, lp.(phase := next, queue := lp.queue + [Destroy(lp.phase.rest[0].c)]), c)
  {
    assert lp.phase.rest == [lp.phase.rest[0]] + lp.phase.rest[1..];
    assert lp.phase.rest[0] in lp.phase.rest;
  }

  // ----- To the end -----

  function PhaseNumber(p: Phase): nat {
    match p case Polling => 0 case Tasks(_, _) => 1 case Events(_, _) => 2
  }

  function Waiting(p: Phase): nat {
    match p case Polling => 0 case Tasks(rest, _) => |rest| case Events(pending, _) => |pending|
  }

  function StillToDo(p: Phase): nat {
    if p.Events? && p.current.Some? then
      var h := p.current.value;
      1 + (if h.closing then 8 else 0) + (if h.readable then 4 else 0) + (if h.writable then 2 else 0)
    else 0
  }

  predicate Nearer(p: Phase, p': Phase) {
    || PhaseNumber(p') < PhaseNumber(p)
    || (PhaseNumber(p') == PhaseNumber(p)
        && (Waiting(p') < Waiting(p) || (Waiting(p') == Waiting(p) && StillToDo(p') < StillToDo(p))))
  }

  lemma NextNearer(w: World, l: LoopId)
    requires l in w.loops && !w.loops[l].phase.Polling? && Enabled(w, NextStep(l, w.loops[l].phase))
    ensures var v := Apply(w, NextStep(l, w.loops[l].phase)); l in v.loops && Nearer(w.loops[l].phase, v.loops[l].phase)
  {
    hide StrongRef, AttachedIn, Reportable, UpdateAsserts, CtlLegal, AfterUpdate, RemoveAsserts, AfterRemove;
  }

  lemma NextQuiet(w: World, c: Cid, l: LoopId)
    requires Armed(w, c, l) && !w.loops[l].phase.Polling? && Enabled(w, NextStep(l, w.loops[l].phase))
    requires w.loops[l].phase.Tasks? && w.loops[l].phase.rest != [] ==> w.loops[l].phase.rest[0] != Destroy(c)
    ensures Quiet(w, Apply(w, NextStep(l, w.loops[l].phase)), c, l)
  {
    var p := w.loops[l].phase;
    hide Armed, Enabled, Apply, Quiet;
    if p.Tasks? {
      if p.rest == [] { TurnQuiet(w, c, l, EndTasks(l)); } else { TaskQuiet(w, c, l); }
    } else if p.current.None? {
      if p.pending == [] { TurnQuiet(w, c, l, BeginTasks(l)); } else { StartEventQuiet(w, c, l); }
    } else if p.current.value.closing {
      NotifyQuiet(w, c, l);
    } else {
      InHandQuiet(w, c, l);
    }
  }

  /** The loop runs on by itself into a failed assertion or a second DOWN. */
  lemma {:induction false} Doom(w: World, c: Cid, l: LoopId) returns (later: seq<Action>, x: World)
    requires Armed(w, c, l)
    ensures Runs(w, later, x) && (!x.ok || (c in x.conns && x.conns[c].downs == 2))
    decreases PhaseNumber(w.loops[l].phase), Waiting(w.loops[l].phase), StillToDo(w.loops[l].phase)
  {
    hide Enabled, Apply, Orderly, Quiet;
    var p := w.loops[l].phase;
    if p.Polling? {
      later, x := HangUpCloses(w, c, l);
    } else {
      var a := NextStep(l, p);
      NextEnabled(w, c, l);
      var v := Apply(w, a);
      if p.Tasks? && p.rest != [] && p.rest[0] == Destroy(c) {
        DestroyWatchedFails(w, l, c);
        later := RunsSnoc(w, [], w, a);
        x := v;
      } else {
        NextQuiet(w, c, l);
        QuietKeepsArmed(w, v, c, l);
        NextNearer(w, l);
        var rest;
        rest, x := Doom(v, c, l);
        RunsCons(w, a, rest, x);
        later := [a] + rest;
      }
    }
  }

  // ----- From any revival -----

  /** What the invariant says about those that a loop has to do with. */
  lemma ConcernedLive(w: World, l: LoopId, d: Cid)
    requires Inv(w) && l in w.loops && Concerns(w.loops[l], d)
    ensures d in w.conns && !w.conns[d].stage.Gone? && w.conns[d].loop in w.loops
    ensures InHand(w.loops[l].phase, d) ==> Handled(w, l, d)
  {
    hide Inv, Pending, ClosuresDue, Due;
    var lp := w.loops[l];
    if k :| k in lp.queue && k.c == d {
      ClosureLive(w, l, k);
    } else if lp.phase.Tasks? && exists k <- lp.phase.rest :: k.c == d {
      var k :| k in lp.phase.rest && k.c == d;
      ClosureLive(w, l, k);
    }
    if InHand(lp.phase, d) {
      EventLive(w, l, d);
    }
    LoopKnown(w, d);
  }

  lemma LoopKnown(w: World, d: Cid)
    requires Inv(w) && d in w.conns
    ensures w.conns[d].loop in w.loops
  {
    assert ConnOk(w, d);
  }

  lemma ClosureLive(w: World, l: LoopId, k: Closure)
    requires Inv(w) && l in w.loops && Awaits(w.loops[l], k)
    ensures TaskFits(w, l, k)
  {
    assert k in Pending(w.loops[l]);
    hide Inv, Pending;
    ClosuresOf(w, l, k);
    DueFits(w, l, k, Pending(w.loops[l]));
  }

  lemma EventLive(w: World, l: LoopId, d: Cid)
    requires Inv(w) && l in w.loops && InHand(w.loops[l].phase, d)
    ensures Handled(w, l, d) && !w.conns[d].stage.Gone?
    ensures w.conns[d].downs > 0 ==> Guards(w.loops[l].phase, d) && !w.loops[l].phase.current.value.readable
    ensures w.conns[d].downs > 0 ==> forall e <- w.loops[l].phase.pending :: e.c != d
  {
    assert LoopOk(w, l);
    var p := w.loops[l].phase;
    if Guards(p, d) {
      assert HandlingOk(w, l, p.current.value);
      StageOf(w, d);
    }
    forall i | 0 <= i < |p.pending| && p.pending[i].c == d
      ensures UpIn(w, l, d) && w.conns[d].downs == 0
    {
      assert UpIn(w, l, p.pending[i].c);
      StageOf(w, d);
    }
  }

  /** A connection that something holds has its descriptor for itself. */
  lemma HeldApart(w: World, c: Cid, d: Cid)
    requires Inv(w) && LingersAlone(w) && c in w.conns && d in w.conns && c != d
    requires StrongRef(w, c) && !w.conns[d].stage.Gone?
    ensures w.conns[c].chan.fd != w.conns[d].chan.fd
  {
    if w.conns[c].stage.Gone? {
      NothingHolds(w, c);
      StageOf(w, d);
      hide Inv;
    } else {
      DistinctFds(w, c, d);
    }
  }

  lemma RevivedIsArmed(w: World, c: Cid)
    requires Inv(w) && LingersAlone(w) && Enabled(w, UserSend(c)) && Reviving(w, UserSend(c)) && StrongRef(w, c)
    ensures Armed(Apply(w, UserSend(c)), c, w.conns[c].loop)
  {
    hide Inv, LingersAlone, StrongRef, Apply, Concerns, InHand, Awaits, StageFacts;
    var l := w.conns[c].loop;
    ClosedFacts(w, c);
    RevivedIsWatched(w, c);
    WorldOk(w);
    var v := Apply(w, UserSend(c));
    SameConcerns(w.loops[l], v.loops[l]);
    forall d | d != c && Concerns(v.loops[l], d)
      ensures Bystander(v, c, d)
    {
      ConcernedLive(w, l, d);
      HeldApart(w, c, d);
    }
    forall d | InHand(v.loops[l].phase, d)
      ensures Handled(v, l, d)
    {
      EventLive(w, l, d);
    }
    NotToEstablish(w, c, l);
    EventsOfClosed(w, c, l);
  }

  lemma SameConcerns(lp: Loop, lp': Loop)
    requires lp'.phase == lp.phase && lp'.queue == lp.queue
    ensures forall d :: Concerns(lp', d) == Concerns(lp, d)
    ensures forall k :: Awaits(lp', k) == Awaits(lp, k)
  {
  }

  lemma NotToEstablish(w: World, c: Cid, l: LoopId)
    requires Inv(w) && l in w.loops && c in w.conns && w.conns[c].downs > 0
    ensures !Awaits(w.loops[l], Establish(c))
  {
    hide Inv;
    StageOf(w, c);
    if Awaits(w.loops[l], Establish(c)) {
      ClosureLive(w, l, Establish(c));
    }
  }

  lemma EventsOfClosed(w: World, c: Cid, l: LoopId)
    requires Inv(w) && l in w.loops && c in w.conns && w.conns[c].downs > 0
    ensures w.loops[l].phase.Events? ==> forall e <- w.loops[l].phase.pending :: e.c != c
    ensures Guards(w.loops[l].phase, c) ==> !w.loops[l].phase.current.value.readable
  {
    hide Inv;
    if InHand(w.loops[l].phase, c) {
      EventLive(w, l, c);
    }
  }

  /** The converse of the discipline: from any state, in any phase of its loop, a send on a closed
      connection that something still holds has a continuation, by steps of that loop and a
      hang-up alone, that fails an assertion or closes the connection a second time. */
  lemma RevivalIsFatal(w: World, acts: seq<Action>, v: World, c: Cid) returns (later: seq<Action>, x: World)
    requires Init(w) && Runs(w, acts, v) && v.revived == {}
    requires Enabled(v, UserSend(c)) && Reviving(v, UserSend(c)) && StrongRef(v, c)
    ensures later != [] && later[0] == UserSend(c) && Runs(v, later, x)
    ensures !x.ok || (c in x.conns && x.conns[c].downs == 2)
  {
    hide Inv, LingersAlone, StrongRef, Armed, Apply, Enabled, Runs, Init;
    Reached(w, acts, v);
    ReachedLingersAlone(w, acts, v);
    RevivedIsArmed(v, c);
    var rest;
    rest, x := Doom(Apply(v, UserSend(c)), c, v.conns[c].loop);
    RunsCons(v, UserSend(c), rest, x);
    later := [UserSend(c)] + rest;
  }
}
