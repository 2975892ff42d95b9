/**
 Runs in which a store of shutdown() comes after the close of its connection: another thread has
 tested the state before. By itself that is harmless; a send on the connection afterwards makes it
 close again, fails the assertion of its removal, or takes a descriptor away from a newcomer.
 */
module LateShutdown {
  import opened Common
  import opened Registration
  import opened ConnectionLifetime

  ghost predicate Leads(w: World, a: Action, v: World) {
    Enabled(w, a) && Apply(w, a) == v
  }

  /** A chain of steps is a run. */
  lemma {:induction false} ChainRuns(ws: seq<World>, acts: seq<Action>)
    requires |ws| == |acts| + 1 && forall i | 0 <= i < |acts| :: Leads(ws[i], acts[i], ws[i + 1])
    ensures Runs(ws[0], acts, ws[|acts|])
    decreases |acts|
  {
    hide Enabled, Apply;
    if acts != [] {
      assert Leads(ws[0], acts[0], ws[1]);
      forall i | 0 <= i < |acts| - 1
        ensures Leads(ws[1..][i], acts[1..][i], ws[1..][i + 1])
      {
        assert Leads(ws[i + 1], acts[i + 1], ws[i + 2]);
      }
      ChainRuns(ws[1..], acts[1..]);
    }
  }

  lemma {:induction false} RunsJoin(w: World, a: seq<Action>, m: World, b: seq<Action>, v: World)
    requires Runs(w, a, m) && Runs(m, b, v)
    ensures Runs(w, a + b, v)
    decreases |a|
  {
    hide Enabled, Apply;
    if a == [] {
      assert a + b == b;
    } else {
      assert (a + b)[1..] == a[1..] + b;
      RunsJoin(Apply(w, a[0]), a[1..], m, b, v);
    }
  }

  // ----- The worlds -----

  const NOTHING: Tables<Cid> := Tables(map[], map[])
  const WATCHED: Tables<Cid> := Tables(map[3 := 0], map[3 := (0, Interest(true, false))])
  const UNWATCHED: Tables<Cid> := Tables(map[3 := 0], map[])
  const REVIVED: Tables<Cid> := Tables(map[3 := 0], map[3 := (0, Interest(false, true))])

  /** The connection with descriptor 3 in loop 1, from its making to its end. */
  const MADE := Conn(1, CONNECTING, Chan(3, NONE, NEW), Created, 0, 0, 0)
  const OPEN := Conn(1, CONNECTED, Chan(3, Interest(true, false), ADD), Up, 1, 0, 0)
  const CLOSED := Conn(1, DISCONNECTED, Chan(3, NONE, DELETE), Closing, 1, 1, 0)
  const SHUT := Conn(1, DISCONNECTED, Chan(3, NONE, DELETE), RemoveQueued, 1, 1, 0)
  const LATE := Conn(1, DISCONNECTING, Chan(3, NONE, DELETE), RemoveQueued, 1, 1, 0)
  const DUE := Conn(1, DISCONNECTING, Chan(3, NONE, DELETE), DestroyQueued, 1, 1, 0)
  const GONE := Conn(1, DISCONNECTING, Chan(3, NONE, NEW), Gone, 1, 1, 1)
  const UNDEAD := Conn(1, DISCONNECTING, Chan(3, Interest(false, true), ADD), Gone, 1, 1, 1)

  const IN_BATCH := Events([], None)
  const HANG_UP := Event(0, true, false, false)

  function Two(lp0: Loop, lp1: Loop): map<LoopId, Loop> {
    map[0 := lp0, 1 := lp1]
  }

  function Single(cn: Conn, lp0: Loop, lp1: Loop, checked: set<(Thread, Cid)>, overtaken: set<Cid>): World {
    World(map[0 := cn], if cn.stage.Listed() then {0} else {}, Two(lp0, lp1), true, checked, overtaken, {})
  }

  function Base(phase: Phase): Loop {
    Loop(NOTHING, [], phase)
  }

  const TOLD := Loop(NOTHING, [Remove(0)], IN_BATCH)

  /** The ends of the parts of the runs. */
  const AT_OPEN := Single(OPEN, Base(IN_BATCH), Loop(WATCHED, [], Polling), {}, {})
  const AT_STORE := Single(LATE, TOLD, Loop(UNWATCHED, [], Tasks([], [])), {}, {0})
  const AT_DESTROY := Single(DUE, Base(Tasks([], [Remove(0)])), Loop(UNWATCHED, [], Tasks([Destroy(0)], [])), {}, {0})
  const AT_END := World(map[0 := UNDEAD], {}, Two(Base(Polling), Loop(REVIVED, [], Polling)), true, {}, {0}, {0})

  const START := World(map[], {}, Two(Base(Polling), Base(Polling)), true, {}, {}, {})

  // ----- A late store -----

  /** The connection is accepted and established. */
  const OPENING := [Poll(0, []), Accept(0, 3, 1), Poll(1, []), BeginTasks(1), RunTask(1), EndTasks(1)]

  const OPENED := [
    START,
    START.(loops := Two(Base(IN_BATCH), Base(Polling))),
    Single(MADE, Base(IN_BATCH), Loop(NOTHING, [Establish(0)], Polling), {}, {}),
    Single(MADE, Base(IN_BATCH), Loop(NOTHING, [Establish(0)], IN_BATCH), {}, {}),
    Single(MADE, Base(IN_BATCH), Base(Tasks([Establish(0)], [])), {}, {}),
    Single(OPEN, Base(IN_BATCH), Loop(WATCHED, [], Tasks([], [Establish(0)])), {}, {}),
    AT_OPEN]

  lemma Opening0()
    ensures Leads(OPENED[0], OPENING[0], OPENED[1])
  {
    hide StrongRef;
    var v := Apply(OPENED[0], OPENING[0]);
    assert v.loops == OPENED[1].loops && v.conns == OPENED[1].conns && v.list == OPENED[1].list;
  }

  lemma Opening1()
    ensures Leads(OPENED[1], OPENING[1], OPENED[2])
  {
    hide StrongRef;
    assert [] + [Establish(0)] == [Establish(0)];
    var v := Apply(OPENED[1], OPENING[1]);
    assert v.loops == OPENED[2].loops && v.conns == OPENED[2].conns && v.list == OPENED[2].list;
  }

  lemma Opening2()
    ensures Leads(OPENED[2], OPENING[2], OPENED[3])
  {
    hide StrongRef;
    var v := Apply(OPENED[2], OPENING[2]);
    assert v.loops == OPENED[3].loops && v.conns == OPENED[3].conns && v.list == OPENED[3].list;
  }

  lemma Opening3()
    ensures Leads(OPENED[3], OPENING[3], OPENED[4])
  {
    hide StrongRef;
    var v := Apply(OPENED[3], OPENING[3]);
    assert v.loops == OPENED[4].loops && v.conns == OPENED[4].conns && v.list == OPENED[4].list;
  }

  lemma Opening4()
    ensures Leads(OPENED[4], OPENING[4], OPENED[5])
  {
    hide StrongRef;
    assert [Establish(0)][1..] == [] && [] + [Establish(0)] == [Establish(0)];
    var v := Apply(OPENED[4], OPENING[4]);
    assert v.loops == OPENED[5].loops && v.conns == OPENED[5].conns && v.list == OPENED[5].list;
  }

  lemma Opening5()
    ensures Leads(OPENED[5], OPENING[5], OPENED[6])
  {
    hide StrongRef;
    var v := Apply(OPENED[5], OPENING[5]);
    assert v.loops == OPENED[6].loops && v.conns == OPENED[6].conns && v.list == OPENED[6].list;
  }

  lemma OpeningRuns()
    ensures Runs(START, OPENING, AT_OPEN)
  {
    Opening0();
    Opening1();
    Opening2();
    Opening3();
    Opening4();
    Opening5();
    hide Leads;
    ChainRuns(OPENED, OPENING);
  }

  /** Thread 7 tests, the peer hangs up and the connection is closed, thread 7 stores. */
  const CLOSING := [
    ShutdownTest(7, 0), Poll(1, [HANG_UP]), StartEvent(1), NotifyClose(1), ShutdownStore(7, 0), EndEvent(1),
    BeginTasks(1)]

  function Held(closing: bool): Phase {
    Events([], Some(Handling(0, false, false, closing)))
  }

  const CLOSED_LATE := [
    AT_OPEN,
    Single(OPEN, Base(IN_BATCH), Loop(WATCHED, [], Polling), {(7, 0)}, {}),
    Single(OPEN, Base(IN_BATCH), Loop(WATCHED, [], Events([HANG_UP], None)), {(7, 0)}, {}),
    Single(CLOSED, Base(IN_BATCH), Loop(UNWATCHED, [], Held(true)), {(7, 0)}, {}),
    Single(SHUT, TOLD, Loop(UNWATCHED, [], Held(false)), {(7, 0)}, {}),
    Single(LATE, TOLD, Loop(UNWATCHED, [], Held(false)), {}, {0}),
    Single(LATE, TOLD, Loop(UNWATCHED, [], IN_BATCH), {}, {0}),
    AT_STORE]

  lemma Closing0()
    ensures Leads(CLOSED_LATE[0], CLOSING[0], CLOSED_LATE[1])
  {
    hide StrongRef;
    var v := Apply(CLOSED_LATE[0], CLOSING[0]);
    assert v.loops == CLOSED_LATE[1].loops && v.conns == CLOSED_LATE[1].conns && v.list == CLOSED_LATE[1].list;
  }

  lemma Closing1()
    ensures Leads(CLOSED_LATE[1], CLOSING[1], CLOSED_LATE[2])
  {
    hide StrongRef;
    assert Reports(WATCHED.epoll[3], HANG_UP);
    var v := Apply(CLOSED_LATE[1], CLOSING[1]);
    assert v.loops == CLOSED_LATE[2].loops && v.conns == CLOSED_LATE[2].conns && v.list == CLOSED_LATE[2].list;
  }

  lemma Closing2()
    ensures Leads(CLOSED_LATE[2], CLOSING[2], CLOSED_LATE[3])
  {
    assert StrongRef(CLOSED_LATE[2], 0);
    hide StrongRef;
    assert [HANG_UP][1..] == [];
    var v := Apply(CLOSED_LATE[2], CLOSING[2]);
    assert v.loops == CLOSED_LATE[3].loops && v.conns == CLOSED_LATE[3].conns && v.list == CLOSED_LATE[3].list;
  }

  lemma Closing3()
    ensures Leads(CLOSED_LATE[3], CLOSING[3], CLOSED_LATE[4])
  {
    hide StrongRef;
    assert [] + [Remove(0)] == [Remove(0)];
    var v := Apply(CLOSED_LATE[3], CLOSING[3]);
    assert v.loops == CLOSED_LATE[4].loops && v.conns == CLOSED_LATE[4].conns && v.list == CLOSED_LATE[4].list;
  }

  lemma Closing4()
    ensures Leads(CLOSED_LATE[4], CLOSING[4], CLOSED_LATE[5])
  {
    hide StrongRef;
    var v := Apply(CLOSED_LATE[4], CLOSING[4]);
    assert v.loops == CLOSED_LATE[5].loops && v.conns == CLOSED_LATE[5].conns && v.list == CLOSED_LATE[5].list;
  }

  lemma Closing5()
    ensures Leads(CLOSED_LATE[5], CLOSING[5], CLOSED_LATE[6])
  {
    hide StrongRef;
    var v := Apply(CLOSED_LATE[5], CLOSING[5]);
    assert v.loops == CLOSED_LATE[6].loops && v.conns == CLOSED_LATE[6].conns && v.list == CLOSED_LATE[6].list;
  }

  lemma Closing6()
    ensures Leads(CLOSED_LATE[6], CLOSING[6], CLOSED_LATE[7])
  {
    hide StrongRef;
    var v := Apply(CLOSED_LATE[6], CLOSING[6]);
    assert v.loops == CLOSED_LATE[7].loops && v.conns == CLOSED_LATE[7].conns && v.list == CLOSED_LATE[7].list;
  }

  /** The late store is reached: a closed connection whose state is DISCONNECTING. */
  lemma LateStoreRuns() returns (acts: seq<Action>)
    ensures Runs(START, acts, AT_STORE)
  {
    Closing0();
    Closing1();
    Closing2();
    Closing3();
    Closing4();
    Closing5();
    Closing6();
    hide Leads;
    ChainRuns(CLOSED_LATE, CLOSING);
    OpeningRuns();
    RunsJoin(START, OPENING, AT_OPEN, CLOSING, AT_STORE);
    acts := OPENING + CLOSING;
  }

  /** A send then makes the connection close a second time. */
  lemma SecondDownRun() returns (acts: seq<Action>, v: World)
    ensures Init(START) && Runs(START, acts, v) && 0 in v.conns && v.conns[0].downs == 2
  {
    var first := LateStoreRuns();
    hide Runs;
    var later;
    later, v := RevivedClosesAgain(START, first, AT_STORE, 0);
    RunsJoin(START, first, AT_STORE, later, v);
    acts := first + later;
  }

  // ----- Up to the destroy closure -----

  const REMOVING := [EndTasks(1), BeginTasks(0), RunTask(0), Poll(1, []), BeginTasks(1)]

  const REMOVED := [
    AT_STORE,
    Single(LATE, TOLD, Loop(UNWATCHED, [], Polling), {}, {0}),
    Single(LATE, Base(Tasks([Remove(0)], [])), Loop(UNWATCHED, [], Polling), {}, {0}),
    Single(DUE, Base(Tasks([], [Remove(0)])), Loop(UNWATCHED, [Destroy(0)], Polling), {}, {0}),
    Single(DUE, Base(Tasks([], [Remove(0)])), Loop(UNWATCHED, [Destroy(0)], IN_BATCH), {}, {0}),
    AT_DESTROY]

  lemma Removing0()
    ensures Leads(REMOVED[0], REMOVING[0], REMOVED[1])
  {
    hide StrongRef;
    var v := Apply(REMOVED[0], REMOVING[0]);
    assert v.loops == REMOVED[1].loops && v.conns == REMOVED[1].conns && v.list == REMOVED[1].list;
  }

  lemma Removing1()
    ensures Leads(REMOVED[1], REMOVING[1], REMOVED[2])
  {
    hide StrongRef;
    var v := Apply(REMOVED[1], REMOVING[1]);
    assert v.loops == REMOVED[2].loops && v.conns == REMOVED[2].conns && v.list == REMOVED[2].list;
  }

  lemma Removing2()
    ensures Leads(REMOVED[2], REMOVING[2], REMOVED[3])
  {
    hide StrongRef;
    assert [Remove(0)][1..] == [] && [] + [Remove(0)] == [Remove(0)] && [] + [Destroy(0)] == [Destroy(0)];
    var v := Apply(REMOVED[2], REMOVING[2]);
    assert v.loops == REMOVED[3].loops && v.conns == REMOVED[3].conns && v.list == REMOVED[3].list;
  }

  lemma Removing3()
    ensures Leads(REMOVED[3], REMOVING[3], REMOVED[4])
  {
    hide StrongRef;
    var v := Apply(REMOVED[3], REMOVING[3]);
    assert v.loops == REMOVED[4].loops && v.conns == REMOVED[4].conns && v.list == REMOVED[4].list;
  }

  lemma Removing4()
    ensures Leads(REMOVED[4], REMOVING[4], REMOVED[5])
  {
    hide StrongRef;
    var v := Apply(REMOVED[4], REMOVING[4]);
    assert v.loops == REMOVED[5].loops && v.conns == REMOVED[5].conns && v.list == REMOVED[5].list;
  }

  lemma RemovingRuns() returns (acts: seq<Action>)
    ensures Runs(START, acts, AT_DESTROY)
  {
    Removing0();
    Removing1();
    Removing2();
    Removing3();
    Removing4();
    hide Leads;
    ChainRuns(REMOVED, REMOVING);
    var first := LateStoreRuns();
    RunsJoin(START, first, AT_STORE, REMOVING, AT_DESTROY);
    acts := first + REMOVING;
  }

  /** A send just before the destroy closure runs fails the assertion in Channel::remove. */
  lemma FailedRemoveRun() returns (acts: seq<Action>, v: World)
    ensures Init(START) && Runs(START, acts, v) && !v.ok
  {
    var first := RemovingRuns();
    hide Runs;
    var w := AT_DESTROY;
    RevivedDestroyFails(START, first, w, 1);
    var w1 := Apply(w, UserSend(0));
    acts := RunsSnoc(START, first, w, UserSend(0));
    acts := RunsSnoc(START, acts, w1, RunTask(1));
    v := Apply(w1, RunTask(1));
  }

  // ----- A newcomer -----

  /** The connection is destroyed and sent on while its functor still holds it; when the batch is
      over its descriptor is closed, and the next connection is given the same one. */
  const REVIVING := [RunTask(1), EndTasks(0), UserSend(0), EndTasks(1)]

  function Ghostly(lp0: Loop, lp1: Loop): World {
    World(map[0 := UNDEAD], {}, Two(lp0, lp1), true, {}, {0}, {0})
  }

  const UNDONE := [
    AT_DESTROY,
    Single(GONE, Base(Tasks([], [Remove(0)])), Base(Tasks([], [Destroy(0)])), {}, {0}),
    Single(GONE, Base(Polling), Base(Tasks([], [Destroy(0)])), {}, {0}),
    Ghostly(Base(Polling), Loop(REVIVED, [], Tasks([], [Destroy(0)]))),
    AT_END]

  const REPLACING := [Poll(0, []), Accept(1, 3, 1), Poll(1, []), BeginTasks(1)]

  function Newcomer(lp1: Loop): World {
    World(map[0 := UNDEAD, 1 := MADE], {1}, Two(Base(IN_BATCH), lp1), true, {}, {0}, {0})
  }

  const REPLACED := [
    AT_END,
    Ghostly(Base(IN_BATCH), Loop(REVIVED, [], Polling)),
    Newcomer(Loop(REVIVED, [Establish(1)], Polling)),
    Newcomer(Loop(REVIVED, [Establish(1)], IN_BATCH)),
    Newcomer(Loop(REVIVED, [], Tasks([Establish(1)], [])))]

  lemma NotHeld()
    ensures !StrongRef(REPLACED[1], 0)
  {
    var lp := Loop(REVIVED, [], Polling);
    assert REPLACED[1] == Ghostly(Base(IN_BATCH), lp);
    HoldsNobody(Base(IN_BATCH), 0);
    HoldsNobody(lp, 0);
    hide Pending, Guards, RanAbout;
  }

  lemma HoldsNobody(lp: Loop, c: Cid)
    requires lp.queue == [] && (lp.phase == Polling || lp.phase == IN_BATCH)
    ensures Pending(lp) == multiset{} && !Guards(lp.phase, c) && !RanAbout(lp.phase, c)
  {
  }

  lemma Reviving0()
    ensures Leads(UNDONE[0], REVIVING[0], UNDONE[1])
  {
    hide StrongRef;
    assert [Destroy(0)][1..] == [] && [] + [Destroy(0)] == [Destroy(0)];
    var v := Apply(UNDONE[0], REVIVING[0]);
    assert v.loops == UNDONE[1].loops && v.conns == UNDONE[1].conns && v.list == UNDONE[1].list;
  }

  lemma Reviving1()
    ensures Leads(UNDONE[1], REVIVING[1], UNDONE[2])
  {
    hide StrongRef;
    var v := Apply(UNDONE[1], REVIVING[1]);
    assert v.loops == UNDONE[2].loops && v.conns == UNDONE[2].conns && v.list == UNDONE[2].list;
  }

  lemma Reviving2()
    ensures Leads(UNDONE[2], REVIVING[2], UNDONE[3])
  {
    hide StrongRef;
    var v := Apply(UNDONE[2], REVIVING[2]);
    assert v.loops == UNDONE[3].loops && v.conns == UNDONE[3].conns && v.list == UNDONE[3].list;
  }

  lemma Reviving3()
    ensures Leads(UNDONE[3], REVIVING[3], UNDONE[4])
  {
    hide StrongRef;
    var v := Apply(UNDONE[3], REVIVING[3]);
    assert v.loops == UNDONE[4].loops && v.conns == UNDONE[4].conns && v.list == UNDONE[4].list;
  }

  lemma Replacing0()
    ensures Leads(REPLACED[0], REPLACING[0], REPLACED[1])
  {
    hide StrongRef;
    var v := Apply(REPLACED[0], REPLACING[0]);
    assert v.loops == REPLACED[1].loops && v.conns == REPLACED[1].conns && v.list == REPLACED[1].list;
  }

  lemma Replacing1()
    ensures Leads(REPLACED[1], REPLACING[1], REPLACED[2])
  {
    hide StrongRef;
    NotHeld();
    assert [] + [Establish(1)] == [Establish(1)];
    var v := Apply(REPLACED[1], REPLACING[1]);
    assert v.loops == REPLACED[2].loops && v.conns == REPLACED[2].conns && v.list == REPLACED[2].list;
  }

  lemma Replacing2()
    ensures Leads(REPLACED[2], REPLACING[2], REPLACED[3])
  {
    hide StrongRef;
    var v := Apply(REPLACED[2], REPLACING[2]);
    assert v.loops == REPLACED[3].loops && v.conns == REPLACED[3].conns && v.list == REPLACED[3].list;
  }

  lemma Replacing3()
    ensures Leads(REPLACED[3], REPLACING[3], REPLACED[4])
  {
    hide StrongRef;
    var v := Apply(REPLACED[3], REPLACING[3]);
    assert v.loops == REPLACED[4].loops && v.conns == REPLACED[4].conns && v.list == REPLACED[4].list;
  }

  lemma UndoneRuns() returns (acts: seq<Action>)
    ensures Runs(START, acts, AT_END)
  {
    Reviving0();
    Reviving1();
    Reviving2();
    Reviving3();
    hide Leads;
    ChainRuns(UNDONE, REVIVING);
    var first := RemovingRuns();
    RunsJoin(START, first, AT_DESTROY, REVIVING, AT_END);
    acts := first + REVIVING;
  }

  lemma EstablishingFails(w: World)
    requires w == REPLACED[4]
    ensures Enabled(w, RunTask(1)) && !Apply(w, RunTask(1)).ok
  {
    hide StrongRef, CtlLegal;
  }

  /** The newcomer, which no thread has ever called shutdown() on, meets the assertion on new
      descriptors: its number is still in the map, for a connection that is destroyed. */
  lemma CollisionRun() returns (acts: seq<Action>, v: World)
    ensures Init(START) && Runs(START, acts, v) && !v.ok && 1 in v.conns && 1 !in v.overtaken
  {
    Replacing0();
    Replacing1();
    Replacing2();
    Replacing3();
    hide Leads;
    ChainRuns(REPLACED, REPLACING);
    var first := UndoneRuns();
    RunsJoin(START, first, AT_END, REPLACING, REPLACED[4]);
    acts := first + REPLACING;
    hide Runs;
    var w := REPLACED[4];
    EstablishingFails(w);
    acts := RunsSnoc(START, acts, w, RunTask(1));
    v := Apply(w, RunTask(1));
    NewcomerStays();
  }

  lemma NewcomerStays()
    requires Enabled(REPLACED[4], RunTask(1))
    ensures 1 in Apply(REPLACED[4], RunTask(1)).conns && Apply(REPLACED[4], RunTask(1)).overtaken == {0}
  {
    hide StrongRef, CtlLegal, UpdateAsserts, AfterUpdate;
  }
}
