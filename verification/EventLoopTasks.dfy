/**
 The task queue of an event loop and its eventfd wakeup: the object's own methods, and the
 protocol they form when other threads push tasks and ask the loop to quit.
 */
module EventLoopTasks {
  import opened Common

  type Thread = nat

  /** A queued functor: when it runs, in the loop thread, it may push tasks and call quit. */
  datatype Task = Task(id: nat, effects: seq<Effect>)
  datatype Effect = Post(task: Task) | RequestQuit

  /** The fields that threads share. The eventfd counter is readable when it is positive. */
  datatype Core = Core(taskQueue: seq<Task>, quit: bool, doingTask: bool, eventfd: nat) {
    function Enqueued(t: Task): Core {
      this.(taskQueue := taskQueue + [t])
    }

    function Signalled(): Core {
      this.(eventfd := eventfd + 1)
    }

    /** pushTask: only the loop thread, outside a task phase, skips the wakeup. */
    function Pushed(t: Task, inLoop: bool): Core {
      if !inLoop || doingTask then Enqueued(t).Signalled() else Enqueued(t)
    }

    function Quitted(): Core {
      if doingTask then this.(quit := true) else this.(quit := true).Signalled()
    }
  }

  function AfterEffect(c: Core, e: Effect): Core {
    match e
    case Post(t) => c.Pushed(t, true)
    case RequestQuit => c.Quitted()
  }

  function AfterEffects(c: Core, es: seq<Effect>): Core
    decreases |es|
  {
    if es == [] then c else AfterEffects(AfterEffect(c, es[0]), es[1..])
  }

  function AfterTasks(c: Core, ts: seq<Task>): Core
    decreases |ts|
  {
    if ts == [] then c else AfterTasks(AfterEffects(c, ts[0].effects), ts[1..])
  }

  /** The state after one doTask with no other thread interfering. */
  function AfterDoTask(c: Core): Core {
    AfterTasks(c.(doingTask := true, taskQueue := []), c.taskQueue).(doingTask := false)
  }

  class EventLoop {
    var taskQueue: seq<Task>
    var quit: bool
    var doingTask: bool
    var eventfd: nat
    ghost var executed: seq<Task>

    constructor ()
      ensures View() == Core([], false, false, 0) && executed == []
    {
      taskQueue, quit, doingTask, eventfd, executed := [], false, false, 0, [];
    }

    ghost function View(): Core
      reads this
    {
      Core(taskQueue, quit, doingTask, eventfd)
    }

    method Wakeup()
      modifies this`eventfd
      ensures eventfd == old(eventfd) + 1
      ensures View() == old(View()).Signalled()
    {
      eventfd := eventfd + 1;
    }

    method HandleRead() returns (value: nat)
      modifies this`eventfd
      ensures value == old(eventfd) && eventfd == 0
    {
      value := eventfd;
      eventfd := 0;
    }

    method Quit()
      modifies this`quit, this`eventfd
      ensures quit && eventfd == old(eventfd) + if doingTask then 0 else 1
      ensures View() == old(View()).Quitted()
    {
      quit := true;
      if !doingTask {
        Wakeup();
      }
    }

    method PushTask(t: Task, inLoopThread: bool)
      modifies this`taskQueue, this`eventfd
      ensures taskQueue == old(taskQueue) + [t]
      ensures eventfd == old(eventfd) + if inLoopThread && !doingTask then 0 else 1
      ensures View() == old(View()).Pushed(t, inLoopThread)
    {
      taskQueue := taskQueue + [t];
      if !inLoopThread || doingTask {
        Wakeup();
      }
    }

    method RunFunctor(t: Task)
      modifies this
      ensures View() == AfterEffects(old(View()), t.effects)
      ensures executed == old(executed) + [t]
    {
      executed := executed + [t];
      var i := 0;
      while i < |t.effects|
        invariant 0 <= i <= |t.effects|
        invariant AfterEffects(View(), t.effects[i..]) == AfterEffects(old(View()), t.effects)
        invariant executed == old(executed) + [t]
      {
        match t.effects[i] {
          case Post(task) => PushTask(task, true);
          case RequestQuit => Quit();
        }
        assert t.effects[i..][1..] == t.effects[i + 1..];
        i := i + 1;
      }
    }

    /** One task phase: it runs what was queued when it started, and nothing else. */
    method DoTask()
      modifies this
      ensures View() == AfterDoTask(old(View()))
      ensures executed == old(executed) + old(taskQueue)
      ensures taskQueue == AllPosts(old(taskQueue)) && !doingTask
      ensures eventfd == old(eventfd) + |AllPosts(old(taskQueue))|
      ensures quit <==> old(quit) || exists t :: t in old(taskQueue) && RequestQuit in t.effects
    {
      DoTaskSummary(View());
      doingTask := true;
      var functors := taskQueue;
      taskQueue := [];
      var i := 0;
      ghost var start := View();
      while i < |functors|
        invariant 0 <= i <= |functors|
        invariant AfterTasks(View(), functors[i..]) == AfterTasks(start, functors)
        invariant executed == old(executed) + functors[..i]
      {
        RunFunctor(functors[i]);
        assert functors[i..][1..] == functors[i + 1..];
        i := i + 1;
      }
      doingTask := false;
    }
  }

  // ----- What one task phase does, in terms of the tasks -----

  function Posts(es: seq<Effect>): seq<Task> {
    if es == [] then [] else (if es[0].Post? then [es[0].task] else []) + Posts(es[1..])
  }

  function AllPosts(ts: seq<Task>): seq<Task> {
    if ts == [] then [] else Posts(ts[0].effects) + AllPosts(ts[1..])
  }

  lemma InCons<T>(x: T, xs: seq<T>, y: T)
    ensures y in [x] + xs <==> y == x || y in xs
  {
  }

  lemma {:induction false} EffectsSummary(c: Core, es: seq<Effect>)
    requires c.doingTask
    ensures AfterEffects(c, es)
         == Core(c.taskQueue + Posts(es), c.quit || RequestQuit in es, true, c.eventfd + |Posts(es)|)
    decreases |es|
  {
    if es != [] {
      var e, later := es[0], es[1..];
      EffectsSummary(AfterEffect(c, e), later);
      InCons(e, later, RequestQuit);
      assert es == [e] + later;
      var first := if e.Post? then [e.task] else [];
      assert c.taskQueue + first + Posts(later) == c.taskQueue + (first + Posts(later));
    }
  }

  lemma {:induction false} TasksSummary(c: Core, ts: seq<Task>)
    requires c.doingTask
    ensures AfterTasks(c, ts) == Core(
      c.taskQueue + AllPosts(ts),
      c.quit || exists t :: t in ts && RequestQuit in t.effects,
      true,
      c.eventfd + |AllPosts(ts)|)
    decreases |ts|
  {
    if ts != [] {
      var first, later := ts[0], ts[1..];
      EffectsSummary(c, first.effects);
      TasksSummary(AfterEffects(c, first.effects), later);
      hide AfterEffects, Posts;
      assert c.taskQueue + Posts(first.effects) + AllPosts(later) == c.taskQueue + AllPosts(ts);
      assert ts == [first] + later;
      assert (exists t :: t in ts && RequestQuit in t.effects)
        <==> RequestQuit in first.effects || exists t :: t in later && RequestQuit in t.effects;
    }
  }

  /** A task phase leaves in the queue exactly what its own tasks posted, in order, with one
      wakeup for each, so the next poll cannot sleep on them. */
  lemma DoTaskSummary(c: Core)
    ensures AfterDoTask(c) == Core(
      AllPosts(c.taskQueue),
      c.quit || exists t :: t in c.taskQueue && RequestQuit in t.effects,
      false,
      c.eventfd + |AllPosts(c.taskQueue)|)
  {
    TasksSummary(c.(doingTask := true, taskQueue := []), c.taskQueue);
  }

  // ----- The protocol -----

  /** Where the loop thread is: at the loop condition, in epoll_wait, in an event batch (with
      or without the wakeup event still to be handled), between setting doingTask_ and taking
      the queue, in a task batch (rest to run, effects of the current task to do), or out. */
  datatype Pc =
    | Check
    | Poll
    | Events(wakeup: bool)
    | Swap
    | Batch(rest: seq<Task>, todo: seq<Effect>)
    | Stopped

  /** A push, as its caller sees it. */
  datatype Entry = Entry(caller: Thread, task: Task)

  const LOOP: Thread := 0

  /**
   owesWakeup: the loop thread has pushed or quit and its wakeup is still to come.
   waking: other threads that have pushed (or quit) and whose wakeup is still to come.
   quitting: other threads that have stored quit_ and not yet looked at doingTask_.
   log, executed: every push so far, and every task that has started to run.
   mark: how many pushes the latest taking of the queue covered.
   */
  datatype Loop = Loop(
    core: Core, pc: Pc, owesWakeup: bool, waking: set<Thread>, quitting: set<Thread>,
    log: seq<Entry>, executed: seq<Task>, mark: nat)
  {
    predicate Idle(t: Thread) {
      t != LOOP && t !in waking && t !in quitting
    }

    function Push(t: Thread, task: Task): Loop {
      this.(core := core.Enqueued(task), log := log + [Entry(t, task)])
    }
  }

  datatype Action =
    // other threads
    | Enqueue(t: Thread, task: Task)
    | StoreQuit(t: Thread)
    | ReadDoing(t: Thread)
    | Wake(t: Thread)
    // the loop thread
    | TestQuit
    | PollTimeout
    | PollError
    | PollReturn(wakeup: bool)
    | ReadEventfd
    | PushInEvent(task: Task)
    | QuitInEvent
    | OwnWakeup
    | BeginTasks
    | TakeQueue
    | RunNext
    | NextEffect
    | EndTasks

  ghost predicate Enabled(s: Loop, a: Action) {
    match a
    case Enqueue(t, _) => s.Idle(t)
    case StoreQuit(t) => s.Idle(t)
    case ReadDoing(t) => t in s.quitting
    case Wake(t) => t in s.waking
    case TestQuit => s.pc.Check?
    case PollTimeout => s.pc.Poll? && s.core.eventfd == 0
    case PollError => s.pc.Poll?
    case PollReturn(wakeup) => s.pc.Poll? && (wakeup ==> s.core.eventfd > 0)
    case ReadEventfd => s.pc == Events(true) && !s.owesWakeup
    case PushInEvent(_) => s.pc.Events? && !s.owesWakeup
    case QuitInEvent => s.pc.Events? && !s.owesWakeup
    case OwnWakeup => s.owesWakeup
    case BeginTasks => s.pc == Events(false) && !s.owesWakeup
    case TakeQueue => s.pc.Swap?
    case RunNext => s.pc.Batch? && s.pc.todo == [] && s.pc.rest != [] && !s.owesWakeup
    case NextEffect => s.pc.Batch? && s.pc.todo != [] && !s.owesWakeup
    case EndTasks => s.pc == Batch([], []) && !s.owesWakeup
  }

  ghost function Apply(s: Loop, a: Action): Loop
    requires Enabled(s, a)
  {
    match a
    case Enqueue(t, task) => s.Push(t, task).(waking := s.waking + {t})
    case StoreQuit(t) => s.(core := s.core.(quit := true), quitting := s.quitting + {t})
    case ReadDoing(t) =>
      s.(quitting := s.quitting - {t}, waking := if s.core.doingTask then s.waking else s.waking + {t})
    case Wake(t) => s.(core := s.core.Signalled(), waking := s.waking - {t})
    case TestQuit => s.(pc := if s.core.quit then Stopped else Poll)
    case PollTimeout => s.(pc := Check)
    case PollError => s.(pc := Stopped)
    case PollReturn(wakeup) => s.(pc := Events(wakeup))
    case ReadEventfd => s.(core := s.core.(eventfd := 0), pc := Events(false))
    case PushInEvent(task) => s.Push(LOOP, task).(owesWakeup := s.core.doingTask)
    case QuitInEvent => s.(core := s.core.(quit := true), owesWakeup := !s.core.doingTask)
    case OwnWakeup => s.(core := s.core.Signalled(), owesWakeup := false)
    case BeginTasks => s.(core := s.core.(doingTask := true), pc := Swap)
    case TakeQueue =>
      s.(core := s.core.(taskQueue := []), pc := Batch(s.core.taskQueue, []), mark := |s.log|)
    case RunNext =>
      s.(pc := Batch(s.pc.rest[1..], s.pc.rest[0].effects), executed := s.executed + [s.pc.rest[0]])
    case NextEffect =>
      var s' := s.(pc := s.pc.(todo := s.pc.todo[1..]));
      (match s.pc.todo[0]
       case Post(task) => s'.Push(LOOP, task).(owesWakeup := s.core.doingTask)
       case RequestQuit => s'.(core := s.core.(quit := true), owesWakeup := !s.core.doingTask))
    case EndTasks => s.(core := s.core.(doingTask := false), pc := Check)
  }

  /** loop() entered with an empty queue. */
  ghost predicate Init(s: Loop) {
    s == Loop(Core([], false, false, s.core.eventfd), Check, false, {}, {}, [], [], 0)
  }

  ghost predicate Runs(s: Loop, acts: seq<Action>, t: Loop)
    decreases |acts|
  {
    if acts == [] then s == t
    else Enabled(s, acts[0]) && Runs(Apply(s, acts[0]), acts[1..], t)
  }

  function Tasks(log: seq<Entry>): (ts: seq<Task>)
    ensures |ts| == |log|
  {
    seq(|log|, i requires 0 <= i < |log| => log[i].task)
  }

  /** The tasks of the current batch that have not started yet. */
  function Rest(pc: Pc): seq<Task> {
    if pc.Batch? then pc.rest else []
  }

  ghost predicate Wakeful(s: Loop) {
    s.core.eventfd > 0 || s.waking != {} || s.owesWakeup
  }

  ghost predicate Inv(s: Loop) {
    Phases(s) && WakeupPending(s) && QuitPending(s) && FifoQueue(s)
  }

  ghost predicate Phases(s: Loop) {
    && (s.core.doingTask <==> s.pc.Swap? || s.pc.Batch?)
    && (s.owesWakeup ==> s.pc.Events? || s.pc.Batch?)
    && LOOP !in s.waking && LOOP !in s.quitting
  }

  /** From the taking of the queue up to the next event batch, queued tasks have a wakeup. */
  ghost predicate WakeupPending(s: Loop) {
    s.core.taskQueue != [] && (s.pc.Check? || s.pc.Poll? || s.pc.Batch?) ==> Wakeful(s)
  }

  ghost predicate QuitPending(s: Loop) {
    s.core.quit && s.pc.Poll? ==> Wakeful(s) || s.quitting != {}
  }

  ghost predicate FifoQueue(s: Loop) {
    && Tasks(s.log) == s.executed + Rest(s.pc) + s.core.taskQueue
    && s.mark <= |s.log|
    && (!s.pc.Stopped? ==> |s.executed| + |Rest(s.pc)| == s.mark)
  }

  lemma TasksSnoc(log: seq<Entry>, e: Entry)
    ensures Tasks(log + [e]) == Tasks(log) + [e.task]
  {
  }

  lemma StepKeepsWakeups(s: Loop, a: Action)
    requires Phases(s) && WakeupPending(s) && QuitPending(s) && Enabled(s, a)
    ensures Phases(Apply(s, a)) && WakeupPending(Apply(s, a)) && QuitPending(Apply(s, a))
  {
    var s' := Apply(s, a);
    match a
    case Enqueue(t, _) => assert t in s'.waking;
    case StoreQuit(t) => assert t in s'.quitting;
    case ReadDoing(t) => assert s.pc.Poll? ==> t in s'.waking;
    case Wake(t) => assert s'.core.eventfd > 0;
    case _ =>
  }

  lemma PushKeepsFifo(s: Loop, t: Thread, task: Task)
    requires FifoQueue(s)
    ensures FifoQueue(s.Push(t, task))
  {
    TasksSnoc(s.log, Entry(t, task));
  }

  lemma StepKeepsFifo(s: Loop, a: Action)
    requires FifoQueue(s) && Phases(s) && Enabled(s, a)
    ensures FifoQueue(Apply(s, a))
  {
    match a
    case Enqueue(t, task) => PushKeepsFifo(s, t, task);
    case PushInEvent(task) => PushKeepsFifo(s, LOOP, task);
    case NextEffect =>
      if s.pc.todo[0].Post? {
        PushKeepsFifo(s, LOOP, s.pc.todo[0].task);
      }
    case TakeQueue => assert s.executed + [] + s.core.taskQueue == s.executed + s.core.taskQueue + [];
    case RunNext => assert s.pc.rest == [s.pc.rest[0]] + s.pc.rest[1..];
    case _ =>
  }

  lemma StepKeepsInv(s: Loop, a: Action)
    requires Inv(s) && Enabled(s, a)
    ensures Inv(Apply(s, a))
  {
    hide Enabled, Apply, Phases, WakeupPending, QuitPending, FifoQueue;
    StepKeepsWakeups(s, a);
    StepKeepsFifo(s, a);
  }

  lemma {:induction false} RunKeepsInv(s: Loop, acts: seq<Action>, t: Loop)
    requires Inv(s) && Runs(s, acts, t)
    ensures Inv(t)
    decreases |acts|
  {
    if acts != [] {
      StepKeepsInv(s, acts[0]);
      RunKeepsInv(Apply(s, acts[0]), acts[1..], t);
    }
  }

  /** No lost wakeup: in every run, whenever the loop thread is at epoll_wait with tasks queued
      or quit requested, the eventfd is readable, or another thread is between its enqueue (or
      its store of quit_) and its wakeup. */
  lemma NoLostWakeup(s: Loop, acts: seq<Action>, t: Loop)
    requires Init(s) && Runs(s, acts, t) && t.pc.Poll?
    ensures t.core.taskQueue != [] ==> t.core.eventfd > 0 || t.waking != {}
    ensures t.core.quit ==> t.core.eventfd > 0 || t.waking != {} || t.quitting != {}
  {
    RunKeepsInv(s, acts, t);
  }

  /** A thread that has stored quit_ while the loop polls does go on to its wakeup. */
  lemma QuitterWillWake(s: Loop, acts: seq<Action>, t: Loop, q: Thread)
    requires Init(s) && Runs(s, acts, t) && t.pc.Poll? && q in t.quitting
    ensures Enabled(t, ReadDoing(q)) && q in Apply(t, ReadDoing(q)).waking
  {
    RunKeepsInv(s, acts, t);
  }

  /** If the loop sleeps in epoll_wait with the eventfd not readable and no other thread in the
      middle of a push or a quit, then every pushed task has run and nobody has asked to quit. */
  lemma SleepingMeansDone(s: Loop, acts: seq<Action>, t: Loop)
    requires Init(s) && Runs(s, acts, t)
    requires t.pc.Poll? && t.core.eventfd == 0 && t.waking == {} && t.quitting == {}
    ensures t.executed == Tasks(t.log) && !t.core.quit
  {
    RunKeepsInv(s, acts, t);
    assert t.executed + [] + [] == t.executed;
  }

  function CallsBy(log: seq<Entry>, t: Thread): seq<Task> {
    if log == [] then []
    else CallsBy(log[..|log| - 1], t) + (if log[|log| - 1].caller == t then [log[|log| - 1].task] else [])
  }

  lemma {:induction false} CallsByPrefix(log: seq<Entry>, n: nat, t: Thread)
    requires n <= |log|
    ensures CallsBy(log[..n], t) <= CallsBy(log, t)
  {
    if n < |log| {
      CallsByPrefix(log[..|log| - 1], n, t);
      assert log[..|log| - 1][..n] == log[..n];
    } else {
      assert log[..n] == log;
    }
  }

  /** The pushes are the tasks started, then the rest of the batch, then the queue; so, for each
      thread, the ones that have started are the first of its own pushes, in its own order. */
  lemma TaskOrder(s: Loop, acts: seq<Action>, t: Loop, thread: Thread)
    requires Init(s) && Runs(s, acts, t)
    ensures Tasks(t.log) == t.executed + Rest(t.pc) + t.core.taskQueue
    ensures |t.executed| <= |t.log|
    ensures var started := t.log[..|t.executed|];
      Tasks(started) == t.executed && CallsBy(started, thread) <= CallsBy(t.log, thread)
  {
    RunKeepsInv(s, acts, t);
    var n := |t.executed|;
    assert Tasks(t.log)[..n] == t.executed;
    assert Tasks(t.log[..n]) == Tasks(t.log)[..n];
    CallsByPrefix(t.log, n, thread);
  }

  /** A batch is a snapshot: when it ends, exactly the pushes made before the queue was taken
      have run; what was pushed since is still queued. */
  lemma BatchIsSnapshot(s: Loop, acts: seq<Action>, t: Loop)
    requires Init(s) && Runs(s, acts, t) && Enabled(t, EndTasks)
    ensures t.mark <= |t.log|
    ensures t.executed == Tasks(t.log[..t.mark]) && t.core.taskQueue == Tasks(t.log[t.mark..])
  {
    RunKeepsInv(s, acts, t);
    assert t.executed + [] + t.core.taskQueue == t.executed + t.core.taskQueue;
    assert Tasks(t.log)[..t.mark] == Tasks(t.log[..t.mark]);
    assert Tasks(t.log)[t.mark..] == Tasks(t.log[t.mark..]);
  }

  // ----- How long a task can wait -----

  lemma {:induction false} RunsSplit(s: Loop, a: seq<Action>, b: seq<Action>, t: Loop) returns (m: Loop)
    requires Runs(s, a + b, t)
    ensures Runs(s, a, m) && Runs(m, b, t)
    decreases |a|
  {
    if a == [] {
      assert a + b == b;
      m := s;
    } else {
      assert (a + b)[1..] == a[1..] + b;
      m := RunsSplit(Apply(s, a[0]), a[1..], b, t);
    }
  }

  lemma StepGrows(s: Loop, a: Action)
    requires Inv(s) && Enabled(s, a)
    ensures var s' := Apply(s, a); s.log <= s'.log && s.executed <= s'.executed && s.mark <= s'.mark
  {
  }

  lemma {:induction false} RunsGrow(s: Loop, acts: seq<Action>, t: Loop)
    requires Inv(s) && Runs(s, acts, t)
    ensures s.log <= t.log && s.executed <= t.executed && s.mark <= t.mark
    decreases |acts|
  {
    if acts != [] {
      var s' := Apply(s, acts[0]);
      StepKeepsInv(s, acts[0]);
      StepGrows(s, acts[0]);
      hide Inv, Enabled, Apply;
      RunsGrow(s', acts[1..], t);
    }
  }

  /** Every task pushed before a taking of the queue has started by the end of a later task
      phase, whatever the other threads do meanwhile. */
  lemma NextBatchRunsIt(s: Loop, before: seq<Action>, inside: seq<Action>, t: Loop)
    requires Inv(s) && Runs(s, (before + [TakeQueue]) + (inside + [EndTasks]), t)
    ensures |t.executed| >= |s.log|
    ensures Tasks(s.log) <= t.executed
  {
    var m := RunsSplit(s, before + [TakeQueue], inside + [EndTasks], t);
    TakeCovers(s, before, m);
    RunKeepsInv(s, before + [TakeQueue], m);
    EndRanMark(m, inside, t);
    RunKeepsInv(m, inside + [EndTasks], t);
    assert Tasks(t.log)[..|s.log|] == Tasks(s.log) by {
      RunsGrow(s, before + [TakeQueue], m);
      RunsGrow(m, inside + [EndTasks], t);
    }
    assert Tasks(t.log)[..|t.executed|] == t.executed;
  }

  lemma RunsLast(s: Loop, acts: seq<Action>, last: Action, t: Loop) returns (m: Loop)
    requires Runs(s, acts + [last], t)
    ensures Runs(s, acts, m) && Enabled(m, last) && t == Apply(m, last)
  {
    m := RunsSplit(s, acts, [last], t);
    assert [last][1..] == [];
    assert Runs(Apply(m, last), [], t);
  }

  lemma TakeCovers(s: Loop, before: seq<Action>, m: Loop)
    requires Inv(s) && Runs(s, before + [TakeQueue], m)
    ensures m.mark >= |s.log|
  {
    var b := RunsLast(s, before, TakeQueue, m);
    RunsGrow(s, before, b);
  }

  lemma EndRanMark(m: Loop, inside: seq<Action>, t: Loop)
    requires Inv(m) && Runs(m, inside + [EndTasks], t)
    ensures |t.executed| >= m.mark
  {
    var e := RunsLast(m, inside, EndTasks, t);
    RunsGrow(m, inside, e);
    RunKeepsInv(m, inside, e);
  }

  // ----- The object's calls are runs of the protocol -----

  /** pushTask in another thread: an enqueue and always a wakeup. */
  lemma PushIsRun(s: Loop, t: Thread, task: Task)
    requires Enabled(s, Enqueue(t, task))
    ensures Runs(s, [Enqueue(t, task), Wake(t)],
                 s.(core := s.core.Pushed(task, false), log := s.log + [Entry(t, task)]))
  {
    var m := Apply(s, Enqueue(t, task));
    RunsOne(s, Enqueue(t, task));
    RunsOne(m, Wake(t));
    assert m.waking - {t} == s.waking;
    RunsJoin(s, [Enqueue(t, task)], m, [Wake(t)], Apply(m, Wake(t)));
    assert [Enqueue(t, task)] + [Wake(t)] == [Enqueue(t, task), Wake(t)];
  }

  /** pushTask in an event: an enqueue without a wakeup; none is owed, as no task phase is on. */
  lemma PushInEventIsRun(c: Loop, acts: seq<Action>, s: Loop, task: Task)
    requires Init(c) && Runs(c, acts, s) && Enabled(s, PushInEvent(task))
    ensures Runs(s, [PushInEvent(task)], s.(core := s.core.Pushed(task, true), log := s.log + [Entry(LOOP, task)]))
    ensures s.core.Pushed(task, true).eventfd == s.core.eventfd
  {
    RunKeepsInv(c, acts, s);
    RunsOne(s, PushInEvent(task));
  }

  /** quit in another thread: the store, the look at doingTask_, and a wakeup outside task phases. */
  lemma QuitIsRun(s: Loop, t: Thread)
    requires Enabled(s, StoreQuit(t))
    ensures var acts := [StoreQuit(t), ReadDoing(t)] + (if s.core.doingTask then [] else [Wake(t)]);
      Runs(s, acts, s.(core := s.core.Quitted()))
  {
    var m := Apply(s, StoreQuit(t));
    var n := Apply(m, ReadDoing(t));
    RunsOne(s, StoreQuit(t));
    RunsOne(m, ReadDoing(t));
    RunsJoin(s, [StoreQuit(t)], m, [ReadDoing(t)], n);
    assert [StoreQuit(t)] + [ReadDoing(t)] == [StoreQuit(t), ReadDoing(t)];
    assert n.quitting == s.quitting;
    if s.core.doingTask {
      assert [StoreQuit(t), ReadDoing(t)] + [] == [StoreQuit(t), ReadDoing(t)];
    } else {
      RunsOne(n, Wake(t));
      assert n.waking - {t} == s.waking;
      RunsJoin(s, [StoreQuit(t), ReadDoing(t)], n, [Wake(t)], Apply(n, Wake(t)));
    }
  }

  /** handleRead: the counter is read to zero, and only then. */
  lemma HandleReadIsRun(s: Loop)
    requires Enabled(s, ReadEventfd)
    ensures Runs(s, [ReadEventfd], s.(core := s.core.(eventfd := 0), pc := Events(false)))
  {
    RunsOne(s, ReadEventfd);
  }

  /** quit in an event: the store and a wakeup. */
  lemma QuitInEventIsRun(c: Loop, acts: seq<Action>, s: Loop)
    requires Init(c) && Runs(c, acts, s) && Enabled(s, QuitInEvent)
    ensures Runs(s, [QuitInEvent, OwnWakeup], s.(core := s.core.Quitted()))
    ensures s.core.Quitted().eventfd == s.core.eventfd + 1
  {
    RunKeepsInv(c, acts, s);
    var m := Apply(s, QuitInEvent);
    RunsOne(s, QuitInEvent);
    RunsOne(m, OwnWakeup);
    RunsJoin(s, [QuitInEvent], m, [OwnWakeup], Apply(m, OwnWakeup));
    assert [QuitInEvent] + [OwnWakeup] == [QuitInEvent, OwnWakeup];
  }

  function EffectActions(es: seq<Effect>): seq<Action> {
    if es == [] then []
    else (if es[0].Post? then [NextEffect, OwnWakeup] else [NextEffect]) + EffectActions(es[1..])
  }

  function BatchActions(ts: seq<Task>): seq<Action> {
    if ts == [] then [] else [RunNext] + EffectActions(ts[0].effects) + BatchActions(ts[1..])
  }

  lemma {:induction false} RunsJoin(s: Loop, a: seq<Action>, m: Loop, b: seq<Action>, t: Loop)
    requires Runs(s, a, m) && Runs(m, b, t)
    ensures Runs(s, a + b, t)
    decreases |a|
  {
    if a == [] {
      assert a + b == b;
    } else {
      RunsJoin(Apply(s, a[0]), a[1..], m, b, t);
      assert (a + b)[1..] == a[1..] + b;
    }
  }

  lemma RunsOne(s: Loop, a: Action)
    requires Enabled(s, a)
    ensures Runs(s, [a], Apply(s, a))
  {
    assert [a][1..] == [];
    assert Runs(Apply(s, a), [], Apply(s, a));
  }

  lemma {:induction false} EffectsAreRun(s: Loop) returns (t: Loop)
    requires s.pc.Batch? && s.core.doingTask && !s.owesWakeup
    ensures Runs(s, EffectActions(s.pc.todo), t)
    ensures t.core == AfterEffects(s.core, s.pc.todo)
    ensures t.pc == Batch(s.pc.rest, []) && t.core.doingTask && !t.owesWakeup && t.executed == s.executed
    decreases |s.pc.todo|
  {
    if s.pc.todo == [] {
      t := s;
    } else {
      var m := Apply(s, NextEffect);
      RunsOne(s, NextEffect);
      if s.pc.todo[0].Post? {
        var m' := Apply(m, OwnWakeup);
        RunsOne(m, OwnWakeup);
        RunsJoin(s, [NextEffect], m, [OwnWakeup], m');
        assert [NextEffect] + [OwnWakeup] == [NextEffect, OwnWakeup];
        t := EffectsAreRun(m');
        RunsJoin(s, [NextEffect, OwnWakeup], m', EffectActions(s.pc.todo[1..]), t);
      } else {
        t := EffectsAreRun(m);
        RunsJoin(s, [NextEffect], m, EffectActions(s.pc.todo[1..]), t);
      }
    }
  }

  lemma {:induction false} BatchIsRun(s: Loop) returns (t: Loop)
    requires s.pc.Batch? && s.pc.todo == [] && s.core.doingTask && !s.owesWakeup
    ensures Runs(s, BatchActions(s.pc.rest), t)
    ensures t.core == AfterTasks(s.core, s.pc.rest)
    ensures t.pc == Batch([], []) && !t.owesWakeup && t.executed == s.executed + s.pc.rest
    decreases |s.pc.rest|
  {
    if s.pc.rest == [] {
      t := s;
    } else {
      var first := s.pc.rest[0];
      var m := Apply(s, RunNext);
      RunsOne(s, RunNext);
      assert m.pc == Batch(s.pc.rest[1..], first.effects) && m.core == s.core;
      hide Apply, Enabled, Runs;
      var m' := EffectsAreRun(m);
      RunsJoin(s, [RunNext], m, EffectActions(first.effects), m');
      t := BatchIsRun(m');
      RunsJoin(s, [RunNext] + EffectActions(first.effects), m', BatchActions(s.pc.rest[1..]), t);
      assert s.pc.rest == [first] + s.pc.rest[1..];
    }
  }

  /** What the method DoTask computes is what the protocol's steps of one undisturbed task
      phase compute: the method's state function and the step relation agree. */
  lemma DoTaskIsRun(s: Loop) returns (t: Loop)
    requires s.pc == Events(false) && !s.owesWakeup && !s.core.doingTask
    ensures Runs(s, [BeginTasks, TakeQueue] + BatchActions(s.core.taskQueue) + [EndTasks], t)
    ensures t.core == AfterDoTask(s.core) && t.executed == s.executed + s.core.taskQueue && t.pc == Check
  {
    var b := Apply(s, BeginTasks);
    var m := Apply(b, TakeQueue);
    RunsOne(s, BeginTasks);
    RunsOne(b, TakeQueue);
    RunsJoin(s, [BeginTasks], b, [TakeQueue], m);
    assert [BeginTasks] + [TakeQueue] == [BeginTasks, TakeQueue];
    var e := BatchIsRun(m);
    RunsJoin(s, [BeginTasks, TakeQueue], m, BatchActions(s.core.taskQueue), e);
    t := Apply(e, EndTasks);
    RunsOne(e, EndTasks);
    RunsJoin(s, [BeginTasks, TakeQueue] + BatchActions(s.core.taskQueue), e, [EndTasks], t);
  }
}
