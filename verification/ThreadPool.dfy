/**
 The thread pool: a bounded queue under one mutex, two condition variables with notify_one,
 and a stop protocol. Each step is one critical section (a section ends where the code waits
 or unlocks) or one unlocked read, so threads interleave, barge in and wake spuriously.
 */
module ThreadPool {
  import opened Common

  type Thread = nat
  type Task = nat

  /** A worker: about to test running_, about to enter take, asleep on notEmpty_, woken but
      without the lock yet, running a task, or returned. */
  datatype Worker = Testing | Taking | Asleep | Notified | Executing(task: Task) | Exited

  /** A caller of run: outside, about to lock with a task, asleep on notFull_, or woken. */
  datatype Producer = Outside | Entering(task: Task) | Blocked(task: Task) | Woken(task: Task)

  /** A task with the thread that has called run with it, or that works on it. */
  datatype Call = Call(thread: Thread, task: Task)

  /** accepted and dequeued are the histories of the queue's two ends; late counts what each
      worker dequeued after the stop. calls are the calls of run; each ends in one of inline
      (executed by run itself for lack of workers), taken on, or refused after the stop. took and
      finished are the tasks that workers have dequeued and executed. */
  datatype Pool = Pool(
    maxQueueSize: nat, running: bool, queue: seq<Task>,
    workers: map<Thread, Worker>, producers: map<Thread, Producer>,
    accepted: seq<Task>, dequeued: seq<Task>, late: map<Thread, nat>,
    calls: seq<Call>, inline: seq<Call>, taken: seq<Call>, refused: seq<Call>,
    took: seq<Call>, finished: seq<Call>)
  {
    predicate IsFull() {
      maxQueueSize > 0 && |queue| >= maxQueueSize
    }

    ghost predicate IsWorker(w: Thread, pc: Worker) {
      w in workers && workers[w] == pc
    }

    ghost predicate IsProducer(p: Thread, pc: Producer) {
      p in producers && producers[p] == pc
    }

    // The threads a condition variable can choose from, and those it has chosen.

    function AsleepWorkers(): set<Thread> {
      set w | w in workers && workers[w].Asleep?
    }

    function NotifiedWorkers(): set<Thread> {
      set w | w in workers && workers[w].Notified?
    }

    function BlockedProducers(): set<Thread> {
      set p | p in producers && producers[p].Blocked?
    }

    function WokenProducers(): set<Thread> {
      set p | p in producers && producers[p].Woken?
    }

    /** A legal outcome of notify_one: some sleeper if there is one, otherwise nobody. */
    ghost predicate Chooses(choice: Option<Thread>, sleepers: set<Thread>) {
      if sleepers == {} then choice.None? else choice.Some? && choice.value in sleepers
    }

    function SetWorker(w: Thread, pc: Worker): Pool {
      this.(workers := workers[w := pc])
    }

    function SetProducer(p: Thread, pc: Producer): Pool {
      this.(producers := producers[p := pc])
    }

    function NotifyWorker(choice: Option<Thread>): Pool {
      if choice.Some? then SetWorker(choice.value, Notified) else this
    }

    function NotifyProducer(choice: Option<Thread>): Pool {
      if choice.Some? && choice.value in producers && producers[choice.value].Blocked?
      then SetProducer(choice.value, Woken(producers[choice.value].task))
      else this
    }

    function Push(task: Task): Pool {
      this.(queue := queue + [task], accepted := accepted + [task])
    }

    function Pop(w: Thread): Pool
      requires queue != []
    {
      this.(
        queue := queue[1..],
        dequeued := dequeued + [queue[0]],
        took := took + [Call(w, queue[0])],
        late := if running then late else late[w := (if w in late then late[w] else 0) + 1])
    }
  }

  datatype Action =
    | CallRun(p: Thread, task: Task)
    | RunSection(p: Thread, choice: Option<Thread>)
    | WakeProducer(p: Thread)
    | TestRunning(w: Thread)
    | TakeSection(w: Thread, choice: Option<Thread>)
    | FinishTask(w: Thread)
    | WakeWorker(w: Thread)
    | Stop

  ghost predicate Enabled(s: Pool, a: Action) {
    match a
    case CallRun(p, _) => s.IsProducer(p, Outside)
    case RunSection(p, choice) =>
      && p in s.producers && (s.producers[p].Entering? || s.producers[p].Woken?)
      && s.Chooses(choice, if s.running && !s.IsFull() then s.AsleepWorkers() else {})
    case WakeProducer(p) => p in s.BlockedProducers()
    case TestRunning(w) => s.IsWorker(w, Testing)
    case TakeSection(w, choice) =>
      && (s.IsWorker(w, Taking) || s.IsWorker(w, Notified))
      && s.Chooses(choice, if s.queue != [] && s.maxQueueSize > 0 then s.BlockedProducers() else {})
    case FinishTask(w) => w in s.workers && s.workers[w].Executing?
    case WakeWorker(w) => w in s.AsleepWorkers()
    case Stop => true
  }

  function Apply(s: Pool, a: Action): Pool {
    match a
    case CallRun(p, task) =>
      var s' := s.(calls := s.calls + [Call(p, task)]);
      if s.workers == map[] then s'.(inline := s.inline + [Call(p, task)]) else s'.SetProducer(p, Entering(task))
    case RunSection(p, choice) => AfterRunSection(s, p, choice)
    case WakeProducer(p) => s.NotifyProducer(Some(p))
    case TestRunning(w) => s.SetWorker(w, if s.running then Taking else Exited)
    case TakeSection(w, choice) => AfterTakeSection(s, w, choice)
    case FinishTask(w) =>
      if w in s.workers && s.workers[w].Executing?
      then s.SetWorker(w, Testing).(finished := s.finished + [Call(w, s.workers[w].task)]) else s
    case WakeWorker(w) => s.SetWorker(w, Notified)
    case Stop => AfterStop(s)
  }

  /** run, from the (re)acquired lock to the wait or the return. */
  function AfterRunSection(s: Pool, p: Thread, choice: Option<Thread>): Pool {
    if p !in s.producers || s.producers[p].Outside? then s
    else if s.running && s.IsFull() then s.SetProducer(p, Blocked(s.producers[p].task))
    else
      var call := Call(p, s.producers[p].task);
      if !s.running then s.SetProducer(p, Outside).(refused := s.refused + [call])
      else s.(taken := s.taken + [call]).Push(call.task).SetProducer(p, Outside).NotifyWorker(choice)
  }

  /** take, from the (re)acquired lock to the wait or the return. */
  function AfterTakeSection(s: Pool, w: Thread, choice: Option<Thread>): Pool {
    if s.queue == [] && s.running then s.SetWorker(w, Asleep)
    else if s.queue == [] then s.SetWorker(w, Testing)
    else s.Pop(w).SetWorker(w, Executing(s.queue[0])).NotifyProducer(choice)
  }

  function AfterStop(s: Pool): Pool {
    s.(
      running := false,
      workers := map w | w in s.workers :: if s.workers[w].Asleep? then Notified else s.workers[w],
      producers := map p | p in s.producers ::
        if s.producers[p].Blocked? then Woken(s.producers[p].task) else s.producers[p])
  }

  lemma RunEnabled(s: Pool, p: Thread, choice: Option<Thread>)
    requires p in s.producers && (s.producers[p].Entering? || s.producers[p].Woken?)
    requires s.Chooses(choice, if s.running && !s.IsFull() then s.AsleepWorkers() else {})
    ensures Enabled(s, RunSection(p, choice))
  {
  }

  /** What run does, field by field: the caller waits while the queue is full, is refused after the
      stop, or its own task goes to the end of the queue and one sleeping worker, if any, is woken. */
  lemma RunFields(s: Pool, p: Thread, choice: Option<Thread>)
    requires Enabled(s, RunSection(p, choice))
    ensures var t := AfterRunSection(s, p, choice); var task := s.producers[p].task;
      var full := 0 < s.maxQueueSize <= |s.queue|;
      && t.running == s.running && t.maxQueueSize == s.maxQueueSize
      && t.producers == s.producers[p := if s.running && full then Blocked(task) else Outside]
      && t.queue == (if s.running && !full then s.queue + [task] else s.queue)
      && t.workers == (if choice.Some? then s.workers[choice.value := Notified] else s.workers)
      && (choice.Some? ==> s.running && !full && choice.value in s.workers && s.workers[choice.value].Asleep?)
      && (s.running && !full && choice.None? ==> forall w <- s.workers :: !s.workers[w].Asleep?)
  {
    if s.running && !s.IsFull() && choice.None? {
      forall w <- s.workers
        ensures !s.workers[w].Asleep?
      {
        assert w !in s.AsleepWorkers();
      }
    }
  }

  lemma TakeEnabled(s: Pool, w: Thread, choice: Option<Thread>)
    requires s.IsWorker(w, Taking) || s.IsWorker(w, Notified)
    requires s.Chooses(choice, if s.queue != [] && s.maxQueueSize > 0 then s.BlockedProducers() else {})
    ensures Enabled(s, TakeSection(w, choice))
  {
  }

  /** What take does, field by field: a worker sleeps on an empty queue unless stopped, or takes the
      front and wakes one blocked caller, if there is one, of a bounded queue. */
  lemma TakeFields(s: Pool, w: Thread, choice: Option<Thread>)
    requires Enabled(s, TakeSection(w, choice))
    ensures var t := AfterTakeSection(s, w, choice);
      && t.running == s.running && t.maxQueueSize == s.maxQueueSize
      && t.queue == (if s.queue == [] then [] else s.queue[1..])
      && t.workers == s.workers[w :=
           if s.queue != [] then Executing(s.queue[0]) else if s.running then Asleep else Testing]
      && (choice.Some? ==>
            && s.queue != [] && s.maxQueueSize > 0 && choice.value in s.producers && s.producers[choice.value].Blocked?
            && t.producers == s.producers[choice.value := Woken(s.producers[choice.value].task)])
      && (choice.None? ==> t.producers == s.producers)
      && (choice.None? && s.queue != [] && s.maxQueueSize > 0 ==> forall p <- s.producers :: !s.producers[p].Blocked?)
  {
    if choice.None? && s.queue != [] && s.maxQueueSize > 0 {
      forall p <- s.producers
        ensures !s.producers[p].Blocked?
      {
        assert p !in s.BlockedProducers();
      }
    }
  }

  // ----- The object -----

  /** What has happened so far; nothing looks at it. */
  datatype History = History(
    accepted: seq<Task>, dequeued: seq<Task>, late: map<Thread, nat>,
    calls: seq<Call>, inline: seq<Call>, taken: seq<Call>, refused: seq<Call>, took: seq<Call>, finished: seq<Call>)

  class ThreadPool {
    var maxQueueSize: nat
    var running: bool
    var queue: seq<Task>
    var workers: map<Thread, Worker>
    var producers: map<Thread, Producer>
    ghost var past: History

    ghost function View(): Pool
      reads this
    {
      Pool(maxQueueSize, running, queue, workers, producers, past.accepted, past.dequeued, past.late,
           past.calls, past.inline, past.taken, past.refused, past.took, past.finished)
    }

    constructor (maxQueueSize: nat, threads: set<Thread>, callers: set<Thread>)
      ensures Init(View()) && workers.Keys == threads && producers.Keys == callers
      ensures this.maxQueueSize == maxQueueSize
    {
      this.maxQueueSize := maxQueueSize;
      running := true;
      queue := [];
      past := History([], [], map[], [], [], [], [], [], []);
      workers := map w | w in threads :: Testing;
      producers := map p | p in callers :: Outside;
    }

    predicate IsFull()
      reads this
      ensures maxQueueSize == 0 ==> !IsFull()
      ensures maxQueueSize > 0 ==> (IsFull() <==> |queue| >= maxQueueSize)
      ensures IsFull() == View().IsFull()
    {
      maxQueueSize > 0 && |queue| >= maxQueueSize
    }

    /** notEmpty_.notify_one() */
    method NotifyNotEmpty() returns (choice: Option<Thread>)
      modifies this`workers
      ensures old(View()).Chooses(choice, old(View()).AsleepWorkers())
      ensures View() == old(View()).NotifyWorker(choice)
      ensures choice.None? ==> workers == old(workers) && forall w <- workers :: !workers[w].Asleep?
      ensures choice.Some? ==>
        && choice.value in old(workers) && old(workers)[choice.value].Asleep?
        && workers == old(workers)[choice.value := Notified]
    {
      var sleepers := set w | w in workers && workers[w].Asleep?;
      choice := None;
      assert forall w <- workers :: workers[w].Asleep? ==> w in sleepers;
      if sleepers != {} {
        var w :| w in sleepers;
        choice := Some(w);
        workers := workers[w := Notified];
      }
    }

    /** notFull_.notify_one() */
    method NotifyNotFull() returns (choice: Option<Thread>)
      modifies this`producers
      ensures old(View()).Chooses(choice, old(View()).BlockedProducers())
      ensures View() == old(View()).NotifyProducer(choice)
    {
      var sleepers := set p | p in producers && producers[p].Blocked?;
      choice := None;
      if sleepers != {} {
        var p :| p in sleepers;
        choice := Some(p);
        producers := producers[p := Woken(producers[p].task)];
      }
    }

    /** The locked part of run, entered at the call or after a wakeup. */
    method Run(p: Thread) returns (choice: Option<Thread>)
      requires p in producers && (producers[p].Entering? || producers[p].Woken?)
      modifies this
      ensures Enabled(old(View()), RunSection(p, choice))
      ensures View() == Apply(old(View()), RunSection(p, choice))
      // what the caller gets: it waits while the queue is full, is refused after the stop, or
      // its own task goes to the end of the queue and one sleeping worker, if any, is woken
      ensures var task := old(producers)[p].task; var full := 0 < maxQueueSize <= |old(queue)|;
        && running == old(running) && maxQueueSize == old(maxQueueSize)
        && producers == old(producers)[p := if running && full then Blocked(task) else Outside]
        && queue == (if running && !full then old(queue) + [task] else old(queue))
        && workers == (if choice.Some? then old(workers)[choice.value := Notified] else old(workers))
        && (choice.Some? ==> running && !full && choice.value in old(workers) && old(workers)[choice.value].Asleep?)
        && (running && !full && choice.None? ==> forall w <- old(workers) :: !old(workers)[w].Asleep?)
    {
      hide Enabled;
      choice := None;
      var task := producers[p].task;
      if !(!IsFull() || !running) {
        producers := producers[p := Blocked(task)];
      } else if !running {
        producers := producers[p := Outside];
        past := past.(refused := past.refused + [Call(p, task)]);
      } else {
        queue := queue + [task];
        past := past.(accepted := past.accepted + [task], taken := past.taken + [Call(p, task)]);
        producers := producers[p := Outside];
        ghost var pushed := View();
        choice := NotifyNotEmpty();
        assert pushed.AsleepWorkers() == old(View()).AsleepWorkers();
      }
      assert View() == AfterRunSection(old(View()), p, choice);
      hide AfterRunSection;
      RunEnabled(old(View()), p, choice);
      RunFields(old(View()), p, choice);
    }

    /** The front of the queue goes to the worker. */
    method PopFront(w: Thread) returns (front: Task)
      requires queue != [] && w in workers
      modifies this
      ensures front == old(queue)[0]
      ensures View() == old(View()).Pop(w).SetWorker(w, Executing(front))
    {
      front := queue[0];
      var late := past.late;
      past := past.(
        dequeued := past.dequeued + [front],
        took := past.took + [Call(w, front)],
        late := if running then late else late[w := (if w in late then late[w] else 0) + 1]);
      workers := workers[w := Executing(front)];
      queue := queue[1..];
    }

    /** The locked part of take, entered at the call or after a wakeup. */
    method Take(w: Thread) returns (choice: Option<Thread>, task: Option<Task>)
      requires w in workers && (workers[w].Taking? || workers[w].Notified?)
      modifies this
      ensures Enabled(old(View()), TakeSection(w, choice))
      ensures View() == Apply(old(View()), TakeSection(w, choice))
      ensures task == if old(queue) == [] then None else Some(old(queue)[0])
      ensures queue == if old(queue) == [] then [] else old(queue)[1..]
    {
      hide Enabled;
      choice, task := None, None;
      if !(queue != [] || !running) {
        workers := workers[w := Asleep];
      } else if queue != [] {
        var front := PopFront(w);
        task := Some(front);
        ghost var popped := View();
        if maxQueueSize > 0 {
          choice := NotifyNotFull();
          assert popped.BlockedProducers() == old(View()).BlockedProducers();
        }
        assert View() == popped.NotifyProducer(choice);
      } else {
        workers := workers[w := Testing];
      }
      TakeEnabled(old(View()), w, choice);
    }

    /** The locked part of stop: both condition variables notify all. */
    method StopAll()
      modifies this
      ensures View() == Apply(old(View()), Stop)
      ensures !running && queue == old(queue)
      ensures workers.Keys == old(workers.Keys) && producers.Keys == old(producers.Keys)
      ensures forall w <- workers ::
        workers[w] == if old(workers)[w].Asleep? then Notified else old(workers)[w]
      ensures forall p <- producers ::
        producers[p] == if old(producers)[p].Blocked? then Woken(old(producers)[p].task) else old(producers)[p]
    {
      running := false;
      workers := map w | w in workers :: if workers[w].Asleep? then Notified else workers[w];
      producers := map p | p in producers ::
        if producers[p].Blocked? then Woken(producers[p].task) else producers[p];
    }
  }

  // ----- Runs -----

  ghost predicate Init(s: Pool) {
    && s.running && s.queue == s.accepted == s.dequeued == [] && s.late == map[]
    && s.calls == s.inline == s.taken == s.refused == s.took == s.finished == []
    && (forall w :: w in s.workers ==> s.workers[w] == Testing)
    && (forall p :: p in s.producers ==> s.producers[p] == Outside)
  }

  ghost predicate Runs(s: Pool, acts: seq<Action>, t: Pool)
    decreases |acts|
  {
    if acts == [] then s == t
    else Enabled(s, acts[0]) && Runs(Apply(s, acts[0]), acts[1..], t)
  }

  ghost predicate Inv(s: Pool) {
    Fifo(s) && Covered(s) && Quiet(s) && AtMostOneLate(s) && InlineOnly(s)
  }

  ghost predicate Fifo(s: Pool) {
    && s.accepted == s.dequeued + s.queue
    && (s.maxQueueSize > 0 ==> |s.queue| <= s.maxQueueSize)
  }

  /** While running, the sleepers are covered: enough others are already on their way. */
  ghost predicate Covered(s: Pool) {
    s.running ==>
      && (s.AsleepWorkers() != {} ==> |s.queue| <= |s.NotifiedWorkers()|)
      && (s.BlockedProducers() != {} ==>
            s.maxQueueSize > 0 && s.maxQueueSize - |s.queue| <= |s.WokenProducers()|)
  }

  /** After the stop nobody sleeps. */
  ghost predicate Quiet(s: Pool) {
    !s.running ==> s.AsleepWorkers() == {} && s.BlockedProducers() == {}
  }

  ghost predicate AtMostOneLate(s: Pool) {
    && (s.running ==> s.late == map[])
    && (forall w :: w in s.workers ==> Late(s, w) + Chance(s.workers[w]) <= 1)
  }

  /** Without workers, run never queues anything. */
  ghost predicate InlineOnly(s: Pool) {
    && (s.workers == map[] ==> forall p :: p in s.producers ==> s.producers[p] == Outside)
    && (s.workers == map[] ==> s.taken == s.refused == [])
    && (s.workers != map[] ==> s.inline == [])
  }

  ghost function Late(s: Pool, w: Thread): nat {
    if w in s.late then s.late[w] else 0
  }

  /** How many dequeues a worker can still make once running_ is false. */
  function Chance(pc: Worker): nat {
    if pc.Taking? || pc.Asleep? || pc.Notified? then 1 else 0
  }

  function Put(threads: set<Thread>, t: Thread, inside: bool): set<Thread> {
    if inside then threads + {t} else threads - {t}
  }

  function With(threads: set<Thread>, choice: Option<Thread>): set<Thread> {
    if choice.Some? then threads + {choice.value} else threads
  }

  function Without(threads: set<Thread>, choice: Option<Thread>): set<Thread> {
    if choice.Some? then threads - {choice.value} else threads
  }

  /** A thread's own move, as the condition variables see it. */
  lemma WorkerSets(s: Pool, w: Thread, pc: Worker)
    requires w in s.workers
    ensures var s' := s.SetWorker(w, pc);
      && s'.AsleepWorkers() == Put(s.AsleepWorkers(), w, pc.Asleep?)
      && s'.NotifiedWorkers() == Put(s.NotifiedWorkers(), w, pc.Notified?)
      && s'.BlockedProducers() == s.BlockedProducers() && s'.WokenProducers() == s.WokenProducers()
  {
  }

  lemma ProducerSets(s: Pool, p: Thread, pc: Producer)
    requires p in s.producers
    ensures var s' := s.SetProducer(p, pc);
      && s'.BlockedProducers() == Put(s.BlockedProducers(), p, pc.Blocked?)
      && s'.WokenProducers() == Put(s.WokenProducers(), p, pc.Woken?)
      && s'.AsleepWorkers() == s.AsleepWorkers() && s'.NotifiedWorkers() == s.NotifiedWorkers()
  {
  }

  lemma AcceptSets(s: Pool, p: Thread, choice: Option<Thread>)
    requires Enabled(s, RunSection(p, choice)) && s.running && !s.IsFull()
    ensures var s' := AfterRunSection(s, p, choice);
      && s'.AsleepWorkers() == Without(s.AsleepWorkers(), choice)
      && s'.NotifiedWorkers() == With(s.NotifiedWorkers(), choice)
      && s'.BlockedProducers() == s.BlockedProducers()
      && s'.WokenProducers() == s.WokenProducers() - {p}
  {
  }

  lemma DequeueSets(s: Pool, w: Thread, choice: Option<Thread>)
    requires Enabled(s, TakeSection(w, choice)) && s.queue != []
    ensures var s' := AfterTakeSection(s, w, choice);
      && s'.AsleepWorkers() == s.AsleepWorkers()
      && s'.NotifiedWorkers() == s.NotifiedWorkers() - {w}
      && s'.BlockedProducers() == Without(s.BlockedProducers(), choice)
      && s'.WokenProducers() == With(s.WokenProducers(), choice)
  {
  }

  lemma StopSets(s: Pool)
    ensures AfterStop(s).AsleepWorkers() == {} && AfterStop(s).BlockedProducers() == {}
  {
  }

  lemma RunSectionKeepsCovered(s: Pool, p: Thread, choice: Option<Thread>)
    requires Covered(s) && Quiet(s) && Enabled(s, RunSection(p, choice))
    ensures Covered(AfterRunSection(s, p, choice)) && Quiet(AfterRunSection(s, p, choice))
  {
    if s.running && s.IsFull() {
      ProducerSets(s, p, Blocked(s.producers[p].task));
    } else if !s.running {
      ProducerSets(s, p, Outside);
    } else {
      AcceptSets(s, p, choice);
      assert choice.Some? ==> choice.value !in s.NotifiedWorkers();
      hide Pool.AsleepWorkers, Pool.NotifiedWorkers, Pool.BlockedProducers, Pool.WokenProducers;
      CardinalityWith(s.NotifiedWorkers(), choice);
    }
  }

  lemma TakeSectionKeepsCovered(s: Pool, w: Thread, choice: Option<Thread>)
    requires Covered(s) && Quiet(s) && Enabled(s, TakeSection(w, choice))
    ensures Covered(AfterTakeSection(s, w, choice)) && Quiet(AfterTakeSection(s, w, choice))
  {
    if s.queue == [] {
      WorkerSets(s, w, if s.running then Asleep else Testing);
    } else {
      DequeueSets(s, w, choice);
      assert choice.Some? ==> choice.value !in s.WokenProducers();
      hide Pool.AsleepWorkers, Pool.NotifiedWorkers, Pool.BlockedProducers, Pool.WokenProducers;
      CardinalityWith(s.WokenProducers(), choice);
    }
  }

  lemma CardinalityWith(threads: set<Thread>, choice: Option<Thread>)
    ensures choice.Some? && choice.value !in threads ==> |With(threads, choice)| == |threads| + 1
  {
  }

  lemma StepKeepsCovered(s: Pool, a: Action)
    requires Covered(s) && Quiet(s) && Enabled(s, a)
    ensures Covered(Apply(s, a)) && Quiet(Apply(s, a))
  {
    match a
    case CallRun(p, task) => if s.workers != map[] { ProducerSets(s, p, Entering(task)); }
    case RunSection(p, choice) => RunSectionKeepsCovered(s, p, choice);
    case WakeProducer(p) => ProducerSets(s, p, Woken(s.producers[p].task));
    case TestRunning(w) => WorkerSets(s, w, if s.running then Taking else Exited);
    case TakeSection(w, choice) => TakeSectionKeepsCovered(s, w, choice);
    case FinishTask(w) => WorkerSets(s, w, Testing);
    case WakeWorker(w) => WorkerSets(s, w, Notified);
    case Stop => StopSets(s);
  }

  lemma StepKeepsFifo(s: Pool, a: Action)
    requires Fifo(s) && Enabled(s, a)
    ensures Fifo(Apply(s, a))
  {
    match a
    case RunSection(p, choice) =>
    case TakeSection(w, choice) =>
      if s.queue != [] {
        assert s.queue == [s.queue[0]] + s.queue[1..];
        hide Enabled;
        Assoc(s.dequeued, [s.queue[0]], s.queue[1..]);
      }
    case _ =>
      hide AfterRunSection, AfterTakeSection, Enabled;
  }

  lemma StepKeepsLate(s: Pool, a: Action)
    requires AtMostOneLate(s) && Enabled(s, a)
    ensures AtMostOneLate(Apply(s, a))
  {
    match a
    case RunSection(p, choice) =>
      hide AfterTakeSection;
    case TakeSection(w, choice) =>
      hide AfterRunSection;
    case _ =>
      hide AfterRunSection, AfterTakeSection;
  }

  lemma SameWorkers(s: Pool, a: Action)
    requires Enabled(s, a)
    ensures Apply(s, a).workers.Keys == s.workers.Keys
    ensures Apply(s, a).workers == map[] <==> s.workers == map[]
  {
    NoKeys(s.workers);
    NoKeys(Apply(s, a).workers);
    hide AfterRunSection, AfterTakeSection;
    match a
    case RunSection(p, choice) =>
      RunSectionWorkers(s, p, choice);
    case TakeSection(w, choice) =>
      TakeFields(s, w, choice);
      assert Apply(s, a).workers.Keys == s.workers.Keys;
    case _ =>
      assert Apply(s, a).workers.Keys == s.workers.Keys;
  }

  lemma NoKeys<K, V>(m: map<K, V>)
    ensures m == map[] <==> m.Keys == {}
  {
  }

  lemma StepKeepsInline(s: Pool, a: Action)
    requires InlineOnly(s) && Enabled(s, a)
    ensures InlineOnly(Apply(s, a))
  {
    SameWorkers(s, a);
    match a
    case RunSection(p, choice) =>
      hide AfterTakeSection;
    case TakeSection(w, choice) =>
      hide AfterRunSection;
      assert w in s.workers;
    case _ =>
      hide AfterRunSection, AfterTakeSection;
  }

  lemma StepKeepsInv(s: Pool, a: Action)
    requires Inv(s) && Enabled(s, a)
    ensures Inv(Apply(s, a))
  {
    hide Enabled, Apply, Fifo, Covered, Quiet, AtMostOneLate, InlineOnly;
    StepKeepsFifo(s, a);
    StepKeepsCovered(s, a);
    StepKeepsLate(s, a);
    StepKeepsInline(s, a);
  }

  lemma {:induction false} RunKeepsInv(s: Pool, acts: seq<Action>, t: Pool)
    requires Inv(s) && Runs(s, acts, t)
    ensures Inv(t)
    decreases |acts|
  {
    if acts != [] {
      StepKeepsInv(s, acts[0]);
      RunKeepsInv(Apply(s, acts[0]), acts[1..], t);
    }
  }

  lemma InitInv(s: Pool)
    requires Init(s)
    ensures Inv(s)
  {
    assert s.AsleepWorkers() == {} && s.BlockedProducers() == {};
  }

  /** Conservation: whatever the interleaving, the accepted tasks are the dequeued ones followed
      by the queue, in order, and a positive bound is never exceeded. */
  lemma BoundedFifo(s: Pool, acts: seq<Action>, t: Pool)
    requires Init(s) && Runs(s, acts, t)
    ensures t.accepted == t.dequeued + t.queue
    ensures t.maxQueueSize > 0 ==> |t.queue| <= t.maxQueueSize
  {
    InitInv(s);
    RunKeepsInv(s, acts, t);
  }

  /** No lost notification, on both sides. */
  lemma SleepersAreCovered(s: Pool, acts: seq<Action>, t: Pool)
    requires Init(s) && Runs(s, acts, t) && t.running
    ensures t.AsleepWorkers() != {} ==> |t.queue| <= |t.NotifiedWorkers()|
    ensures t.BlockedProducers() != {} ==> t.maxQueueSize - |t.queue| <= |t.WokenProducers()|
  {
    InitInv(s);
    RunKeepsInv(s, acts, t);
  }

  /** Deadlock freedom: with nobody notified, sleeping workers and blocked producers never
      coexist; if every worker sleeps, no accepted task is waiting and no run call is stuck. */
  lemma NoDeadlock(s: Pool, acts: seq<Action>, t: Pool)
    requires Init(s) && Runs(s, acts, t) && t.running
    requires t.NotifiedWorkers() == {} && t.WokenProducers() == {}
    ensures t.AsleepWorkers() == {} || t.BlockedProducers() == {}
    ensures t.AsleepWorkers() != {} ==> t.queue == [] && t.accepted == t.dequeued
  {
    InitInv(s);
    RunKeepsInv(s, acts, t);
    assert t.dequeued + [] == t.dequeued;
  }

  /** The same, for a state in which no thread of the pool can move at all except by a spurious
      wakeup: every accepted task has been executed and every run call has returned. */
  lemma StuckMeansFinished(s: Pool, acts: seq<Action>, t: Pool)
    requires Init(s) && Runs(s, acts, t) && t.running && t.workers != map[]
    requires forall a: Action :: Enabled(t, a) ==> a.CallRun? || a.WakeProducer? || a.WakeWorker? || a.Stop?
    ensures t.accepted == t.dequeued
    ensures forall w :: w in t.workers ==> t.workers[w] == Asleep
    ensures forall p :: p in t.producers ==> t.producers[p] == Outside
  {
    InitInv(s);
    RunKeepsInv(s, acts, t);
    forall w | w in t.workers
      ensures t.workers[w] == Asleep
    {
      assert !Enabled(t, TestRunning(w)) && !Enabled(t, FinishTask(w));
      RunningNeverExits(s, acts, t, w);
      var choice := SomeChoice(t, if t.queue != [] && t.maxQueueSize > 0 then t.BlockedProducers() else {});
      assert !Enabled(t, TakeSection(w, choice));
    }
    var w :| w in t.workers;
    assert w in t.AsleepWorkers();
    assert t.NotifiedWorkers() == {};
    forall p | p in t.producers
      ensures t.producers[p].Outside? || t.producers[p].Blocked?
    {
      var choice := SomeChoice(t, if t.running && !t.IsFull() then t.AsleepWorkers() else {});
      assert !Enabled(t, RunSection(p, choice));
    }
    assert t.WokenProducers() == {};
    forall p | p in t.producers
      ensures t.producers[p].Outside?
    {
      assert t.producers[p].Blocked? ==> p in t.BlockedProducers();
    }
    assert t.dequeued + [] == t.dequeued;
  }

  /** notify_one always has a legal outcome. */
  lemma SomeChoice(t: Pool, sleepers: set<Thread>) returns (choice: Option<Thread>)
    ensures t.Chooses(choice, sleepers)
  {
    choice := None;
    if sleepers != {} {
      var x :| x in sleepers;
      choice := Some(x);
    }
  }

  lemma StepExits(s: Pool, a: Action, w: Thread)
    requires Enabled(s, a) && Apply(s, a).running && w in Apply(s, a).workers
    ensures s.running && w in s.workers
    ensures Apply(s, a).workers[w] == Exited ==> s.workers[w] == Exited
  {
  }

  lemma {:induction false} NoExitWhileRunning(s: Pool, acts: seq<Action>, t: Pool, w: Thread)
    requires Runs(s, acts, t) && t.running && w in t.workers
    ensures s.running && w in s.workers
    ensures t.workers[w] == Exited ==> s.workers[w] == Exited
    decreases |acts|
  {
    if acts != [] {
      NoExitWhileRunning(Apply(s, acts[0]), acts[1..], t, w);
      StepExits(s, acts[0], w);
    }
  }

  lemma RunningNeverExits(s: Pool, acts: seq<Action>, t: Pool, w: Thread)
    requires Init(s) && Runs(s, acts, t) && t.running && w in t.workers
    ensures t.workers[w] != Exited
  {
    NoExitWhileRunning(s, acts, t, w);
  }

  // ----- The stop protocol -----

  lemma {:induction false} StoppedStays(s: Pool, acts: seq<Action>, t: Pool)
    requires !s.running && Runs(s, acts, t)
    ensures !t.running && t.accepted == s.accepted && t.workers.Keys == s.workers.Keys
    decreases |acts|
  {
    if acts != [] {
      StoppedStep(s, acts[0]);
      hide Enabled, Apply;
      StoppedStays(Apply(s, acts[0]), acts[1..], t);
    }
  }

  lemma StoppedStep(s: Pool, a: Action)
    requires !s.running && Enabled(s, a)
    ensures var t := Apply(s, a); !t.running && t.accepted == s.accepted && t.workers.Keys == s.workers.Keys
  {
    match a
    case RunSection(p, choice) =>
    case TakeSection(w, choice) =>
      assert AfterTakeSection(s, w, choice).workers.Keys == s.workers.Keys;
    case _ =>
      hide AfterRunSection, AfterTakeSection;
      assert Apply(s, a).workers.Keys == s.workers.Keys;
  }

  /** After stop, in every continuation: nobody is asleep, nothing more is accepted, and each
      worker has dequeued at most one task since. */
  lemma AfterTheStop(s: Pool, before: seq<Action>, m: Pool, after: seq<Action>, t: Pool)
    requires Init(s) && Runs(s, before, m) && Runs(Apply(m, Stop), after, t)
    ensures !t.running && t.AsleepWorkers() == {} && t.BlockedProducers() == {}
    ensures t.accepted == m.accepted
    ensures forall w :: w in t.workers ==> Late(t, w) <= 1
  {
    InitInv(s);
    RunKeepsInv(s, before, m);
    StepKeepsInv(m, Stop);
    RunKeepsInv(Apply(m, Stop), after, t);
    StoppedStays(Apply(m, Stop), after, t);
  }

  // ----- Whose tasks -----

  /** The tasks of one thread among calls. */
  function By(calls: seq<Call>, t: Thread): seq<Task> {
    if calls == [] then []
    else
      var last := calls[|calls| - 1];
      By(calls[..|calls| - 1], t) + (if last.thread == t then [last.task] else [])
  }

  function Tasks(calls: seq<Call>): seq<Task> {
    if calls == [] then [] else Tasks(calls[..|calls| - 1]) + [calls[|calls| - 1].task]
  }

  lemma BySnoc(calls: seq<Call>, c: Call, t: Thread)
    ensures By(calls + [c], t) == By(calls, t) + (if c.thread == t then [c.task] else [])
    ensures Tasks(calls + [c]) == Tasks(calls) + [c.task]
  {
    assert (calls + [c])[..|calls|] == calls;
  }

  /** The task a caller inside run carries, and the one a worker executes. */
  function Carried(pc: Producer): seq<Task> {
    if pc.Outside? then [] else [pc.task]
  }

  function InHand(pc: Worker): seq<Task> {
    if pc.Executing? then [pc.task] else []
  }

  ghost predicate Accounted(s: Pool) {
    && (forall p :: p in s.producers ==> CallsAccounted(s, p))
    && (forall w :: w in s.workers ==> By(s.took, w) == By(s.finished, w) + InHand(s.workers[w]))
    && Tasks(s.taken) == s.accepted && Tasks(s.took) == s.dequeued
    && (s.running ==> s.refused == [])
  }

  ghost predicate CallsAccounted(s: Pool, p: Thread)
    requires p in s.producers
  {
    Sum(By(s.calls, p), By(s.inline, p), By(s.taken, p), By(s.refused, p), Carried(s.producers[p]))
  }

  predicate Sum(calls: seq<Task>, inline: seq<Task>, taken: seq<Task>, refused: seq<Task>, carried: seq<Task>) {
    calls == inline + taken + refused + carried
  }

  lemma SumMoves(calls: seq<Task>, inline: seq<Task>, taken: seq<Task>, refused: seq<Task>, carried: seq<Task>)
    requires Sum(calls, inline, taken, refused, carried)
    ensures Sum(calls, inline, taken, refused + carried, [])
    ensures refused == [] ==> Sum(calls, inline, taken + carried, refused, [])
  {
  }

  lemma SumGrows(calls: seq<Task>, inline: seq<Task>, taken: seq<Task>, refused: seq<Task>, task: Task)
    requires Sum(calls, inline, taken, refused, [])
    ensures Sum(calls + [task], inline, taken, refused, [task])
    ensures taken == refused == [] ==> Sum(calls + [task], inline + [task], taken, refused, [])
  {
  }

  lemma RunSectionAccounts(s: Pool, p: Thread, choice: Option<Thread>)
    requires Accounted(s) && Enabled(s, RunSection(p, choice))
    ensures Accounted(AfterRunSection(s, p, choice))
  {
    var t := AfterRunSection(s, p, choice);
    RunSectionWorkers(s, p, choice);
    BySnoc(s.taken, Call(p, s.producers[p].task), p);
    hide By, Tasks, Sum, InHand, AfterRunSection;
    forall q | q in t.producers
      ensures CallsAccounted(t, q)
    {
      assert CallsAccounted(s, q);
      RunSectionAccountsFor(s, p, choice, q);
    }
  }

  lemma RunSectionWorkers(s: Pool, p: Thread, choice: Option<Thread>)
    requires Enabled(s, RunSection(p, choice))
    ensures var t := AfterRunSection(s, p, choice); var call := Call(p, s.producers[p].task);
      && t.workers.Keys == s.workers.Keys && t.producers.Keys == s.producers.Keys
      && (forall w :: w in s.workers ==> InHand(t.workers[w]) == InHand(s.workers[w]))
      && t.took == s.took && t.finished == s.finished && t.dequeued == s.dequeued && t.running == s.running
      && t.refused == (if s.running then s.refused else s.refused + [call])
      && (t.taken, t.accepted) == (if s.running && !s.IsFull() then (s.taken + [call], s.accepted + [call.task])
                                   else (s.taken, s.accepted))
  {
  }

  lemma RunSectionAccountsFor(s: Pool, p: Thread, choice: Option<Thread>, q: Thread)
    requires Enabled(s, RunSection(p, choice)) && q in s.producers && CallsAccounted(s, q)
    requires s.running ==> s.refused == []
    ensures var t := AfterRunSection(s, p, choice); q in t.producers && CallsAccounted(t, q)
  {
    var call := Call(p, s.producers[p].task);
    hide By, Tasks, Enabled, AfterRunSection, Carried, Sum;
    RunSectionRecords(s, p, choice, q);
    var calls, inline, taken, refused := By(s.calls, q), By(s.inline, q), By(s.taken, q), By(s.refused, q);
    if q == p && !(s.running && s.IsFull()) {
      SumMoves(calls, inline, taken, refused, [call.task]);
      if s.running {
        BySnoc(s.taken, call, q);
        NoneBy(q);
      } else {
        BySnoc(s.refused, call, q);
      }
    } else {
      StillBy(s.taken, call, q);
      StillBy(s.refused, call, q);
    }
  }

  lemma StillBy(calls: seq<Call>, c: Call, t: Thread)
    ensures c.thread != t ==> By(calls + [c], t) == By(calls, t)
  {
    BySnoc(calls, c, t);
  }

  lemma RunSectionRecords(s: Pool, p: Thread, choice: Option<Thread>, q: Thread)
    requires Enabled(s, RunSection(p, choice)) && q in s.producers
    ensures var t := AfterRunSection(s, p, choice); var call := Call(p, s.producers[p].task);
      && t.calls == s.calls && t.inline == s.inline && q in t.producers
      && t.taken == (if s.running && !s.IsFull() then s.taken + [call] else s.taken)
      && t.refused == (if s.running then s.refused else s.refused + [call])
      && Carried(t.producers[q]) == (if q != p || (s.running && s.IsFull()) then Carried(s.producers[q]) else [])
      && Carried(s.producers[p]) == [call.task]
  {
  }

  lemma TakeSectionRecords(s: Pool, w: Thread, choice: Option<Thread>)
    requires Enabled(s, TakeSection(w, choice))
    ensures var t := AfterTakeSection(s, w, choice);
      && (t.calls, t.inline, t.taken, t.refused, t.accepted) == (s.calls, s.inline, s.taken, s.refused, s.accepted)
      && t.finished == s.finished && t.running == s.running && t.producers.Keys == s.producers.Keys
      && t.took == (if s.queue != [] then s.took + [Call(w, s.queue[0])] else s.took)
      && t.dequeued == (if s.queue != [] then s.dequeued + [s.queue[0]] else s.dequeued)
      && t.workers.Keys == s.workers.Keys && w in s.workers && InHand(s.workers[w]) == []
      && InHand(t.workers[w]) == (if s.queue != [] then [s.queue[0]] else [])
      && (forall x | x in s.workers && x != w :: t.workers[x] == s.workers[x])
      && (forall p | p in s.producers :: Carried(t.producers[p]) == Carried(s.producers[p]))
  {
    TakeFields(s, w, choice);
    assert AfterTakeSection(s, w, choice).workers.Keys == s.workers.Keys;
  }

  lemma TakeSectionAccounts(s: Pool, w: Thread, choice: Option<Thread>)
    requires Accounted(s) && Enabled(s, TakeSection(w, choice))
    ensures Accounted(AfterTakeSection(s, w, choice))
  {
    var t := AfterTakeSection(s, w, choice);
    hide By, Tasks, Sum, Enabled, AfterTakeSection;
    TakeSectionRecords(s, w, choice);
    forall p | p in t.producers
      ensures CallsAccounted(t, p)
    {
      assert CallsAccounted(s, p);
    }
    if s.queue != [] {
      var call := Call(w, s.queue[0]);
      BySnoc(s.took, call, w);
      forall x | x in t.workers
        ensures By(t.took, x) == By(t.finished, x) + InHand(t.workers[x])
      {
        BySnoc(s.took, call, x);
      }
    }
  }

  lemma CallAccounts(s: Pool, p: Thread, task: Task)
    requires Accounted(s) && InlineOnly(s) && Enabled(s, CallRun(p, task))
    ensures Accounted(Apply(s, CallRun(p, task)))
  {
    var t := Apply(s, CallRun(p, task));
    var call := Call(p, task);
    hide By, Tasks, Sum;
    forall q | q in t.producers
      ensures CallsAccounted(t, q)
    {
      assert CallsAccounted(s, q);
      BySnoc(s.calls, call, q);
      BySnoc(s.inline, call, q);
      NoneBy(q);
      if q == p {
        SumGrows(By(s.calls, q), By(s.inline, q), By(s.taken, q), By(s.refused, q), task);
      } else {
        assert By(s.calls, q) + [] == By(s.calls, q) && By(s.inline, q) + [] == By(s.inline, q);
      }
    }
  }

  lemma NoneBy(t: Thread)
    ensures By([], t) == []
  {
  }

  lemma FinishAccounts(s: Pool, w: Thread)
    requires Accounted(s) && Enabled(s, FinishTask(w))
    ensures Accounted(Apply(s, FinishTask(w)))
  {
    var t := Apply(s, FinishTask(w));
    hide By, Tasks, Sum;
    forall p | p in t.producers
      ensures CallsAccounted(t, p)
    {
      assert CallsAccounted(s, p);
    }
    forall x | x in t.workers
      ensures By(t.took, x) == By(t.finished, x) + InHand(t.workers[x])
    {
      BySnoc(s.finished, Call(w, s.workers[w].task), x);
    }
  }

  lemma OtherAccounts(s: Pool, a: Action)
    requires Accounted(s) && Enabled(s, a) && (a.WakeProducer? || a.TestRunning? || a.WakeWorker? || a.Stop?)
    ensures Accounted(Apply(s, a))
  {
    var t := Apply(s, a);
    hide By, Tasks, Sum;
    forall p | p in t.producers
      ensures CallsAccounted(t, p)
    {
      assert CallsAccounted(s, p);
    }
  }

  lemma StepAccounts(s: Pool, a: Action)
    requires Accounted(s) && InlineOnly(s) && Enabled(s, a)
    ensures Accounted(Apply(s, a))
  {
    hide Accounted, InlineOnly, Enabled, AfterRunSection, AfterTakeSection;
    match a
    case CallRun(p, task) => CallAccounts(s, p, task);
    case RunSection(p, choice) => RunSectionAccounts(s, p, choice);
    case TakeSection(w, choice) => TakeSectionAccounts(s, w, choice);
    case FinishTask(w) => FinishAccounts(s, w);
    case _ => OtherAccounts(s, a);
  }

  lemma {:induction false} RunAccounts(s: Pool, acts: seq<Action>, t: Pool)
    requires Inv(s) && Accounted(s) && Runs(s, acts, t)
    ensures Inv(t) && Accounted(t)
    decreases |acts|
  {
    hide Accounted, Enabled, Apply;
    if acts != [] {
      StepKeepsInv(s, acts[0]);
      StepAccounts(s, acts[0]);
      RunAccounts(Apply(s, acts[0]), acts[1..], t);
    }
  }

  /** Every caller's tasks, in the order of its calls, in every run: with workers, those accepted,
      then those refused, of which there are none before the stop, then the one it still carries;
      what is accepted in all is the queue's history. Without workers it executes them itself. */
  lemma CallersTasks(s: Pool, acts: seq<Action>, t: Pool, p: Thread)
    requires Init(s) && Runs(s, acts, t) && p in t.producers
    ensures t.workers != map[] ==>
      By(t.calls, p) == By(t.taken, p) + By(t.refused, p) + Carried(t.producers[p]) && t.inline == []
    ensures t.workers == map[] ==> By(t.calls, p) == By(t.inline, p) && t.accepted == []
    ensures t.running ==> t.refused == []
    ensures Tasks(t.taken) == t.accepted == t.dequeued + t.queue
    ensures t.calls == CallsIn(acts)
  {
    InitInv(s);
    InitAccounted(s);
    RunRecordsCalls(s, acts, t);
    assert [] + CallsIn(acts) == CallsIn(acts);
    RunAccounts(s, acts, t);
    hide By, Tasks, Runs, Init;
    assert CallsAccounted(t, p);
    NoneBy(p);
    NoTasks();
    if t.workers == map[] {
      assert t.producers[p] == Outside;
      assert By(t.inline, p) + [] + [] + [] == By(t.inline, p);
    } else {
      assert [] + By(t.taken, p) == By(t.taken, p);
    }
  }

  lemma NoTasks()
    ensures Tasks([]) == []
  {
  }

  lemma InitAccounted(s: Pool)
    requires Init(s)
    ensures Accounted(s)
  {
  }

  /** The calls of run that a run contains. */
  function CallsIn(acts: seq<Action>): seq<Call>
    decreases |acts|
  {
    if acts == [] then []
    else (if acts[0].CallRun? then [Call(acts[0].p, acts[0].task)] else []) + CallsIn(acts[1..])
  }

  lemma {:induction false} RunRecordsCalls(s: Pool, acts: seq<Action>, t: Pool)
    requires Runs(s, acts, t)
    ensures t.calls == s.calls + CallsIn(acts)
    decreases |acts|
  {
    if acts == [] {
      assert s.calls + [] == s.calls;
    } else {
      var one := if acts[0].CallRun? then [Call(acts[0].p, acts[0].task)] else [];
      StepRecordsCalls(s, acts[0]);
      hide Apply, Enabled;
      RunRecordsCalls(Apply(s, acts[0]), acts[1..], t);
      Assoc(s.calls, one, CallsIn(acts[1..]));
    }
  }

  lemma StepRecordsCalls(s: Pool, a: Action)
    ensures Apply(s, a).calls == s.calls + if a.CallRun? then [Call(a.p, a.task)] else []
  {
    assert s.calls + [] == s.calls;
  }

  /** Every worker executes what it has dequeued, in that order. */
  lemma WorkersTasks(s: Pool, acts: seq<Action>, t: Pool, w: Thread)
    requires Init(s) && Runs(s, acts, t) && w in t.workers
    ensures By(t.took, w) == By(t.finished, w) + InHand(t.workers[w])
    ensures Tasks(t.took) == t.dequeued
  {
    InitInv(s);
    InitAccounted(s);
    RunAccounts(s, acts, t);
  }

  // ----- How the workers return -----

  /** How many steps a worker is from returning once running_ is false. */
  function Rank(pc: Worker): nat {
    match pc
    case Exited => 0
    case Testing => 1
    case Executing(_) => 2
    case _ => 3
  }

  ghost function AtLeast(s: Pool, k: nat): set<Thread> {
    set w | w in s.workers && Rank(s.workers[w]) >= k
  }

  ghost function Distance(s: Pool): nat {
    |AtLeast(s, 1)| + |AtLeast(s, 2)| + |AtLeast(s, 3)|
  }

  predicate IsWorkerStep(a: Action) {
    a.TestRunning? || a.TakeSection? || a.FinishTask?
  }

  function WorkerSteps(acts: seq<Action>): nat {
    if acts == [] then 0 else (if IsWorkerStep(acts[0]) then 1 else 0) + WorkerSteps(acts[1..])
  }

  lemma Subset<T>(a: set<T>, b: set<T>)
    requires a <= b
    ensures |a| <= |b| && (a != b ==> |a| < |b|)
  {
    assert b == a + (b - a);
  }

  /** After the stop no rank rises, and a worker's own step lowers its rank. */
  lemma RanksFall(s: Pool, a: Action)
    requires Inv(s) && !s.running && Enabled(s, a)
    ensures Apply(s, a).workers.Keys == s.workers.Keys
    ensures forall w :: w in s.workers ==> Rank(Apply(s, a).workers[w]) <= Rank(s.workers[w]) <= 3
    ensures IsWorkerStep(a) ==> a.w in s.workers && Rank(Apply(s, a).workers[a.w]) < Rank(s.workers[a.w])
  {
    hide Fifo, Covered, AtMostOneLate, InlineOnly;
  }

  lemma StepNearer(s: Pool, a: Action)
    requires Inv(s) && !s.running && Enabled(s, a)
    ensures Distance(Apply(s, a)) + (if IsWorkerStep(a) then 1 else 0) <= Distance(s)
  {
    var s' := Apply(s, a);
    RanksFall(s, a);
    hide Apply, Enabled, Inv, Rank;
    assert AtLeast(s', 1) <= AtLeast(s, 1) && AtLeast(s', 2) <= AtLeast(s, 2) && AtLeast(s', 3) <= AtLeast(s, 3);
    Subset(AtLeast(s', 1), AtLeast(s, 1));
    Subset(AtLeast(s', 2), AtLeast(s, 2));
    Subset(AtLeast(s', 3), AtLeast(s, 3));
    if IsWorkerStep(a) {
      var r := Rank(s.workers[a.w]);
      assert a.w in AtLeast(s, r) && a.w !in AtLeast(s', r);
    }
  }

  lemma {:induction false} RunNearer(s: Pool, acts: seq<Action>, t: Pool)
    requires Inv(s) && !s.running && Runs(s, acts, t)
    ensures Distance(t) + WorkerSteps(acts) <= Distance(s)
    decreases |acts|
  {
    if acts != [] {
      StepNearer(s, acts[0]);
      StepKeepsInv(s, acts[0]);
      assert !Apply(s, acts[0]).running by {
        StoppedStays(s, acts[..1], Apply(s, acts[0])) by { RunsOne(s, acts); }
      }
      RunNearer(Apply(s, acts[0]), acts[1..], t);
    }
  }

  lemma RunsOne(s: Pool, acts: seq<Action>)
    requires acts != [] && Enabled(s, acts[0])
    ensures Runs(s, acts[..1], Apply(s, acts[0]))
  {
    assert acts[..1][1..] == [];
  }

  /** Joining terminates: after stop the workers make at most three steps each, whatever else
      happens, and as long as one of them has not returned, a worker step is possible. */
  lemma JoinCompletes(s: Pool, before: seq<Action>, m: Pool, after: seq<Action>, t: Pool)
    requires Init(s) && Runs(s, before, m) && Runs(Apply(m, Stop), after, t)
    ensures WorkerSteps(after) <= 3 * |m.workers.Keys|
    ensures (forall w :: w in t.workers ==> t.workers[w] == Exited)
      || exists a: Action :: IsWorkerStep(a) && Enabled(t, a)
  {
    InitInv(s);
    RunKeepsInv(s, before, m);
    StepKeepsInv(m, Stop);
    var stopped := Apply(m, Stop);
    RunNearer(stopped, after, t);
    RunKeepsInv(stopped, after, t);
    StoppedStays(stopped, after, t);
    assert stopped.workers.Keys == m.workers.Keys;
    Subset(AtLeast(stopped, 1), m.workers.Keys);
    Subset(AtLeast(stopped, 2), m.workers.Keys);
    Subset(AtLeast(stopped, 3), m.workers.Keys);
    if w :| w in t.workers && t.workers[w] != Exited {
      hide Runs, AtLeast, WorkerSteps;
      var a := NextWorkerStep(t, w);
    }
  }

  lemma NextWorkerStep(t: Pool, w: Thread) returns (a: Action)
    requires Inv(t) && !t.running && w in t.workers && t.workers[w] != Exited
    ensures IsWorkerStep(a) && Enabled(t, a)
  {
    hide Fifo, Covered, AtMostOneLate, InlineOnly;
    assert w !in t.AsleepWorkers();
    var choice := SomeChoice(t, if t.queue != [] && t.maxQueueSize > 0 then t.BlockedProducers() else {});
    a := if t.workers[w].Testing? then TestRunning(w)
         else if t.workers[w].Executing? then FinishTask(w)
         else TakeSection(w, choice);
  }
}
