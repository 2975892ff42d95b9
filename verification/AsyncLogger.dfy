/**
 The asynchronous logger: producers append log lines to a buffer under a mutex, full buffers are
 handed to a backend thread, which passes them on to the log file and bounds what it takes.
 */
module AsyncLogger {
  import opened Common
  import opened Numbers

  const BUFFER_SIZE: nat := 686_000
  const MAX_BATCH := 25
  const SIZE_T: nat := 0x1_0000_0000_0000_0000

  /** kBufferSize - size, an unsigned difference: it wraps on a buffer that is too large. */
  function Room(size: nat): nat {
    (BUFFER_SIZE - size) % SIZE_T
  }

  // ----- The buffers -----

  /** The buffer being filled and the full ones waiting for the backend. */
  datatype Buffers = Buffers(current: string, full: seq<string>)

  function AfterAppend(b: Buffers, log: string): Buffers {
    if Room(|b.current|) > |log| then b.(current := b.current + log)
    else Buffers(log, b.full + [b.current])
  }

  /** What the backend takes: the full buffers and the current one. */
  function Batch(b: Buffers): (batch: seq<string>)
    ensures batch != []
  {
    b.full + [b.current]
  }

  function Notice(dropped: nat): string {
    "Dropped log messages, %zd larger buffers " + Decimal(dropped)
  }

  /** The strings handed to the log file for one batch. */
  function Output(batch: seq<string>): seq<string> {
    if |batch| > MAX_BATCH then [Notice(|batch| - 2)] + batch[..2] else batch
  }

  lemma OutputText(batch: seq<string>)
    requires |batch| > 25
    ensures Output(batch)
         == ["Dropped log messages, %zd larger buffers " + Decimal(|batch| - 2), batch[0], batch[1]]
  {
    hide Decimal;
    assert batch[..2] == [batch[0], batch[1]];
  }

  class AsyncLogger {
    var buffer: string
    var nextBuffer: string
    var buffers: seq<string>
    // The backend's locals, and what it has passed to the log file.
    var toWrite: seq<string>
    var buffer1: string
    var buffer2: string
    var file: seq<string>

    /** The spare buffers never hold text. */
    ghost predicate Valid()
      reads this
    {
      nextBuffer == "" && buffer1 == "" && buffer2 == ""
    }

    ghost function View(): Buffers
      reads this
    {
      Buffers(buffer, buffers)
    }

    constructor ()
      ensures Valid() && View() == Buffers("", []) && toWrite == [] && file == []
    {
      buffer, nextBuffer, buffer1, buffer2 := "", "", "", "";
      buffers, toWrite, file := [], [], [];
    }

    /** append; a string that has been moved from is empty. */
    method Append(log: string)
      modifies `buffer, `nextBuffer, `buffers
      ensures old(Valid()) ==> Valid()
      ensures View() == AfterAppend(old(View()), log)
      // in place while the sum stays below the size of a buffer, handed over otherwise
      ensures old(|buffer|) <= BUFFER_SIZE ==>
        if old(|buffer|) + |log| < BUFFER_SIZE then buffer == old(buffer) + log && buffers == old(buffers)
        else buffer == log && buffers == old(buffers) + [old(buffer)]
    {
      if Room(|buffer|) > |log| {
        buffer := buffer + log;
      } else {
        buffers := buffers + [buffer];
        if nextBuffer == "" {
          buffer, nextBuffer := nextBuffer, "";
        } else {
          buffer := "";
        }
        buffer := buffer + log;
      }
    }

    /** The backend's critical section, once it has been woken or has waited long enough. */
    method Collect()
      modifies `buffer, `nextBuffer, `buffers, `toWrite, `buffer1, `buffer2
      ensures old(Valid()) ==> Valid()
      ensures toWrite == old(buffers) + [old(buffer)]
      ensures old(Valid()) && old(toWrite) == [] ==> View() == Buffers("", [])
    {
      buffers := buffers + [buffer];
      buffer := "";
      buffer, buffer1 := buffer1, buffer;
      toWrite, buffers := buffers, toWrite;
      if nextBuffer != "" {
        nextBuffer, buffer2 := buffer2, nextBuffer;
      }
    }

    /** The rest of the backend's loop body: bound the batch, write it, recycle its buffers. The
        precondition is what the recycling asserts: a buffer to swap for each spare in use. */
    method Write()
      requires toWrite != [] && (buffer1 != "" && buffer2 != "" ==> |toWrite| >= 2)
      modifies `toWrite, `buffer1, `buffer2, `file
      ensures buffer1 == buffer2 == ""
      ensures toWrite == [] && file == old(file) + Output(old(toWrite))
      // a batch of up to 25 goes to the file as it is; of a larger one a notice and two buffers
      ensures |old(toWrite)| <= 25 ==> file == old(file) + old(toWrite)
      ensures |old(toWrite)| > 25 ==>
        var notice := "Dropped log messages, %zd larger buffers " + Decimal(|old(toWrite)| - 2);
        file == old(file) + [notice, old(toWrite)[0], old(toWrite)[1]]
    {
      if |toWrite| > 25 {
        OutputText(toWrite);
      }
      hide Notice, Decimal;
      if |toWrite| > MAX_BATCH {
        file := file + [Notice(|toWrite| - 2)];
        toWrite := toWrite[..2];
      }
      ghost var start, kept := file, toWrite;
      for i := 0 to |toWrite|
        invariant toWrite == kept && buffer1 == old(buffer1) && buffer2 == old(buffer2)
        invariant file == start + toWrite[..i]
      {
        file := file + [toWrite[i]];
      }
      assert kept[..|kept|] == kept;
      if |toWrite| > 2 {
        toWrite := toWrite[..2];
      }
      if buffer1 != "" {
        assert toWrite != [];
        buffer1 := "";
        toWrite := toWrite[..|toWrite| - 1];
      }
      if buffer2 != "" {
        assert toWrite != [];
        buffer2 := "";
        toWrite := toWrite[..|toWrite| - 1];
      }
      toWrite := [];
    }
  }

  // ----- The protocol -----

  /** Where the backend is: at its loop test, at the mutex or waiting on the condition, writing a
      batch with the mutex held, or out of the loop. */
  datatype Phase = Testing | Waiting | Writing | Exited

  /** The logger and its backend. History: all that was appended; for every buffer handed over or
      full, the logs in it, and those in the current one; the batches taken. */
  datatype Logger = Logger(buffers: Buffers, phase: Phase, running: bool, hand: seq<string>, file: seq<string>,
                           appended: seq<string>, packed: seq<seq<string>>, open: seq<string>,
                           batches: seq<seq<string>>)

  datatype Action = Append(log: string) | Enter | Collect | Write | Exit | Stop

  predicate Enabled(l: Logger, a: Action) {
    match a
    case Append(_) => l.phase != Writing
    case Enter => l.phase == Testing && l.running
    case Exit => l.phase == Testing && !l.running
    case Collect => l.phase == Waiting
    case Write => l.phase == Writing
    case Stop => true
  }

  function Apply(l: Logger, a: Action): Logger {
    match a
    case Append(log) =>
      var b := AfterAppend(l.buffers, log);
      var l1 := l.(buffers := b, appended := l.appended + [log]);
      if b.full == l.buffers.full then l1.(open := l.open + [log])
      else l1.(packed := l.packed + [l.open], open := [log])
    case Enter => l.(phase := Waiting)
    case Exit => l.(phase := Exited)
    case Collect =>
      var batch := Batch(l.buffers);
      l.(phase := Writing, buffers := Buffers("", []), hand := batch, batches := l.batches + [batch],
         packed := l.packed + [l.open], open := [])
    case Write => l.(phase := Testing, hand := [], file := l.file + Output(l.hand))
    case Stop => l.(running := false)
  }

  const START := Logger(Buffers("", []), Testing, true, [], [], [], [], [], [])

  ghost predicate Runs(l: Logger, acts: seq<Action>, m: Logger)
    decreases |acts|
  {
    if acts == [] then l == m
    else Enabled(l, acts[0]) && Runs(Apply(l, acts[0]), acts[1..], m)
  }

  // ----- What every step keeps -----

  /** The texts of buffers given by the logs in them. */
  function Texts(packed: seq<seq<string>>): (t: seq<string>)
    ensures |t| == |packed|
    ensures forall i | 0 <= i < |t| :: t[i] == Flatten(packed[i])
  {
    if packed == [] then [] else Texts(packed[..|packed| - 1]) + [Flatten(packed[|packed| - 1])]
  }

  function Outputs(batches: seq<seq<string>>): seq<string> {
    if batches == [] then [] else Outputs(batches[..|batches| - 1]) + Output(batches[|batches| - 1])
  }

  /** The batches that have been written. */
  function Written(l: Logger): seq<seq<string>> {
    if l.phase == Writing && l.batches != [] then l.batches[..|l.batches| - 1] else l.batches
  }

  /** Whole logs, in order, in every buffer. */
  ghost predicate Packed(l: Logger) {
    && Flatten(l.packed) + l.open == l.appended
    && Flatten(l.batches) + l.buffers.full == Texts(l.packed)
    && l.buffers.current == Flatten(l.open)
  }

  ghost predicate Filed(l: Logger) {
    && l.file == Outputs(Written(l))
    && (if l.phase == Writing then l.hand != [] && l.batches != [] && l.hand == l.batches[|l.batches| - 1]
        else l.hand == [])
  }

  ghost predicate Inv(l: Logger) {
    Packed(l) && Filed(l)
  }

  lemma TextsSnoc(packed: seq<seq<string>>, open: seq<string>)
    ensures Texts(packed + [open]) == Texts(packed) + [Flatten(open)]
  {
    assert (packed + [open])[..|packed|] == packed;
  }

  lemma AppendKeepsPacked(l: Logger, log: string)
    requires Packed(l)
    ensures Packed(Apply(l, Append(log)))
  {
    hide AfterAppend, Flatten, Texts, Output, Outputs;
    var m := Apply(l, Append(log));
    AppendFits(l.buffers, log);
    assert m.appended == (Flatten(l.packed) + l.open) + [log] == Flatten(l.packed) + (l.open + [log]);
    if m.buffers.full == l.buffers.full {
      FlattenSnoc(l.open, log);
    } else {
      FlattenSnoc(l.packed, l.open);
      TextsSnoc(l.packed, l.open);
      FlattenOne(log);
      assert Flatten(l.batches) + (l.buffers.full + [l.buffers.current])
          == (Flatten(l.batches) + l.buffers.full) + [l.buffers.current];
    }
  }

  lemma FlattenOne(log: string)
    ensures Flatten([log]) == log
  {
    assert Flatten([log]) == log + Flatten<char>([]) == log;
  }

  lemma AppendFits(b: Buffers, log: string)
    ensures var c := AfterAppend(b, log);
            if c.full == b.full then c.current == b.current + log else c == Buffers(log, b.full + [b.current])
  {
    assert b.full + [b.current] != b.full;
  }

  lemma CollectKeepsPacked(l: Logger)
    requires Packed(l)
    ensures Packed(Apply(l, Collect))
  {
    var batch := Batch(l.buffers);
    FlattenSnoc(l.batches, batch);
    FlattenSnoc(l.packed, l.open);
    TextsSnoc(l.packed, l.open);
    hide Texts, Outputs, Flatten;
    assert Flatten([]) == "" by { FlattenNone<char>(); }
    assert Flatten(l.batches) + batch == (Flatten(l.batches) + l.buffers.full) + [l.buffers.current];
  }

  lemma FlattenNone<T>()
    ensures Flatten<T>([]) == []
  {
  }

  lemma StepKeepsInv(l: Logger, a: Action)
    requires Inv(l) && Enabled(l, a)
    ensures Inv(Apply(l, a))
  {
    StepKeepsPacked(l, a);
    StepKeepsFiled(l, a);
  }

  lemma StepKeepsPacked(l: Logger, a: Action)
    requires Packed(l) && Enabled(l, a)
    ensures Packed(Apply(l, a))
  {
    match a
    case Append(log) => AppendKeepsPacked(l, log);
    case Collect => CollectKeepsPacked(l);
    case _ =>
      hide AfterAppend, Flatten, Texts, Output, Outputs;
  }

  lemma StepKeepsFiled(l: Logger, a: Action)
    requires Filed(l) && Enabled(l, a)
    ensures Filed(Apply(l, a))
  {
    hide AfterAppend, Output;
    if a == Collect {
      hide Outputs;
      assert Apply(l, Collect).batches[..|l.batches|] == l.batches;
    }
  }

  lemma {:induction false} RunKeepsInv(l: Logger, acts: seq<Action>, m: Logger)
    requires Inv(l) && Runs(l, acts, m)
    ensures Inv(m)
    decreases |acts|
  {
    if acts != [] {
      StepKeepsInv(l, acts[0]);
      RunKeepsInv(Apply(l, acts[0]), acts[1..], m);
    }
  }

  lemma Reached(acts: seq<Action>, l: Logger)
    requires Runs(START, acts, l)
    ensures Inv(l)
  {
    RunKeepsInv(START, acts, l);
  }

  // ----- Conservation -----

  lemma {:induction false} FlattenTexts(packed: seq<seq<string>>)
    ensures Flatten(Texts(packed)) == Flatten(Flatten(packed))
  {
    if packed != [] {
      var n := |packed| - 1;
      assert packed == packed[..n] + [packed[n]];
      FlattenTexts(packed[..n]);
      FlattenSnoc(packed[..n], packed[n]);
      FlattenAppend(Flatten(packed[..n]), packed[n]);
      FlattenSnoc(Texts(packed[..n]), Flatten(packed[n]));
    }
  }

  /** The logs that a run appends. */
  function LogsIn(acts: seq<Action>): seq<string>
    decreases |acts|
  {
    if acts == [] then [] else (if acts[0].Append? then [acts[0].log] else []) + LogsIn(acts[1..])
  }

  lemma {:induction false} AppendedAreLogs(l: Logger, acts: seq<Action>, m: Logger)
    requires Runs(l, acts, m)
    ensures m.appended == l.appended + LogsIn(acts)
    decreases |acts|
  {
    if acts == [] {
      assert l.appended + [] == l.appended;
    } else {
      var one := if acts[0].Append? then [acts[0].log] else [];
      assert Apply(l, acts[0]).appended == l.appended + one by {
        assert l.appended + [] == l.appended;
        hide AfterAppend, Output;
      }
      hide Apply, Enabled;
      AppendedAreLogs(Apply(l, acts[0]), acts[1..], m);
      Assoc(l.appended, one, LogsIn(acts[1..]));
    }
  }

  /** What was appended is what was taken in batches, then the full buffers, then the current one. */
  lemma Conservation(acts: seq<Action>, l: Logger)
    requires Runs(START, acts, l)
    ensures Flatten(l.appended) == Flatten(Flatten(l.batches)) + Flatten(l.buffers.full) + l.buffers.current
    ensures l.file == Outputs(Written(l))
    ensures l.appended == LogsIn(acts)
  {
    AppendedAreLogs(START, acts, l);
    assert [] + LogsIn(acts) == LogsIn(acts);
    Reached(acts, l);
    FlattenAppend(Flatten(l.packed), l.open);
    FlattenTexts(l.packed);
    FlattenAppend(Flatten(l.batches), l.buffers.full);
  }

  lemma {:induction false} OutputsExactly(batches: seq<seq<string>>)
    ensures |Outputs(batches)| <= |Flatten(batches)|
    ensures Outputs(batches) == Flatten(batches) <==> forall b <- batches :: |b| <= MAX_BATCH
  {
    if batches != [] {
      var n := |batches| - 1;
      var before, last := batches[..n], batches[n];
      assert batches == before + [last];
      OutputsExactly(before);
      FlattenSnoc(before, last);
      if |last| > MAX_BATCH {
        assert |Output(last)| == 3;
      }
      assert |last| <= MAX_BATCH ==> (Outputs(batches) == Flatten(batches) <==> Outputs(before) == Flatten(before)) by {
        if |last| <= MAX_BATCH && Outputs(batches) == Flatten(batches) {
          assert Outputs(batches)[..|Outputs(before)|] == Outputs(before);
          assert |Outputs(before)| == |Flatten(before)|;
          assert Flatten(batches)[..|Flatten(before)|] == Flatten(before);
        }
      }
    }
  }

  /** The file holds the buffers as they were filled exactly when no batch was too large; of one
      that was, it holds a notice and the first two buffers. */
  lemma FileIsBuffersExactly(acts: seq<Action>, l: Logger)
    requires Runs(START, acts, l)
    ensures l.file == Flatten(Written(l)) <==> forall b <- Written(l) :: |b| <= MAX_BATCH
  {
    Reached(acts, l);
    OutputsExactly(Written(l));
  }

  /** While no batch is too large, every byte is in the file, in the batch in hand, or buffered. */
  lemma NothingDropped(acts: seq<Action>, l: Logger)
    requires Runs(START, acts, l)
    requires forall b <- l.batches :: |b| <= MAX_BATCH
    ensures Flatten(l.file) + Flatten(l.hand) + Flatten(l.buffers.full) + l.buffers.current == Flatten(l.appended)
  {
    Conservation(acts, l);
    Reached(acts, l);
    OutputsExactly(Written(l));
    TakenIsWrittenOrInHand(l);
    hide *;
    calc {
      Flatten(l.file) + Flatten(l.hand) + Flatten(l.buffers.full) + l.buffers.current;
      Flatten(Flatten(l.batches)) + Flatten(l.buffers.full) + l.buffers.current;
    }
  }

  lemma TakenIsWrittenOrInHand(l: Logger)
    requires Inv(l)
    ensures Flatten(Flatten(l.batches)) == Flatten(Flatten(Written(l))) + Flatten(l.hand)
  {
    hide Outputs, Texts;
    if l.phase == Writing {
      assert l.batches == Written(l) + [l.hand];
      FlattenSnoc(Written(l), l.hand);
      FlattenAppend(Flatten(Written(l)), l.hand);
    } else {
      assert Flatten(l.hand) == "";
    }
  }

  // ----- Whole logs in short buffers -----

  /** All buffers there have been: those taken in batches, the full ones and the current one. */
  function AllBuffers(l: Logger): seq<string> {
    Flatten(l.batches) + l.buffers.full + [l.buffers.current]
  }

  /** No log is split: the buffers are the logs, in order, cut between logs. */
  lemma WholeLogs(acts: seq<Action>, l: Logger) returns (cut: seq<seq<string>>)
    requires Runs(START, acts, l)
    ensures Flatten(cut) == l.appended && Texts(cut) == AllBuffers(l)
  {
    Reached(acts, l);
    cut := l.packed + [l.open];
    FlattenSnoc(l.packed, l.open);
    assert cut[..|l.packed|] == l.packed;
  }

  ghost predicate Short(buffers: seq<string>) {
    forall b <- buffers :: |b| < BUFFER_SIZE
  }

  ghost predicate AllShort(l: Logger) {
    Short(Flatten(l.batches)) && Short(l.buffers.full) && |l.buffers.current| < BUFFER_SIZE
  }

  lemma AppendKeepsShort(b: Buffers, log: string)
    requires |log| < BUFFER_SIZE && Short(b.full) && |b.current| < BUFFER_SIZE
    ensures var c := AfterAppend(b, log); Short(c.full) && |c.current| < BUFFER_SIZE
  {
  }

  lemma StepKeepsShort(l: Logger, a: Action)
    requires Enabled(l, a) && AllShort(l)
    requires a.Append? ==> |a.log| < BUFFER_SIZE
    ensures AllShort(Apply(l, a))
  {
    hide Output, Room;
    match a
    case Append(log) =>
      AppendKeepsShort(l.buffers, log);
    case Collect =>
      FlattenSnoc(l.batches, Batch(l.buffers));
    case _ =>
  }

  lemma {:induction false} RunKeepsShort(l: Logger, acts: seq<Action>, m: Logger)
    requires Runs(l, acts, m) && AllShort(l)
    requires forall log <- m.appended :: |log| < BUFFER_SIZE
    ensures AllShort(m)
    decreases |acts|
  {
    if acts != [] {
      var n := Apply(l, acts[0]);
      AppendedGrows(n, acts[1..], m);
      LogIsRecorded(l, acts[0]);
      StepKeepsShort(l, acts[0]);
      hide Apply, Enabled, AllShort;
      assert acts[0].Append? ==> acts[0].log in m.appended;
      RunKeepsShort(n, acts[1..], m);
    }
  }

  lemma LogIsRecorded(l: Logger, a: Action)
    ensures a.Append? ==> a.log in Apply(l, a).appended
  {
    if a.Append? {
      assert Apply(l, a).appended[|l.appended|] == a.log;
    }
  }

  lemma {:induction false} AppendedGrows(l: Logger, acts: seq<Action>, m: Logger)
    requires Runs(l, acts, m)
    ensures l.appended <= m.appended
    decreases |acts|
  {
    if acts != [] {
      AppendedGrows(Apply(l, acts[0]), acts[1..], m);
    }
  }

  lemma {:induction false} LogFits(logs: seq<string>, log: string)
    requires log in logs
    ensures |log| <= |Flatten(logs)|
  {
    if log != logs[0] {
      LogFits(logs[1..], log);
    }
  }

  lemma {:induction false} FindCut(cut: seq<seq<string>>, log: string) returns (i: nat)
    requires log in Flatten(cut)
    ensures i < |cut| && log in cut[i]
  {
    if log in cut[0] {
      i := 0;
    } else {
      var k := FindCut(cut[1..], log);
      i := k + 1;
    }
  }

  /** Every buffer stays below kBufferSize exactly when every log is. */
  lemma ShortExactly(acts: seq<Action>, l: Logger)
    requires Runs(START, acts, l)
    ensures Short(AllBuffers(l)) <==> forall log <- l.appended :: |log| < BUFFER_SIZE
  {
    if forall log <- l.appended :: |log| < BUFFER_SIZE {
      RunKeepsShort(START, acts, l);
    } else {
      var log :| log in l.appended && |log| >= BUFFER_SIZE;
      var cut := WholeLogs(acts, l);
      var i := FindCut(cut, log);
      LogFits(cut[i], log);
      assert Texts(cut)[i] in AllBuffers(l);
    }
  }

  function AppendAll(b: Buffers, logs: seq<string>): Buffers
    decreases |logs|
  {
    if logs == [] then b else AppendAll(AfterAppend(b, logs[0]), logs[1..])
  }

  /** A buffer that has outgrown kBufferSize is never full: its room has wrapped around, so
      appending adds to it until the backend takes it. */
  lemma {:induction false} OversizeNeverFull(b: Buffers, logs: seq<string>)
    requires BUFFER_SIZE < |b.current|
    requires |b.current| + |Flatten(logs)| < SIZE_T
    ensures AppendAll(b, logs) == Buffers(b.current + Flatten(logs), b.full)
    decreases |logs|
  {
    if logs == [] {
      assert b.current + [] == b.current;
    } else {
      assert Room(|b.current|) == BUFFER_SIZE - |b.current| + SIZE_T;
      var c := AfterAppend(b, logs[0]);
      OversizeNeverFull(c, logs[1..]);
      assert c.current + Flatten(logs[1..]) == b.current + Flatten(logs);
    }
  }

  // ----- Stopping -----

  lemma {:induction false} ExitedStays(l: Logger, acts: seq<Action>, m: Logger)
    requires Runs(l, acts, m) && l.phase == Exited
    ensures m.phase == Exited && m.file == l.file && m.batches == l.batches
    decreases |acts|
  {
    if acts != [] {
      ExitedStays(Apply(l, acts[0]), acts[1..], m);
    }
  }

  /** The logs appended after the last collection of a run, with pending before it. */
  function SinceCollect(pending: seq<string>, acts: seq<Action>): seq<string>
    decreases |acts|
  {
    if acts == [] then pending
    else SinceCollect(Uncollected(pending, acts[0]), acts[1..])
  }

  function Uncollected(pending: seq<string>, a: Action): seq<string> {
    match a
    case Append(log) => pending + [log]
    case Collect => []
    case _ => pending
  }

  function Text(b: Buffers): string {
    Flatten(b.full) + b.current
  }

  lemma AppendText(b: Buffers, log: string)
    ensures Text(AfterAppend(b, log)) == Text(b) + log
  {
    AppendFits(b, log);
    hide AfterAppend;
    if AfterAppend(b, log).full == b.full {
      Assoc(Flatten(b.full), b.current, log);
    } else {
      FlattenSnoc(b.full, b.current);
    }
  }

  /** What is in the buffers is what has been appended since the last collection. */
  lemma {:induction false} UncollectedText(l: Logger, pending: seq<string>, acts: seq<Action>, m: Logger)
    requires Runs(l, acts, m) && Text(l.buffers) == Flatten(pending)
    ensures Text(m.buffers) == Flatten(SinceCollect(pending, acts))
    decreases |acts|
  {
    if acts != [] {
      NextText(l, pending, acts[0]);
      hide Text, Apply, Enabled;
      UncollectedText(Apply(l, acts[0]), Uncollected(pending, acts[0]), acts[1..], m);
    }
  }

  lemma NextText(l: Logger, pending: seq<string>, a: Action)
    requires Text(l.buffers) == Flatten(pending)
    ensures Text(Apply(l, a).buffers) == Flatten(Uncollected(pending, a))
  {
    match a
    case Append(log) =>
      AppendText(l.buffers, log);
      FlattenSnoc(pending, log);
      hide AfterAppend, Text;
    case _ =>
      hide Output;
  }

  lemma {:induction false} EmptyText(logs: seq<string>)
    ensures Flatten(logs) == "" <==> forall log <- logs :: log == ""
  {
    if logs != [] {
      EmptyText(logs[1..]);
      var first, later := logs[0], logs[1..];
      assert Flatten(logs) == first + Flatten(later);
      assert Flatten(logs) == "" <==> first == "" && Flatten(later) == "" by {
        assert |Flatten(logs)| == |first| + |Flatten(later)|;
      }
      assert logs == [first] + later;
      assert first in logs && forall log <- later :: log in logs;
    }
  }

  /** When the backend has gone and no batch was too large, the file is complete exactly when
      nothing but empty logs was appended after the last collection. */
  lemma CompleteAtExitExactly(acts: seq<Action>, l: Logger)
    requires Runs(START, acts, l) && l.phase == Exited
    requires forall b <- l.batches :: |b| <= MAX_BATCH
    ensures Flatten(l.file) == Flatten(l.appended) <==> forall log <- SinceCollect([], acts) :: log == ""
  {
    NothingDropped(acts, l);
    Reached(acts, l);
    FlattenNone<char>();
    assert Text(START.buffers) == Flatten<char>([]);
    UncollectedText(START, [], acts, l);
    EmptyText(SinceCollect([], acts));
    NothingMore(Flatten(l.file), Flatten(l.buffers.full), l.buffers.current);
    hide Flatten, SinceCollect, Runs;
    assert Text(l.buffers) == "" <==> Flatten(l.buffers.full) == "" && l.buffers.current == "";
  }

  lemma NothingMore(a: string, b: string, c: string)
    ensures a == a + [] + b + c <==> b == "" && c == ""
  {
    assert |a + [] + b + c| == |a| + |b| + |c|;
  }

  /** One line appended before a stop is lost for good. */
  lemma LostAtStop(log: string) returns (acts: seq<Action>, l: Logger)
    requires 0 < |log| < BUFFER_SIZE
    ensures Runs(START, acts, l) && l.phase == Exited
    ensures l.appended == [log] && l.file == []
  {
    acts := [Action.Append(log), Stop, Exit];
    var l1 := Apply(START, Action.Append(log));
    var l2 := Apply(l1, Stop);
    l := Apply(l2, Exit);
    assert acts[1..] == [Stop, Exit] && acts[1..][1..] == [Exit] && acts[1..][1..][1..] == [];
    assert Runs(l2, [Exit], l);
    assert Runs(l1, [Stop, Exit], l);
  }
}
