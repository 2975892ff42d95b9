/**
 The in-memory database example: its incremental parser for RESP arrays, the commands it runs
 on a complete array.
 */
module MemDb {
  import opened Common
  import opened Lines
  import opened Numbers
  import opened Streaming

  // ----- The parser -----

  /** The parser's state: 2 when a command is complete, 1 after any other line, 0 at first. */
  datatype Ctx = Ctx(state: int, count: int, length: nat, cmds: seq<string>)

  const FRESH := Ctx(0, 0, 0, [])

  /** parse returns false on an argument of the wrong length; std::stoi throws. */
  datatype Failure = ReturnedFalse | StoiThrew

  /** size_t from int. */
  function ToSize(n: int): (r: nat)
    requires -INT_MAX - 1 <= n
  {
    if n < 0 then n + 0x1_0000_0000_0000_0000 else n
  }

  /** What one line, without its CRLF, does; None as the new state is a failure. */
  datatype LineResult = Next(ctx: Ctx) | Fails(failure: Failure)

  function OnLine(ctx: Ctx, line: string): LineResult {
    if ctx.count == 0 && line != "" && line[0] == '*' then
      match Stoi(line[1..]) case None => Fails(StoiThrew) case Some(n) => Next(ctx.(count := n))
    else if ctx.length == 0 && line != "" && line[0] == '$' then
      match Stoi(line[1..]) case None => Fails(StoiThrew) case Some(n) => Next(ctx.(length := ToSize(n)))
    else if ctx.length > 0 then
      if |line| != ctx.length then Fails(ReturnedFalse)
      else Next(Ctx(if ctx.count == 1 then 2 else ctx.state, ctx.count - 1, 0, ctx.cmds + [line]))
    else Next(ctx)
  }

  function Scan(ctx: Ctx, buf: string): Verdict<Ctx, Failure> {
    match FindCrlf(buf)
    case None => Wait
    case Some(i) =>
      var ctx1 := ctx.(state := 1);
      (match OnLine(ctx1, buf[..i])
       case Next(ctx2) => Advance(ctx2, i + 2)
       case Fails(f) => Reject(ctx1, f))
  }

  function RespParser(): Parser<Ctx, char, Failure> {
    (ctx: Ctx, buf: string) => Scan(ctx, buf)
  }

  lemma RespIncremental()
    ensures Incremental(RespParser())
  {
    forall ctx, a, b {:trigger RespParser()(ctx, a + b)} | !Scan(ctx, a).Wait?
      ensures Scan(ctx, a + b) == Scan(ctx, a)
    {
      FindCrlfExtends(a, b);
      assert (a + b)[..FindCrlf(a).value] == a[..FindCrlf(a).value];
    }
  }

  ghost function Parsed(ctx: Ctx, buf: string): Stop<Ctx, char, Failure> {
    RespIncremental();
    Consume(RespParser(), ctx, buf)
  }

  class Context {
    var state: int
    var count: int
    var length: nat
    var cmds: seq<string>

    constructor ()
      ensures View() == FRESH
    {
      state, count, length, cmds := 0, 0, 0, [];
    }

    ghost function View(): Ctx
      reads this
    {
      Ctx(state, count, length, cmds)
    }

    /** The parser loop. */
    method Parse(input: string) returns (buf: string, failure: Option<Failure>)
      modifies this
      ensures Parsed(old(View()), input) == Stop(View(), buf, failure)
    {
      RespIncremental();
      buf, failure := input, None;
      var it := FindCrlf(buf);
      while it.Some?
        invariant Parsed(old(View()), input) == Parsed(View(), buf)
        invariant it == FindCrlf(buf) && failure == None
        decreases |buf|
      {
        assert RespParser()(View(), buf) == Scan(View(), buf);
        state := 1;
        var str := buf[..it.value];
        if count == 0 && str != "" && str[0] == '*' {
          var n := Stoi(str[1..]);
          if n.None? { failure := Some(StoiThrew); return; }
          count := n.value;
        } else if length == 0 && str != "" && str[0] == '$' {
          var n := Stoi(str[1..]);
          if n.None? { failure := Some(StoiThrew); return; }
          length := ToSize(n.value);
        } else if length > 0 {
          if |str| != length { failure := Some(ReturnedFalse); return; }
          cmds := cmds + [str];
          length := 0;
          count := count - 1;
          if count == 0 { state := 2; }
        }
        buf := buf[it.value + 2..];
        it := FindCrlf(buf);
      }
      assert RespParser()(View(), buf) == Scan(View(), buf);
    }
  }

  /** A count line is read when no count is pending, a length line when no length is; a negative
      length becomes a huge one. An argument of the right length is taken, and completes the
      command when it is the last. Any other line between arguments is skipped. */
  lemma LineCases(ctx: Ctx, line: string, rest: string)
    requires FindCrlf(line).None?
    ensures line != "" && line[0] == '*' && ctx.count == 0 && Stoi(line[1..]).Some? ==>
      Parsed(ctx, line + CRLF + rest) == Parsed(ctx.(state := 1, count := Stoi(line[1..]).value), rest)
    ensures line != "" && line[0] == '$' && ctx.length == 0 && Stoi(line[1..]).Some? ==>
      var n := Stoi(line[1..]).value;
      Parsed(ctx, line + CRLF + rest)
      == Parsed(ctx.(state := 1, length := if n < 0 then n + 0x1_0000_0000_0000_0000 else n), rest)
    ensures ctx.length == 0 && (line == "" || (line[0] != '$' && (line[0] != '*' || ctx.count != 0))) ==>
      Parsed(ctx, line + CRLF + rest) == Parsed(ctx.(state := 1), rest)
    ensures ctx.length > 0 && |line| == ctx.length && (ctx.count != 0 || line[0] != '*') ==>
      Parsed(ctx, line + CRLF + rest)
      == Parsed(Ctx(if ctx.count == 1 then 2 else 1, ctx.count - 1, 0, ctx.cmds + [line]), rest)
  {
    hide Parsed, FindCrlf, Stoi;
    if OnLine(ctx.(state := 1), line).Next? {
      ScanLine(ctx, line, rest);
    }
  }

  /** An argument of the wrong length makes parse return false and stays in the buffer. */
  lemma WrongLengthFails(ctx: Ctx, line: string, rest: string)
    requires FindCrlf(line).None? && ctx.length > 0 && |line| != ctx.length
    requires ctx.count != 0 || line == "" || line[0] != '*'
    ensures Parsed(ctx, line + CRLF + rest) == Stop(ctx.(state := 1), line + CRLF + rest, Some(ReturnedFalse))
  {
    RespIncremental();
    FindCrlfAt(line, rest);
    var buf := line + CRLF + rest;
    assert buf[..|line|] == line;
    hide Stoi;
    assert RespParser()(ctx, buf) == Scan(ctx, buf);
  }

  /** A count or a length that is no number throws and stays in the buffer. */
  lemma BadNumberThrows(ctx: Ctx, line: string, rest: string)
    requires FindCrlf(line).None? && line != "" && Stoi(line[1..]).None?
    requires (ctx.count == 0 && line[0] == '*') || (ctx.length == 0 && line[0] == '$')
    ensures Parsed(ctx, line + CRLF + rest) == Stop(ctx.(state := 1), line + CRLF + rest, Some(StoiThrew))
  {
    RespIncremental();
    FindCrlfAt(line, rest);
    var buf := line + CRLF + rest;
    assert buf[..|line|] == line;
    hide Stoi;
    assert RespParser()(ctx, buf) == Scan(ctx, buf);
  }

  // ----- Lines as a whole -----

  function AfterLines(ctx: Ctx, lines: seq<string>): Option<Ctx>
    decreases |lines|
  {
    if lines == [] then Some(ctx)
    else match OnLine(ctx.(state := 1), lines[0])
      case Next(ctx') => AfterLines(ctx', lines[1..])
      case Fails(_) => None
  }

  lemma ScanLine(ctx: Ctx, line: string, rest: string)
    requires FindCrlf(line).None? && OnLine(ctx.(state := 1), line).Next?
    ensures Parsed(ctx, line + CRLF + rest) == Parsed(OnLine(ctx.(state := 1), line).ctx, rest)
  {
    RespIncremental();
    FindCrlfAt(line, rest);
    var buf := line + CRLF + rest;
    assert buf[..|line|] == line && buf[|line| + 2..] == rest;
    assert RespParser()(ctx, buf) == Scan(ctx, buf);
  }

  lemma CutFirst(ctx: Ctx, lines: seq<string>, part: string)
    requires forall l <- lines :: FindCrlf(l).None?
    requires part <= Terminated(lines) && (lines == [] || |part| < |lines[0]| + 2)
    ensures Parsed(ctx, part) == Stop(ctx, part, None)
  {
    RespIncremental();
    if lines != [] {
      assert part <= lines[0] + CRLF by {
        assert (lines[0] + CRLF + Terminated(lines[1..]))[..|part|] == (lines[0] + CRLF)[..|part|];
      }
      NoCrlfInPart(lines[0], part);
    }
    assert RespParser()(ctx, part) == Scan(ctx, part) == Wait;
  }

  /** A stream of lines cut off anywhere before its end has been consumed line by line up to the
      unfinished one. */
  lemma {:induction false} CutStream(ctx: Ctx, lines: seq<string>, part: string) returns (k: nat)
    requires forall l <- lines :: FindCrlf(l).None?
    requires AfterLines(ctx, lines).Some?
    requires part <= Terminated(lines)
    ensures k <= |lines| && (k == |lines| <==> part == Terminated(lines))
    ensures AfterLines(ctx, lines[..k]).Some?
    ensures |Terminated(lines[..k])| <= |part|
    ensures Parsed(ctx, part) == Stop(AfterLines(ctx, lines[..k]).value, part[|Terminated(lines[..k])|..], None)
    decreases |lines|
  {
    hide Scan, OnLine, FindCrlf, Parsed;
    if lines == [] || |part| < |lines[0]| + 2 {
      CutFirst(ctx, lines, part);
      k := 0;
    } else {
      var line, later := lines[0], lines[1..];
      assert lines == [line] + later;
      TerminatedCons(line, later);
      var rest := part[|line| + 2..];
      CutLine(line, Terminated(later), part);
      ScanLine(ctx, line, rest);
      var k' := CutStream(OnLine(ctx.(state := 1), line).ctx, later, rest);
      k := k' + 1;
      assert lines[..k] == [line] + later[..k'];
      assert lines[..k][1..] == later[..k'];
      TerminatedCons(line, later[..k']);
      hide Terminated, AfterLines;
      assert rest[|Terminated(later[..k'])|..] == part[|Terminated(lines[..k])|..];
    }
  }

  // ----- Arrays of arguments -----

  function ArgLines(args: seq<string>): (lines: seq<string>)
    ensures |lines| == 2 * |args|
  {
    if args == [] then [] else ["$" + Decimal(|args[0]|), args[0]] + ArgLines(args[1..])
  }

  function ArrayLines(args: seq<string>): seq<string> {
    ["*" + Decimal(|args|)] + ArgLines(args)
  }

  /** The RESP array of an argument list. */
  function Encode(args: seq<string>): string {
    Terminated(ArrayLines(args))
  }

  ghost predicate Sendable(args: seq<string>) {
    && 0 < |args| <= INT_MAX
    && forall a <- args :: a != "" && FindCrlf(a).None? && |a| <= INT_MAX
  }

  lemma {:induction false} NoCrlfInDigits(s: string)
    requires forall i | 0 <= i < |s| :: s[i] != '\n'
    ensures FindCrlf(s).None?
  {
    if |s| >= 2 {
      NoCrlfInDigits(s[1..]);
      assert s[..2][1] == s[1] != '\n';
    }
  }

  lemma HeaderIsLine(n: nat, mark: char)
    requires mark != '\n'
    ensures FindCrlf([mark] + Decimal(n)).None?
  {
    NoCrlfInDigits([mark] + Decimal(n));
  }

  lemma {:induction false} ArgLinesAreLines(args: seq<string>)
    requires forall a <- args :: FindCrlf(a).None?
    ensures forall l <- ArgLines(args) :: FindCrlf(l).None?
  {
    if args != [] {
      ArgLinesAreLines(args[1..]);
      HeaderIsLine(|args[0]|, '$');
    }
  }

  /** Where the parser may be after k of the lines of args: the command is complete exactly at the
      last of them. */
  predicate AfterK(after: Option<Ctx>, cmds: seq<string>, args: seq<string>, k: nat) {
    && after.Some?
    && (after.value.state == 2 <==> k == 2 * |args|)
    && (k == 2 * |args| ==> after.value == Ctx(2, 0, 0, cmds + args))
  }

  /** The context after the lines of the first of n arguments. */
  function AfterArg(ctx: Ctx, arg: string, n: nat): Ctx {
    Ctx(if n == 1 then 2 else 1, n - 1, 0, ctx.cmds + [arg])
  }

  lemma {:induction false} AfterArgLines(ctx: Ctx, args: seq<string>, k: nat)
    requires forall a <- args :: a != "" && |a| <= INT_MAX
    requires ctx.count == |args| && ctx.length == 0 && (ctx.state == 2 <==> args == [])
    requires k <= 2 * |args|
    ensures AfterK(AfterLines(ctx, ArgLines(args)[..k]), ctx.cmds, args, k)
    decreases |args|
  {
    if args == [] {
      assert ctx.cmds + args == ctx.cmds;
    } else {
      hide OnLine, Decimal, AfterLines, ArgLines, AfterK;
      if k > 1 {
        AfterArgLines(AfterArg(ctx, args[0], |args|), args[1..], k - 2);
      }
      AfterFirstArg(ctx, args[0], args[1..], k);
      assert args == [args[0]] + args[1..];
    }
  }

  lemma AfterFirstArg(ctx: Ctx, arg: string, later: seq<string>, k: nat)
    requires arg != "" && |arg| <= INT_MAX && ctx.count == 1 + |later| && ctx.length == 0 && ctx.state != 2
    requires k <= 2 + 2 * |later|
    requires k > 1 ==>
      AfterK(AfterLines(AfterArg(ctx, arg, 1 + |later|), ArgLines(later)[..k - 2]), ctx.cmds + [arg], later, k - 2)
    ensures AfterK(AfterLines(ctx, ArgLines([arg] + later)[..k]), ctx.cmds, [arg] + later, k)
  {
    var head, lines := "$" + Decimal(|arg|), ArgLines(later);
    var ctx1 := Ctx(1, ctx.count, |arg|, ctx.cmds);
    hide OnLine, Decimal, AfterLines, ArgLines, AfterK, AfterArg;
    OneArg(ctx, arg);
    ArgLinesCons(arg, later);
    if k == 0 {
      AfterKEarly(ctx, ctx.cmds, [arg] + later, k);
      NoLine(ctx, ArgLines([arg] + later));
    } else {
      TakeCons(head, [arg] + lines, k);
      OneLine(ctx, ctx1, head, ([arg] + lines)[..k - 1]);
      if k == 1 {
        NoLine(ctx1, [arg] + lines);
        AfterKEarly(ctx1, ctx.cmds, [arg] + later, k);
      } else {
        TakeCons(arg, lines, k - 1);
        OneLine(ctx1, AfterArg(ctx, arg, ctx.count), arg, lines[..k - 2]);
        AfterKCons(AfterLines(AfterArg(ctx, arg, ctx.count), lines[..k - 2]), ctx.cmds, arg, later, k);
      }
    }
  }

  lemma ArgLinesCons(arg: string, later: seq<string>)
    ensures ArgLines([arg] + later) == ["$" + Decimal(|arg|)] + ([arg] + ArgLines(later))
  {
    hide Decimal;
    assert ([arg] + later)[1..] == later;
    assert ["$" + Decimal(|arg|)] + ([arg] + ArgLines(later)) == ["$" + Decimal(|arg|), arg] + ArgLines(later);
  }

  lemma AfterKEarly(after: Ctx, cmds: seq<string>, args: seq<string>, k: nat)
    requires k <= 1 && args != [] && after.state != 2
    ensures AfterK(Some(after), cmds, args, k)
  {
  }

  lemma AfterKCons(after: Option<Ctx>, cmds: seq<string>, arg: string, later: seq<string>, k: nat)
    requires k >= 2 && AfterK(after, cmds + [arg], later, k - 2)
    ensures AfterK(after, cmds, [arg] + later, k)
  {
    assert cmds + [arg] + later == cmds + ([arg] + later);
  }

  /** The first line of an argument. */
  lemma LengthLine(ctx: Ctx, n: nat)
    requires 0 < n <= INT_MAX && ctx.count > 0 && ctx.length == 0
    ensures OnLine(ctx, "$" + Decimal(n)) == Next(ctx.(length := n))
  {
    StoiDecimal(n);
    hide Stoi, Decimal;
    var line := "$" + Decimal(n);
    assert line[0] == '$' && line[1..] == Decimal(n);
  }

  /** The second one, whatever it looks like. */
  lemma ArgumentLine(ctx: Ctx, arg: string)
    requires arg != "" && |arg| == ctx.length && ctx.count > 0
    ensures OnLine(ctx, arg) == Next(Ctx(if ctx.count == 1 then 2 else ctx.state, ctx.count - 1, 0, ctx.cmds + [arg]))
  {
    hide Stoi;
  }

  /** The two lines of one argument. */
  lemma OneArg(ctx: Ctx, arg: string)
    requires arg != "" && |arg| <= INT_MAX && ctx.count > 0 && ctx.length == 0
    ensures var ctx1 := Ctx(1, ctx.count, |arg|, ctx.cmds);
      && OnLine(ctx.(state := 1), "$" + Decimal(|arg|)) == Next(ctx1)
      && OnLine(ctx1, arg) == Next(AfterArg(ctx, arg, ctx.count))
  {
    hide OnLine;
    LengthLine(ctx.(state := 1), |arg|);
    ArgumentLine(Ctx(1, ctx.count, |arg|, ctx.cmds), arg);
  }

  lemma AfterArrayLines(args: seq<string>, k: nat)
    requires Sendable(args) && k <= 1 + 2 * |args|
    ensures if k == 0 then AfterLines(FRESH, ArrayLines(args)[..k]) == Some(FRESH)
            else AfterK(AfterLines(FRESH, ArrayLines(args)[..k]), [], args, k - 1)
  {
    var head, lines := "*" + Decimal(|args|), ArgLines(args);
    var ctx1 := Ctx(1, |args|, 0, []);
    CountLine(|args|, ctx1);
    hide OnLine, Decimal, AfterLines, ArgLines, AfterK;
    if k == 0 {
      NoLine(FRESH, [head] + lines);
    } else {
      AfterArgLines(ctx1, args, k - 1);
      OneLine(FRESH, ctx1, head, lines[..k - 1]);
      TakeCons(head, lines, k);
    }
  }

  lemma TakeCons<T>(a: T, later: seq<T>, k: nat)
    requires 1 <= k <= |later| + 1
    ensures ([a] + later)[..k] == [a] + later[..k - 1]
  {
  }

  lemma CountLine(n: nat, ctx: Ctx)
    requires 0 < n <= INT_MAX && ctx == Ctx(1, n, 0, [])
    ensures OnLine(FRESH.(state := 1), "*" + Decimal(n)) == Next(ctx)
  {
    StoiDecimal(n);
    hide Stoi, Decimal;
    var line := "*" + Decimal(n);
    assert line[0] == '*' && line[1..] == Decimal(n);
  }

  lemma NoLine(ctx: Ctx, lines: seq<string>)
    ensures AfterLines(ctx, lines[..0]) == Some(ctx)
  {
  }

  lemma OneLine(ctx: Ctx, ctx1: Ctx, line: string, tail: seq<string>)
    requires OnLine(ctx.(state := 1), line) == Next(ctx1)
    ensures AfterLines(ctx, [line] + tail) == AfterLines(ctx1, tail)
  {
    hide OnLine;
    assert ([line] + tail)[1..] == tail;
  }

  /** From a fresh context, a part of an encoded array completes a command exactly when it is
      the whole of it, and then the command is exactly the encoded arguments. */
  lemma ArrayRoundTrip(args: seq<string>, part: string)
    requires Sendable(args) && part <= Encode(args)
    ensures Parsed(FRESH, part).error == None
    ensures Parsed(FRESH, part).state.state == 2 <==> part == Encode(args)
    ensures part == Encode(args) ==> Parsed(FRESH, part) == Stop(Ctx(2, 0, 0, args), "", None)
  {
    var lines := ArrayLines(args);
    ArgLinesAreLines(args);
    HeaderIsLine(|args|, '*');
    AfterArrayLines(args, |lines|);
    assert [] + args == args;
    assert lines[..|lines|] == lines;
    var k := CutStream(FRESH, lines, part);
    AfterArrayLines(args, k);
  }

  // ----- A connection: chunks in, commands out -----

  /** The path that answers a GET without a key returns before the context is cleared. */
  predicate KeepsContext(cmds: seq<string>) {
    cmds != [] && (cmds[0] == "GET" || cmds[0] == "get") && |cmds| < 2
  }

  function Cleared(ctx: Ctx): Ctx {
    if ctx.state != 2 || KeepsContext(ctx.cmds) then ctx else ctx.(cmds := [], state := 0)
  }

  datatype Session = Session(ctx: Ctx, rest: string, executed: seq<seq<string>>)

  ghost function OnChunk(s: Session, chunk: string): Session {
    var r := Parsed(s.ctx, s.rest + chunk);
    Session(Cleared(r.state), r.rest, if r.state.state == 2 then s.executed + [r.state.cmds] else s.executed)
  }

  ghost function Serve(s: Session, chunks: seq<string>): Session {
    if chunks == [] then s else OnChunk(Serve(s, chunks[..|chunks| - 1]), chunks[|chunks| - 1])
  }

  /** A client that starts a command on an idle connection. */
  ghost predicate Idle(s: Session) {
    s.ctx == FRESH && s.rest == ""
  }

  lemma {:induction false} ServePart(s: Session, args: seq<string>, chunks: seq<string>)
    requires Idle(s) && Sendable(args)
    requires Flatten(chunks) <= Encode(args) && Flatten(chunks) != Encode(args)
    ensures var r := Parsed(FRESH, Flatten(chunks)); Serve(s, chunks) == Session(r.state, r.rest, s.executed)
    decreases |chunks|
  {
    RespIncremental();
    ArrayRoundTrip(args, Flatten(chunks));
    if chunks == [] {
      assert RespParser()(FRESH, "") == Wait;
    } else {
      var before, last := chunks[..|chunks| - 1], chunks[|chunks| - 1];
      assert chunks == before + [last];
      FlattenSnoc(before, last);
      ConsumeAppend(RespParser(), FRESH, Flatten(before), last);
      ServePart(s, args, before);
    }
  }

  /** A command that leaves the connection idle, in chunks, some of which may be empty. */
  ghost predicate Sent(args: seq<string>, chunks: seq<string>) {
    Sendable(args) && !KeepsContext(args) && Flatten(chunks) == Encode(args)
  }

  lemma EmptyChunk(s: Session)
    requires Idle(s)
    ensures OnChunk(s, "") == s
  {
    RespIncremental();
    assert RespParser()(FRESH, "") == Wait;
    assert s.rest + "" == "";
  }

  /** However an encoded command is cut into chunks, it is executed once, with its arguments, on
      the chunk that completes it; then the connection is idle again. */
  lemma {:induction false} CommandOnce(s: Session, args: seq<string>, chunks: seq<string>)
    requires Idle(s) && Sent(args, chunks)
    ensures Serve(s, chunks) == Session(FRESH, "", s.executed + [args])
    decreases |chunks|
  {
    assert Encode(args) != "";
    var before, last := chunks[..|chunks| - 1], chunks[|chunks| - 1];
    assert chunks == before + [last];
    FlattenSnoc(before, last);
    if last == "" {
      assert Flatten(before) == Encode(args);
      CommandOnce(s, args, before);
      EmptyChunk(Serve(s, before));
    } else {
      assert |Flatten(before)| < |Encode(args)|;
      assert Flatten(before) <= Encode(args);
      ServePart(s, args, before);
      RespIncremental();
      hide Encode, Scan;
      ConsumeAppend(RespParser(), FRESH, Flatten(before), last);
      ArrayRoundTrip(args, Encode(args));
    }
  }

  lemma {:induction false} ServeAppend(s: Session, a: seq<string>, b: seq<string>)
    ensures Serve(s, a + b) == Serve(Serve(s, a), b)
    decreases |b|
  {
    if b == [] {
      assert a + b == a;
    } else {
      assert (a + b)[..|a + b| - 1] == a + b[..|b| - 1];
      ServeAppend(s, a, b[..|b| - 1]);
    }
  }

  /** Any sequence of commands, each sent when the previous one is complete, is executed in
      order, each exactly once. */
  lemma {:induction false} CommandsInOrder(s: Session, commands: seq<seq<string>>, chunks: seq<seq<string>>)
    requires Idle(s) && |chunks| == |commands|
    requires forall i | 0 <= i < |commands| :: Sent(commands[i], chunks[i])
    ensures Serve(s, Flatten(chunks)) == Session(FRESH, "", s.executed + commands)
    decreases |commands|
  {
    hide Sent;
    if commands == [] {
      assert s.executed + commands == s.executed;
    } else {
      var n := |commands| - 1;
      var before := chunks[..n];
      assert chunks == before + [chunks[n]];
      FlattenSnoc(before, chunks[n]);
      hide Serve;
      ServeAppend(s, Flatten(before), chunks[n]);
      CommandsInOrder(s, commands[..n], before);
      CommandOnce(Serve(s, Flatten(before)), commands[n], chunks[n]);
      assert s.executed + commands[..n] + [commands[n]] == s.executed + commands;
    }
  }

  /** The connection is idle again after a command if and only if the command was not a GET
      without a key: that one stays in the context, complete. */
  lemma IdleAgainExactly(s: Session, args: seq<string>)
    requires Idle(s) && Sendable(args)
    ensures Idle(OnChunk(s, Encode(args))) <==> !KeepsContext(args)
  {
    ArrayRoundTrip(args, Encode(args));
    assert s.rest + Encode(args) == Encode(args);
  }

  /** A chunk that ends no line executes the command before it once more if and only if that was a
      GET without a key. An empty chunk, as after an interrupted read, is one. */
  lemma RunsTwiceExactly(s: Session, args: seq<string>, chunk: string)
    requires Idle(s) && Sendable(args) && FindCrlf(chunk).None?
    ensures var t := OnChunk(s, Encode(args));
      && t.executed == s.executed + [args]
      && OnChunk(t, chunk).executed == if KeepsContext(args) then t.executed + [args] else t.executed
  {
    ArrayRoundTrip(args, Encode(args));
    assert s.rest + Encode(args) == Encode(args);
    var t := OnChunk(s, Encode(args));
    hide Encode, Stoi;
    RespIncremental();
    assert t.rest + chunk == chunk;
    assert RespParser()(t.ctx, chunk) == Scan(t.ctx, chunk) == Wait;
  }

  // ----- Commands -----

  datatype Command = Describe | Get | Set | Del | Unknown

  function CommandOf(name: string): Command {
    if name == "COMMAND" then Describe
    else if name == "GET" || name == "get" then Get
    else if name == "SET" || name == "set" then Set
    else if name == "DEL" || name == "del" then Del
    else Unknown
  }

  const COMMAND_TABLE :=
    "*7\r\n$11\r\nsunionstore\r\n:-3\r\n*2\r\n+write\r\n+denyoom\r\n"
    + ":1\r\n:-1\r\n:1\r\n*3\r\n+@write\r\n+@set\r\n+@slow\r\n"

  function ArityError(name: string): string {
    "-ERR wrong number of arguments for '" + name + "' command" + CRLF
  }

  /** The keys of the map among the given ones, each once. */
  function Held(db: map<string, string>, keys: seq<string>): set<string> {
    set k | k in keys && k in db
  }

  /** What a complete command leaves in the map. */
  function DbAfter(db: map<string, string>, cmds: seq<string>): map<string, string>
    requires cmds != []
  {
    match CommandOf(cmds[0])
    case Set => if |cmds| < 3 then db else db[cmds[1] := cmds[2]]
    case Del => db - Held(db, cmds[1..])
    case _ => db
  }

  /** What it answers. */
  function Reply(db: map<string, string>, cmds: seq<string>): string
    requires cmds != []
  {
    match CommandOf(cmds[0])
    case Describe => COMMAND_TABLE
    case Get =>
      if |cmds| < 2 then ArityError("get")
      else if cmds[1] in db then "+" + db[cmds[1]] + CRLF else "$-1" + CRLF
    case Set => if |cmds| < 3 then ArityError("set") else "+ok" + CRLF
    case Del => ":" + Decimal(|Held(db, cmds[1..])|) + CRLF
    case Unknown => "-ERR unknown command " + cmds[0] + CRLF
  }

  class MemoryDb {
    var db: map<string, string>

    constructor ()
      ensures db == map[]
    {
      db := map[];
    }

    /** The DEL loop: every named key goes, and those that were there are counted once each. */
    method Delete(keys: seq<string>) returns (delCount: nat)
      modifies this
      ensures db == old(db) - Held(old(db), keys)
      ensures delCount == |Held(old(db), keys)|
    {
      delCount := 0;
      var i := 0;
      while i < |keys|
        invariant 0 <= i <= |keys|
        invariant db == old(db) - Held(old(db), keys[..i])
        invariant delCount == |Held(old(db), keys[..i])|
      {
        assert keys[..i + 1] == keys[..i] + [keys[i]];
        if keys[i] in db {
          assert Held(old(db), keys[..i + 1]) == Held(old(db), keys[..i]) + {keys[i]};
          db := db - {keys[i]};
          delCount := delCount + 1;
        } else {
          assert Held(old(db), keys[..i + 1]) == Held(old(db), keys[..i]);
        }
        i := i + 1;
      }
      assert keys[..i] == keys;
    }

    method Execute(cmds: seq<string>) returns (reply: string)
      requires cmds != []
      modifies this
      ensures db == DbAfter(old(db), cmds) && reply == Reply(old(db), cmds)
    {
      match CommandOf(cmds[0]) {
        case Describe => reply := COMMAND_TABLE;
        case Get =>
          if |cmds| < 2 {
            reply := ArityError("get");
          } else if cmds[1] in db {
            reply := "+" + db[cmds[1]] + CRLF;
          } else {
            reply := "$-1" + CRLF;
          }
        case Set =>
          if |cmds| < 3 {
            reply := ArityError("set");
          } else {
            db := db[cmds[1] := cmds[2]];
            reply := "+ok" + CRLF;
          }
        case Del =>
          var delCount := Delete(cmds[1..]);
          reply := ":" + Decimal(delCount) + CRLF;
        case Unknown => reply := "-ERR unknown command " + cmds[0] + CRLF;
      }
    }

    /** One chunk of a connection: parse, then run the command if it is complete. An exception of
        stoi leaves the function. */
    method OnMessage(context: Context, ghost s: Session, buf: string, chunk: string)
      returns (rest: string, reply: Option<string>, threw: bool)
      requires s.ctx == context.View() && s.rest == buf && Ready(s.ctx)
      modifies this, context
      ensures var t := OnChunk(s, chunk);
        && context.View() == t.ctx && rest == t.rest && Ready(t.ctx)
        && t.executed == (if reply.Some? then s.executed + [Parsed(s.ctx, buf + chunk).state.cmds] else s.executed)
      ensures reply.None? ==> db == old(db)
      ensures threw <==> Parsed(s.ctx, buf + chunk).error == Some(StoiThrew)
      ensures threw ==> reply.None?
      ensures reply.Some? ==>
        var cmds := Parsed(s.ctx, buf + chunk).state.cmds;
        cmds != [] && db == DbAfter(old(db), cmds) && reply.value == Reply(old(db), cmds)
    {
      ReadyKept(s.ctx, buf + chunk);
      var failure;
      rest, failure := context.Parse(buf + chunk);
      reply, threw := None, failure == Some(StoiThrew);
      if threw {
        FailedIsIncomplete(s.ctx, buf + chunk);
        return;
      }
      if context.state == 2 {
        var answer := Execute(context.cmds);
        reply := Some(answer);
        if !KeepsContext(context.cmds) {
          context.cmds := [];
          context.state := 0;
        }
      }
    }
  }

  /** A parse that fails leaves the command incomplete. */
  lemma {:induction false} FailedIsIncomplete(ctx: Ctx, buf: string)
    requires Parsed(ctx, buf).error.Some?
    ensures Parsed(ctx, buf).state.state == 1
    decreases |buf|
  {
    RespIncremental();
    assert RespParser()(ctx, buf) == Scan(ctx, buf);
    if Scan(ctx, buf).Advance? {
      FailedIsIncomplete(Scan(ctx, buf).state, buf[Scan(ctx, buf).used..]);
    }
  }

  /** A complete command has at least its name. */
  predicate Ready(ctx: Ctx) {
    ctx.state == 2 ==> ctx.cmds != []
  }

  lemma {:induction false} ReadyKept(ctx: Ctx, buf: string)
    requires Ready(ctx)
    ensures Ready(Parsed(ctx, buf).state)
    decreases |buf|
  {
    RespIncremental();
    assert RespParser()(ctx, buf) == Scan(ctx, buf);
    if Scan(ctx, buf).Advance? {
      ReadyKept(Scan(ctx, buf).state, buf[Scan(ctx, buf).used..]);
    }
  }

  /** A whole session, as the map sees it: the commands applied in order. */
  ghost function DbAfterAll(db: map<string, string>, commands: seq<seq<string>>): map<string, string> {
    if commands == [] then db
    else
      var c := commands[|commands| - 1];
      var before := DbAfterAll(db, commands[..|commands| - 1]);
      if c == [] then before else DbAfter(before, c)
  }

  predicate Touches(c: seq<string>, key: string) {
    c != [] && ((CommandOf(c[0]).Set? && |c| >= 3 && c[1] == key) || (CommandOf(c[0]).Del? && key in c[1..]))
  }

  /** The value of a key after any commands is the one of the last SET or DEL that names it. */
  lemma {:induction false} LastWriteWins(db: map<string, string>, commands: seq<seq<string>>, i: nat, key: string)
    requires i < |commands| && Touches(commands[i], key)
    requires forall j | i < j < |commands| :: !Touches(commands[j], key)
    ensures var after := DbAfterAll(db, commands);
      if CommandOf(commands[i][0]).Set? then key in after && after[key] == commands[i][2] else key !in after
    decreases |commands|
  {
    var n := |commands| - 1;
    if i < n {
      LastWriteWins(db, commands[..n], i, key);
      assert !Touches(commands[n], key);
    }
  }

  /** A key that no command has named keeps its value. */
  lemma {:induction false} UntouchedStays(db: map<string, string>, commands: seq<seq<string>>, key: string)
    requires forall c <- commands :: !Touches(c, key)
    ensures var after := DbAfterAll(db, commands);
      (key in after <==> key in db) && (key in db ==> after[key] == db[key])
    decreases |commands|
  {
    if commands != [] {
      var n := |commands| - 1;
      UntouchedStays(db, commands[..n], key);
      assert !Touches(commands[n], key);
    }
  }

  predicate IsGet(c: seq<string>) {
    c != [] && (c[0] == "GET" || c[0] == "get")
  }

  predicate IsSet(c: seq<string>) {
    c != [] && (c[0] == "SET" || c[0] == "set")
  }

  predicate IsDel(c: seq<string>) {
    c != [] && (c[0] == "DEL" || c[0] == "del")
  }

  /** The commands by their names, in upper or in lower case; nothing else is one. */
  lemma CommandNames(c: seq<string>)
    requires c != []
    ensures CommandOf(c[0]).Get? <==> IsGet(c)
    ensures CommandOf(c[0]).Set? <==> IsSet(c)
    ensures CommandOf(c[0]).Del? <==> IsDel(c)
    ensures CommandOf(c[0]).Describe? <==> c[0] == "COMMAND"
  {
    var name := c[0];
    if name == "GET" || name == "get" {
      assert name[0] == 'G' || name[0] == 'g';
    } else if name == "SET" || name == "set" {
      assert name[0] == 'S' || name[0] == 's';
    } else if name == "DEL" || name == "del" {
      assert name[0] == 'D' || name[0] == 'd';
    }
  }

  /** Over a whole session: GET answers with the value of the last SET of its key, with the null
      answer if a DEL came later, and from the map at the start if neither has named it. */
  lemma GetAnswers(db: map<string, string>, commands: seq<seq<string>>, get: seq<string>, i: int)
    requires IsGet(get) && |get| >= 2 && -1 <= i < |commands|
    requires i >= 0 ==> Touches(commands[i], get[1])
    requires forall j | i < j < |commands| :: !Touches(commands[j], get[1])
    ensures var answer := Reply(DbAfterAll(db, commands), get);
      if i >= 0 && IsSet(commands[i]) then answer == "+" + commands[i][2] + "\r\n"
      else if i >= 0 || get[1] !in db then answer == "$-1" + "\r\n"
      else answer == "+" + db[get[1]] + "\r\n"
  {
    CommandNames(get);
    if i >= 0 {
      CommandNames(commands[i]);
      hide CommandOf;
      LastWriteWins(db, commands, i, get[1]);
    } else {
      hide CommandOf;
      UntouchedStays(db, commands, get[1]);
    }
  }

  /** What the other commands answer, and that only a SET with a value and a DEL change the map. */
  lemma OtherAnswers(db: map<string, string>, c: seq<string>)
    requires c != []
    ensures IsGet(c) && |c| < 2 ==> Reply(db, c) == "-ERR wrong number of arguments for 'get' command" + "\r\n"
    ensures IsSet(c) && |c| < 3 ==> Reply(db, c) == "-ERR wrong number of arguments for 'set' command" + "\r\n"
    ensures IsSet(c) && |c| >= 3 ==> Reply(db, c) == "+ok" + "\r\n" && DbAfter(db, c) == db[c[1] := c[2]]
    ensures IsDel(c) ==>
      var gone := set k | k in c[1..] && k in db;
      Reply(db, c) == ":" + Decimal(|gone|) + "\r\n" && DbAfter(db, c) == db - gone
    ensures !IsGet(c) && !IsSet(c) && !IsDel(c) && c[0] != "COMMAND" ==>
      Reply(db, c) == "-ERR unknown command " + c[0] + "\r\n"
    ensures !IsDel(c) && (!IsSet(c) || |c| < 3) ==> DbAfter(db, c) == db
  {
    CommandNames(c);
    hide CommandOf, Decimal;
    ArityTexts();
  }

  lemma ArityTexts()
    ensures ArityError("get") == "-ERR wrong number of arguments for 'get' command" + "\r\n"
    ensures ArityError("set") == "-ERR wrong number of arguments for 'set' command" + "\r\n"
  {
    assert "-ERR wrong number of arguments for '" + "get" + "' command"
        == "-ERR wrong number of arguments for 'get' command";
    assert "-ERR wrong number of arguments for '" + "set" + "' command"
        == "-ERR wrong number of arguments for 'set' command";
  }
}
