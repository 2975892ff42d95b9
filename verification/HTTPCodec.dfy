/**
 The HTTP request parser: request line, headers, dispatch. One call parses what is in the buffer
 into a fresh copy of the request kept with the connection; only the parser's state and the
 buffer survive the call.
 */
module HTTPCodec {
  import opened Common
  import opened Lines

  // ----- std::string -----

  const SIZE_T: int := 0x1_0000_0000_0000_0000
  const NPOS: nat := SIZE_T - 1

  /** A size_t sum or difference. */
  function Wrap(x: int): nat
    requires -SIZE_T <= x < 2 * SIZE_T
  {
    if x < 0 then x + SIZE_T else if x >= SIZE_T then x - SIZE_T else x
  }

  /** find_first_of for one character. */
  function FindFirstOf(s: string, c: char, from: nat): (i: nat)
    requires |s| < NPOS
    ensures i == NPOS || from <= i < |s|
    decreases |s| - from
  {
    if from >= |s| then NPOS else if s[from] == c then from else FindFirstOf(s, c, from + 1)
  }

  /** find_last_of for one character. */
  function FindLastOf(s: string, c: char): (i: nat)
    requires |s| < NPOS
    ensures i == NPOS || i < |s|
  {
    if s == "" then NPOS else if s[|s| - 1] == c then |s| - 1 else FindLastOf(s[..|s| - 1], c)
  }

  /** substr; None is std::out_of_range. */
  function Substr(s: string, pos: nat, count: nat): Option<string> {
    if pos > |s| then None else Some(s[pos..if count < |s| - pos then pos + count else |s|])
  }

  // ----- Words -----

  predicate Without(w: string, c: char) {
    forall k | 0 <= k < |w| :: w[k] != c
  }

  /** What is before the first c; all of s when there is none. */
  function Until(s: string, c: char): string {
    if s == "" || s[0] == c then "" else [s[0]] + Until(s[1..], c)
  }

  /** What is after the first c; all of s when there is none. */
  function AfterFirst(s: string, c: char): string {
    if |Until(s, c)| < |s| then s[|Until(s, c)| + 1..] else s
  }

  /** What is after the last c; all of s when there is none. */
  function AfterLast(s: string, c: char): string {
    if s == "" || s[|s| - 1] == c then "" else AfterLast(s[..|s| - 1], c) + [s[|s| - 1]]
  }

  lemma {:induction false} UntilSplits(s: string, c: char)
    ensures var w := Until(s, c);
            w <= s && Without(w, c) && (|w| < |s| ==> s[|w|] == c)
  {
    if s != "" && s[0] != c {
      UntilSplits(s[1..], c);
      assert s == [s[0]] + s[1..];
    }
  }

  lemma {:induction false} AfterLastSplits(s: string, c: char)
    ensures var w := AfterLast(s, c); |w| <= |s| && w == s[|s| - |w|..]
  {
    if s != "" && s[|s| - 1] != c {
      AfterLastSplits(s[..|s| - 1], c);
    }
  }

  lemma UntilAt(w: string, c: char, t: string)
    requires Without(w, c)
    ensures Until(w + [c] + t, c) == w && AfterFirst(w + [c] + t, c) == t
  {
    UntilSplits(w + [c] + t, c);
    var s := w + [c] + t;
    var u := Until(s, c);
    assert s[|w|] == c;
    assert w == s[..|w|];
    assert |u| == |w|;
  }

  lemma {:induction false} AfterLastAt(w: string, c: char, t: string)
    requires Without(t, c)
    ensures AfterLast(w + [c] + t, c) == t
  {
    var s := w + [c] + t;
    if t != "" {
      var n := |t| - 1;
      assert s[|s| - 1] == t[n];
      assert s[..|s| - 1] == w + [c] + t[..n];
      AfterLastAt(w, c, t[..n]);
    }
  }

  lemma {:induction false} FirstOfIsUntil(s: string, c: char, k: nat)
    requires |s| < NPOS && k <= |s|
    ensures FindFirstOf(s, c, k) == var n := k + |Until(s[k..], c)|; if n < |s| then n else NPOS
    decreases |s| - k
  {
    UntilSplits(s[k..], c);
    if k < |s| && s[k] != c {
      FirstOfIsUntil(s, c, k + 1);
      assert s[k..][1..] == s[k + 1..];
    }
  }

  lemma {:induction false} LastOfIsAfterLast(s: string, c: char)
    requires |s| < NPOS
    ensures FindLastOf(s, c) == var n := |AfterLast(s, c)|; if n < |s| then |s| - n - 1 else NPOS
  {
    AfterLastSplits(s, c);
    if s != "" && s[|s| - 1] != c {
      LastOfIsAfterLast(s[..|s| - 1], c);
    }
  }

  lemma LastWord(s: string, c: char)
    requires |s| < NPOS
    ensures var i := FindLastOf(s, c); Substr(s, Wrap(i + 1), Wrap(|s| - i - 1)) == Some(AfterLast(s, c))
  {
    AfterLastSplits(s, c);
    hide FindLastOf, AfterLast;
    LastOfIsAfterLast(s, c);
    var n := |s| - |AfterLast(s, c)|;
    assert s[n..|s|] == s[n..];
  }

  lemma WordAt(s: string, c: char, pos: nat)
    requires pos <= |s|
    ensures var n := pos + |Until(s[pos..], c)|; n <= |s| && Until(s[pos..], c) == s[pos..n]
  {
    UntilSplits(s[pos..], c);
    hide Until;
    var w := Until(s[pos..], c);
    assert w == s[pos..][..|w|] == s[pos..pos + |w|];
  }

  /** The word from pos to the next c, with the wrap-around of npos. */
  lemma SubstrIsUntil(s: string, c: char, pos: nat)
    requires |s| < NPOS && pos <= |s|
    ensures Substr(s, pos, Wrap(FindFirstOf(s, c, pos) - pos)) == Some(Until(s[pos..], c))
  {
    hide FindFirstOf, Until;
    FirstOfIsUntil(s, c, pos);
    WordAt(s, c, pos);
    var n := pos + |Until(s[pos..], c)|;
    if n == |s| {
      assert Wrap(FindFirstOf(s, c, pos) - pos) == NPOS - pos >= |s| - pos;
    } else {
      assert Wrap(FindFirstOf(s, c, pos) - pos) == n - pos < |s| - pos;
    }
  }

  lemma FirstWords(s: string, c: char)
    requires |s| < NPOS
    ensures var i := FindFirstOf(s, c, 0);
            var p := Wrap(i + 1);
            && Substr(s, 0, i) == Some(Until(s, c))
            && Substr(s, p, Wrap(FindFirstOf(s, c, p) - i - 1)) == Some(Until(AfterFirst(s, c), c))
  {
    UntilSplits(s, c);
    hide FindFirstOf, Until, Substr;
    SubstrIsUntil(s, c, 0);
    FirstOfIsUntil(s, c, 0);
    assert s[0..] == s;
    var i := FindFirstOf(s, c, 0);
    var p := Wrap(i + 1);
    assert s[p..] == AfterFirst(s, c);
    SubstrIsUntil(s, c, p);
    assert Wrap(FindFirstOf(s, c, p) - i - 1) == Wrap(FindFirstOf(s, c, p) - p);
  }

  lemma HeaderWords(s: string, c: char)
    requires |s| < NPOS
    ensures var i := FindFirstOf(s, c, 0);
            var w := Until(s, c);
            && Substr(s, 0, i) == Some(w)
            && |w| <= |s|
            && (w != "" ==>
                  Substr(s, Wrap(i + 2), |s| - |w|)
                  == if w == s then Some("") else if |w| + 2 > |s| then None else Some(s[|w| + 2..]))
  {
    hide FindFirstOf, Until;
    UntilSplits(s, c);
    FirstOfIsUntil(s, c, 0);
    assert s[0..] == s;
    SubstrIsUntil(s, c, 0);
    var i, w := FindFirstOf(s, c, 0), Until(s, c);
    if w == s {
      assert i == NPOS && Wrap(i + 2) == 1;
      assert w != "" ==> s[1..1] == "";
    } else {
      assert w == s[..|w|];
      assert |w| < |s|;
      assert i == |w| && Wrap(i + 2) == |w| + 2;
      assert |w| + 2 <= |s| ==> s[|w| + 2..|s|] == s[|w| + 2..];
    }
  }

  // ----- Requests -----

  datatype Method = GET | POST

  datatype Request = Request(verb: Method, path: string, version: string, header: map<string, string>)

  function VerbOf(word: string): Method {
    if word == "GET" then GET else POST
  }

  /** The request line: a verb, what follows it up to the next space, and the last word. */
  function AfterRequestLine(r: Request, line: string): Request {
    r.(verb := VerbOf(Until(line, ' ')),
       path := Until(AfterFirst(line, ' '), ' '),
       version := AfterLast(line, ' '))
  }

  /** A header line: the end of the headers, a field, or one whose value lies out of range. */
  datatype HeaderLine = LastLine | Field(name: string, value: string) | OutOfRange

  function ParseHeader(line: string): HeaderLine {
    var name := Until(line, ':');
    if name == "" then LastLine
    else if name == line then Field(name, "")
    else if |name| + 2 > |line| then OutOfRange
    else Field(name, line[|name| + 2..])
  }

  /** Parsing a header line throws exactly when its first colon ends it and something precedes it. */
  lemma HeaderThrowsExactly(line: string)
    ensures ParseHeader(line) == OutOfRange <==>
            |line| >= 2 && Without(line[..|line| - 1], ':') && line[|line| - 1] == ':'
  {
    UntilSplits(line, ':');
    var name := Until(line, ':');
    if |line| >= 2 && Without(line[..|line| - 1], ':') && line[|line| - 1] == ':' {
      UntilAt(line[..|line| - 1], ':', "");
      assert line == line[..|line| - 1] + [':'] + "";
    }
  }

  // ----- The loop -----

  /** kRequestBody is never entered. */
  datatype State = RequestLine | RequestHeaders | RequestBody | GotAll

  /** How a call ends: it needs more bytes, an exception leaves it, or the request goes to the
      callback. */
  datatype Outcome =
    | Blocked(state: State, rest: string)
    | Threw(rest: string)
    | Served(request: Request, rest: string)

  function Run(state: State, r: Request, buf: string): (out: Outcome)
    requires state != RequestBody
    ensures out.Blocked? ==> out.state != RequestBody && FindCrlf(out.rest).None?
    decreases |buf|, state == RequestHeaders
  {
    if state == GotAll then Served(r, buf)
    else match FindCrlf(buf)
      case None => Blocked(state, buf)
      case Some(i) =>
        var line, later := buf[..i], buf[i + 2..];
        if state == RequestLine then Run(RequestHeaders, AfterRequestLine(r, line), later)
        else match ParseHeader(line)
          case LastLine => Served(r, later)
          case Field(name, value) => Run(RequestHeaders, r.(header := r.header[name := value]), later)
          case OutOfRange => Threw(buf)
  }

  /** The reply: its version and Connection header come from the request. */
  datatype Reply = Reply(version: string, connection: string)

  function GetHeader(r: Request, name: string): string {
    if name in r.header then r.header[name] else ""
  }

  class HTTPCodec {
    var state: State

    ghost predicate Valid()
      reads this
    {
      state != RequestBody
    }

    constructor ()
      ensures Valid() && state == RequestLine
    {
      state := RequestLine;
    }

    static method ParseRequestLine(request: Request, requestLine: string) returns (r: Request)
      requires |requestLine| < NPOS
      ensures r == AfterRequestLine(request, requestLine)
      ensures r.header == request.header
    {
      hide FindFirstOf, FindLastOf, Until, AfterFirst, AfterLast, Substr, Wrap, VerbOf;
      FirstWords(requestLine, ' ');
      LastWord(requestLine, ' ');
      var curPos: int := FindFirstOf(requestLine, ' ', 0);
      var word := Substr(requestLine, 0, curPos);
      var verb := VerbOf(word.value);
      var prevPos: int := curPos;
      curPos := FindFirstOf(requestLine, ' ', Wrap(prevPos + 1));
      var path := Substr(requestLine, Wrap(prevPos + 1), Wrap(curPos - prevPos - 1));
      prevPos := FindLastOf(requestLine, ' ');
      var version := Substr(requestLine, Wrap(prevPos + 1), Wrap(|requestLine| - prevPos - 1));
      r := request.(verb := verb, path := path.value, version := version.value);
    }

    static method ParseRequestHeader(request: Request, requestHeader: string) returns (r: Request, h: HeaderLine)
      requires |requestHeader| < NPOS
      ensures h == ParseHeader(requestHeader)
      ensures r == if h.Field? then request.(header := request.header[h.name := h.value]) else request
    {
      r := request;
      HeaderWords(requestHeader, ':');
      hide FindFirstOf, Until, Substr, Wrap;
      var field := Substr(requestHeader, 0, FindFirstOf(requestHeader, ':', 0)).value;
      if field == "" {
        return r, LastLine;
      }
      var pos := Wrap(FindFirstOf(requestHeader, ':', 0) + 2);
      var value := Substr(requestHeader, pos, |requestHeader| - |field|);
      if value.None? {
        return r, OutOfRange;
      }
      r := r.(header := r.header[field := value.value]);
      h := Field(field, value.value);
    }

    /** onMessage, on the request kept with the connection and its receive buffer. */
    method OnMessage(context: Request, buffer: string)
      returns (rest: string, served: Option<Request>, reply: Option<Reply>, shut: bool, threw: bool)
      requires Valid() && |buffer| < NPOS
      modifies this
      ensures Valid()
      ensures match Run(old(state), context, buffer)
              case Blocked(s, b) => state == s && rest == b && served == None && !threw
              case Threw(b) => state == RequestHeaders && rest == b && served == None && threw
              case Served(r, b) => state == RequestLine && rest == b && served == Some(r) && !threw
      // the reply has the request's version and its Connection header, empty if it has none
      ensures reply.Some? == served.Some?
      ensures served.Some? ==> var h := served.value.header;
        && reply.value.version == served.value.version
        && reply.value.connection == (if "Connection" in h then h["Connection"] else "")
      // the connection is shut down exactly when that header is "close"
      ensures shut <==>
        served.Some? && "Connection" in served.value.header && served.value.header["Connection"] == "close"
    {
      hide AfterRequestLine, ParseHeader, FindCrlf;
      var request, isComplete := context, true;
      rest, served, reply, shut, threw := buffer, None, None, false, false;
      while isComplete
        invariant Valid() && |rest| < NPOS
        invariant !threw
        invariant isComplete ==> served == None && reply == None && !shut
        invariant isComplete ==> Run(old(state), context, buffer) == Run(state, request, rest)
        invariant !isComplete ==>
                    match Run(old(state), context, buffer)
                    case Blocked(s, b) => state == s && rest == b && served == None
                    case Threw(_) => false
                    case Served(r, b) => state == RequestLine && rest == b && served == Some(r)
        invariant reply == if served.None? then None
                           else Some(Reply(served.value.version, GetHeader(served.value, "Connection")))
        invariant shut <==> served.Some? && GetHeader(served.value, "Connection") == "close"
        decreases isComplete, |rest|
      {
        if state == RequestLine {
          var it := FindCrlf(rest);
          if it.Some? {
            request := ParseRequestLine(request, rest[..it.value]);
            rest := rest[it.value + 2..];
            state := RequestHeaders;
          } else {
            isComplete := false;
          }
        } else if state == RequestHeaders {
          var it := FindCrlf(rest);
          if it.Some? {
            var h;
            request, h := ParseRequestHeader(request, rest[..it.value]);
            if h == OutOfRange {
              threw := true;
              return;
            }
            rest := rest[it.value + 2..];
            if h == LastLine {
              state := GotAll;
            }
          } else {
            isComplete := false;
          }
        } else if state == GotAll {
          served := Some(request);
          reply := Some(Reply(request.version, GetHeader(request, "Connection")));
          if GetHeader(request, "Connection") == "close" {
            shut := true;
          }
          isComplete := false;
          state := RequestLine;
        }
      }
    }
  }

  // ----- A printed request -----

  datatype Entry = Entry(name: string, value: string)

  function Word(verb: Method): string {
    if verb.GET? then "GET" else "POST"
  }

  function RequestText(verb: Method, path: string, version: string): string {
    Word(verb) + " " + path + " " + version
  }

  function HeaderText(e: Entry): string {
    e.name + ": " + e.value
  }

  function HeaderLines(fields: seq<Entry>): seq<string> {
    if fields == [] then [""] else [HeaderText(fields[0])] + HeaderLines(fields[1..])
  }

  /** A whole request as a client sends it. */
  function Print(verb: Method, path: string, version: string, fields: seq<Entry>): string {
    RequestText(verb, path, version) + CRLF + Terminated(HeaderLines(fields))
  }

  /** The header map after the fields in order: the last one of a name wins. */
  function AddAll(header: map<string, string>, fields: seq<Entry>): map<string, string>
    decreases |fields|
  {
    if fields == [] then header else AddAll(header[fields[0].name := fields[0].value], fields[1..])
  }

  predicate GoodFields(fields: seq<Entry>) {
    forall e <- fields :: e.name != "" && Without(e.name, ':') && FindCrlf(HeaderText(e)).None?
  }

  predicate Printable(verb: Method, path: string, version: string, fields: seq<Entry>) {
    && Without(path, ' ') && Without(version, ' ')
    && FindCrlf(RequestText(verb, path, version)).None?
    && GoodFields(fields)
  }

  lemma RequestLineRoundTrip(r: Request, verb: Method, path: string, version: string)
    requires Without(path, ' ') && Without(version, ' ')
    ensures AfterRequestLine(r, RequestText(verb, path, version)) == Request(verb, path, version, r.header)
  {
    hide Until, AfterFirst, AfterLast;
    var line := RequestText(verb, path, version);
    assert line == Word(verb) + [' '] + (path + " " + version);
    UntilAt(Word(verb), ' ', path + " " + version);
    assert path + " " + version == path + [' '] + version;
    UntilAt(path, ' ', version);
    AfterLastAt(Word(verb) + " " + path, ' ', version);
    assert line == (Word(verb) + " " + path) + [' '] + version;
  }

  lemma HeaderRoundTrip(e: Entry)
    requires e.name != "" && Without(e.name, ':')
    ensures ParseHeader(HeaderText(e)) == Field(e.name, e.value)
  {
    UntilAt(e.name, ':', " " + e.value);
    assert HeaderText(e) == e.name + [':'] + (" " + e.value);
    assert HeaderText(e)[|e.name| + 2..] == e.value;
  }

  lemma RunLine(state: State, r: Request, line: string, rest: string)
    requires FindCrlf(line).None?
    ensures state == RequestLine ==>
              Run(state, r, line + CRLF + rest) == Run(RequestHeaders, AfterRequestLine(r, line), rest)
    ensures state == RequestHeaders && ParseHeader(line).Field? ==>
              Run(state, r, line + CRLF + rest)
              == Run(RequestHeaders, r.(header := r.header[ParseHeader(line).name := ParseHeader(line).value]), rest)
    ensures state == RequestHeaders && ParseHeader(line).LastLine? ==>
              Run(state, r, line + CRLF + rest) == Served(r, rest)
  {
    FindCrlfAt(line, rest);
    var buf := line + CRLF + rest;
    assert buf[..|line|] == line && buf[|line| + 2..] == rest;
  }

  lemma EndOfHeaders(r: Request, rest: string)
    ensures Run(RequestHeaders, r, CRLF + rest) == Served(r, rest)
  {
    RunLine(RequestHeaders, r, "", rest);
    assert CRLF + rest == "" + CRLF + rest;
  }

  lemma {:induction false} HeadersRoundTrip(r: Request, fields: seq<Entry>, rest: string)
    requires GoodFields(fields)
    ensures Run(RequestHeaders, r, Terminated(HeaderLines(fields)) + rest)
         == Served(r.(header := AddAll(r.header, fields)), rest)
    decreases |fields|
  {
    hide Run, ParseHeader, FindCrlf;
    if fields == [] {
      EndOfHeaders(r, rest);
      assert Terminated([""]) == CRLF;
    } else {
      var e, later := fields[0], HeaderLines(fields[1..]);
      HeaderRoundTrip(e);
      TerminatedCons(HeaderText(e), later);
      RunLine(RequestHeaders, r, HeaderText(e), Terminated(later) + rest);
      HeadersRoundTrip(r.(header := r.header[e.name := e.value]), fields[1..], rest);
      assert HeaderLines(fields) == [HeaderText(e)] + later;
      assert Terminated(HeaderLines(fields)) + rest == HeaderText(e) + CRLF + (Terminated(later) + rest);
    }
  }

  /** A printed request is served as it was, and exactly what follows it stays in the buffer. */
  lemma RequestRoundTrip(context: Request, verb: Method, path: string, version: string,
                         fields: seq<Entry>, rest: string)
    requires Printable(verb, path, version, fields)
    ensures Run(RequestLine, context, Print(verb, path, version, fields) + rest)
         == Served(Request(verb, path, version, AddAll(context.header, fields)), rest)
  {
    hide Run, FindCrlf, GoodFields, Until, AfterFirst, AfterLast;
    var line, later := RequestText(verb, path, version), Terminated(HeaderLines(fields));
    RunLine(RequestLine, context, line, later + rest);
    RequestLineRoundTrip(context, verb, path, version);
    HeadersRoundTrip(Request(verb, path, version, context.header), fields, rest);
    assert Print(verb, path, version, fields) + rest == line + CRLF + (later + rest);
  }

  predicate Distinct(fields: seq<Entry>) {
    forall i, j | 0 <= i < j < |fields| :: fields[i].name != fields[j].name
  }

  /** With distinct names the header map holds every field, and nothing else that is new. */
  lemma {:induction false} DistinctFields(header: map<string, string>, fields: seq<Entry>)
    requires Distinct(fields)
    ensures forall e <- fields :: e.name in AddAll(header, fields) && AddAll(header, fields)[e.name] == e.value
    ensures forall name | name in AddAll(header, fields) ::
              || (exists e :: e in fields && e.name == name)
              || (name in header && AddAll(header, fields)[name] == header[name])
    ensures forall name | name in header && (forall e <- fields :: e.name != name) ::
              name in AddAll(header, fields) && AddAll(header, fields)[name] == header[name]
    decreases |fields|
  {
    if fields != [] {
      var e, later := fields[0], fields[1..];
      assert fields == [e] + later;
      assert forall f <- later :: f.name != e.name;
      DistinctFields(header[e.name := e.value], later);
    }
  }

  // ----- The other requests -----

  /** Only the word GET is a GET; every other first word is taken for POST. */
  lemma VerbExactly(r: Request, line: string)
    ensures AfterRequestLine(r, line).verb == GET <==>
      line == "GET" || (|line| >= 4 && line[..4] == "GET ")
  {
    UntilSplits(line, ' ');
    var w := Until(line, ' ');
    if |line| >= 4 && line[..4] == "GET " {
      assert line == line[..3] + [' '] + line[4..] by {
        assert line[..4] == line[..3] + [line[3]] && line[3] == ' ';
      }
      assert Without(line[..3], ' ') by {
        assert line[0] == line[..4][0] == 'G' && line[1] == line[..4][1] == 'E' && line[2] == line[..4][2] == 'T';
      }
      UntilAt(line[..3], ' ', line[4..]);
      assert w == line[..3] == line[..4][..3] == "GET";
    } else if line == "GET" {
      OneWord(line, ' ');
    }
  }

  /** A request line of one word: it is verb, path and version; of two: the second is both path
      and version. */
  lemma ShortRequestLines(r: Request, a: string, b: string)
    requires Without(a, ' ') && Without(b, ' ')
    ensures AfterRequestLine(r, a).path == a && AfterRequestLine(r, a).version == a
    ensures AfterRequestLine(r, a + " " + b).path == b && AfterRequestLine(r, a + " " + b).version == b
  {
    OneWord(a, ' ');
    OneWord(b, ' ');
    UntilAt(a, ' ', b);
    AfterLastAt(a, ' ', b);
    assert a + " " + b == a + [' '] + b;
  }

  lemma OneWord(w: string, c: char)
    requires Without(w, c)
    ensures Until(w, c) == w && AfterFirst(w, c) == w && AfterLast(w, c) == w
  {
    UntilSplits(w, c);
    assert |Until(w, c)| == |w|;
    AllWord(w, c);
  }

  lemma {:induction false} AllWord(w: string, c: char)
    requires Without(w, c)
    ensures AfterLast(w, c) == w
  {
    if w != "" {
      AllWord(w[..|w| - 1], c);
    }
  }

  /** The headers end at an empty line or at one that begins with a colon; a line without a colon
      is a field with an empty value. */
  lemma HeaderCases(line: string)
    ensures ParseHeader(line) == LastLine <==> line == "" || line[0] == ':'
    ensures line != "" && Without(line, ':') ==> ParseHeader(line) == Field(line, "")
  {
    UntilSplits(line, ':');
    if Without(line, ':') {
      OneWord(line, ':');
    }
  }

  lemma BadLineThrows(r: Request, line: string, rest: string)
    requires FindCrlf(line).None? && ParseHeader(line) == OutOfRange
    ensures Run(RequestHeaders, r, line + CRLF + rest) == Threw(line + CRLF + rest)
  {
    FindCrlfAt(line, rest);
    assert (line + CRLF + rest)[..|line|] == line;
  }

  /** A header line that is out of range throws, after the fields before it, and stays in the
      buffer with all that follows. */
  lemma {:induction false} BadHeaderThrows(r: Request, fields: seq<Entry>, line: string, rest: string)
    requires GoodFields(fields) && FindCrlf(line).None? && ParseHeader(line) == OutOfRange
    ensures Run(RequestHeaders, r, FieldText(fields) + (line + CRLF + rest)) == Threw(line + CRLF + rest)
    decreases |fields|
  {
    var last := line + CRLF + rest;
    hide Run, ParseHeader, HeaderText;
    if fields == [] {
      BadLineThrows(r, line, rest);
      hide FindCrlf;
      assert FieldText(fields) + last == last;
    } else {
      var e, later := fields[0], fields[1..];
      HeaderRoundTrip(e);
      assert GoodFields(later) && FindCrlf(HeaderText(e)).None?;
      hide FindCrlf, GoodFields;
      RunLine(RequestHeaders, r, HeaderText(e), FieldText(later) + last);
      BadHeaderThrows(r.(header := r.header[e.name := e.value]), later, line, rest);
      Assoc(HeaderText(e) + CRLF, FieldText(later), last);
    }
  }

  function FieldText(fields: seq<Entry>): string {
    if fields == [] then "" else HeaderText(fields[0]) + CRLF + FieldText(fields[1..])
  }

  /** Of a printed request with distinct names, the reply has the Connection header that was sent. */
  lemma ConnectionHeader(context: Request, verb: Method, path: string, version: string, fields: seq<Entry>,
                         rest: string, e: Entry)
    requires Printable(verb, path, version, fields) && Distinct(fields) && e in fields && e.name == "Connection"
    ensures var out := Run(RequestLine, context, Print(verb, path, version, fields) + rest);
      out.Served? && "Connection" in out.request.header && out.request.header["Connection"] == e.value
  {
    hide Run, Print, Printable, AddAll;
    RequestRoundTrip(context, verb, path, version, fields, rest);
    DistinctFields(context.header, fields);
  }

  // ----- Requests split across reads -----

  /** The first request served when chunks arrive one by one: every call starts again from the
      request kept with the connection. */
  function FirstServed(state: State, context: Request, buf: string, chunks: seq<string>): Option<Request>
    requires state != RequestBody
    decreases |chunks|
  {
    if chunks == [] then None
    else match Run(state, context, buf + chunks[0])
      case Served(r, _) => Some(r)
      case Threw(_) => None
      case Blocked(s, b) => FirstServed(s, context, b, chunks[1..])
  }

  /** How many bytes are there, n of them from the start, before the chunk that reaches total. */
  function ArrivedBefore(n: nat, chunks: seq<string>, total: nat): (m: nat)
    ensures n <= m
    decreases |chunks|
  {
    if chunks == [] || n + |chunks[0]| >= total then n else ArrivedBefore(n + |chunks[0]|, chunks[1..], total)
  }

  /** How many header lines are whole among the first n bytes. */
  function WholeFields(fields: seq<Entry>, n: nat): (k: nat)
    ensures k <= |fields|
    decreases |fields|
  {
    if fields == [] || n < |HeaderText(fields[0])| + 2 then 0
    else 1 + WholeFields(fields[1..], n - |HeaderText(fields[0])| - 2)
  }

  function Headers(fields: seq<Entry>): string {
    Terminated(HeaderLines(fields))
  }

  /** The first of the header lines, and the rest of them. */
  function FirstLine(fields: seq<Entry>): string {
    if fields == [] then "" else HeaderText(fields[0])
  }

  lemma {:induction false} ArrivedShift(n: nat, d: nat, chunks: seq<string>, total: nat)
    ensures ArrivedBefore(n + d, chunks, total + d) == ArrivedBefore(n, chunks, total) + d
    decreases |chunks|
  {
    if chunks != [] {
      ArrivedShift(n + |chunks[0]|, d, chunks[1..], total);
    }
  }

  lemma HeadersCons(fields: seq<Entry>)
    requires fields != []
    ensures Headers(fields) == HeaderText(fields[0]) + CRLF + Headers(fields[1..])
  {
    TerminatedCons(HeaderText(fields[0]), HeaderLines(fields[1..]));
  }

  lemma UnfinishedLine(r: Request, fields: seq<Entry>, part: string)
    requires GoodFields(fields) && part <= Headers(fields) && |part| < |FirstLine(fields)| + 2
    ensures Run(RequestHeaders, r, part) == Blocked(RequestHeaders, part)
  {
    var line := FirstLine(fields);
    if fields == [] {
      assert Headers(fields) == line + CRLF;
    } else {
      HeadersCons(fields);
      assert part == (line + CRLF + Headers(fields[1..]))[..|part|] == (line + CRLF)[..|part|];
    }
    NoCrlfInPart(line, part);
  }

  /** A strict part of the header lines blocks after its k whole lines, of off bytes; n may be any
      number of bytes that have arrived by then. */
  lemma {:induction false} CutHeaders(r: Request, fields: seq<Entry>, part: string, n: nat) returns (k: nat, off: nat)
    requires GoodFields(fields) && part <= Headers(fields) && part != Headers(fields) && |part| <= n
    ensures k <= |fields| && off <= |part|
    ensures Run(RequestHeaders, r, part) == Blocked(RequestHeaders, part[off..])
    ensures |Headers(fields)| == off + |Headers(fields[k..])|
    ensures part[off..] <= Headers(fields[k..]) && |part| - off < |FirstLine(fields[k..])| + 2
    ensures Headers(fields)[off..] == Headers(fields[k..])
    ensures WholeFields(fields, n) == k + WholeFields(fields[k..], n - off)
    decreases |fields|
  {
    hide Run, ParseHeader, FindCrlf, Headers, GoodFields, WholeFields;
    if |part| < |FirstLine(fields)| + 2 {
      UnfinishedLine(r, fields, part);
      k, off := 0, 0;
      assert part[0..] == part && fields[0..] == fields && Headers(fields)[0..] == Headers(fields);
    } else {
      NotAtEnd(fields, part);
      var e, later := fields[0], fields[1..];
      var d := |HeaderText(e)| + 2;
      FirstField(r, fields, part, n);
      var rest := part[d..];
      var k', off' := CutHeaders(r.(header := r.header[e.name := e.value]), later, rest, n - d);
      k, off := k' + 1, off' + d;
      hide HeaderText;
      assert fields[k..] == later[k'..];
      assert part[off..] == rest[off'..];
      assert Headers(fields)[off..] == Headers(later)[off'..];
    }
  }

  lemma NotAtEnd(fields: seq<Entry>, part: string)
    requires part <= Headers(fields) && part != Headers(fields) && |part| >= |FirstLine(fields)| + 2
    ensures fields != []
  {
    assert Headers([]) == CRLF;
  }

  /** The first field line and the part after it. */
  lemma FirstField(r: Request, fields: seq<Entry>, part: string, n: nat)
    requires fields != [] && GoodFields(fields) && part <= Headers(fields) && part != Headers(fields)
    requires |HeaderText(fields[0])| + 2 <= |part| <= n
    ensures var e := fields[0]; var d := |HeaderText(e)| + 2; var rest := part[d..];
      && GoodFields(fields[1..])
      && rest <= Headers(fields[1..]) && rest != Headers(fields[1..])
      && Run(RequestHeaders, r, part) == Run(RequestHeaders, r.(header := r.header[e.name := e.value]), rest)
      && |Headers(fields)| == d + |Headers(fields[1..])| && Headers(fields)[d..] == Headers(fields[1..])
      && WholeFields(fields, n) == 1 + WholeFields(fields[1..], n - d)
  {
    var e, later := fields[0], fields[1..];
    HeaderRoundTrip(e);
    assert FindCrlf(HeaderText(e)).None?;
    HeadersCons(fields);
    hide Run, ParseHeader, FindCrlf, Headers, HeaderText;
    var line, tail := HeaderText(e), Headers(later);
    CutLine(line, tail, part);
    var rest := part[|line| + 2..];
    RunLine(RequestHeaders, r, line, rest);
    assert (line + CRLF + tail)[|line| + 2..] == tail;
  }

  /** The context with the fields from the k-th on. */
  function WithFields(context: Request, fields: seq<Entry>, k: nat): Request
    requires k <= |fields|
  {
    context.(header := AddAll(context.header, fields[k..]))
  }

  lemma LaterFields(context: Request, fields: seq<Entry>, k: nat, j: nat)
    requires k + j <= |fields|
    ensures WithFields(context, fields[k..], j) == WithFields(context, fields, k + j)
  {
    assert fields[k..][j..] == fields[k + j..];
  }

  /** From the middle of the headers on, every call starts again from the context: what is served
      has the context's first line and the fields that came whole with the last chunk. */
  lemma {:induction false} HeadersInChunks(context: Request, fields: seq<Entry>, buf: string, chunks: seq<string>)
    requires GoodFields(fields) && buf + Flatten(chunks) == Headers(fields) && |buf| < |FirstLine(fields)| + 2
    ensures FirstServed(RequestHeaders, context, buf, chunks)
         == Some(WithFields(context, fields, WholeFields(fields, ArrivedBefore(|buf|, chunks, |Headers(fields)|))))
    decreases |chunks|
  {
    hide Run, GoodFields, Headers, AddAll, WholeFields, WithFields, FirstLine, FirstServed, ArrivedBefore, Flatten;
    var whole := Headers(fields);
    LongerThanFirst(fields);
    NotNothing(buf, chunks, whole);
    var b, later := buf + chunks[0], chunks[1..];
    JoinChunk(buf, chunks, whole);
    NextChunk(RequestHeaders, context, buf, chunks, |whole|);
    if |b| == |whole| {
      LastChunk(context, fields, b);
      NoWholeField(fields, |buf|);
    } else {
      var n := ArrivedBefore(|b|, later, |whole|);
      var k, off := CutHeaders(context, fields, b, n);
      NextChunks(fields, b, later, k, off);
      GoodLater(fields, k);
      HeadersInChunks(context, fields[k..], b[off..], later);
      ArrivedShift(|b| - off, off, later, |Headers(fields[k..])|);
      LaterFields(context, fields, k, WholeFields(fields[k..], n - off));
    }
  }

  lemma NotNothing(buf: string, chunks: seq<string>, whole: string)
    requires buf + Flatten(chunks) == whole && |buf| < |whole|
    ensures chunks != []
  {
  }

  lemma NoWholeField(fields: seq<Entry>, n: nat)
    requires n < |FirstLine(fields)| + 2
    ensures WholeFields(fields, n) == 0
  {
  }

  lemma LastChunk(context: Request, fields: seq<Entry>, b: string)
    requires GoodFields(fields) && b == Headers(fields)
    ensures Run(RequestHeaders, context, b) == Served(WithFields(context, fields, 0), "")
  {
    hide Run, GoodFields;
    HeadersRoundTrip(context, fields, "");
    assert b + "" == b && fields[0..] == fields;
  }

  /** One chunk more: the count and what is served. */
  lemma NextChunk(state: State, context: Request, buf: string, chunks: seq<string>, total: nat)
    requires state != RequestBody && chunks != []
    ensures ArrivedBefore(|buf|, chunks, total)
         == if |buf + chunks[0]| >= total then |buf| else ArrivedBefore(|buf + chunks[0]|, chunks[1..], total)
    ensures var out := Run(state, context, buf + chunks[0]);
      && (out.Served? ==> FirstServed(state, context, buf, chunks) == Some(out.request))
      && (out.Blocked? ==>
            FirstServed(state, context, buf, chunks) == FirstServed(out.state, context, out.rest, chunks[1..]))
  {
    hide Run;
  }

  lemma LongerThanFirst(fields: seq<Entry>)
    ensures |Headers(fields)| >= |FirstLine(fields)| + 2
  {
    if fields != [] {
      HeadersCons(fields);
    } else {
      assert Headers(fields) == CRLF;
    }
  }

  lemma JoinChunk(buf: string, chunks: seq<string>, whole: string)
    requires chunks != [] && buf + Flatten(chunks) == whole
    ensures var b := buf + chunks[0];
      b + Flatten(chunks[1..]) == whole && b <= whole && (|b| == |whole| ==> b == whole)
  {
    var b := buf + chunks[0];
    assert b + Flatten(chunks[1..]) == whole;
    hide Flatten;
    assert b == whole[..|b|];
  }

  lemma GoodLater(fields: seq<Entry>, k: nat)
    requires k <= |fields| && GoodFields(fields)
    ensures GoodFields(fields[k..])
  {
  }

  lemma NextChunks(fields: seq<Entry>, b: string, later: seq<string>, k: nat, off: nat)
    requires k <= |fields| && off <= |b| && b + Flatten(later) == Headers(fields)
    requires Headers(fields)[off..] == Headers(fields[k..])
    ensures b[off..] + Flatten(later) == Headers(fields[k..])
  {
    hide *;
    assert (b + Flatten(later))[off..] == b[off..] + Flatten(later);
  }

  /** What is served of a request in any chunks: all of it, if the chunk that completes it starts
      within its first line; otherwise the first line of the context, with the fields whose lines
      were not whole before. */
  function ServedInChunks(context: Request, sent: Request, fields: seq<Entry>, l: nat, before: nat): Request {
    if before < l then sent.(header := AddAll(context.header, fields))
    else WithFields(context, fields, WholeFields(fields, before - l))
  }

  lemma {:induction false} SplitServes(context: Request, sent: Request, fields: seq<Entry>,
                                       buf: string, chunks: seq<string>)
    requires Printable(sent.verb, sent.path, sent.version, fields)
    requires buf + Flatten(chunks) == Print(sent.verb, sent.path, sent.version, fields)
    requires |buf| < |RequestText(sent.verb, sent.path, sent.version)| + 2
    ensures var l := |RequestText(sent.verb, sent.path, sent.version)| + 2;
            var before := ArrivedBefore(|buf|, chunks, |Print(sent.verb, sent.path, sent.version, fields)|);
      FirstServed(RequestLine, context, buf, chunks) == Some(ServedInChunks(context, sent, fields, l, before))
    decreases |chunks|
  {
    hide Headers, RequestText, Run, AddAll, WholeFields, GoodFields, FirstServed, ArrivedBefore, Flatten, WithFields,
      FindCrlf;
    var line := RequestText(sent.verb, sent.path, sent.version);
    var whole := Print(sent.verb, sent.path, sent.version, fields);
    PrintParts(line, whole, fields);
    NotNothing(buf, chunks, whole);
    var b, later := buf + chunks[0], chunks[1..];
    JoinChunk(buf, chunks, whole);
    NextChunk(RequestLine, context, buf, chunks, |whole|);
    if |b| < |line| + 2 {
      assert b <= line + CRLF by {
        assert b == whole[..|b|] == (line + CRLF)[..|b|];
      }
      UnfinishedFirst(context, line, b);
      hide Print, Printable, ServedInChunks;
      SplitServes(context, sent, fields, b, later);
    } else if |b| == |whole| {
      RequestRoundTrip(context, sent.verb, sent.path, sent.version, fields, "");
      assert whole + "" == b;
    } else {
      MoreToCome(b, later, whole);
      SplitInHeaders(context, sent, fields, b, later);
    }
  }

  lemma PrintParts(line: string, whole: string, fields: seq<Entry>)
    requires whole == line + CRLF + Terminated(HeaderLines(fields))
    ensures whole == line + CRLF + Headers(fields) && |line| + 2 < |whole|
    ensures |whole| == |line| + 2 + |Headers(fields)|
  {
    LongerThanFirst(fields);
  }

  lemma MoreToCome(b: string, later: seq<string>, whole: string)
    requires b + Flatten(later) == whole && |b| != |whole|
    ensures Flatten(later) != ""
  {
  }

  lemma UnfinishedFirst(r: Request, line: string, part: string)
    requires FindCrlf(line).None? && part <= line + CRLF && |part| < |line| + 2
    ensures Run(RequestLine, r, part) == Blocked(RequestLine, part)
  {
    NoCrlfInPart(line, part);
  }

  /** A chunk that ends within the headers. */
  lemma CutRequest(context: Request, line: string, fields: seq<Entry>, b: string, later: seq<string>, n: nat)
    returns (k: nat, off: nat)
    requires FindCrlf(line).None? && GoodFields(fields)
    requires b + Flatten(later) == line + CRLF + Headers(fields)
    requires |line| + 2 <= |b| <= n && Flatten(later) != ""
    ensures var l := |line| + 2;
      && k <= |fields| && off <= |b| - l
      && Run(RequestLine, context, b) == Blocked(RequestHeaders, b[l + off..])
      && b[l + off..] + Flatten(later) == Headers(fields[k..])
      && |b| - l - off < |FirstLine(fields[k..])| + 2
      && |Headers(fields)| == off + |Headers(fields[k..])|
      && WholeFields(fields, n - l) == k + WholeFields(fields[k..], n - l - off)
  {
    hide Run, GoodFields, Headers, WholeFields, FirstLine, AfterRequestLine, FindCrlf, Flatten;
    var l := |line| + 2;
    PastLine(line, Headers(fields), b, Flatten(later));
    var rest := b[l..];
    RunLine(RequestLine, context, line, rest);
    PartOf(rest, Flatten(later), Headers(fields));
    k, off := CutHeaders(AfterRequestLine(context, line), fields, rest, n - l);
    NextChunks(fields, rest, later, k, off);
    assert rest[off..] == b[l + off..];
  }

  lemma SplitInHeaders(context: Request, sent: Request, fields: seq<Entry>, b: string, later: seq<string>)
    requires Printable(sent.verb, sent.path, sent.version, fields)
    requires b + Flatten(later) == RequestText(sent.verb, sent.path, sent.version) + CRLF + Headers(fields)
    requires |RequestText(sent.verb, sent.path, sent.version)| + 2 <= |b| && Flatten(later) != ""
    ensures var l := |RequestText(sent.verb, sent.path, sent.version)| + 2;
            var n := ArrivedBefore(|b|, later, l + |Headers(fields)|);
            var out := Run(RequestLine, context, b);
      && n >= l && out.Blocked? && out.state == RequestHeaders
      && FirstServed(RequestHeaders, context, out.rest, later)
         == Some(WithFields(context, fields, WholeFields(fields, n - l)))
  {
    hide Run, GoodFields, Headers, AddAll, WholeFields, WithFields, FirstLine, RequestText, AfterRequestLine, FindCrlf,
      FirstServed, Flatten, ArrivedBefore;
    var line := RequestText(sent.verb, sent.path, sent.version);
    var l := |line| + 2;
    var n := ArrivedBefore(|b|, later, l + |Headers(fields)|);
    var k, off := CutRequest(context, line, fields, b, later, n);
    GoodLater(fields, k);
    HeadersInChunks(context, fields[k..], b[l + off..], later);
    ArrivedShift(|b| - l - off, off + l, later, |Headers(fields[k..])|);
    LaterFields(context, fields, k, WholeFields(fields[k..], n - l - off));
  }

  lemma PartOf(a: string, b: string, whole: string)
    requires a + b == whole && b != ""
    ensures a <= whole && a != whole
  {
  }

  lemma PastLine(line: string, tail: string, b: string, more: string)
    requires b + more == line + CRLF + tail && |b| >= |line| + 2
    ensures b == line + CRLF + b[|line| + 2..]
    ensures b[|line| + 2..] + more == tail
  {
    assert b <= line + CRLF + tail by {
      assert b == (line + CRLF + tail)[..|b|];
    }
    CutLine(line, tail, b);
    assert (b + more)[|line| + 2..] == b[|line| + 2..] + more;
    assert (line + CRLF + tail)[|line| + 2..] == tail;
  }

  lemma ServedIsSent(context: Request, sent: Request, fields: seq<Entry>, l: nat, before: nat)
    requires sent.header == AddAll(context.header, fields)
    ensures ServedInChunks(context, sent, fields, l, before) == sent <==>
            || before < l
            || ((context.verb, context.path, context.version) == (sent.verb, sent.path, sent.version)
                && AddAll(context.header, fields[WholeFields(fields, before - l)..]) == AddAll(context.header, fields))
  {
    hide AddAll, WholeFields;
  }

  /** So a request is served intact, however it is split, exactly when the chunk that completes it
      starts within its first line, or what was lost before that chunk is in the context anyway. */
  lemma SplitIntactExactly(context: Request, sent: Request, fields: seq<Entry>, chunks: seq<string>)
    requires Printable(sent.verb, sent.path, sent.version, fields) && sent.header == AddAll(context.header, fields)
    requires Flatten(chunks) == Print(sent.verb, sent.path, sent.version, fields)
    ensures var l := |RequestText(sent.verb, sent.path, sent.version)| + 2;
            var before := ArrivedBefore(0, chunks, |Print(sent.verb, sent.path, sent.version, fields)|);
      FirstServed(RequestLine, context, "", chunks) == Some(sent) <==>
        || before < l
        || ((context.verb, context.path, context.version) == (sent.verb, sent.path, sent.version)
            && AddAll(context.header, fields[WholeFields(fields, before - l)..]) == AddAll(context.header, fields))
  {
    hide *;
    assert "" + Flatten(chunks) == Flatten(chunks);
    SplitServes(context, sent, fields, "", chunks);
    ServedIsSent(context, sent, fields, |RequestText(sent.verb, sent.path, sent.version)| + 2,
                 ArrivedBefore(0, chunks, |Print(sent.verb, sent.path, sent.version, fields)|));
  }
}
