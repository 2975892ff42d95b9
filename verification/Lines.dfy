/** Lines of text ended by CRLF. */
module Lines {
  import opened Common

  const CRLF := "\r\n"

  /** std::search for CRLF. */
  function FindCrlf(buf: string): (r: Option<nat>)
    ensures r.Some? ==> r.value + 2 <= |buf|
  {
    if |buf| < 2 then None
    else if buf[..2] == CRLF then Some(0)
    else match FindCrlf(buf[1..]) case None => None case Some(i) => Some(i + 1)
  }

  lemma {:induction false} FindCrlfExtends(a: string, b: string)
    requires FindCrlf(a).Some?
    ensures FindCrlf(a + b) == FindCrlf(a)
  {
    assert (a + b)[..2] == a[..2];
    if a[..2] != CRLF {
      FindCrlfExtends(a[1..], b);
      assert (a + b)[1..] == a[1..] + b;
    }
  }

  lemma {:induction false} FindCrlfAt(line: string, rest: string)
    requires FindCrlf(line).None?
    ensures FindCrlf(line + CRLF + rest) == Some(|line|)
  {
    var buf := line + CRLF + rest;
    if line == "" {
      assert buf[..2] == CRLF;
    } else {
      assert buf[1..] == line[1..] + CRLF + rest;
      FindCrlfAt(line[1..], rest);
      assert buf[..2] != CRLF by {
        if |line| >= 2 { assert buf[..2] == line[..2]; } else { assert buf[1] == '\r'; }
      }
    }
  }

  /** No part of an unfinished line looks like a line. */
  lemma {:induction false} NoCrlfInPart(line: string, part: string)
    requires FindCrlf(line).None? && part <= line + CRLF && |part| < |line| + 2
    ensures FindCrlf(part).None?
  {
    if |part| >= 2 {
      assert part[0] == (line + CRLF)[0] && part[1] == (line + CRLF)[1];
      assert line != "";
      assert part[..2] != CRLF by {
        if |line| >= 2 { assert part[..2] == line[..2]; } else { assert part[1] == '\r'; }
      }
      assert part[1..] <= line[1..] + CRLF;
      NoCrlfInPart(line[1..], part[1..]);
    }
  }

  /** Lines as they are sent. */
  function Terminated(lines: seq<string>): string {
    if lines == [] then "" else lines[0] + CRLF + Terminated(lines[1..])
  }

  lemma TerminatedCons(line: string, later: seq<string>)
    ensures Terminated([line] + later) == line + CRLF + Terminated(later)
  {
    assert ([line] + later)[1..] == later;
  }

  /** A prefix that holds the first line is that line followed by a prefix of what comes next. */
  lemma CutLine(line: string, tail: string, part: string)
    requires part <= line + CRLF + tail && |part| >= |line| + 2
    ensures part == line + CRLF + part[|line| + 2..]
    ensures part[|line| + 2..] <= tail
  {
    var n, whole := |line| + 2, line + CRLF + tail;
    assert part == whole[..|part|];
    assert whole[..n] == line + CRLF && whole[n..] == tail;
    assert part[..n] == whole[..n];
    assert part[n..] == whole[n..][..|part| - n];
  }
}
