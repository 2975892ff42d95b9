/**
 Incremental consumption of a byte stream. A parser looks at its state and at the buffer:
 it waits for more, rejects what is at the head, or advances to a new state past some bytes.
 The connection appends every arriving chunk to the buffer and runs the parser until it stops.
 */
module Streaming {
  import opened Common

  datatype Verdict<+S, +E> =
    | Wait
    | Reject(state: S, error: E)
    | Advance(state: S, used: nat)

  type Parser<!S, !B, !E> = (S, seq<B>) -> Verdict<S, E>

  /** Judgements that later bytes cannot change: an advance uses bytes that are there, a verdict
      given on a buffer is given on every extension, and a rejected head is rejected again. */
  ghost predicate Incremental<S(!new), B(!new), E(!new)>(p: Parser<S, B, E>) {
    && (forall s, a :: p(s, a).Advance? ==> 0 < p(s, a).used <= |a|)
    && (forall s, a, b {:trigger p(s, a + b)} :: !p(s, a).Wait? ==> p(s, a + b) == p(s, a))
    && (forall s, a :: p(s, a).Reject? ==> p(p(s, a).state, a) == p(s, a))
  }

  datatype Stop<+S, B, +E> = Stop(state: S, rest: seq<B>, error: Option<E>)

  /** The parser loop on one buffer. */
  ghost function Consume<S(!new), B(!new), E(!new)>(p: Parser<S, B, E>, s: S, buf: seq<B>): (r: Stop<S, B, E>)
    requires Incremental(p)
    decreases |buf|
  {
    match p(s, buf)
    case Wait => Stop(s, buf, None)
    case Reject(s', e) => Stop(s', buf, Some(e))
    case Advance(s', n) => Consume(p, s', buf[n..])
  }

  /** What is left at the end is stuck: running the loop again on it changes nothing. */
  lemma {:induction false} ConsumeStops<S(!new), B(!new), E(!new)>(p: Parser<S, B, E>, s: S, buf: seq<B>)
    requires Incremental(p)
    ensures var r := Consume(p, s, buf); Consume(p, r.state, r.rest) == r
    decreases |buf|
  {
    match p(s, buf)
    case Wait =>
    case Reject(s', e) =>
    case Advance(s', n) => ConsumeStops(p, s', buf[n..]);
  }

  /** Bytes that arrive later are consumed as if they had been there from the start. */
  lemma {:induction false} ConsumeAppend<S(!new), B(!new), E(!new)>(p: Parser<S, B, E>, s: S, buf: seq<B>, more: seq<B>)
    requires Incremental(p)
    ensures var r := Consume(p, s, buf); Consume(p, s, buf + more) == Consume(p, r.state, r.rest + more)
    decreases |buf|
  {
    var verdict := p(s, buf);
    if !verdict.Wait? {
      assert p(s, buf + more) == verdict;
    }
    match verdict
    case Wait =>
    case Reject(s', e) =>
      assert p(s', buf + more) == p(s', buf);
    case Advance(s', n) =>
      assert (buf + more)[n..] == buf[n..] + more;
      ConsumeAppend(p, s', buf[n..], more);
  }

  /** Once a call has reported an error, later bytes change neither the state nor the error. */
  lemma ErrorSticks<S(!new), B(!new), E(!new)>(p: Parser<S, B, E>, s: S, buf: seq<B>, more: seq<B>)
    requires Incremental(p) && Consume(p, s, buf).error.Some?
    ensures var r := Consume(p, s, buf); Consume(p, s, buf + more) == Stop(r.state, r.rest + more, r.error)
  {
    ConsumeAppend(p, s, buf, more);
    ConsumeStops(p, s, buf);
    RejectedHead(p, s, buf);
    var r := Consume(p, s, buf);
    assert p(r.state, r.rest + more) == p(r.state, r.rest);
  }

  lemma {:induction false} RejectedHead<S(!new), B(!new), E(!new)>(p: Parser<S, B, E>, s: S, buf: seq<B>)
    requires Incremental(p)
    ensures var r := Consume(p, s, buf);
      r.error.Some? ==> p(r.state, r.rest) == Reject(r.state, r.error.value)
    decreases |buf|
  {
    if p(s, buf).Advance? {
      RejectedHead(p, p(s, buf).state, buf[p(s, buf).used..]);
    }
  }

  /** A connection that has received the chunks one by one, with what each call reported. */
  datatype Fed<+S, B, +E> = Fed(state: S, rest: seq<B>, errors: seq<Option<E>>)

  ghost function Feed<S(!new), B(!new), E(!new)>(p: Parser<S, B, E>, s: S, chunks: seq<seq<B>>): (f: Fed<S, B, E>)
    requires Incremental(p)
    ensures |f.errors| == |chunks|
  {
    if chunks == [] then Fed(s, [], [])
    else
      var before := Feed(p, s, chunks[..|chunks| - 1]);
      var r := Consume(p, before.state, before.rest + chunks[|chunks| - 1]);
      Fed(r.state, r.rest, before.errors + [r.error])
  }

  /** For every stream, valid or not, and every way to cut it into chunks: the calls together
      reach the state and the left-over buffer of one call on the whole stream, and each call
      reports what one call on the bytes received so far would report. */
  lemma {:induction false} ChunkIndependence<S(!new), B(!new), E(!new)>(p: Parser<S, B, E>, s: S, chunks: seq<seq<B>>)
    requires Incremental(p) && p(s, []).Wait?
    ensures var f := Feed(p, s, chunks); var r := Consume(p, s, Flatten(chunks));
      f.state == r.state && f.rest == r.rest
    ensures forall i :: 0 <= i < |chunks| ==>
      Feed(p, s, chunks).errors[i] == Consume(p, s, Flatten(chunks[..i + 1])).error
  {
    if chunks != [] {
      var n := |chunks| - 1;
      var before, last := chunks[..n], chunks[n];
      ChunkIndependence(p, s, before);
      assert chunks == before + [last];
      FlattenSnoc(before, last);
      ConsumeAppend(p, s, Flatten(before), last);
      forall i | 0 <= i < |chunks|
        ensures Feed(p, s, chunks).errors[i] == Consume(p, s, Flatten(chunks[..i + 1])).error
      {
        if i < n {
          assert chunks[..i + 1] == before[..i + 1];
        } else {
          assert chunks[..i + 1] == chunks;
        }
      }
    }
  }

  /** If the whole stream is consumed without an error, no call on a part of it reports one. */
  lemma NoErrorBefore<S(!new), B(!new), E(!new)>(p: Parser<S, B, E>, s: S, chunks: seq<seq<B>>)
    requires Incremental(p) && p(s, []).Wait?
    requires Consume(p, s, Flatten(chunks)).error.None?
    ensures forall e <- Feed(p, s, chunks).errors :: e.None?
  {
    ChunkIndependence(p, s, chunks);
    forall i | 0 <= i < |chunks|
      ensures Feed(p, s, chunks).errors[i].None?
    {
      var prefix, suffix := chunks[..i + 1], chunks[i + 1..];
      if Consume(p, s, Flatten(prefix)).error.Some? {
        assert chunks == prefix + suffix;
        FlattenAppend(prefix, suffix);
        ErrorSticks(p, s, Flatten(prefix), Flatten(suffix));
        assert false;
      }
    }
  }
}
