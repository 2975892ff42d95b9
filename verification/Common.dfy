/** Shared value types: options, octets and the flattening of a list of chunks. */
module Common {
  datatype Option<+T> = None | Some(value: T)

  /** One octet of a byte stream. */
  type byte = x: int | 0 <= x < 256

  /** The bytes of all chunks, in order. */
  function Flatten<T>(chunks: seq<seq<T>>): seq<T> {
    if chunks == [] then [] else chunks[0] + Flatten(chunks[1..])
  }

  lemma Assoc<T>(a: seq<T>, b: seq<T>, c: seq<T>)
    ensures a + (b + c) == a + b + c
  {
  }

  lemma FlattenCons<T>(x: seq<T>, a: seq<seq<T>>)
    ensures Flatten([x] + a) == x + Flatten(a)
  {
    assert ([x] + a)[1..] == a;
  }

  lemma {:induction false} FlattenAppend<T>(a: seq<seq<T>>, b: seq<seq<T>>)
    ensures Flatten(a + b) == Flatten(a) + Flatten(b)
  {
    if a == [] {
      assert a + b == b;
    } else {
      var x, rest := a[0], a[1..];
      FlattenAppend(rest, b);
      FlattenCons(x, rest);
      FlattenCons(x, rest + b);
      Assoc(x, Flatten(rest), Flatten(b));
      hide Flatten;
      assert a == [x] + rest && a + b == [x] + (rest + b);
    }
  }

  lemma FlattenSnoc<T>(a: seq<seq<T>>, x: seq<T>)
    ensures Flatten(a + [x]) == Flatten(a) + x
  {
    FlattenAppend(a, [x]);
    assert Flatten([x]) == x + Flatten<T>([]) == x;
  }
}
