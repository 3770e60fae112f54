/** Small value types shared by every module of the model. */
module Base {

  /** A value that may be absent; stands for C#'s `null` where the source returns or stores it. */
  datatype Option<+T> = None | Some(value: T)

  /** An 8-bit unsigned value, C#'s `byte`. */
  newtype byte = x: int | 0 <= x < 256

  /** A prefix grows by the next element. */
  lemma PrefixSnoc<T>(s: seq<T>, i: nat)
    requires i < |s|
    ensures s[..i] + [s[i]] == s[..i + 1]
  {
  }

  /** Concatenation of a sequence of byte buffers, in order. */
  function Flatten(buffers: seq<seq<byte>>): (r: seq<byte>)
    decreases |buffers|
  {
    if buffers == [] then [] else Flatten(buffers[..|buffers| - 1]) + buffers[|buffers| - 1]
  }

  /** Writing buffers one after another gives the concatenation of the two runs. */
  lemma {:induction false} FlattenAppend(a: seq<seq<byte>>, b: seq<seq<byte>>)
    ensures Flatten(a + b) == Flatten(a) + Flatten(b)
    decreases |b|
  {
    if b == [] {
      assert a + b == a;
    } else {
      var b', last := b[..|b| - 1], b[|b| - 1];
      assert (a + b)[..|a + b| - 1] == a + b';
      assert (a + b)[|a + b| - 1] == last;
      assert Flatten(a + b) == Flatten(a + b') + last;
      FlattenAppend(a, b');
      assert Flatten(b) == Flatten(b') + last;
    }
  }

  /** The total length of the concatenation is the sum of the buffer lengths. */
  function TotalLength(buffers: seq<seq<byte>>): nat
    decreases |buffers|
  {
    if buffers == [] then 0 else TotalLength(buffers[..|buffers| - 1]) + |buffers[|buffers| - 1]|
  }

  lemma {:induction false} FlattenLength(buffers: seq<seq<byte>>)
    ensures |Flatten(buffers)| == TotalLength(buffers)
    decreases |buffers|
  {
    if buffers != [] {
      FlattenLength(buffers[..|buffers| - 1]);
    }
  }
}
