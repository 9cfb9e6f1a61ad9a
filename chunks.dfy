/**
 * Bytes, Java `int` arithmetic and sequences of chunks: what a stream hands out
 * one `read` at a time.
 */
module Chunks {
  /** A Java `byte` as it travels through `InputStream.read`/`OutputStream.write`. */
  type Byte = b: int | 0 <= b < 256

  const INT_MIN: int := -0x8000_0000
  const INT_MAX: int := 0x7fff_ffff
  const TWO_32: int := 0x1_0000_0000

  predicate IsInt32(x: int) {
    INT_MIN <= x <= INT_MAX
  }

  /** The value Java's 32-bit `int` holds for the mathematical integer `x` (two's complement). */
  function Wrap32(x: int): int
  {
    (x - INT_MIN) % TWO_32 + INT_MIN
  }

  /**
   * `Wrap32(x)` is a 32-bit value, congruent to `x` modulo 2^32, and `x` itself
   * when `x` fits. (Stated as a lemma rather than on the function, so that the
   * modular arithmetic is only in scope where a proof asks for it.)
   */
  lemma Wrap32Facts(x: int)
    ensures IsInt32(Wrap32(x))
    ensures (x - Wrap32(x)) % TWO_32 == 0
    ensures IsInt32(x) ==> Wrap32(x) == x
  {
  }

  /** Two 32-bit values that agree modulo 2^32 are the same value. */
  lemma Wrap32Unique(x: int, y: int)
    requires IsInt32(y) && (x - y) % TWO_32 == 0
    ensures Wrap32(x) == y
  {
    var r := Wrap32(x);
    Wrap32Facts(x);
    MultipleDiff(x - r, x - y);
    var k := (y - r) / TWO_32;
    assert y - r == TWO_32 * k;
    assert -TWO_32 < y - r < TWO_32;
  }

  /** The difference of two multiples of 2^32 is a multiple of 2^32. */
  lemma MultipleDiff(p: int, q: int)
    requires p % TWO_32 == 0 && q % TWO_32 == 0
    ensures (p - q) % TWO_32 == 0
  {
    var kp, kq := p / TWO_32, q / TWO_32;
    assert p == TWO_32 * kp;
    assert q == TWO_32 * kq;
    assert p - q == TWO_32 * (kp - kq);
  }

  /** Accumulating `total += res` in an `int` never loses the true sum modulo 2^32. */
  lemma Wrap32Add(a: int, b: int)
    ensures Wrap32(Wrap32(a) + b) == Wrap32(a + b)
  {
    var r := Wrap32(a + b);
    MultipleDiff(a + b - r, a - Wrap32(a));
    assert (a + b - r) - (a - Wrap32(a)) == Wrap32(a) + b - r;
    Wrap32Unique(Wrap32(a) + b, r);
  }

  /** A log extended by `xy` is the log extended by `x` and then by `y`, when `xy` is `x` followed by `y`. */
  lemma Regroup<T>(log: seq<T>, x: seq<T>, y: seq<T>, xy: seq<T>)
    requires xy == x + y
    ensures log + xy == log + x + y
  {
  }

  /** The same for a log extended by three pieces at once. */
  lemma Regroup3<T>(log: seq<T>, x: seq<T>, y: seq<T>, z: seq<T>, xyz: seq<T>)
    requires xyz == x + y + z
    ensures log + x + y + z == log + xyz
  {
  }

  /** What a log extended by two pieces holds past its old end. */
  lemma DropPrefix<T>(log: seq<T>, x: seq<T>, y: seq<T>, whole: seq<T>)
    requires whole == log + x + y
    ensures |whole| >= |log| && whole[|log|..] == x + y
  {
    assert whole == log + (x + y);
  }

  /** A log extended by two pieces still begins with the old log. */
  lemma KeepsPrefix<T>(log: seq<T>, x: seq<T>, y: seq<T>, whole: seq<T>)
    requires whole == log + x + y
    ensures |whole| >= |log| && whole[..|log|] == log
  {
    assert whole == log + (x + y);
  }

  /** How a stream ends once its chunks are read: `read` returns -1 (and `close` may throw), or `read` throws. */
  datatype StreamEnd = EndOfStream(closeFails: bool) | ReadFailure

  /** An input stream as the chunks successive `read(buff)` calls return, and how it ends. */
  datatype Stream<T> = Stream(chunks: seq<seq<T>>, end: StreamEnd)

  /** The concatenation of all chunks, in the order they were read. */
  function Flatten<T>(cs: seq<seq<T>>): seq<T>
  {
    if cs == [] then [] else Flatten(cs[..|cs| - 1]) + cs[|cs| - 1]
  }

  /** The number of elements in all chunks together. */
  function TotalLength<T>(cs: seq<seq<T>>): nat
  {
    if cs == [] then 0 else TotalLength(cs[..|cs| - 1]) + |cs[|cs| - 1]|
  }

  /** Every chunk is a legal result of `read(buff)` on a buffer of `limit` elements: 1 to `limit` long. */
  predicate ChunksFit<T>(cs: seq<seq<T>>, limit: int)
  {
    forall i :: 0 <= i < |cs| ==> 1 <= |cs[i]| <= limit
  }

  lemma {:induction false} FlattenLength<T>(cs: seq<seq<T>>)
    ensures |Flatten(cs)| == TotalLength(cs)
  {
    if cs != [] {
      FlattenLength(cs[..|cs| - 1]);
    }
  }

  lemma {:induction false} FlattenAppend<T>(a: seq<seq<T>>, b: seq<seq<T>>)
    ensures Flatten(a + b) == Flatten(a) + Flatten(b)
  {
    if b == [] {
      assert a + b == a;
    } else {
      var b' := b[..|b| - 1];
      assert (a + b)[..|a + b| - 1] == a + b';
      FlattenAppend(a, b');
    }
  }

  lemma {:induction false} TotalLengthAppend<T>(a: seq<seq<T>>, b: seq<seq<T>>)
    ensures TotalLength(a + b) == TotalLength(a) + TotalLength(b)
  {
    if b == [] {
      assert a + b == a;
    } else {
      var b' := b[..|b| - 1];
      assert (a + b)[..|a + b| - 1] == a + b';
      TotalLengthAppend(a, b');
    }
  }

  /** Reading one more chunk extends the data read so far by exactly that chunk. */
  lemma FlattenSnoc<T>(cs: seq<seq<T>>, i: nat)
    requires i < |cs|
    ensures Flatten(cs[..i + 1]) == Flatten(cs[..i]) + cs[i]
    ensures TotalLength(cs[..i + 1]) == TotalLength(cs[..i]) + |cs[i]|
  {
    assert cs[..i + 1][..i] == cs[..i];
  }

  /** A slice one element longer is the shorter slice and that element. */
  lemma SliceSnoc<T>(s: seq<T>, pos: nat, i: nat)
    requires pos <= i < |s|
    ensures |s[pos..i + 1]| == i + 1 - pos
    ensures s[pos..i + 1][..i - pos] == s[pos..i] && s[pos..i + 1][i - pos] == s[i]
  {
  }

  /** The length of the chunks before `stop` is that of those before `pos` and of those between. */
  lemma TotalLengthSplit<T>(cs: seq<seq<T>>, pos: nat, stop: nat)
    requires pos <= stop <= |cs|
    ensures TotalLength(cs[..stop]) == TotalLength(cs[..pos]) + TotalLength(cs[pos..stop])
  {
    assert cs[..stop] == cs[..pos] + cs[pos..stop];
    TotalLengthAppend(cs[..pos], cs[pos..stop]);
  }

  /** Fitting chunks hold at least one element each, so there are no more chunks than elements. */
  lemma {:induction false} ChunkCountBound<T>(cs: seq<seq<T>>, limit: int)
    requires ChunksFit(cs, limit)
    ensures |cs| <= TotalLength(cs) <= |cs| * limit
  {
    if cs != [] {
      var p := cs[..|cs| - 1];
      assert ChunksFit(p, limit) by {
        forall i | 0 <= i < |p| ensures 1 <= |p[i]| <= limit {
          assert p[i] == cs[i];
        }
      }
      ChunkCountBound(p, limit);
    }
  }
}
