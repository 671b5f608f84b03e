/** Byte strings with the meaning Python gives them: indexing can raise, slicing clamps, and
    fixed-width conversions raise on the wrong width. */
module Bytes {
  type Byte = b: nat | b < 256

  type Uuid = s: seq<Byte> | |s| == 16 witness seq(16, i => 0)

  datatype Option<+T> = None | Some(value: T)

  /** The exceptions the codec can raise.  `Invalid` is an explicit length or value check;
      `IndexError` and `SizeError` are what an unguarded index or fixed-width read would raise. */
  datatype Error = Invalid | IndexError | SizeError | RangeError | UnicodeError | ForeignError

  datatype Result<+T> = Success(value: T) | Failure(error: Error) {
    predicate IsFailure() {
      Failure?
    }

    /** Total, so that a step that never fails in its place needs no dead branch. */
    function PropagateFailure<U>(): Result<U> {
      Failure(if Failure? then error else Invalid)
    }

    function Extract(): T
      requires Success?
    {
      value
    }
  }

  /** A non-empty set has a member. */
  lemma Member<T>(s: set<T>) returns (x: T)
    requires s != {}
    ensures x in s
  {
    x :| x in s;
  }

  function Min(a: nat, b: nat): nat {
    if a < b then a else b
  }

  /** `s[i]` */
  function At(s: seq<Byte>, i: nat): Result<Byte> {
    if i < |s| then Success(s[i]) else Failure(IndexError)
  }

  /** `s[lo:hi]` */
  function Clip(s: seq<Byte>, lo: nat, hi: nat): seq<Byte>
    requires lo <= hi
  {
    s[Min(lo, |s|)..Min(hi, |s|)]
  }

  /** `s[lo:]` */
  function From(s: seq<Byte>, lo: nat): seq<Byte> {
    s[Min(lo, |s|)..]
  }

  /** `uuid.UUID(bytes=s)` */
  function ToUuid(s: seq<Byte>): Result<Uuid> {
    if |s| == 16 then Success(s) else Failure(SizeError)
  }

  /** Two bytes, most significant first, as a number. */
  function Join(hi: Byte, lo: Byte): (n: nat)
    ensures n < 0x1_0000
  {
    256 * hi as int + lo as int
  }

  /** `struct.unpack(">H", s)` */
  function U16(s: seq<Byte>): Result<nat> {
    if |s| == 2 then Success(Join(s[0], s[1])) else Failure(SizeError)
  }

  /** `struct.unpack(">I", s)` */
  function U32(s: seq<Byte>): Result<nat> {
    if |s| == 4 then Success(0x1_0000 * Join(s[0], s[1]) + Join(s[2], s[3])) else Failure(SizeError)
  }

  /** `struct.pack(">H", n)` */
  function Be16(n: int): (r: Result<seq<Byte>>)
    ensures r.Success? <==> 0 <= n < 0x1_0000
    ensures r.Success? ==> |r.value| == 2 && U16(r.value) == Success(n)
  {
    if 0 <= n < 0x1_0000 then Success([n / 256, n % 256]) else Failure(RangeError)
  }

  /** `struct.pack(">I", n)` */
  function Be32(n: int): (r: Result<seq<Byte>>)
    ensures r.Success? <==> 0 <= n < 0x1_0000_0000
    ensures r.Success? ==> |r.value| == 4 && U32(r.value) == Success(n)
  {
    if 0 <= n < 0x1_0000_0000 then
      var hi, lo := n / 0x1_0000, n % 0x1_0000;
      Success([hi / 256, hi % 256, lo / 256, lo % 256])
    else
      Failure(RangeError)
  }

  /** Chunks one after the other. */
  function Flat(chunks: seq<seq<Byte>>): seq<Byte> {
    if chunks == [] then [] else chunks[0] + Flat(chunks[1..])
  }

  /** A slice that ends inside `a` does not see what is appended to it. */
  lemma ClipOfPrefix(a: seq<Byte>, b: seq<Byte>, lo: nat, hi: nat)
    requires lo <= hi <= |a|
    ensures Clip(a + b, lo, hi) == Clip(a, lo, hi) == a[lo..hi]
  {
  }

  /** The slice that covers exactly the middle part. */
  lemma ClipMiddle(a: seq<Byte>, b: seq<Byte>, c: seq<Byte>)
    ensures Clip(a + b + c, |a|, |a| + |b|) == b
  {
  }

  /** Slices that start where the second part does. */
  lemma SliceAfter(a: seq<Byte>, b: seq<Byte>, n: nat)
    requires n <= |b|
    ensures Clip(a + b, |a|, |a| + n) == b[..n]
    ensures From(a + b, |a| + n) == b[n..]
  {
    assert (a + b)[|a|..|a| + n] == b[..n];
    assert (a + b)[|a| + n..] == b[n..];
  }

  lemma FromOfPrefix(a: seq<Byte>, b: seq<Byte>, lo: nat)
    requires lo <= |a|
    ensures From(a + b, lo) == From(a, lo) + b
  {
  }

  // Growing a buffer field by field is appending the concatenation of the fields.

  lemma Grow2(h: seq<Byte>, a: seq<Byte>, b: seq<Byte>)
    ensures h + a + b == h + (a + b)
  {
  }

  lemma Grow3(h: seq<Byte>, a: seq<Byte>, b: seq<Byte>, c: seq<Byte>)
    ensures h + a + b + c == h + (a + b + c)
  {
    Grow2(h, a, b);
    Grow2(h, a + b, c);
  }

  lemma Grow4(h: seq<Byte>, a: seq<Byte>, b: seq<Byte>, c: seq<Byte>, d: seq<Byte>)
    ensures h + a + b + c + d == h + (a + b + c + d)
  {
    Grow3(h, a, b, c);
    Grow2(h, a + b + c, d);
  }
}
