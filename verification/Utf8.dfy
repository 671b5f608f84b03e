/** UTF-8 as `str.encode()` and `bytes.decode()` perform it (strict mode), section 3 of RFC 3629. */
module Utf8 {
  import opened Bytes

  predicate Ascii(s: string) {
    forall i :: 0 <= i < |s| ==> s[i] as int < 0x80
  }

  function EncodeChar(c: char): (r: seq<Byte>)
    ensures 1 <= |r| <= 4
    ensures |r| == 1 <==> c as int < 0x80
  {
    var n := c as int;
    if n < 0x80 then
      [n]
    else if n < 0x800 then
      [0xC0 + n / 64, 0x80 + n % 64]
    else if n < 0x1_0000 then
      [0xE0 + n / 4096, 0x80 + n / 64 % 64, 0x80 + n % 64]
    else
      [0xF0 + n / 262144, 0x80 + n / 4096 % 64, 0x80 + n / 64 % 64, 0x80 + n % 64]
  }

  function Encode(s: string): (r: seq<Byte>)
    ensures |r| >= |s|
    ensures |r| == |s| <==> Ascii(s)
  {
    if s == [] then
      []
    else
      assert Ascii(s) <==> s[0] as int < 0x80 && Ascii(s[1..]) by {
        assert forall i :: 0 < i < |s| ==> s[i] == s[1..][i - 1];
        assert forall i :: 0 <= i < |s| - 1 ==> s[1..][i] == s[i + 1];
      }
      EncodeChar(s[0]) + Encode(s[1..])
  }

  predicate Continuation(b: Byte) {
    0x80 <= b < 0xC0
  }

  /** The six payload bits of a continuation byte. */
  function Low(b: Byte): (n: nat)
    requires Continuation(b)
    ensures n < 64
  {
    b as int - 0x80
  }

  /** The first character and the number of bytes it takes, or None where strict decoding raises. */
  function DecodeChar(b: seq<Byte>): (r: Option<(char, nat)>)
    requires b != []
    ensures r.Some? ==> 1 <= r.value.1 <= |b|
    ensures r.Some? && r.value.1 == 1 ==> r.value.0 as int < 0x80
  {
    var lead := b[0] as int;
    if lead < 0x80 then
      Some((lead as char, 1))
    else if 0xC2 <= lead < 0xE0 && |b| >= 2 && Continuation(b[1]) then
      Some((((lead - 0xC0) * 64 + Low(b[1])) as char, 2))
    else if 0xE0 <= lead < 0xF0 && |b| >= 3 && Continuation(b[1]) && Continuation(b[2]) then
      var n := (lead - 0xE0) * 4096 + Low(b[1]) * 64 + Low(b[2]);
      if n < 0x800 || 0xD800 <= n < 0xE000 then None else Some((n as char, 3))
    else if 0xF0 <= lead < 0xF5 && |b| >= 4 && Continuation(b[1]) && Continuation(b[2]) && Continuation(b[3]) then
      var n := (lead - 0xF0) * 262144 + Low(b[1]) * 4096 + Low(b[2]) * 64 + Low(b[3]);
      if 0x1_0000 <= n < 0x11_0000 then Some((n as char, 4)) else None
    else
      None
  }

  /** A text never has more characters than bytes, and as many only when every character is ASCII. */
  function Decode(b: seq<Byte>): (r: Result<string>)
    ensures r.Success? ==> |r.value| <= |b|
    ensures r.Success? && |r.value| == |b| ==> Ascii(r.value)
    ensures r.Failure? ==> r.error == UnicodeError
  {
    if b == [] then
      Success("")
    else
      match DecodeChar(b)
      case None => Failure(UnicodeError)
      case Some((c, n)) =>
        var rest :- Decode(b[n..]);
        Success([c] + rest)
  }

  /** `decode(errors="ignore")`: bytes that begin no character are skipped. */
  function DecodeIgnoring(b: seq<Byte>): string {
    if b == [] then ""
    else
      match DecodeChar(b)
      case None => DecodeIgnoring(b[1..])
      case Some((c, n)) => [c] + DecodeIgnoring(b[n..])
  }

  /** What follows an ASCII byte has no say in the characters up to it. */
  lemma CharBeforeAscii(a: seq<Byte>, b: seq<Byte>)
    requires a != [] && a[|a| - 1] < 0x80
    ensures DecodeChar(a + b) == DecodeChar(a)
  {
    var n := |a|;
    assert forall i | 0 <= i < n :: (a + b)[i] == a[i];
    assert !Continuation(a[n - 1]);
  }

  lemma {:induction false} IgnoringSplits(a: seq<Byte>, b: seq<Byte>)
    requires a != [] ==> a[|a| - 1] < 0x80
    ensures DecodeIgnoring(a + b) == DecodeIgnoring(a) + DecodeIgnoring(b)
    decreases |a|
  {
    if a == [] {
      assert a + b == b;
    } else {
      CharBeforeAscii(a, b);
      var n := if DecodeChar(a).Some? then DecodeChar(a).value.1 else 1;
      assert (a + b)[n..] == a[n..] + b;
      IgnoringSplits(a[n..], b);
    }
  }

  lemma DecodeEncodeChar(c: char, rest: seq<Byte>)
    ensures DecodeChar(EncodeChar(c) + rest) == Some((c, |EncodeChar(c)|))
  {
    var n := c as int;
    var high := n / 64;
    assert n == 64 * high + n % 64;
    if n >= 0x1_0000 {
      assert n / 4096 == high / 64 && n / 262144 == high / 64 / 64;
      assert high == 64 * (high / 64) + high % 64;
      assert high / 64 == 64 * (high / 64 / 64) + high / 64 % 64;
    } else if n >= 0x800 {
      assert n / 4096 == high / 64;
      assert high == 64 * (high / 64) + high % 64;
    }
  }

  /** Decoding inverts encoding on every text. */
  lemma {:induction false} DecodeEncode(s: string)
    ensures Decode(Encode(s)) == Success(s)
  {
    if s != [] {
      var first := EncodeChar(s[0]);
      DecodeEncodeChar(s[0], Encode(s[1..]));
      assert Encode(s)[|first|..] == Encode(s[1..]);
      DecodeEncode(s[1..]);
      assert s == [s[0]] + s[1..];
    }
  }

  /** The length-prefix mistake in one place: reading back as many bytes as the text has
      characters gives the text back exactly when the text is ASCII. */
  lemma CharCountedPrefix(s: string, tail: seq<Byte>)
    ensures Decode((Encode(s) + tail)[..|s|]) == Success(s) <==> Ascii(s)
  {
    if Ascii(s) {
      assert (Encode(s) + tail)[..|s|] == Encode(s);
      DecodeEncode(s);
    }
  }
}
