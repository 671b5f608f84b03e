/** Reading the answer of an HTTP proxy: chunks are collected until the blank line has been seen. */
module HttpProxy {
  import opened Bytes
  import Utf8

  const BLANK_LINE: seq<Byte> := [13, 10, 13, 10]

  /** The header ends in front of position n. */
  predicate EndsAt(s: seq<Byte>, n: nat) {
    4 <= n <= |s| && s[n - 4..n] == BLANK_LINE
  }

  predicate Has(s: seq<Byte>) {
    exists n | 0 <= n <= |s| :: EndsAt(s, n)
  }

  /** The bytes read: no bytes, or no more chunks, means the proxy has closed the connection. */
  function Response(seen: seq<Byte>, chunks: seq<seq<Byte>>): Option<seq<Byte>>
    decreases |chunks|
  {
    if Has(seen) then Some(seen)
    else if chunks == [] || chunks[0] == [] then None
    else Response(seen + chunks[0], chunks[1..])
  }

  predicate BreaksAt(t: string, i: nat) {
    i + 2 <= |t| && t[i] == '\r' && t[i + 1] == '\n'
  }

  /** `text.split("\r\n")[0]` */
  function FirstLine(t: string): string {
    if t == "" || BreaksAt(t, 0) then "" else [t[0]] + FirstLine(t[1..])
  }

  /** `line.split(" ", 2)[0]`, and what is left behind the space. */
  function FirstField(line: string): (string, Option<string>) {
    if line == "" then ("", None)
    else if line[0] == ' ' then ("", Some(line[1..]))
    else ([line[0]] + FirstField(line[1..]).0, FirstField(line[1..]).1)
  }

  /** Is the tunnel open?  `number` is `int(...)` of a text, where that does not raise. */
  function Verdict(number: string -> Option<int>, response: Option<seq<Byte>>): bool {
    response.Some? &&
    var rest := FirstField(FirstLine(Utf8.DecodeIgnoring(response.value))).1;
    rest.Some? && number(FirstField(rest.value).0) == Some(200)
  }

  method ReadResponse(chunks: seq<seq<Byte>>) returns (r: Option<seq<Byte>>)
    ensures r == Response([], chunks)
  {
    var response: seq<Byte> := [];
    var i := 0;
    while !Has(response)
      invariant 0 <= i <= |chunks| && Response(response, chunks[i..]) == Response([], chunks)
      decreases |chunks| - i
    {
      if i == |chunks| || chunks[i] == [] {
        return None;
      }
      assert chunks[i..][1..] == chunks[i + 1..];
      response := response + chunks[i];
      i := i + 1;
    }
    return Some(response);
  }

  predicate NoneEmpty(chunks: seq<seq<Byte>>) {
    forall i | 0 <= i < |chunks| :: chunks[i] != []
  }

  lemma HasInPrefix(a: seq<Byte>, b: seq<Byte>, n: nat)
    requires EndsAt(a, n)
    ensures EndsAt(a + b, n)
  {
    assert (a + b)[n - 4..n] == a[n - 4..n];
  }

  /** What is read is a prefix of the stream with the blank line in it; nothing is read exactly when
      the stream has none. */
  lemma {:induction false} ResponseOfStream(seen: seq<Byte>, chunks: seq<seq<Byte>>)
    requires NoneEmpty(chunks)
    ensures var r := Response(seen, chunks);
            && (r.Some? <==> Has(seen + Flat(chunks)))
            && (r.Some? ==> Has(r.value) && r.value <= seen + Flat(chunks))
    decreases |chunks|
  {
    if Has(seen) {
      var n :| 0 <= n <= |seen| && EndsAt(seen, n);
      HasInPrefix(seen, Flat(chunks), n);
    } else if chunks == [] {
      assert seen + [] == seen;
    } else {
      assert chunks[0] != [];
      ResponseOfStream(seen + chunks[0], chunks[1..]);
      assert seen + chunks[0] + Flat(chunks[1..]) == seen + (chunks[0] + Flat(chunks[1..]));
    }
  }

  lemma {:induction false} FirstLineOfPrefix(a: string, b: string, i: nat)
    requires BreaksAt(a, i)
    ensures FirstLine(a + b) == FirstLine(a)
    decreases i
  {
    if !BreaksAt(a, 0) {
      assert (a + b)[1..] == a[1..] + b;
      FirstLineOfPrefix(a[1..], b, i - 1);
    }
  }

  /** The decoded header has a line break, whatever bytes come before. */
  lemma HeaderBreaks(header: seq<Byte>)
    requires EndsAt(header, |header|)
    ensures exists i :: BreaksAt(Utf8.DecodeIgnoring(header), i)
  {
    var n := |header|;
    var head, rest: seq<Byte> := header[..n - 3], [10, 13, 10];
    var end := header[n - 4..n];
    assert end[0] == 13 && end[1] == 10 && end[2] == 13 && end[3] == 10;
    assert header == head + rest && head[|head| - 1] == 13;
    Utf8.IgnoringSplits(head, rest);
    assert rest[1..] == [13, 10] && [13, 10][1..] == [10] && [10][1..] == [];
    assert Utf8.DecodeIgnoring([10]) == "\n" && Utf8.DecodeIgnoring([13, 10]) == "\r\n";
    assert Utf8.DecodeIgnoring(rest) == "\n\r\n";
    var i := |Utf8.DecodeIgnoring(head)| + 1;
    assert BreaksAt(Utf8.DecodeIgnoring(header), i);
  }

  /** Whatever is read behind the header does not change the first line. */
  lemma LineOfHeader(r: seq<Byte>, n: nat)
    requires EndsAt(r, n)
    ensures FirstLine(Utf8.DecodeIgnoring(r)) == FirstLine(Utf8.DecodeIgnoring(r[..n]))
  {
    assert r == r[..n] + r[n..] && r[n - 4..n][3] == r[..n][n - 1] && r[..n][n - 4..n] == r[n - 4..n];
    Utf8.IgnoringSplits(r[..n], r[n..]);
    HeaderBreaks(r[..n]);
    var i :| BreaksAt(Utf8.DecodeIgnoring(r[..n]), i);
    FirstLineOfPrefix(Utf8.DecodeIgnoring(r[..n]), Utf8.DecodeIgnoring(r[n..]), i);
  }

  lemma LineOfPrefix(r: seq<Byte>, stream: seq<Byte>)
    requires Has(r) && r <= stream
    ensures FirstLine(Utf8.DecodeIgnoring(r)) == FirstLine(Utf8.DecodeIgnoring(stream))
  {
    var n :| 0 <= n <= |r| && EndsAt(r, n);
    assert stream[n - 4..n] == r[n - 4..n] && stream[..n] == r[..n];
    LineOfHeader(r, n);
    LineOfHeader(stream, n);
  }

  lemma VerdictOfStream(number: string -> Option<int>, chunks: seq<seq<Byte>>)
    requires NoneEmpty(chunks)
    ensures Response([], chunks).Some? <==> Has(Flat(chunks))
    ensures Verdict(number, Response([], chunks))
            == Verdict(number, if Has(Flat(chunks)) then Some(Flat(chunks)) else None)
  {
    ResponseOfStream([], chunks);
    assert [] + Flat(chunks) == Flat(chunks);
    if Response([], chunks).Some? {
      LineOfPrefix(Response([], chunks).value, Flat(chunks));
    }
  }

  /** The verdict does not depend on how the stream is cut into chunks. */
  lemma VerdictIgnoresChunks(number: string -> Option<int>, chunks: seq<seq<Byte>>, others: seq<seq<Byte>>)
    requires NoneEmpty(chunks) && NoneEmpty(others) && Flat(chunks) == Flat(others)
    ensures Verdict(number, Response([], chunks)) == Verdict(number, Response([], others))
    ensures Response([], chunks).Some? <==> Response([], others).Some?
  {
    VerdictOfStream(number, chunks);
    VerdictOfStream(number, others);
  }

  /** The first position a header ends in front of. */
  ghost predicate Header(s: seq<Byte>, n: nat) {
    EndsAt(s, n) && forall m | 0 <= m < n :: !EndsAt(s, m)
  }

  lemma EndInPrefix(a: seq<Byte>, b: seq<Byte>, n: nat)
    requires EndsAt(a + b, n) && n <= |a|
    ensures Has(a)
  {
    assert a[n - 4..n] == (a + b)[n - 4..n];
    assert EndsAt(a, n);
  }

  /** Some chunk ends at position n, counting from `at`. */
  predicate Boundary(at: nat, chunks: seq<seq<Byte>>, n: nat)
    decreases |chunks|
  {
    at == n || (chunks != [] && Boundary(at + |chunks[0]|, chunks[1..], n))
  }

  lemma {:induction false} BoundaryPassed(at: nat, chunks: seq<seq<Byte>>, n: nat)
    requires at > n
    ensures !Boundary(at, chunks, n)
    decreases |chunks|
  {
    if chunks != [] {
      BoundaryPassed(at + |chunks[0]|, chunks[1..], n);
    }
  }

  /** Bytes that follow the header in the same chunk are read with it and never passed on: exactly
      the header is read if and only if it ends with a chunk. */
  lemma {:induction false} NothingSwallowedExactly(seen: seq<Byte>, chunks: seq<seq<Byte>>, n: nat)
    requires NoneEmpty(chunks) && Header(seen + Flat(chunks), n) && |seen| <= n
    ensures Response(seen, chunks).Some?
    ensures |Response(seen, chunks).value| == n <==> Boundary(|seen|, chunks, n)
    decreases |chunks|
  {
    var stream := seen + Flat(chunks);
    if Has(seen) {
      var m :| 0 <= m <= |seen| && EndsAt(seen, m);
      HasInPrefix(seen, Flat(chunks), m);
    } else if chunks == [] {
      EndInPrefix(seen, [], n);
    } else {
      var more := seen + chunks[0];
      assert chunks[0] != [];
      assert stream == more + Flat(chunks[1..]);
      if |seen| == n { EndInPrefix(seen, Flat(chunks), n); }
      if |more| <= n {
        NothingSwallowedExactly(more, chunks[1..], n);
      } else {
        EndInPrefix(more, Flat(chunks[1..]), n);
        BoundaryPassed(|more|, chunks[1..], n);
      }
    }
  }

  /** One chunk with the header and a byte behind it: the byte is read with the header. */
  lemma OneByteSwallowed(b: Byte)
    ensures Response([], [BLANK_LINE + [b]]) == Some(BLANK_LINE + [b]) && Header(BLANK_LINE + [b], 4)
  {
    var chunk := BLANK_LINE + [b];
    assert [] + chunk == chunk;
    assert chunk[0..4] == BLANK_LINE && EndsAt(chunk, 4);
  }
}
