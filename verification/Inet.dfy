/** Conversion between address texts and address bytes, as the socket library provides it. */
module Inet {
  import opened Bytes
  import Utf8

  datatype Library = Library(
    aton: string -> Option<seq<Byte>>,
    ntoa: seq<Byte> -> string,
    pton6: string -> Option<seq<Byte>>,
    ntop6: seq<Byte> -> string)

  /** What is assumed of the library: the printed form of an address reads back as that address,
      an IPv6 text is not an IPv4 text, and IPv4 texts are short ASCII. */
  ghost predicate Lawful(lib: Library) {
    && (forall t :: lib.aton(t).Some? ==> |lib.aton(t).value| == 4)
    && (forall t :: lib.pton6(t).Some? ==> |lib.pton6(t).value| == 16)
    && (forall q: seq<Byte> :: |q| == 4 ==>
          lib.aton(lib.ntoa(q)) == Some(q) && Utf8.Ascii(lib.ntoa(q)) && |lib.ntoa(q)| < 256)
    && (forall b: seq<Byte> :: |b| == 16 ==> lib.pton6(lib.ntop6(b)) == Some(b) && lib.aton(lib.ntop6(b)).None?)
  }

  /** The text an address is printed as after it has been turned into bytes; a name stays itself. */
  function Canonical(lib: Library, t: string): string {
    if lib.aton(t).Some? then lib.ntoa(lib.aton(t).value)
    else if lib.pton6(t).Some? then lib.ntop6(lib.pton6(t).value)
    else t
  }

  /** Printing is idempotent: a canonical text is its own canonical form. */
  lemma CanonicalTwice(lib: Library, t: string)
    requires Lawful(lib)
    ensures Canonical(lib, Canonical(lib, t)) == Canonical(lib, t)
  {
  }
}
