/** Shared vocabulary: options, machine-width integers, addresses, and facts about finite sets. */
module Types {

  datatype Option<+T> = None | Some(value: T)

  type byte = x: int | 0 <= x < 0x100
  type u16 = x: int | 0 <= x < 0x1_0000

  /** Two bytes in network order. */
  function Be16(hi: byte, lo: byte): u16 {
    hi * 0x100 + lo
  }

  /** An address as the parsers build it: four or sixteen octets. */
  datatype IpAddr = V4(a: byte, b: byte, c: byte, d: byte) | V6(octets: seq<byte>)

  /** The flag byte of a TCP header, one field a bit, least significant bit first. */
  datatype TcpFlags = TcpFlags(
    fin: bool, syn: bool, rst: bool, psh: bool, ack: bool, urg: bool, ece: bool, cwr: bool)

  function Last<T>(s: seq<T>): T
    requires s != []
  {
    s[|s| - 1]
  }

  function Init<T>(s: seq<T>): (r: seq<T>)
    requires s != []
    ensures |r| == |s| - 1 && s == r + [Last(s)]
  {
    s[..|s| - 1]
  }

  function Min(x: int, y: int): int {
    if x <= y then x else y
  }

  function Max(x: int, y: int): int {
    if x >= y then x else y
  }

  lemma {:induction false} SubsetCard<T>(a: set<T>, b: set<T>)
    requires a <= b
    ensures |a| <= |b|
  {
    if a != {} {
      var x :| x in a;
      SubsetCard(a - {x}, b - {x});
    }
  }

  /** The image of a finite set is no larger than the set. */
  lemma {:induction false} ImageCard<S, T>(f: S -> T, a: set<S>, image: set<T>)
    requires forall y <- image :: exists x :: x in a && f(x) == y
    ensures |image| <= |a|
  {
    if image != {} {
      var y :| y in image;
      var x :| x in a && f(x) == y;
      forall z | z in image - {y}
        ensures exists w :: w in a - {x} && f(w) == z
      {
        var w :| w in a && f(w) == z;
        assert w in a - {x};
      }
      ImageCard(f, a - {x}, image - {y});
    }
  }
}
