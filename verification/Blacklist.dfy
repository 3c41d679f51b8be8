/** Address and domain blacklist: a Bloom pre-filter over an exact set, CIDR masks, and a domain set. */
module Blacklist {
  import opened Types
  import opened Score
  import opened Dns

  /** A 32-bit word; an IPv4 address is one, most significant octet first. */
  type Word = x: int | 0 <= x < 0x1_0000_0000

  function WordOf(a: byte, b: byte, c: byte, d: byte): Word {
    ((a * 0x100 + b) * 0x100 + c) * 0x100 + d
  }

  // --- CIDR ------------------------------------------------------------------------------------------

  const ALL_ONES: Word := 0xFFFF_FFFF

  function Pow2(k: nat): (r: int)
    ensures r >= 1
  {
    if k == 0 then 1 else 2 * Pow2(k - 1)
  }

  /** Bitwise and, least significant bit first. */
  function And(x: nat, y: nat): (r: nat)
    ensures r <= x
  {
    if x == 0 || y == 0 then 0
    else 2 * And(x / 2, y / 2) + if x % 2 == 1 && y % 2 == 1 then 1 else 0
  }

  function Shl(x: Word, k: nat): Word
    decreases k
  {
    if k == 0 then x else Shl(2 * x % 0x1_0000_0000, k - 1)
  }

  /** How far the mask is shifted: the subtraction wraps and a shift uses its low five bits, as in a release build. */
  function ShiftOf(prefix: nat): nat {
    (32 - prefix) % 32
  }

  function MaskOf(prefix: nat): Word {
    if prefix == 0 then 0 else Shl(ALL_ONES, ShiftOf(prefix))
  }

  datatype Cidr = Cidr(base: Word, mask: Word) {
    predicate Contains(ip: Word) {
      And(ip, mask) == base
    }
  }

  function FromCidr(ip: Word, prefix: nat): Cidr {
    Cidr(And(ip, MaskOf(prefix)), MaskOf(prefix))
  }

  /** `x` with its lowest `k` bits cleared. */
  function Cleared(x: nat, k: nat): nat {
    if k == 0 then x else 2 * Cleared(x / 2, k - 1)
  }

  lemma {:induction false} AndLowOnes(x: nat, j: nat)
    requires x < Pow2(j)
    ensures And(x, Pow2(j) - 1) == x
  {
    if j > 0 && x > 0 {
      AndLowOnes(x / 2, j - 1);
    }
  }

  lemma {:induction false} AndHighOnes(x: nat, j: nat, k: nat)
    requires x < Pow2(j + k) && Pow2(k) <= Pow2(j + k)
    ensures And(x, Pow2(j + k) - Pow2(k)) == Cleared(x, k)
  {
    if k == 0 {
      AndLowOnes(x, j);
    } else {
      AndHighOnes(x / 2, j, k - 1);
    }
  }

  lemma {:induction false} PowsGrow(j: nat, k: nat)
    ensures Pow2(k) <= Pow2(j + k)
  {
    if j > 0 {
      PowsGrow(j - 1, k);
    }
  }

  lemma {:induction false} PowsMultiply(j: nat, k: nat, p: int)
    requires p == Pow2(k)
    ensures Pow2(j + k) == Pow2(j) * p
  {
    if j > 0 {
      PowsMultiply(j - 1, k, p);
    }
  }

  lemma {:induction false} WordSize()
    ensures Pow2(32) == 0x1_0000_0000
  {
    assert Pow2(4) == 2 * Pow2(3) == 4 * Pow2(2) == 16;
    PowsMultiply(4, 4, 16);
    PowsMultiply(8, 8, 0x100);
    PowsMultiply(16, 16, 0x1_0000);
  }

  lemma {:induction false} PowBelowWord(k: nat)
    requires k <= 31
    ensures 2 * Pow2(k) <= 0x1_0000_0000
  {
    WordSize();
    PowsGrow(31 - k, k + 1);
  }

  lemma {:induction false} ShiftedOnes(x: Word, a: nat, k: nat)
    requires a + k <= 31 && x == 0x1_0000_0000 - Pow2(a)
    ensures Shl(x, k) == 0x1_0000_0000 - Pow2(a + k)
    decreases k
  {
    if k > 0 {
      PowBelowWord(a);
      ShiftedOnes(2 * x % 0x1_0000_0000, a + 1, k - 1);
    }
  }

  lemma {:induction false} MaskIsHighOnes(prefix: nat, k: nat)
    requires prefix + k == 32
    ensures MaskOf(prefix) == 0x1_0000_0000 - Pow2(k)
  {
    if prefix == 0 {
      WordSize();
    } else {
      assert ShiftOf(prefix) == k;
      ShiftedOnes(ALL_ONES, 0, k);
    }
  }

  lemma {:induction false} AndMask(x: Word, mask: Word, j: nat, k: nat)
    requires j + k == 32 && mask == 0x1_0000_0000 - Pow2(k)
    ensures And(x, mask) == Cleared(x, k)
  {
    WordSize();
    PowsGrow(j, k);
    AndHighOnes(x, j, k);
  }

  lemma {:induction false} MaskClears(x: Word, prefix: nat)
    requires prefix <= 32
    ensures And(x, MaskOf(prefix)) == Cleared(x, 32 - prefix)
  {
    MaskIsHighOnes(prefix, 32 - prefix);
    AndMask(x, MaskOf(prefix), prefix, 32 - prefix);
  }

  lemma {:induction false} ClearedAlikeIffClose(x: nat, y: nat, k: nat)
    ensures Cleared(x, k) == Cleared(y, k) <==> Cleared(y, k) <= x < Cleared(y, k) + Pow2(k)
  {
    if k > 0 {
      ClearedAlikeIffClose(x / 2, y / 2, k - 1);
    }
  }

  /** A prefix of at most 32 bits matches exactly the 2^(32 - n) addresses from its base on. */
  lemma {:induction false} CidrIsBlock(ip: Word, base: Word, prefix: nat)
    requires prefix <= 32
    ensures var c := FromCidr(base, prefix);
            c.Contains(ip) <==> c.base <= ip < c.base + Pow2(32 - prefix)
  {
    MaskClears(ip, prefix);
    MaskClears(base, prefix);
    ClearedAlikeIffClose(ip, base, 32 - prefix);
  }

  /** A longer prefix length is not refused: it acts as the length from 1 to 32 it is congruent to modulo 32. */
  lemma {:induction false} OverlongPrefixWraps(ip: Word, prefix: nat)
    requires prefix > 32
    ensures FromCidr(ip, prefix) == FromCidr(ip, (prefix - 1) % 32 + 1)
  {
    assert ShiftOf(prefix) == ShiftOf((prefix - 1) % 32 + 1);
  }

  // --- The blacklist at rest ---------------------------------------------------------------------------

  datatype Prefix = Prefix(ip: Word, length: nat)

  /** Whether some added prefix covers the address. */
  ghost predicate Covered(prefixes: seq<Prefix>, ip: Word) {
    exists p :: p in prefixes && FromCidr(p.ip, p.length).Contains(ip)
  }

  /** With prefix lengths of at most 32, covered means inside one of the added blocks of addresses. */
  lemma {:induction false} CoveredIffInSomeBlock(prefixes: seq<Prefix>, ip: Word)
    requires forall p :: p in prefixes ==> p.length <= 32
    ensures Covered(prefixes, ip) <==>
            exists p :: p in prefixes
              && var low := And(p.ip, MaskOf(p.length)); low <= ip < low + Pow2(32 - p.length)
  {
    forall p | p in prefixes
      ensures var c := FromCidr(p.ip, p.length);
              c.Contains(ip) <==> c.base <= ip < c.base + Pow2(32 - p.length)
    {
      CidrIsBlock(ip, p.ip, p.length);
    }
  }

  /** What the exact addresses and the prefixes say about an address; IPv6 is never listed. */
  ghost function IpAnswer(exact: set<Word>, prefixes: seq<Prefix>, ip: IpAddr): Option<Signal> {
    match ip
    case V6(_) => None
    case V4(a, b, c, d) =>
      var w := WordOf(a, b, c, d);
      if w in exact then Some(Signal(BlacklistedIp, SCORE_BLACKLIST_IP))
      else if Covered(prefixes, w) then Some(Signal(BlacklistedCidr, SCORE_BLACKLIST_IP))
      else None
  }

  /** The prefix length a stored mask stands for. */
  function EffectiveLength(n: nat): (r: nat)
    ensures r <= 32
  {
    if n > 32 then (n - 1) % 32 + 1 else n
  }

  /** What is left of `x` once its lowest `k` bits are shifted out. */
  function Leading(x: nat, k: nat): nat {
    if k == 0 then x else Leading(x / 2, k - 1)
  }

  lemma {:induction false} ClearedAlikeIffLeadingAlike(x: nat, y: nat, k: nat)
    ensures Cleared(x, k) == Cleared(y, k) <==> Leading(x, k) == Leading(y, k)
  {
    if k > 0 {
      ClearedAlikeIffLeadingAlike(x / 2, y / 2, k - 1);
    }
  }

  /** A stored prefix matches exactly the addresses that agree with it on its leading bits. */
  lemma {:induction false} CidrComparesLeadingBits(ip: Word, base: Word, length: nat)
    ensures var k := 32 - EffectiveLength(length);
            FromCidr(base, length).Contains(ip) <==> Leading(ip, k) == Leading(base, k)
  {
    if length > 32 {
      OverlongPrefixWraps(base, length);
    }
    MaskClears(ip, EffectiveLength(length));
    MaskClears(base, EffectiveLength(length));
    ClearedAlikeIffLeadingAlike(ip, base, 32 - EffectiveLength(length));
  }

  lemma {:induction false} LeadingAdds(x: nat, j: nat, k: nat)
    ensures Leading(x, j + k) == Leading(Leading(x, j), k)
  {
    if j > 0 {
      LeadingAdds(x / 2, j - 1, k);
    }
  }

  lemma {:induction false} DropFour(x: nat)
    ensures Leading(x, 4) == x / 16
  {
    assert Leading(x, 4) == Leading(x / 2, 3) == Leading(x / 2 / 2, 2) == Leading(x / 2 / 2 / 2, 1);
  }

  lemma {:induction false} DropOctet(x: nat, d: byte, k: nat)
    ensures Leading(x * 0x100 + d, 8 + k) == Leading(x, k)
  {
    var y := x * 0x100 + d;
    DropFour(y);
    DropFour(y / 16);
    LeadingAdds(y, 4, 4);
    LeadingAdds(y, 8, k);
  }

  lemma {:induction false} LeadingOctets(a: byte, b: byte, c: byte, d: byte)
    ensures var w := WordOf(a, b, c, d);
            && Leading(w, 24) == a && Leading(w, 16) == a * 0x100 + b
            && Leading(w, 8) == a * 0x1_0000 + b * 0x100 + c
  {
    DropOctet((a * 0x100 + b) * 0x100 + c, d, 0);
    DropOctet((a * 0x100 + b) * 0x100 + c, d, 8);
    DropOctet((a * 0x100 + b) * 0x100 + c, d, 16);
    DropOctet(a * 0x100 + b, c, 0);
    DropOctet(a * 0x100 + b, c, 8);
    DropOctet(a, b, 0);
  }

  lemma {:induction false} NothingLeads(x: nat, k: nat)
    requires x < Pow2(k)
    ensures Leading(x, k) == 0
  {
    if k > 0 {
      NothingLeads(x / 2, k - 1);
    }
  }

  /** The first octet is the most significant: prefixes of whole octets compare leading octets. */
  lemma {:induction false} PrefixesCompareLeadingOctets(
    a: byte, b: byte, c: byte, d: byte, e: byte, f: byte, g: byte, h: byte)
    ensures var ip, base := WordOf(a, b, c, d), WordOf(e, f, g, h);
            && (FromCidr(base, 8).Contains(ip) <==> a == e)
            && (FromCidr(base, 16).Contains(ip) <==> a == e && b == f)
            && (FromCidr(base, 24).Contains(ip) <==> a == e && b == f && c == g)
            && (FromCidr(base, 32).Contains(ip) <==> a == e && b == f && c == g && d == h)
  {
    var ip, base := WordOf(a, b, c, d), WordOf(e, f, g, h);
    CidrComparesLeadingBits(ip, base, 8);
    CidrComparesLeadingBits(ip, base, 16);
    CidrComparesLeadingBits(ip, base, 24);
    CidrComparesLeadingBits(ip, base, 32);
    LeadingOctets(a, b, c, d);
    LeadingOctets(e, f, g, h);
  }

  /** The empty prefix covers every address. */
  lemma {:induction false} EmptyPrefixCoversAll(ip: Word, base: Word)
    ensures FromCidr(base, 0).Contains(ip)
  {
    CidrComparesLeadingBits(ip, base, 0);
    WordSize();
    NothingLeads(ip, 32);
    NothingLeads(base, 32);
  }

  /**
   What is answered about an address: listed if its four octets, the first most significant, make up an
   added address; listed by prefix if not, but if it agrees with an added prefix on its leading bits.
   */
  lemma {:induction false} AddressIsListedIff(
    exact: set<Word>, prefixes: seq<Prefix>, a: byte, b: byte, c: byte, d: byte)
    ensures var word := a * 0x100_0000 + b * 0x1_0000 + c * 0x100 + d;
            var r := IpAnswer(exact, prefixes, V4(a, b, c, d));
            && (r == Some(Signal(BlacklistedIp, 90)) <==> word in exact)
            && (r == Some(Signal(BlacklistedCidr, 90)) <==> word !in exact && SharesPrefix(prefixes, word))
            && (r == None <==> word !in exact && !SharesPrefix(prefixes, word))
  {
    var word := a * 0x100_0000 + b * 0x1_0000 + c * 0x100 + d;
    assert WordOf(a, b, c, d) == word;
    forall p | p in prefixes
      ensures var k := 32 - EffectiveLength(p.length);
              FromCidr(p.ip, p.length).Contains(word) <==> Leading(word, k) == Leading(p.ip, k)
    {
      CidrComparesLeadingBits(word, p.ip, p.length);
    }
    assert Covered(prefixes, word) <==> SharesPrefix(prefixes, word);
  }

  ghost predicate SharesPrefix(prefixes: seq<Prefix>, ip: nat) {
    exists p :: p in prefixes
                && var k := 32 - EffectiveLength(p.length); Leading(ip, k) == Leading(p.ip, k)
  }

  /** No IPv6 address is ever listed, whatever was added. */
  lemma {:induction false} Ipv6IsNeverListed(exact: set<Word>, prefixes: seq<Prefix>, octets: seq<byte>)
    ensures IpAnswer(exact, prefixes, V6(octets)) == None
  {}

  predicate SameDomain(lib: Library, x: Text, y: Text) {
    lib.lower(TrimDots(x)) == lib.lower(TrimDots(y))
  }

  class Blacklist {
    /** The bit positions an address hashes to; nothing is assumed about them. */
    const hashes: Word -> set<nat>
    const lib: Library
    var bloom: set<nat>
    var exact: set<Word>
    var cidrs: seq<Cidr>
    var domains: set<Text>
    ghost var prefixes: seq<Prefix>
    ghost var added: seq<Text>  // the domains, as they were added

    ghost predicate Valid()
      reads this
    {
      && (forall ip :: ip in exact ==> hashes(ip) <= bloom)
      && domains == (set x | x in added :: lib.lower(TrimDots(x)))
      && |cidrs| == |prefixes|
      && forall i :: 0 <= i < |cidrs| ==> cidrs[i] == FromCidr(prefixes[i].ip, prefixes[i].length)
    }

    constructor (hashes: Word -> set<nat>, lib: Library)
      ensures Valid() && exact == {} && prefixes == [] && added == []
      ensures this.hashes == hashes && this.lib == lib
    {
      this.hashes, this.lib := hashes, lib;
      bloom, exact, cidrs, domains, prefixes, added := {}, {}, [], {}, [], [];
    }

    method AddIp(ip: Word)
      requires Valid()
      modifies `bloom, `exact
      ensures Valid() && exact == old(exact) + {ip} && bloom == old(bloom) + hashes(ip)
    {
      bloom := bloom + hashes(ip);
      exact := exact + {ip};
    }

    method AddCidr(ip: Word, length: nat)
      requires Valid()
      modifies `cidrs, `prefixes
      ensures Valid() && prefixes == old(prefixes) + [Prefix(ip, length)]
    {
      cidrs := cidrs + [FromCidr(ip, length)];
      prefixes := prefixes + [Prefix(ip, length)];
    }

    /** The pre-filter never hides an added address: the answer is that of the exact set and the prefixes alone. */
    method CheckIp(ip: IpAddr) returns (r: Option<Signal>)
      requires Valid()
      ensures r == IpAnswer(exact, prefixes, ip)
    {
      if ip.V6? {
        return None;
      }
      var w := WordOf(ip.a, ip.b, ip.c, ip.d);
      if hashes(w) <= bloom {
        if w in exact {
          return Some(Signal(BlacklistedIp, SCORE_BLACKLIST_IP));
        }
      }
      for i := 0 to |cidrs|
        invariant forall j :: 0 <= j < i ==> !cidrs[j].Contains(w)
      {
        if cidrs[i].Contains(w) {
          assert prefixes[i] in prefixes;
          return Some(Signal(BlacklistedCidr, SCORE_BLACKLIST_IP));
        }
      }
      return None;
    }

    method AddDomain(domain: Text)
      requires Valid()
      modifies `domains, `added
      ensures Valid() && added == old(added) + [domain]
    {
      domains := domains + {lib.lower(TrimDots(domain))};
      added := added + [domain];
    }

    /** A hit is an added domain that is the same up to case and trailing dots. */
    method CheckDomain(domain: Text) returns (r: Option<Signal>)
      requires Valid()
      ensures r.Some? <==> exists x :: x in added && SameDomain(lib, x, domain)
      ensures r.Some? <==> lib.lower(TrimDots(domain)) in domains
      ensures r.Some? ==> r.value == Signal(BlacklistedDomain, 80)
    {
      if lib.lower(TrimDots(domain)) in domains {
        return Some(Signal(BlacklistedDomain, SCORE_BLACKLIST_DOMAIN));
      }
      return None;
    }
  }

  // --- Adds and checks interleaved at lock granularity ---------------------------------------------------

  type Thread = nat

  /**
   A check reads the Bloom filter under one lock and then, if that was positive, the exact set under
   another. `known` records whether the add of its address had returned when the check began.
   */
  datatype Check = Check(ip: Word, known: bool, stage: Stage)

  datatype Stage = Begun | BloomPositive | Hit | Missed

  datatype Shared = Shared(
    bloom: set<nat>, exact: set<Word>,
    adding: map<Thread, Word>,  // between the Bloom insertion and the exact insertion
    added: set<Word>,           // adds that have returned
    checks: map<Thread, Check>)

  datatype Step =
    | AddBloom(thread: Thread, ip: Word)
    | AddExact(thread: Thread)
    | BeginCheck(thread: Thread, ip: Word)
    | ReadBloom(thread: Thread)
    | ReadExact(thread: Thread)

  predicate Enabled(s: Shared, e: Step) {
    match e
    case AddBloom(t, _) => t !in s.adding
    case AddExact(t) => t in s.adding
    case BeginCheck(_, _) => true
    case ReadBloom(t) => t in s.checks && s.checks[t].stage.Begun?
    case ReadExact(t) => t in s.checks && s.checks[t].stage.BloomPositive?
  }

  function Next(hashes: Word -> set<nat>, s: Shared, e: Step): Shared
    requires Enabled(s, e)
  {
    match e
    case AddBloom(t, ip) => s.(bloom := s.bloom + hashes(ip), adding := s.adding[t := ip])
    case AddExact(t) =>
      s.(exact := s.exact + {s.adding[t]}, added := s.added + {s.adding[t]}, adding := s.adding - {t})
    case BeginCheck(t, ip) => s.(checks := s.checks[t := Check(ip, ip in s.added, Begun)])
    case ReadBloom(t) =>
      var c := s.checks[t];
      s.(checks := s.checks[t := c.(stage := if hashes(c.ip) <= s.bloom then BloomPositive else Missed)])
    case ReadExact(t) =>
      var c := s.checks[t];
      s.(checks := s.checks[t := c.(stage := if c.ip in s.exact then Hit else Missed)])
  }

  function Exec(hashes: Word -> set<nat>, trace: seq<Step>): Option<Shared> {
    if trace == [] then Some(Shared({}, {}, map[], {}, map[]))
    else
      var m := Exec(hashes, Init(trace));
      if m.Some? && Enabled(m.value, Last(trace)) then Some(Next(hashes, m.value, Last(trace))) else None
  }

  /**
   Every exact address, and every address on its way there, is Bloom-positive; a check that began
   after the add of its address had returned has not missed; and only added addresses are hit.
   */
  ghost predicate Coherent(hashes: Word -> set<nat>, s: Shared) {
    && (forall ip :: ip in s.exact ==> hashes(ip) <= s.bloom)
    && (forall t :: t in s.adding ==> hashes(s.adding[t]) <= s.bloom)
    && s.added <= s.exact
    && (forall t :: t in s.checks && s.checks[t].known ==> s.checks[t].ip in s.exact && !s.checks[t].stage.Missed?)
    && (forall t :: t in s.checks && s.checks[t].stage.Hit? ==> s.checks[t].ip in s.exact)
  }

  lemma {:induction false} StepKeepsCoherence(hashes: Word -> set<nat>, s: Shared, e: Step)
    requires Coherent(hashes, s) && Enabled(s, e)
    ensures Coherent(hashes, Next(hashes, s, e))
  {}

  /** Under every interleaving, no finished add is overlooked and nothing that was not added is reported. */
  lemma {:induction false} EveryInterleavingIsCoherent(hashes: Word -> set<nat>, trace: seq<Step>)
    requires Exec(hashes, trace).Some?
    ensures Coherent(hashes, Exec(hashes, trace).value)
  {
    if trace != [] {
      EveryInterleavingIsCoherent(hashes, Init(trace));
      StepKeepsCoherence(hashes, Exec(hashes, Init(trace)).value, Last(trace));
    }
  }
}
