/** Base32 as in section 6 of RFC 4648, without padding characters. */
module Base32 {

  type Byte = b: int | 0 <= b < 256 witness 0

  type Bit = b: int | 0 <= b < 2 witness 0

  const ALPHABET: string := "ABCDEFGHIJKLMNOPQRSTUVWXYZ234567"

  // ---------------------------------------------------------------- bits

  /** The number a bit string denotes, most significant bit first. */
  function Number(bits: seq<Bit>): nat {
    if bits == [] then 0 else 2 * Number(bits[..|bits| - 1]) + bits[|bits| - 1]
  }

  function Pow2(n: nat): (p: nat)
    ensures p >= 1
  {
    if n == 0 then 1 else 2 * Pow2(n - 1)
  }

  lemma {:induction false} NumberBound(bits: seq<Bit>)
    ensures Number(bits) < Pow2(|bits|)
  {
    if bits != [] {
      NumberBound(bits[..|bits| - 1]);
    }
  }

  lemma {:induction false} NumberAppend(a: seq<Bit>, b: seq<Bit>)
    ensures Number(a + b) == Number(a) * Pow2(|b|) + Number(b)
  {
    if b == [] {
      assert a + b == a;
    } else {
      var front := b[..|b| - 1];
      NumberAppend(a, front);
      assert (a + b)[..|a + b| - 1] == a + front;
      assert Number(a) * Pow2(|b|) == 2 * (Number(a) * Pow2(|front|));
    }
  }

  /** The `n` low bits of a number, most significant first. */
  function BitsOf(v: nat, n: nat): (bits: seq<Bit>)
    ensures |bits| == n
  {
    if n == 0 then [] else BitsOf(v / 2, n - 1) + [v % 2]
  }

  lemma {:induction false} NumberOfBits(v: nat, n: nat)
    requires v < Pow2(n)
    ensures Number(BitsOf(v, n)) == v
  {
    if n > 0 {
      NumberOfBits(v / 2, n - 1);
      assert BitsOf(v, n)[..n - 1] == BitsOf(v / 2, n - 1);
    }
  }

  lemma {:induction false} BitsOfNumber(bits: seq<Bit>)
    ensures BitsOf(Number(bits), |bits|) == bits
  {
    if bits != [] {
      var front := bits[..|bits| - 1];
      BitsOfNumber(front);
      assert Number(bits) / 2 == Number(front) && Number(bits) % 2 == bits[|bits| - 1];
      assert bits == front + [bits[|bits| - 1]];
    }
  }

  // ---------------------------------------------------------------- the definition

  function AllBits(bytes: seq<Byte>): (bits: seq<Bit>)
    ensures |bits| == 8 * |bytes|
  {
    if bytes == [] then [] else AllBits(bytes[..|bytes| - 1]) + BitsOf(bytes[|bytes| - 1], 8)
  }

  function Zeros(n: nat): (bits: seq<Bit>)
    ensures |bits| == n
  {
    seq(n, _ => 0)
  }

  lemma {:induction false} FiveBits(bits: seq<Bit>)
    requires |bits| == 5
    ensures Number(bits) < 32
  {
    NumberBound(bits);
    assert Pow2(5) == 32;
  }

  function Symbol(group: seq<Bit>): char
    requires |group| == 5
  {
    FiveBits(group);
    ALPHABET[Number(group)]
  }

  /** Groups of five bits from the left; zero bits fill up the last group. */
  function Grouped(bits: seq<Bit>): string {
    if bits == [] then []
    else if |bits| < 5 then [Symbol(bits + Zeros(5 - |bits|))]
    else [Symbol(bits[..5])] + Grouped(bits[5..])
  }

  /** The encoding the standard defines. */
  function Encoding(bytes: seq<Byte>): string {
    Grouped(AllBits(bytes))
  }

  // ---------------------------------------------------------------- decoding

  function IndexFrom(c: char, i: nat): (r: nat)
    requires i <= 32
    ensures r <= 32
    decreases 32 - i
  {
    if i == 32 then 32 else if ALPHABET[i] == c then i else IndexFrom(c, i + 1)
  }

  /** The bits the symbols stand for; a character outside the alphabet stands for none. */
  function SymbolBits(s: string): seq<Bit> {
    if s == [] then []
    else
      var i := IndexFrom(s[0], 0);
      (if i < 32 then BitsOf(i, 5) else []) + SymbolBits(s[1..])
  }

  /** Whole bytes from the left; a rest of fewer than eight bits is dropped. */
  function Bytes(bits: seq<Bit>): seq<Byte> {
    if |bits| < 8 then []
    else
      NumberBound(bits[..8]);
      assert Pow2(8) == 256;
      [Number(bits[..8])] + Bytes(bits[8..])
  }

  function Decoding(s: string): seq<Byte> {
    Bytes(SymbolBits(s))
  }

  lemma IndexOfSymbol(n: nat)
    requires n < 32
    ensures IndexFrom(ALPHABET[n], 0) == n
  {
    IndexReaches(n, 0);
  }

  lemma {:induction false} IndexReaches(n: nat, i: nat)
    requires i <= n < 32
    ensures IndexFrom(ALPHABET[n], i) == n
    decreases n - i
  {
    if i < n {
      AlphabetDistinct(i, n);
      IndexReaches(n, i + 1);
    }
  }

  lemma AlphabetDistinct(i: nat, j: nat)
    requires i < j < 32
    ensures ALPHABET[i] != ALPHABET[j]
  {
    LetterAt(i);
    LetterAt(j);
  }

  lemma LetterAt(i: nat)
    requires i < 32
    ensures ALPHABET[i] == if i < 26 then 'A' + i as char else '2' + (i - 26) as char
  {
  }

  /** How many zero bits fill up the last group. */
  function Pad(n: nat): (p: nat)
    ensures p < 5
  {
    (5 - n % 5) % 5
  }

  /** Decoding the groups gives the bits back, followed by fewer than five zero bits. */
  lemma {:induction false} SymbolsOfGroups(bits: seq<Bit>)
    ensures SymbolBits(Grouped(bits)) == bits + Zeros(Pad(|bits|))
  {
    hide Symbol, SymbolBits;
    if bits == [] {
      NoSymbols();
    } else if |bits| < 5 {
      var group := bits + Zeros(5 - |bits|);
      SymbolRoundTrip(group, []);
      NoSymbols();
      assert [Symbol(group)] + [] == [Symbol(group)] && group + [] == group;
      assert Pad(|bits|) == 5 - |bits|;
    } else {
      SymbolsOfGroups(bits[5..]);
      SymbolRoundTrip(bits[..5], Grouped(bits[5..]));
      assert Pad(|bits[5..]|) == Pad(|bits|);
      assert bits[..5] + (bits[5..] + Zeros(Pad(|bits|))) == bits + Zeros(Pad(|bits|));
    }
  }

  lemma NoSymbols()
    ensures SymbolBits([]) == []
  {
  }

  lemma {:induction false} SymbolRoundTrip(group: seq<Bit>, rest: string)
    requires |group| == 5
    ensures SymbolBits([Symbol(group)] + rest) == group + SymbolBits(rest)
  {
    FiveBits(group);
    IndexOfSymbol(Number(group));
    BitsOfNumber(group);
    assert ([Symbol(group)] + rest)[1..] == rest;
  }

  lemma {:induction false} BytesOfBits(front: Byte, bits: seq<Bit>)
    ensures Bytes(BitsOf(front, 8) + bits) == [front] + Bytes(bits)
  {
    assert Pow2(8) == 256;
    NumberOfBits(front, 8);
    var all := BitsOf(front, 8) + bits;
    assert all[..8] == BitsOf(front, 8) && all[8..] == bits;
  }

  lemma {:induction false} AllBitsFront(bytes: seq<Byte>)
    requires bytes != []
    ensures AllBits(bytes) == BitsOf(bytes[0], 8) + AllBits(bytes[1..])
  {
    if |bytes| > 1 {
      AllBitsFront(bytes[..|bytes| - 1]);
      assert bytes[..|bytes| - 1][1..] == bytes[1..][..|bytes| - 2];
    } else {
      assert bytes[..0] == [] && bytes[1..] == [];
    }
  }

  lemma {:induction false} TooShort(pad: seq<Bit>)
    requires |pad| < 8
    ensures Bytes(pad) == []
  {
  }

  lemma {:induction false} BytesRoundTrip(bytes: seq<Byte>, pad: seq<Bit>)
    requires |pad| < 8
    ensures Bytes(AllBits(bytes) + pad) == bytes
  {
    hide Bytes, BitsOf, Number;
    if bytes == [] {
      assert AllBits(bytes) + pad == pad;
      TooShort(pad);
    } else {
      AllBitsFront(bytes);
      BytesRoundTrip(bytes[1..], pad);
      BytesOfBits(bytes[0], AllBits(bytes[1..]) + pad);
      assert AllBits(bytes) + pad == BitsOf(bytes[0], 8) + (AllBits(bytes[1..]) + pad);
    }
  }

  /** Decoding undoes encoding, for every byte string. */
  lemma DecodingUndoesEncoding(bytes: seq<Byte>)
    ensures Decoding(Encoding(bytes)) == bytes
  {
    SymbolsOfGroups(AllBits(bytes));
    BytesRoundTrip(bytes, Zeros(Pad(|AllBits(bytes)|)));
  }

  // ---------------------------------------------------------------- the accumulator

  const WORD: int := 0x1_0000_0000

  /** The 32-bit accumulator is never masked; only its low bits are ever used. */
  lemma {:induction false} LowBits(value: nat, byte: Byte, pending: seq<Bit>)
    requires value < WORD && |pending| < 5 && value % Pow2(|pending|) == Number(pending)
    ensures var next := (value * 256 + byte) % WORD;
      next % Pow2(|pending| + 8) == Number(pending + BitsOf(byte, 8))
  {
    Eight();
    NumberOfBits(byte, 8);
    NumberAppend(pending, BitsOf(byte, 8));
    Shifted(value, byte, |pending|);
  }

  lemma {:induction false} Pow2Sum(a: nat, b: nat)
    ensures Pow2(a + b) == Pow2(a) * Pow2(b)
  {
    if a > 0 {
      Pow2Sum(a - 1, b);
    }
  }

  /** Quotient and remainder are what they must be. */
  lemma DivisionIs(x: nat, p: nat, q: nat, r: nat)
    requires p > 0 && r < p && x == p * q + r
    ensures x / p == q && x % p == r
  {
    Division(x, p);
    MultipleGrows(p, q - x / p);
    Distribute(p, x / p, q - x / p);
  }

  lemma Division(x: nat, p: nat)
    requires p > 0
    ensures x == p * (x / p) + x % p && 0 <= x % p < p
  {
  }

  lemma MultipleGrows(p: int, d: int)
    requires p > 0
    ensures d >= 1 ==> p * d >= p
    ensures d <= -1 ==> p * d <= -p
  {
  }

  lemma Distribute(p: int, a: int, b: int)
    ensures p * (a + b) == p * a + p * b
  {
  }

  lemma Associate(p: int, k: int, q: int)
    ensures p * k * q == p * (k * q)
  {
  }

  lemma ModOfMod(x: nat, p: nat, k: nat, m: nat)
    requires p > 0 && m == p * k && m > 0
    ensures x % m % p == x % p
  {
    var q, r := x / m, x % m;
    Division(x, m);
    Division(r, p);
    Associate(p, k, q);
    Distribute(p, k * q, r / p);
    Remainder(x, p, k * q + r / p, r % p);
  }

  lemma Remainder(x: nat, p: nat, q: int, r: nat)
    requires p > 0 && r < p && x == p * q + r
    ensures x % p == r
  {
    MultipleGrows(p, q);
    DivisionIs(x, p, q, r);
  }

  lemma Shifted(value: nat, byte: Byte, b: nat)
    requires b < 5
    ensures (value * 256 + byte) % WORD % Pow2(b + 8) == value % Pow2(b) * 256 + byte
  {
    Eight();
    Pow2Sum(b, 8);
    Pow2Sum(b + 8, 24 - b);
    ModOfMod(value * 256 + byte, Pow2(b + 8), Pow2(24 - b), WORD);
    ShiftedBy(value, byte, Pow2(b), Pow2(b + 8));
  }

  lemma ShiftedBy(value: nat, byte: Byte, p: nat, m: nat)
    requires p > 0 && m == p * 256
    ensures (value * 256 + byte) % m == value % p * 256 + byte
  {
    var q, n := value / p, value % p;
    Division(value, p);
    Associate(p, 256, q);
    Associate(p, q, 256);
    assert value * 256 + byte == m * q + (n * 256 + byte);
    DivisionIs(value * 256 + byte, m, q, n * 256 + byte);
  }

  lemma Eight()
    ensures Pow2(8) == 256 && Pow2(5) == 32 && Pow2(32) == WORD && Pow2(27) == 134217728
  {
    Pow2Sum(8, 8);
    assert Pow2(8) == 256;
    Pow2Sum(16, 16);
    Pow2Sum(5, 27);
  }

  /** Taking the top five of the pending bits. */
  lemma {:induction false} TopFive(value: nat, pending: seq<Bit>)
    requires 5 <= |pending| <= 12 && value % Pow2(|pending|) == Number(pending)
    ensures value / Pow2(|pending| - 5) % 32 == Number(pending[..5])
    ensures value % Pow2(|pending| - 5) == Number(pending[5..])
  {
    var k := |pending| - 5;
    NumberAppend(pending[..5], pending[5..]);
    assert pending == pending[..5] + pending[5..];
    NumberBound(pending[5..]);
    FiveBits(pending[..5]);
    SplitAt(value, k, Number(pending[..5]), Number(pending[5..]));
  }

  lemma Scale(p: nat, m: nat, k: nat, q: nat)
    requires m == p * k
    ensures m * q == p * (k * q)
  {
    Associate(p, k, q);
  }

  lemma Recombine(p: nat, m: nat, q: nat, high: nat, low: nat)
    requires m == p * 32
    ensures m * q + (high * p + low) == p * (32 * q + high) + low
  {
    Scale(p, m, 32, q);
    Distribute(p, 32 * q, high);
  }

  function Quotient(x: nat, p: nat): nat
    requires p > 0
  {
    x / p
  }

  lemma QuotientIs(x: nat, p: nat, q: nat, r: nat)
    requires p > 0 && r < p && x == p * q + r
    ensures Quotient(x, p) == q && Rest(x, p) == r
  {
    DivisionIs(x, p, q, r);
  }

  function Rest(x: nat, p: nat): nat
    requires p > 0
  {
    x % p
  }

  lemma Parts(x: nat, p: nat)
    requires p > 0
    ensures x == p * Quotient(x, p) + Rest(x, p)
  {
    Division(x, p);
  }

  lemma SplitBy(value: nat, p: nat, m: nat, high: nat, low: nat)
    requires p > 0 && high < 32 && low < p && m == p * 32
    requires Rest(value, m) == high * p + low
    ensures Rest(Quotient(value, p), 32) == high && Rest(value, p) == low
  {
    hide Quotient, Rest;
    var q := Quotient(value, m);
    Parts(value, m);
    Recombine(p, m, q, high, low);
    QuotientIs(value, p, 32 * q + high, low);
    QuotientIs(32 * q + high, 32, q, high);
  }

  lemma SplitAt(value: nat, k: nat, high: nat, low: nat)
    requires high < 32 && low < Pow2(k)
    requires Rest(value, Pow2(k + 5)) == high * Pow2(k) + low
    ensures Rest(Quotient(value, Pow2(k)), 32) == high && Rest(value, Pow2(k)) == low
  {
    hide Quotient, Rest, Pow2;
    Eight();
    Pow2Sum(k, 5);
    SplitBy(value, Pow2(k), Pow2(k + 5), high, low);
  }

  lemma LastValue(value: nat, p: nat, k: nat, n: nat)
    requires p > 0 && p * k == 32 && Rest(value, p) == n
    ensures Rest(value * k, 32) == n * k
  {
    hide Rest, Quotient;
    var q := Quotient(value, p);
    Parts(value, p);
    RestBelow(value, p);
    Distribute(k, p * q, n);
    Associate(k, p, q);
    MultipleGrows(k, p - n);
    Distribute(k, p - n, n);
    QuotientIs(value * k, 32, q, n * k);
  }

  lemma RestBelow(x: nat, p: nat)
    requires p > 0
    ensures Rest(x, p) < p
  {
  }

  lemma RestOfRest(x: nat)
    ensures Rest(Rest(x, WORD), 32) == Rest(x, 32)
  {
    Eight();
    ModOfMod(x, 32, Pow2(27), WORD);
  }

  /** The last, incomplete group: the pending bits, shifted left. */
  lemma {:induction false} LastGroup(value: nat, pending: seq<Bit>)
    requires 0 < |pending| < 5 && Rest(value, Pow2(|pending|)) == Number(pending)
    ensures Rest(Rest(value * Pow2(5 - |pending|), WORD), 32) == Number(pending + Zeros(5 - |pending|))
  {
    hide Pow2, Number, Rest;
    var b, k := |pending|, 5 - |pending|;
    Eight();
    Pow2Sum(b, k);
    NumberAppend(pending, Zeros(k));
    ZerosNumber(k);
    LastValue(value, Pow2(b), Pow2(k), Number(pending));
    RestOfRest(value * Pow2(k));
  }

  lemma {:induction false} ZerosNumber(n: nat)
    ensures Number(Zeros(n)) == 0
  {
    if n > 0 {
      ZerosNumber(n - 1);
      assert Zeros(n)[..n - 1] == Zeros(n - 1);
    }
  }

  lemma {:induction false} GroupStep(pending: seq<Bit>, rest: seq<Bit>)
    requires |pending| >= 5
    ensures Grouped(pending + rest) == [Symbol(pending[..5])] + Grouped(pending[5..] + rest)
  {
    assert (pending + rest)[..5] == pending[..5] && (pending + rest)[5..] == pending[5..] + rest;
  }

  /** `base32Encode`: shift a byte in, take five bits off the top while there are five. */
  method Base32Encode(buf: seq<Byte>) returns (out: string)
    ensures out == Encoding(buf)
    ensures Decoding(out) == buf
  {
    hide Grouped, Number, Pow2, AllBits, BitsOf, Symbol, Bytes, SymbolBits;
    var bits: nat, value: nat := 0, 0;
    out := "";
    ghost var pending: seq<Bit> := [];
    var i := 0;
    StartOfBits(buf);
    while i < |buf|
      invariant 0 <= i <= |buf| && bits == |pending| < 5 && value < WORD
      invariant value % Pow2(bits) == Number(pending)
      invariant Encoding(buf) == out + Grouped(pending + AllBits(buf[i..]))
    {
      var byte := buf[i];
      AllBitsFront(buf[i..]);
      assert buf[i..][1..] == buf[i + 1..];
      LowBits(value, byte, pending);
      value := (value * 256 + byte) % WORD;
      assert pending + AllBits(buf[i..]) == pending + BitsOf(byte, 8) + AllBits(buf[i + 1..]);
      pending := pending + BitsOf(byte, 8);
      bits := bits + 8;
      while bits >= 5
        invariant bits == |pending| <= 12 && value < WORD
        invariant value % Pow2(bits) == Number(pending)
        invariant Encoding(buf) == out + Grouped(pending + AllBits(buf[i + 1..]))
      {
        TopFive(value, pending);
        FiveBits(pending[..5]);
        GroupStep(pending, AllBits(buf[i + 1..]));
        SymbolIs(pending[..5]);
        out := out + [ALPHABET[value / Pow2(bits - 5) % 32]];
        bits := bits - 5;
        pending := pending[5..];
      }
      i := i + 1;
    }
    EndOfBits(pending, buf[i..]);
    if bits > 0 {
      LastGroup(value, pending);
      SymbolIs(pending + Zeros(5 - |pending|));
      out := out + [ALPHABET[value * Pow2(5 - bits) % WORD % 32]];
    }
    DecodingUndoesEncoding(buf);
  }

  lemma StartOfBits(buf: seq<Byte>)
    ensures Encoding(buf) == "" + Grouped([] + AllBits(buf[0..])) && 0 % Pow2(0) == Number([])
  {
    assert buf[0..] == buf && [] + AllBits(buf) == AllBits(buf);
    assert "" + Grouped(AllBits(buf)) == Grouped(AllBits(buf));
  }

  lemma {:induction false} SymbolIs(group: seq<Bit>)
    requires |group| == 5
    ensures Number(group) < 32 && Symbol(group) == ALPHABET[Number(group)]
  {
    FiveBits(group);
  }

  lemma {:induction false} GroupedShort(pending: seq<Bit>)
    requires |pending| < 5
    ensures Grouped(pending) == if pending == [] then [] else [Symbol(pending + Zeros(5 - |pending|))]
  {
    hide Symbol, Number;
  }

  lemma {:induction false} EndOfBits(pending: seq<Bit>, rest: seq<Byte>)
    requires |pending| < 5 && rest == []
    ensures Grouped(pending + AllBits(rest)) ==
      if pending == [] then [] else [Symbol(pending + Zeros(5 - |pending|))]
  {
    hide Grouped, Symbol, Number, BitsOf;
    assert pending + AllBits(rest) == pending;
    GroupedShort(pending);
  }
}
