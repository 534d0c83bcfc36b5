/**
 The workers' base64 encoder and decoder (section 4 of RFC 4648), specified by the number that a
 string of symbols or bytes stands for.
 */
module Base64 {
  import opened Options

  type Byte = b: int | 0 <= b < 256

  type Symbol = x: int | 0 <= x < 64

  function CharOf(x: Symbol): char {
    if x < 26 then ('A' as int + x) as char
    else if x < 52 then ('a' as int + x - 26) as char
    else if x < 62 then ('0' as int + x - 52) as char
    else if x == 62 then '+' else '/'
  }

  function SymbolOf(c: char): Option<Symbol> {
    if 'A' <= c <= 'Z' then Some(c as int - 'A' as int)
    else if 'a' <= c <= 'z' then Some(c as int - 'a' as int + 26)
    else if '0' <= c <= '9' then Some(c as int - '0' as int + 52)
    else if c == '+' then Some(62) else if c == '/' then Some(63) else None
  }

  lemma {:induction false} SymbolOfChar(x: Symbol)
    ensures SymbolOf(CharOf(x)) == Some(x)
  {}

  /** The alphabet of section 4 of RFC 4648: A to Z, a to z, 0 to 9, + and /, in this order, and nothing else. */
  lemma {:induction false} AlphabetIs(x: Symbol, c: char)
    ensures CharOf(0) == 'A' && CharOf(25) == 'Z' && CharOf(26) == 'a' && CharOf(51) == 'z'
    ensures CharOf(52) == '0' && CharOf(61) == '9' && CharOf(62) == '+' && CharOf(63) == '/'
    ensures x !in {25, 51, 61, 62, 63} ==> CharOf(x + 1) as int == CharOf(x) as int + 1
    ensures SymbolOf(c) == Some(x) <==> c == CharOf(x)
  {}

  // ---- numbers ----

  /** The symbols of a text; everything outside the alphabet is skipped. */
  function Symbols(text: string): seq<Symbol> {
    if text == [] then []
    else
      var n := |text| - 1; var x := SymbolOf(text[n]);
      Symbols(text[..n]) + (if x.Some? then [x.value] else [])
  }

  function Val64(s: seq<Symbol>): nat {
    if s == [] then 0 else Val64(s[..|s| - 1]) * 64 + s[|s| - 1]
  }

  function Val256(b: seq<Byte>): nat {
    if b == [] then 0 else Val256(b[..|b| - 1]) * 256 + b[|b| - 1]
  }

  lemma {:induction false} SymbolsSnoc(text: string, c: char)
    ensures var x := SymbolOf(c); Symbols(text + [c]) == Symbols(text) + (if x.Some? then [x.value] else [])
  {
    assert (text + [c])[..|text|] == text;
  }

  /** One more character adds its symbol, or nothing if it is outside the alphabet. */
  lemma {:induction false} SymbolsUpTo(text: string, i: nat)
    requires i < |text|
    ensures var x := SymbolOf(text[i]);
            && Symbols(text[..i + 1]) == (if x.Some? then Symbols(text[..i]) + [x.value] else Symbols(text[..i]))
            && (text[i] in {'=', '\n', '\r', ' '} ==> x.None?)
  {
    assert text[..i + 1] == text[..i] + [text[i]];
    SymbolsSnoc(text[..i], text[i]);
  }

  lemma {:induction false} Val64Snoc(s: seq<Symbol>, x: Symbol)
    ensures Val64(s + [x]) == Val64(s) * 64 + x
  {
    assert (s + [x])[..|s|] == s;
  }

  lemma {:induction false} Val256Snoc(b: seq<Byte>, x: Byte)
    ensures Val256(b + [x]) == Val256(b) * 256 + x
  {
    assert (b + [x])[..|b|] == b;
  }

  /** As many bytes as there are digits: the number determines them. */
  lemma {:induction false} Val256Unique(a: seq<Byte>, b: seq<Byte>)
    requires |a| == |b| && Val256(a) == Val256(b)
    ensures a == b
  {
    if a != [] {
      var n := |a| - 1;
      assert a[n] == Val256(a) % 256 && b[n] == Val256(b) % 256;
      Val256Unique(a[..n], b[..n]);
      assert a == a[..n] + [a[n]] && b == b[..n] + [b[n]];
    }
  }

  /** Powers of two for the at most seven bits left over. */
  function Bit(n: int): (p: int)
    ensures p >= 1
  {
    if n <= 0 then 1 else if n == 1 then 2 else if n == 2 then 4 else if n == 3 then 8 else if n == 4 then 16
    else if n == 5 then 32 else if n == 6 then 64 else 128
  }

  /** The bytes are the whole bytes of the symbols' number, from its top; leftover bits are dropped. */
  ghost predicate Decodes(s: seq<Symbol>, out: seq<Byte>) {
    |out| == 6 * |s| / 8 && Val256(out) == Val64(s) / Bit(6 * |s| % 8)
  }

  // ---- decoding ----

  /** A 32-bit signed accumulator. */
  function Wrap32(x: int): int {
    (x + 0x8000_0000) % 0x1_0000_0000 - 0x8000_0000
  }

  /** v is what 32 bits keep of the number n. */
  ghost predicate Keeps(v: int, n: int) {
    (v - n) % 0x1_0000_0000 == 0
  }

  lemma {:induction false} KeepsShift(v: int, n: int, x: Symbol)
    requires Keeps(v, n)
    ensures Keeps(Wrap32(v * 64) + x, n * 64 + x)
  {
    var k := (v - n) / 0x1_0000_0000;
    assert v == n + k * 0x1_0000_0000;
    var w := Wrap32(v * 64);
    var j := (v * 64 + 0x8000_0000) / 0x1_0000_0000;
    assert w == v * 64 - j * 0x1_0000_0000;
    assert w + x - (n * 64 + x) == (64 * k - j) * 0x1_0000_0000;
  }

  /** The low bits survive the wrap, whatever the sign. */
  lemma {:induction false} KeepsByte(v: int, n: int, bits: int)
    requires Keeps(v, n) && bits in {0, 2, 4, 6}
    ensures (v / Bit(bits)) % 256 == (n / Bit(bits)) % 256
  {
    var k := (v - n) / 0x1_0000_0000;
    assert v == n + k * 0x1_0000_0000;
    match bits
    case 0 => assert v / 1 == n / 1 + (k * 0x100_0000) * 256; SameByte(n, k * 0x100_0000);
    case 2 => assert v / 4 == n / 4 + (k * 0x40_0000) * 256; SameByte(n / 4, k * 0x40_0000);
    case 4 => assert v / 16 == n / 16 + (k * 0x10_0000) * 256; SameByte(n / 16, k * 0x10_0000);
    case 6 => assert v / 64 == n / 64 + (k * 0x4_0000) * 256; SameByte(n / 64, k * 0x4_0000);
  }

  lemma {:induction false} SameByte(a: int, k: int)
    ensures (a + k * 256) % 256 == a % 256
  {}

  /** After symbols s: the bytes out so far, the bits not yet out, and 32 bits of the number. */
  ghost predicate Decoding(s: seq<Symbol>, v: int, bits: int, out: seq<Byte>) {
    && bits in {0, 2, 4, 6} && 6 * |s| == 8 * |out| + bits
    && Keeps(v, Val64(s)) && Val256(out) == Val64(s) / Bit(bits)
  }

  function NextByteOf(v: int, bits: int): Byte {
    (v / Bit(bits)) % 256
  }

  lemma {:induction false} DecodingOn(s: seq<Symbol>, v: int, bits: int, out: seq<Byte>, x: Symbol)
    requires Decoding(s, v, bits, out)
    ensures var v' := Wrap32(v * 64) + x;
            if bits + 6 >= 8 then Decoding(s + [x], v', bits - 2, out + [NextByteOf(v', bits - 2)])
            else Decoding(s + [x], v', bits + 6, out)
  {
    hide Val64, Val256, Wrap32, Keeps;
    Val64Snoc(s, x);
    KeepsShift(v, Val64(s), x);
    var v', n := Wrap32(v * 64) + x, Val64(s + [x]);
    if bits >= 2 {
      KeepsByte(v', n, bits - 2);
      NextByte(Val64(s), x, bits - 2);
      Val256Snoc(out, NextByteOf(v', bits - 2));
    } else {
      assert n / 64 == Val64(s);
    }
  }

  /** base64Decode */
  method Decode(text: string) returns (out: seq<Byte>)
    ensures Decodes(Symbols(text), out)
  {
    out := [];
    var v, bits := 0, 0;
    ghost var s: seq<Symbol> := [];
    for i := 0 to |text|
      invariant s == Symbols(text[..i]) && Decoding(s, v, bits, out)
    {
      hide Symbols, Decoding, Wrap32, NextByteOf, SymbolOf;
      var c := text[i];
      SymbolsUpTo(text, i);
      if c == '=' || c == '\n' || c == '\r' || c == ' ' { continue; }
      var x := SymbolOf(c);
      if x.None? { continue; }
      DecodingOn(s, v, bits, out, x.value);
      v := Wrap32(v * 64) + x.value;
      s := s + [x.value];
      bits := bits + 6;
      if bits >= 8 {
        bits := bits - 8;
        out := out + [NextByteOf(v, bits)];
      }
    }
    assert text[..|text|] == text;
  }

  /** Six more bits complete a byte on top of the bytes already out. */
  lemma {:induction false} NextByte(n: nat, x: Symbol, bits: int)
    requires bits in {0, 2, 4}
    ensures (n * 64 + x) / Bit(bits) == (n / Bit(bits + 2)) * 256 + ((n * 64 + x) / Bit(bits)) % 256
  {
  }

  // ---- encoding ----

  /** The symbols hold the bytes' number with at most four zero bits behind it. */
  ghost predicate Encodes(data: seq<Byte>, s: seq<Symbol>) {
    && |s| == (8 * |data| + 5) / 6
    && Val64(s) == Val256(data) * Bit(6 * |s| - 8 * |data|)
  }

  /** base64Encode */
  method Encode(data: seq<Byte>) returns (out: string)
    ensures Encodes(data, Symbols(out)) && |out| == (|data| + 2) / 3 * 4
    ensures forall k | 0 <= k < |out| :: SymbolOf(out[k]).Some? || (out[k] == '=' && k >= |out| - 2)
  {
    hide Symbols, Encodes, Quad, SymbolOf;
    out := [];
    var i := 0;
    NothingEncodes();
    assert data[..0] == [];
    while i < |data|
      invariant 0 <= i && i % 3 == 0 && i <= |data| + 2
      invariant |out| == i / 3 * 4
      invariant Encodes(if i <= |data| then data[..i] else data, Symbols(out))
      invariant forall k | 0 <= k < |out| :: SymbolOf(out[k]).Some? || (i >= |data| && out[k] == '=' && k >= |out| - 2)
      decreases |data| - i
    {
      var b0: int := data[i];
      var b1: int := if i + 1 < |data| then data[i + 1] else 0;
      var b2: int := if i + 2 < |data| then data[i + 2] else 0;
      var four := Quad(b0, b1, b2, |data| - i);
      QuadEncodes(data, i, out, b0, b1, b2);
      QuadChars(b0, b1, b2, |data| - i);
      out := out + four;
      i := i + 3;
    }
    assert i <= |data| ==> data[..i] == data;
  }

  function Triple(b0: int, b1: int, b2: int): int {
    b0 * 0x1_0000 + b1 * 0x100 + b2
  }

  /** The four characters of up to three bytes. */
  function Quad(b0: int, b1: int, b2: int, left: int): (r: string)
    requires 0 <= b0 < 256 && 0 <= b1 < 256 && 0 <= b2 < 256
    ensures |r| == 4
  {
    var triple := Triple(b0, b1, b2);
    [CharOf(triple / 0x4_0000 % 64), CharOf(triple / 0x1000 % 64),
     if left > 1 then CharOf(triple / 64 % 64) else '=', if left > 2 then CharOf(triple % 64) else '=']
  }

  lemma {:induction false} NothingEncodes()
    ensures Encodes([], Symbols(""))
  {}

  lemma {:induction false} QuadChars(b0: int, b1: int, b2: int, left: int)
    requires 0 <= b0 < 256 && 0 <= b1 < 256 && 0 <= b2 < 256
    ensures forall k | 0 <= k < 4 ::
              var c := Quad(b0, b1, b2, left)[k]; SymbolOf(c).Some? || (left < 3 && c == '=' && k >= 2)
  {
    hide SymbolOf;
    var t := Triple(b0, b1, b2);
    SymbolOfChar(t / 0x4_0000 % 64);
    SymbolOfChar(t / 0x1000 % 64);
    SymbolOfChar(t / 64 % 64);
    SymbolOfChar(t % 64);
  }

  /** The 6-bit digits of a 24-bit group, as many as its bytes need. */
  function Digits(t: int, left: int): seq<Symbol>
    requires 0 <= t
  {
    if left <= 1 then [t / 0x4_0000 % 64, t / 0x1000 % 64]
    else if left == 2 then [t / 0x4_0000 % 64, t / 0x1000 % 64, t / 64 % 64]
    else [t / 0x4_0000 % 64, t / 0x1000 % 64, t / 64 % 64, t % 64]
  }

  lemma {:induction false} QuadSymbols(text: string, b0: int, b1: int, b2: int, left: int)
    requires 0 <= b0 < 256 && 0 <= b1 < 256 && 0 <= b2 < 256 && left >= 1
    ensures Symbols(text + Quad(b0, b1, b2, left)) == Symbols(text) + Digits(Triple(b0, b1, b2), left)
  {
    hide Symbols;
    var q := Quad(b0, b1, b2, left);
    assert text + q == text + [q[0]] + [q[1]] + [q[2]] + [q[3]];
    SymbolsSnoc(text, q[0]);
    SymbolsSnoc(text + [q[0]], q[1]);
    SymbolsSnoc(text + [q[0]] + [q[1]], q[2]);
    SymbolsSnoc(text + [q[0]] + [q[1]] + [q[2]], q[3]);
    var t := Triple(b0, b1, b2);
    SymbolOfChar(t / 0x4_0000 % 64);
    SymbolOfChar(t / 0x1000 % 64);
    SymbolOfChar(t / 64 % 64);
    SymbolOfChar(t % 64);
  }

  lemma {:induction false} GroupDigits(t: int)
    requires 0 <= t < 0x100_0000
    ensures var x0, x1, x2, x3 := t / 0x4_0000 % 64, t / 0x1000 % 64, t / 64 % 64, t % 64;
            && t / 0x1000 == x0 * 64 + x1 && t / 64 == (x0 * 64 + x1) * 64 + x2
            && t == ((x0 * 64 + x1) * 64 + x2) * 64 + x3
  {}

  /** The number after a group: its digits behind the earlier number. */
  lemma {:induction false} GroupValue(s: seq<Symbol>, t: int, left: int)
    requires 0 <= t < 0x100_0000
    ensures Val64(s + Digits(t, left)) ==
            if left <= 1 then Val64(s) * 0x1000 + t / 0x1000
            else if left == 2 then Val64(s) * 0x4_0000 + t / 64 else Val64(s) * 0x100_0000 + t
  {
    hide Val64;
    GroupDigits(t);
    Val64Digits(s, t / 0x4_0000 % 64, t / 0x1000 % 64, t / 64 % 64, t % 64);
  }

  /** Whole groups need no padding bits. */
  lemma {:induction false} WholeGroups(data: seq<Byte>, s: seq<Symbol>, q: nat)
    requires |data| == 3 * q
    ensures Encodes(data, s) <==> |s| == 4 * q && Val64(s) == Val256(data)
  {
    hide Val64, Val256;
  }

  lemma {:induction false} TailEncodes(data: seq<Byte>, s: seq<Symbol>, tail: int, q: nat)
    requires tail in {1, 2} && |data| == 3 * q + tail && |s| == 4 * q + tail + 1
    requires Val64(s) == Val256(data) * (if tail == 1 then 16 else 4)
    ensures Encodes(data, s)
  {
    hide Val64, Val256;
  }

  lemma {:induction false} DigitCount(t: int, left: int)
    requires 0 <= t
    ensures |Digits(t, left)| == if left <= 1 then 2 else if left == 2 then 3 else 4
  {}

  lemma {:induction false} Val64Digits(s: seq<Symbol>, x0: Symbol, x1: Symbol, x2: Symbol, x3: Symbol)
    ensures var y := (Val64(s) * 64 + x0) * 64 + x1;
            && Val64(s + [x0, x1]) == y && Val64(s + [x0, x1, x2]) == y * 64 + x2
            && Val64(s + [x0, x1, x2, x3]) == (y * 64 + x2) * 64 + x3
  {
    hide Val64;
    Val64Snoc(s, x0);
    Val64Snoc(s + [x0], x1);
    Val64Snoc(s + [x0] + [x1], x2);
    Val64Snoc(s + [x0] + [x1] + [x2], x3);
    assert s + [x0, x1] == s + [x0] + [x1];
    assert s + [x0, x1, x2] == s + [x0] + [x1] + [x2];
    assert s + [x0, x1, x2, x3] == s + [x0] + [x1] + [x2] + [x3];
  }

  lemma {:induction false} Val256Next(data: seq<Byte>, i: int)
    requires 0 <= i < |data|
    ensures Val256(data[..i + 1]) == Val256(data[..i]) * 256 + data[i]
  {
    hide Val256;
    Val256Snoc(data[..i], data[i]);
    assert data[..i + 1] == data[..i] + [data[i]];
  }

  /** One more group of four characters encodes up to three more bytes. */
  lemma {:induction false} QuadEncodes(data: seq<Byte>, i: int, out: string, b0: int, b1: int, b2: int)
    requires 0 <= i < |data| && i % 3 == 0 && Encodes(data[..i], Symbols(out))
    requires b0 == data[i] && b1 == (if i + 1 < |data| then data[i + 1] else 0)
             && b2 == (if i + 2 < |data| then data[i + 2] else 0)
    ensures Encodes(if i + 3 <= |data| then data[..i + 3] else data, Symbols(out + Quad(b0, b1, b2, |data| - i)))
  {
    hide Symbols, Val64, Val256, Quad, Encodes, Digits;
    QuadSymbols(out, b0, b1, b2, |data| - i);
    GroupEncodes(data, i, Symbols(out), b0, b1, b2);
  }

  lemma {:induction false} GroupEncodes(data: seq<Byte>, i: int, s: seq<Symbol>, b0: int, b1: int, b2: int)
    requires 0 <= i < |data| && i % 3 == 0 && Encodes(data[..i], s)
    requires b0 == data[i] && b1 == (if i + 1 < |data| then data[i + 1] else 0)
             && b2 == (if i + 2 < |data| then data[i + 2] else 0)
    ensures var t := Triple(b0, b1, b2);
            t >= 0 && Encodes(if i + 3 <= |data| then data[..i + 3] else data, s + Digits(t, |data| - i))
  {
    hide Val64, Val256, Encodes, Digits;
    var q := i / 3;
    WholeGroups(data[..i], s, q);
    if i + 1 == |data| {
      OneByteGroup(data, q, s);
    } else if i + 2 == |data| {
      TwoByteGroup(data, q, s);
    } else {
      ThreeByteGroup(data, q, s, |data| - i);
    }
  }

  lemma {:induction false} OneByteGroup(data: seq<Byte>, q: nat, s: seq<Symbol>)
    requires |data| == 3 * q + 1 && |s| == 4 * q && Val64(s) == Val256(data[..3 * q])
    ensures Encodes(data, s + Digits(Triple(data[3 * q], 0, 0), 1))
  {
    hide Val64, Val256, Encodes, Digits;
    var b0: int := data[3 * q];
    var t := Triple(b0, 0, 0);
    DigitCount(t, 1);
    GroupValue(s, t, 1);
    Val256Next(data, 3 * q);
    assert data[..3 * q + 1] == data;
    assert t / 0x1000 == b0 * 16;
    TailEncodes(data, s + Digits(t, 1), 1, q);
  }

  lemma {:induction false} TwoByteGroup(data: seq<Byte>, q: nat, s: seq<Symbol>)
    requires |data| == 3 * q + 2 && |s| == 4 * q && Val64(s) == Val256(data[..3 * q])
    ensures Encodes(data, s + Digits(Triple(data[3 * q], data[3 * q + 1], 0), 2))
  {
    hide Val64, Val256, Encodes, Digits;
    var b0: int, b1: int := data[3 * q], data[3 * q + 1];
    var t := Triple(b0, b1, 0);
    DigitCount(t, 2);
    GroupValue(s, t, 2);
    Val256Next(data, 3 * q);
    Val256Next(data, 3 * q + 1);
    assert data[..3 * q + 2] == data;
    assert t / 64 == b0 * 0x400 + b1 * 4;
    TailEncodes(data, s + Digits(t, 2), 2, q);
  }

  lemma {:induction false} ThreeByteGroup(data: seq<Byte>, q: nat, s: seq<Symbol>, left: int)
    requires |data| >= 3 * q + 3 && |s| == 4 * q && Val64(s) == Val256(data[..3 * q]) && left >= 3
    ensures Encodes(data[..3 * q + 3], s + Digits(Triple(data[3 * q], data[3 * q + 1], data[3 * q + 2]), left))
  {
    hide Val64, Val256, Encodes, Digits;
    var t := Triple(data[3 * q], data[3 * q + 1], data[3 * q + 2]);
    DigitCount(t, left);
    GroupValue(s, t, left);
    Val256Next(data, 3 * q);
    Val256Next(data, 3 * q + 1);
    Val256Next(data, 3 * q + 2);
    WholeGroups(data[..3 * q + 3], s + Digits(t, left), q + 1);
  }

  // ---- round trip ----

  /** Whatever decodes an encoding's symbols is the data. */
  lemma {:induction false} RoundTrip(data: seq<Byte>, s: seq<Symbol>, out: seq<Byte>)
    requires Encodes(data, s) && Decodes(s, out)
    ensures out == data
  {
    hide Val64, Val256;
    var n, pad := |s|, 6 * |s| - 8 * |data|;
    assert 0 <= pad <= 4 && 6 * n % 8 == pad;
    assert Val256(data) * Bit(pad) / Bit(pad) == Val256(data);
    Val256Unique(out, data);
  }

  /** base with characters outside the alphabet strewn in. */
  predicate StrewnFrom(text: string, base: string) {
    if text == [] then base == []
    else
      var n := |text| - 1;
      || (base != [] && base[|base| - 1] == text[n] && StrewnFrom(text[..n], base[..|base| - 1]))
      || (SymbolOf(text[n]).None? && StrewnFrom(text[..n], base))
  }

  lemma {:induction false} StrewnSymbols(text: string, base: string)
    requires StrewnFrom(text, base)
    ensures Symbols(text) == Symbols(base)
  {
    if text != [] {
      var n := |text| - 1;
      if base != [] && base[|base| - 1] == text[n] && StrewnFrom(text[..n], base[..|base| - 1]) {
        StrewnSymbols(text[..n], base[..|base| - 1]);
      } else {
        StrewnSymbols(text[..n], base);
      }
    }
  }

  /** Encoding, then inserting spaces, newlines or anything else outside the alphabet, then decoding. */
  method EncodeThenDecode(data: seq<Byte>, strew: string -> string) returns (text: string, out: seq<Byte>)
    requires forall base :: StrewnFrom(strew(base), base)
    ensures out == data
  {
    var base := Encode(data);
    text := strew(base);
    StrewnSymbols(text, base);
    out := Decode(text);
    RoundTrip(data, Symbols(base), out);
  }
}
