/** Base64 with padding, as in section 4 of RFC 4648. */
module Base64 {
  import opened Prelude

  type Byte = x: int | 0 <= x < 256
  type Sextet = x: int | 0 <= x < 64

  // ---- Characters ----

  datatype Symbol = Six(value: Sextet) | Pad

  function Letter(d: Sextet): char {
    if d < 26 then 'A' + d as char
    else if d < 52 then 'a' + (d - 26) as char
    else if d < 62 then '0' + (d - 52) as char
    else if d == 62 then '+' else '/'
  }

  predicate IsLetter(c: char) { 'A' <= c <= 'Z' || 'a' <= c <= 'z' || '0' <= c <= '9' || c == '+' || c == '/' }

  function SextetOf(c: char): Sextet
    requires IsLetter(c)
  {
    if 'A' <= c <= 'Z' then (c - 'A') as int
    else if 'a' <= c <= 'z' then (c - 'a') as int + 26
    else if '0' <= c <= '9' then (c - '0') as int + 52
    else if c == '+' then 62 else 63
  }

  function CharOf(y: Symbol): char { if y.Pad? then '=' else Letter(y.value) }

  function SymbolOf(c: char): Option<Symbol> {
    if c == '=' then Some(Pad) else if IsLetter(c) then Some(Six(SextetOf(c))) else None
  }

  lemma {:induction false} SymbolReadsBack(y: Symbol)
    ensures SymbolOf(CharOf(y)) == Some(y)
  {
  }

  lemma {:induction false} SymbolPrintsBack(c: char)
    ensures SymbolOf(c).Some? ==> CharOf(SymbolOf(c).value) == c
  {
  }

  function Text(ys: seq<Symbol>): string { seq(|ys|, i requires 0 <= i < |ys| => CharOf(ys[i])) }

  predicate Readable(s: string) { forall i :: 0 <= i < |s| ==> SymbolOf(s[i]).Some? }

  function Symbols(s: string): seq<Symbol>
    requires Readable(s)
  {
    seq(|s|, i requires 0 <= i < |s| => SymbolOf(s[i]).value)
  }

  lemma {:induction false} TextReadsBack(ys: seq<Symbol>)
    ensures Readable(Text(ys)) && Symbols(Text(ys)) == ys
  {
    forall i | 0 <= i < |ys| ensures SymbolOf(Text(ys)[i]) == Some(ys[i]) { SymbolReadsBack(ys[i]); }
  }

  lemma {:induction false} SymbolsPrintBack(s: string)
    requires Readable(s)
    ensures Text(Symbols(s)) == s
  {
    forall i | 0 <= i < |s| ensures CharOf(SymbolOf(s[i]).value) == s[i] { SymbolPrintsBack(s[i]); }
  }

  // ---- One group: three bytes, four sextets ----

  function First(a: Byte): Sextet { a / 4 }

  function Second(a: Byte, b: Byte): Sextet { a % 4 * 16 + b / 16 }

  function Third(b: Byte, c: Byte): Sextet { b % 16 * 4 + c / 64 }

  function Fourth(c: Byte): Sextet { c % 64 }

  function ByteA(p: Sextet, q: Sextet): Byte { p * 4 + q / 16 }

  function ByteB(q: Sextet, r: Sextet): Byte { q % 16 * 16 + r / 4 }

  function ByteC(r: Sextet, s: Sextet): Byte { r % 4 * 64 + s }

  lemma {:induction false} GroupReadsBack(a: Byte, b: Byte, c: Byte)
    ensures ByteA(First(a), Second(a, b)) == a
    ensures ByteB(Second(a, b), Third(b, c)) == b
    ensures ByteC(Third(b, c), Fourth(c)) == c
  {
  }

  lemma {:induction false} GroupPrintsBack(p: Sextet, q: Sextet, r: Sextet, s: Sextet)
    ensures First(ByteA(p, q)) == p && Second(ByteA(p, q), ByteB(q, r)) == q
    ensures Third(ByteB(q, r), ByteC(r, s)) == r && Fourth(ByteC(r, s)) == s
    ensures Second(ByteA(p, q), 0) == q <==> q % 16 == 0
    ensures Third(ByteB(q, r), 0) == r <==> r % 4 == 0
  {
  }

  // ---- Whole texts ----

  function EncodeSymbols(bytes: seq<Byte>): seq<Symbol> {
    if bytes == [] then []
    else if |bytes| == 1 then [Six(First(bytes[0])), Six(Second(bytes[0], 0)), Pad, Pad]
    else if |bytes| == 2 then [Six(First(bytes[0])), Six(Second(bytes[0], bytes[1])), Six(Third(bytes[1], 0)), Pad]
    else
      [Six(First(bytes[0])), Six(Second(bytes[0], bytes[1])), Six(Third(bytes[1], bytes[2])), Six(Fourth(bytes[2]))]
      + EncodeSymbols(bytes[3..])
  }

  /** Groups of four, padding only at the end. Bits left over in a padded group
      are not looked at. */
  function DecodeSymbols(ys: seq<Symbol>): Option<seq<Byte>> {
    if ys == [] then Some([])
    else if |ys| < 4 || ys[0].Pad? || ys[1].Pad? then None
    else if ys[2].Pad? then
      if |ys| == 4 && ys[3].Pad? then Some([ByteA(ys[0].value, ys[1].value)]) else None
    else if ys[3].Pad? then
      if |ys| == 4 then Some([ByteA(ys[0].value, ys[1].value), ByteB(ys[1].value, ys[2].value)]) else None
    else
      match DecodeSymbols(ys[4..])
      case None => None
      case Some(rest) =>
        Some([ByteA(ys[0].value, ys[1].value), ByteB(ys[1].value, ys[2].value), ByteC(ys[2].value, ys[3].value)] + rest)
  }

  function Encode(bytes: seq<Byte>): string { Text(EncodeSymbols(bytes)) }

  function Decode(s: string): Option<seq<Byte>> { if Readable(s) then DecodeSymbols(Symbols(s)) else None }

  lemma {:induction false} ReadGroup(a: Byte, b: Byte, c: Byte, rest: seq<Symbol>)
    requires DecodeSymbols(rest).Some?
    ensures DecodeSymbols([Six(First(a)), Six(Second(a, b)), Six(Third(b, c)), Six(Fourth(c))] + rest)
         == Some([a, b, c] + DecodeSymbols(rest).value)
  {
    GroupReadsBack(a, b, c);
    var ys := [Six(First(a)), Six(Second(a, b)), Six(Third(b, c)), Six(Fourth(c))] + rest;
    assert ys[4..] == rest;
  }

  lemma {:induction false} ReadLast1(a: Byte)
    ensures DecodeSymbols([Six(First(a)), Six(Second(a, 0)), Pad, Pad]) == Some([a])
  {
    GroupReadsBack(a, 0, 0);
    ReadPadded(First(a), Second(a, 0));
  }

  lemma {:induction false} ReadPadded(p: Sextet, q: Sextet)
    ensures DecodeSymbols([Six(p), Six(q), Pad, Pad]) == Some([ByteA(p, q)])
  {
  }

  lemma {:induction false} ReadLast2(a: Byte, b: Byte)
    ensures DecodeSymbols([Six(First(a)), Six(Second(a, b)), Six(Third(b, 0)), Pad]) == Some([a, b])
  {
    GroupReadsBack(a, b, 0);
  }

  lemma {:induction false} SymbolsReadBack(bytes: seq<Byte>)
    ensures DecodeSymbols(EncodeSymbols(bytes)) == Some(bytes)
  {
    if |bytes| == 1 {
      ReadLast1(bytes[0]);
      assert bytes == [bytes[0]];
    } else if |bytes| == 2 {
      ReadLast2(bytes[0], bytes[1]);
      assert bytes == [bytes[0], bytes[1]];
    } else if |bytes| > 2 {
      SymbolsReadBack(bytes[3..]);
      ReadGroup(bytes[0], bytes[1], bytes[2], EncodeSymbols(bytes[3..]));
      assert bytes == [bytes[0], bytes[1], bytes[2]] + bytes[3..];
    }
  }

  /** Decoding an encoding gives the bytes back. */
  lemma {:induction false} DecodeEncode(bytes: seq<Byte>)
    ensures Decode(Encode(bytes)) == Some(bytes)
  {
    TextReadsBack(EncodeSymbols(bytes));
    SymbolsReadBack(bytes);
  }

  /** Whether the last group leaves no bits over. */
  predicate NoSpareBits(ys: seq<Symbol>) {
    var n := |ys|;
    n >= 4 && ys[n - 1].Pad? ==>
      if ys[n - 2].Pad? then ys[n - 3].Six? && ys[n - 3].value % 16 == 0
      else ys[n - 2].value % 4 == 0
  }

  lemma {:induction false} SymbolsPrintBackIff(ys: seq<Symbol>)
    requires DecodeSymbols(ys).Some?
    ensures EncodeSymbols(DecodeSymbols(ys).value) == ys <==> NoSpareBits(ys)
    ensures ys == [] || |ys| >= 4
  {
    if ys != [] {
      GroupPrintsBack(ys[0].value, ys[1].value, if ys[2].Six? then ys[2].value else 0, if ys[3].Six? then ys[3].value else 0);
      if ys[2].Pad? {
        assert ys == [ys[0], ys[1], Pad, Pad];
      } else if ys[3].Pad? {
        assert ys == [ys[0], ys[1], ys[2], Pad];
      } else {
        SymbolsPrintBackIff(ys[4..]);
        PrintGroup(ys);
      }
    }
  }

  lemma {:induction false} PrintGroup(ys: seq<Symbol>)
    requires |ys| >= 4 && ys[0].Six? && ys[1].Six? && ys[2].Six? && ys[3].Six? && DecodeSymbols(ys[4..]).Some?
    ensures EncodeSymbols(DecodeSymbols(ys).value) == ys <==> EncodeSymbols(DecodeSymbols(ys[4..]).value) == ys[4..]
  {
    var p, q, r, t := ys[0].value, ys[1].value, ys[2].value, ys[3].value;
    GroupPrintsBack(p, q, r, t);
    var bytes, rest := DecodeSymbols(ys).value, DecodeSymbols(ys[4..]).value;
    assert bytes == [ByteA(p, q), ByteB(q, r), ByteC(r, t)] + rest && bytes[3..] == rest;
    assert EncodeSymbols(bytes) == ys[..4] + EncodeSymbols(rest);
    assert (ys[..4] + EncodeSymbols(rest))[4..] == EncodeSymbols(rest);
    assert ys == ys[..4] + ys[4..];
  }

  /** Two texts can decode alike; a text is the encoding of what it decodes to
      exactly when its padding leaves no bits over. */
  lemma {:induction false} EncodeDecodeIff(s: string)
    requires Decode(s).Some?
    ensures Encode(Decode(s).value) == s <==> NoSpareBits(Symbols(s))
  {
    SymbolsPrintBackIff(Symbols(s));
    SymbolsPrintBack(s);
    TextReadsBack(EncodeSymbols(Decode(s).value));
  }

  /** Four characters for every three bytes, begun. */
  lemma {:induction false} EncodeLength(bytes: seq<Byte>)
    ensures |Encode(bytes)| == (|bytes| + 2) / 3 * 4
  {
    if |bytes| > 2 { EncodeLength(bytes[3..]); }
  }

  // ---- The text, character by character ----

  /** The alphabet of section 4 of RFC 4648. */
  function Alphabet(): (s: string)
    ensures |s| == 64
  {
    Range('A', 26) + Range('a', 26) + Range('0', 10) + ['+', '/']
  }

  /** `n` characters from `c` on. */
  function Range(c: char, n: nat): (s: string)
    requires c as int + n < 128
    ensures |s| == n
  {
    seq(n, i requires 0 <= i < n => (c as int + i) as char)
  }

  lemma {:induction false} LetterIsTable(d: Sextet)
    ensures Letter(d) == Alphabet()[d]
  {
  }

  function At(bytes: seq<Byte>, i: nat): Byte { if i < |bytes| then bytes[i] else 0 }

  /** Group `g` of the bytes as one number of 24 bits, missing bytes zero. */
  function Bits(bytes: seq<Byte>, g: nat): nat {
    At(bytes, 3 * g) * 65536 + At(bytes, 3 * g + 1) * 256 + At(bytes, 3 * g + 2)
  }

  /** Symbol `k` of group `g`: six bits of the number, or padding where no byte
      reaches. */
  function SymbolAt(bytes: seq<Byte>, g: nat, k: nat): Symbol
    requires k < 4
  {
    if k == 0 then Six(Bits(bytes, g) / 262144)
    else if k == 1 then Six(Bits(bytes, g) / 4096 % 64)
    else if k == 2 then (if 3 * g + 1 < |bytes| then Six(Bits(bytes, g) / 64 % 64) else Pad)
    else (if 3 * g + 2 < |bytes| then Six(Bits(bytes, g) % 64) else Pad)
  }

  lemma {:induction false} DivideBy(n: nat, d: nat, q: nat, r: nat)
    requires r < d && n == q * d + r
    ensures n / d == q && n % d == r
  {
    var x := n / d - q;
    assert n == n / d * d + n % d && x * d == r - n % d;
    TimesAtLeast(x, d);
  }

  lemma {:induction false} TimesAtLeast(x: int, d: nat)
    ensures x >= 1 ==> x * d >= d
    ensures x <= -1 ==> x * d <= 0 - d
  {
  }

  lemma {:induction false} GroupIsBits(a: Byte, b: Byte, c: Byte)
    ensures var n := a * 65536 + b * 256 + c;
      First(a) == n / 262144 && Second(a, b) == n / 4096 % 64 && Third(b, c) == n / 64 % 64 && Fourth(c) == n % 64
  {
    var n := a * 65536 + b * 256 + c;
    var p: nat, q: nat, r: nat, t: nat := First(a), Second(a, b), Third(b, c), Fourth(c);
    assert a == p * 4 + a % 4 && b == b / 16 * 16 + b % 16 && c == c / 64 * 64 + t;
    assert n == p * 262144 + q * 4096 + r * 64 + t;
    DivideBy(n, 262144, p, q * 4096 + r * 64 + t);
    DivideBy(n, 4096, p * 64 + q, r * 64 + t);
    DivideBy(n, 64, p * 4096 + q * 64 + r, t);
    DivideBy(p * 64 + q, 64, p, q);
    DivideBy(p * 4096 + q * 64 + r, 64, p * 64 + q, r);
  }

  lemma {:induction false} LaterGroup(bytes: seq<Byte>, g: nat, k: nat)
    requires |bytes| >= 3 && g > 0 && k < 4
    ensures SymbolAt(bytes, g, k) == SymbolAt(bytes[3..], g - 1, k)
  {
    assert forall i: nat :: i >= 3 ==> At(bytes, i) == At(bytes[3..], i - 3);
    assert Bits(bytes, g) == Bits(bytes[3..], g - 1);
  }

  lemma {:induction false} FirstGroup(bytes: seq<Byte>)
    requires bytes != []
    ensures |EncodeSymbols(bytes)| >= 4
    ensures forall k :: 0 <= k < 4 ==> EncodeSymbols(bytes)[k] == SymbolAt(bytes, 0, k)
  {
    FirstBits(bytes, At(bytes, 0), At(bytes, 1), At(bytes, 2));
    FirstFour(bytes, At(bytes, 0), At(bytes, 1), At(bytes, 2));
  }

  lemma {:induction false} FirstBits(bytes: seq<Byte>, a: Byte, b: Byte, c: Byte)
    requires a == At(bytes, 0) && b == At(bytes, 1) && c == At(bytes, 2)
    ensures var n := Bits(bytes, 0);
      First(a) == n / 262144 && Second(a, b) == n / 4096 % 64 && Third(b, c) == n / 64 % 64 && Fourth(c) == n % 64
  {
    GroupIsBits(a, b, c);
  }

  lemma {:induction false} FirstFour(bytes: seq<Byte>, a: Byte, b: Byte, c: Byte)
    requires bytes != [] && a == At(bytes, 0) && b == At(bytes, 1) && c == At(bytes, 2)
    ensures |EncodeSymbols(bytes)| >= 4
    ensures EncodeSymbols(bytes)[0] == Six(First(a)) && EncodeSymbols(bytes)[1] == Six(Second(a, b))
    ensures EncodeSymbols(bytes)[2] == (if |bytes| > 1 then Six(Third(b, c)) else Pad)
    ensures EncodeSymbols(bytes)[3] == (if |bytes| > 2 then Six(Fourth(c)) else Pad)
  {
  }

  lemma {:induction false} SymbolsAre(bytes: seq<Byte>, g: nat, k: nat)
    requires 3 * g < |bytes| && k < 4
    ensures 4 * g + k < |EncodeSymbols(bytes)| && EncodeSymbols(bytes)[4 * g + k] == SymbolAt(bytes, g, k)
    decreases g
  {
    FirstGroup(bytes);
    if g > 0 {
      SymbolsAre(bytes[3..], g - 1, k);
      LaterGroup(bytes, g, k);
      assert EncodeSymbols(bytes)[4..] == EncodeSymbols(bytes[3..]);
      assert EncodeSymbols(bytes)[4 * g + k] == EncodeSymbols(bytes[3..])[4 * (g - 1) + k];
    }
  }

  /** An encoding is what the standard says: of every three bytes, begun, the four
      characters that the alphabet has for their 24 bits, six at a time, padded
      with equals signs. */
  lemma {:induction false} EncodingIsStandard(bytes: seq<Byte>, g: nat, k: nat)
    requires 3 * g < |bytes| && k < 4
    ensures 4 * g + k < |Encode(bytes)|
    ensures Encode(bytes)[4 * g + k] ==
      match SymbolAt(bytes, g, k) case Six(d) => Alphabet()[d] case Pad => '='
  {
    SymbolsAre(bytes, g, k);
    if SymbolAt(bytes, g, k).Six? { LetterIsTable(SymbolAt(bytes, g, k).value); }
  }

  // ---- The shape the reader checks before decoding ----

  predicate AllLetters(s: string) { forall i :: 0 <= i < |s| ==> IsLetter(s[i]) }

  /** The regular expression `[A-Za-z0-9+/]*={0,2}` on the whole text. */
  predicate HasShape(s: string) {
    exists k: nat :: k <= 2 && PadsLast(s, k)
  }

  predicate PadsLast(s: string, k: nat) {
    k <= |s| && AllLetters(s[..|s| - k]) && forall i :: |s| - k <= i < |s| ==> s[i] == '='
  }

  lemma {:induction false} PadsOnlyAtEnd(ys: seq<Symbol>) returns (k: nat)
    requires DecodeSymbols(ys).Some?
    ensures k <= 2 && k <= |ys| && forall i :: 0 <= i < |ys| ==> (ys[i].Pad? <==> i >= |ys| - k)
  {
    k := 0;
    if |ys| > 4 {
      k := PadsOnlyAtEnd(ys[4..]);
      assert |ys| - 4 >= 4 by { if DecodeSymbols(ys[4..]).Some? { SymbolsPrintBackIff(ys[4..]); } }
      forall i | 4 <= i < |ys| ensures ys[i].Pad? <==> i >= |ys| - k { assert ys[i] == ys[4..][i - 4]; }
    } else if ys != [] {
      k := if ys[2].Pad? then 2 else if ys[3].Pad? then 1 else 0;
    }
  }

  /** No text that decodes is refused for its shape. */
  lemma {:induction false} DecodableHasShape(s: string)
    requires Decode(s).Some?
    ensures HasShape(s)
  {
    var k := PadsOnlyAtEnd(Symbols(s));
    forall i | 0 <= i < |s| ensures s[i] == '=' <==> Symbols(s)[i].Pad? { SymbolPrintsBack(s[i]); }
    forall i | 0 <= i < |s| - k ensures IsLetter(s[i]) { assert SymbolOf(s[i]).Some? && !Symbols(s)[i].Pad?; }
    assert PadsLast(s, k);
  }

  lemma {:induction false} ShapedDecodes(ys: seq<Symbol>, k: nat, n: nat)
    requires |ys| == 4 * n && k <= 2 && k <= |ys| && forall i :: 0 <= i < |ys| ==> (ys[i].Pad? <==> i >= |ys| - k)
    ensures DecodeSymbols(ys).Some?
    decreases |ys|
  {
    if |ys| > 4 {
      assert !ys[0].Pad? && !ys[1].Pad? && !ys[2].Pad? && !ys[3].Pad?;
      forall i | 0 <= i < |ys| - 4 ensures ys[4..][i].Pad? <==> i >= |ys| - 4 - k { assert ys[4..][i] == ys[i + 4]; }
      ShapedDecodes(ys[4..], k, n - 1);
    }
  }

  lemma {:induction false} DecodableLength(ys: seq<Symbol>) returns (n: nat)
    requires DecodeSymbols(ys).Some?
    ensures |ys| == 4 * n
  {
    n := 0;
    if ys != [] {
      if |ys| > 4 { n := DecodableLength(ys[4..]); }
      n := n + 1;
    }
  }

  /** Exactly the texts of that shape whose length is a multiple of four decode. */
  lemma {:induction false} DecodableIff(s: string)
    ensures Decode(s).Some? <==> HasShape(s) && |s| % 4 == 0
  {
    if Decode(s).Some? {
      DecodableHasShape(s);
      var n := DecodableLength(Symbols(s));
    }
    if HasShape(s) && |s| % 4 == 0 {
      var k: nat :| k <= 2 && PadsLast(s, k);
      forall i | 0 <= i < |s| ensures SymbolOf(s[i]).Some? && (SymbolOf(s[i]).value.Pad? <==> i >= |s| - k) {
        if i < |s| - k { assert s[..|s| - k][i] == s[i]; }
      }
      ShapedDecodes(Symbols(s), k, |s| / 4);
    }
  }
}
