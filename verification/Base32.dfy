/** The hand-written base32 codec of totp.ts: section 6 of RFC 4648, without padding on output. */
module Base32 {
  import opened Wrappers
  import opened Bits

  const BASE32_CHARS := "ABCDEFGHIJKLMNOPQRSTUVWXYZ234567"

  /** The alphabet by arithmetic, so that proofs need not open the literal. */
  function Symbol(d: nat): char
    requires d < 32
  {
    if d < 26 then 'A' + d as char else '2' + (d - 26) as char
  }

  lemma SymbolIsAlphabet(d: nat)
    requires d < 32
    ensures |BASE32_CHARS| == 32 && BASE32_CHARS[d] == Symbol(d)
  {
  }

  function IndexOf(c: char): (d: Option<nat>)
    ensures d.Some? ==> d.value < 32 && Symbol(d.value) == c
  {
    if 'A' <= c <= 'Z' then Some((c - 'A') as nat)
    else if '2' <= c <= '7' then Some((c - '2') as nat + 26)
    else None
  }

  /** IndexOf is `BASE32_CHARS.indexOf`: a symbol's position, and none for every other character. */
  lemma IndexOfIsPosition(c: char)
    ensures IndexOf(c).Some? ==> BASE32_CHARS[IndexOf(c).value] == c
    ensures IndexOf(c).None? ==> c !in BASE32_CHARS
  {
    if IndexOf(c).Some? {
      SymbolIsAlphabet(IndexOf(c).value);
    } else {
      forall d | 0 <= d < |BASE32_CHARS| ensures BASE32_CHARS[d] != c {
        SymbolIsAlphabet(d);
      }
    }
  }

  function Zeros(n: nat): seq<bool> {
    seq(n, _ => false)
  }

  predicate AllSymbols(s: string) {
    forall i :: 0 <= i < |s| ==> IndexOf(s[i]).Some?
  }

  function Digits(s: string): (d: seq<nat>)
    requires AllSymbols(s)
    ensures |d| == |s|
  {
    seq(|s|, i requires 0 <= i < |s| => IndexOf(s[i]).value)
  }

  // ---------------------------------------------------------------- encoding

  /**
   Section 6 of RFC 4648, seen as bit strings: the symbols spell the bits of the input, filled up with zeros
   to a multiple of five. There are ceil(8n / 5) symbols.
   */
  ghost predicate IsEncoding(buf: seq<byte>, s: string) {
    && AllSymbols(s)
    && |s| == (8 * |buf| + 4) / 5
    && DigitBits(Digits(s), 5) == DigitBits(buf, 8) + Zeros(5 * |s| - 8 * |buf|)
  }

  /** The symbols written and the pending bits of the accumulator spell `all`. */
  ghost predicate Spelled(result: string, value: nat, bits: nat, all: seq<bool>) {
    AllSymbols(result) && DigitBits(Digits(result), 5) + LowBits(value, bits) == all
  }

  lemma NothingSpelled()
    ensures Spelled("", 0, 0, [])
  {
  }

  lemma AppendSymbol(result: string, d: nat)
    requires AllSymbols(result) && d < 32
    ensures AllSymbols(result + [Symbol(d)]) && Digits(result + [Symbol(d)]) == Digits(result) + [d]
  {
  }

  lemma MoveSymbol(digits: seq<nat>, value: nat, m: nat, d: nat)
    requires d == Shr(value, m) % 32
    ensures DigitBits(digits + [d], 5) + LowBits(value, m) == DigitBits(digits, 5) + LowBits(value, m + 5)
  {
    hide LowBits, Shr, DigitBits;
    TakeSymbol(value, m);
    DigitBitsSnoc(digits, d, 5);
    assert (DigitBits(digits, 5) + LowBits(d, 5)) + LowBits(value, m)
        == DigitBits(digits, 5) + (LowBits(d, 5) + LowBits(value, m));
  }

  /** Writing the top five pending bits as a symbol. */
  lemma EmitSymbol(result: string, value: nat, m: nat, all: seq<bool>)
    requires Spelled(result, value, m + 5, all)
    ensures Spelled(result + [Symbol(Shr(value, m) % 32)], value, m, all)
  {
    AppendSymbol(result, Shr(value, m) % 32);
    MoveSymbol(Digits(result), value, m, Shr(value, m) % 32);
  }

  /** Shifting one more byte in. */
  lemma AbsorbByte(result: string, value: nat, bits: nat, all: seq<bool>, b: nat)
    requires Spelled(result, value, bits, all) && bits <= 24 && b < 256
    ensures Spelled(result, Shl8(value) + b, bits + 8, all + LowBits(b, 8))
  {
    PushByte(value, b, bits);
  }

  lemma PadPending(result: string, value: nat, bits: nat, all: seq<bool>)
    requires Spelled(result, value, bits, all) && bits <= 5
    ensures Spelled(result, Shl(value, 5 - bits), 5, all + Zeros(5 - bits))
  {
    ShlPadsPending(value, bits, 5 - bits);
    ZeroBits(5 - bits);
  }

  /**
   The symbol that the encoder writes depends on the low 12 bits of the accumulator only, however far it has
   overflowed.
   */
  lemma OnlyLow12BitsReachOutput(value: nat, bits: nat)
    requires 5 <= bits <= 12
    ensures Shr(value, bits - 5) % 32 == Shr(value % 4096, bits - 5) % 32
  {
    PowersUsed();
    Pow2Adds(8, 4);
    var low := value % 4096;
    ModKeepsLowBits(value, 12, bits);
    TakeSymbol(value, bits - 5);
    TakeSymbol(low, bits - 5);
    assert LowBits(value, bits)[..5] == LowBits(low, bits)[..5];
    LowBitsInjective(Shr(value, bits - 5) % 32, Shr(low, bits - 5) % 32, 5);
  }

  lemma NextByte(buf: seq<byte>, i: nat)
    requires i < |buf|
    ensures DigitBits(buf[..i + 1], 8) == DigitBits(buf[..i], 8) + LowBits(buf[i], 8)
  {
    DigitBitsSnoc(buf[..i], buf[i], 8);
    assert buf[..i + 1] == buf[..i] + [buf[i]];
  }

  lemma Finished(buf: seq<byte>, result: string, value: nat, pad: nat)
    requires pad < 5 && 5 * |result| == 8 * |buf| + pad
    requires Spelled(result, value, 0, DigitBits(buf, 8) + Zeros(pad))
    ensures IsEncoding(buf, result)
  {
  }

  method Base32Encode(buf: seq<byte>) returns (result: string)
    ensures IsEncoding(buf, result)
  {
    hide Spelled, Shr, Shl, Shl8, LowBits;
    var bits: nat, value: nat := 0, 0;
    result := "";
    ghost var all: seq<bool> := [];
    NothingSpelled();
    for i := 0 to |buf|
      invariant bits < 5 && 5 * |result| + bits == 8 * i
      invariant all == DigitBits(buf[..i], 8) && Spelled(result, value, bits, all)
    {
      AbsorbByte(result, value, bits, all, buf[i]);
      NextByte(buf, i);
      value := Shl8(value) + buf[i];
      bits := bits + 8;
      all := all + LowBits(buf[i], 8);
      while bits >= 5
        invariant bits <= 12 && 5 * |result| + bits == 8 * (i + 1)
        invariant Spelled(result, value, bits, all)
      {
        bits := bits - 5;
        EmitSymbol(result, value, bits, all);
        result := result + [Symbol(Shr(value, bits) % 32)];
      }
    }
    assert buf[..|buf|] == buf;
    ghost var pad: nat := if bits > 0 then 5 - bits else 0;
    if bits > 0 {
      PadPending(result, value, bits, all);
      value := Shl(value, 5 - bits);
      EmitSymbol(result, value, 0, all + Zeros(pad));
      result := result + [Symbol(Shr(value, 0) % 32)];
    }
    assert all + Zeros(0) == all;
    Finished(buf, result, value, pad);
  }

  // ---------------------------------------------------------------- decoding

  function Upper(c: char): char {
    if 'a' <= c <= 'z' then c - 'a' + 'A' else c
  }

  function StripPadding(s: string): string {
    if s != [] && s[|s| - 1] == '=' then StripPadding(s[..|s| - 1]) else s
  }

  /** `input.toUpperCase().replace(/=+$/, '')` on ASCII text. */
  function Clean(input: string): string {
    StripPadding(seq(|input|, i requires 0 <= i < |input| => Upper(input[i])))
  }

  /** Bytes that spell the bits of the symbols, as many whole bytes as there are; or the first character in the way. */
  ghost predicate IsDecoding(input: string, r: Result<seq<byte>, char>) {
    var s := Clean(input);
    match r
    case Ok(out) => AllSymbols(s) && |out| == 5 * |s| / 8 && DigitBits(out, 8) <= DigitBits(Digits(s), 5)
    case Err(c) => exists i :: 0 <= i < |s| && AllSymbols(s[..i]) && IndexOf(s[i]).None? && s[i] == c
  }

  function FirstBad(s: string): (i: nat)
    requires !AllSymbols(s)
    ensures i < |s| && AllSymbols(s[..i]) && IndexOf(s[i]).None?
  {
    var front := s[..|s| - 1];
    if AllSymbols(front) then |front|
    else
      assert s[..FirstBad(front)] == front[..FirstBad(front)];
      FirstBad(front)
  }

  /** The decoding of a text, written down without an accumulator. */
  function Decode(input: string): (r: Result<seq<byte>, char>)
    ensures IsDecoding(input, r)
  {
    var s := Clean(input);
    if AllSymbols(s) then
      DigitBitsLength(Digits(s), 5);
      Ok(Octets(DigitBits(Digits(s), 5), 5 * |s| / 8))
    else Err(s[FirstBad(s)])
  }

  lemma BytesAreUnique(a: seq<byte>, b: seq<byte>, bits: seq<bool>)
    requires |a| == |b| && DigitBits(a, 8) <= bits && DigitBits(b, 8) <= bits
    ensures a == b
  {
    DigitBitsLength(a, 8);
    DigitBitsLength(b, 8);
    PowersUsed();
    DigitBitsInjective(a, b, 8);
  }

  lemma BadIndexIsUnique(s: string, i: nat, j: nat)
    requires i < |s| && j < |s| && IndexOf(s[i]).None? && IndexOf(s[j]).None?
    requires AllSymbols(s[..i]) && AllSymbols(s[..j])
    ensures i == j
  {
  }

  /** The decoding of a text is determined. */
  lemma DecodingIsUnique(input: string, r: Result<seq<byte>, char>)
    requires IsDecoding(input, r)
    ensures r == Decode(input)
  {
    var s, d := Clean(input), Decode(input);
    if r.Ok? {
      BytesAreUnique(r.value, d.value, DigitBits(Digits(s), 5));
    } else {
      var i :| 0 <= i < |s| && AllSymbols(s[..i]) && IndexOf(s[i]).None? && s[i] == r.error;
      BadIndexIsUnique(s, i, FirstBad(s));
    }
  }

  /** The bytes written and the pending bits of the accumulator spell the first i symbols. */
  ghost predicate Consumed(out: seq<byte>, value: nat, bits: nat, s: string, i: nat)
    requires i <= |s|
  {
    AllSymbols(s[..i]) && DigitBits(out, 8) + LowBits(value, bits) == DigitBits(Digits(s[..i]), 5)
  }

  lemma NothingConsumed(s: string)
    ensures Consumed([], 0, 0, s, 0)
  {
  }

  lemma NextSymbol(s: string, i: nat)
    requires i < |s| && AllSymbols(s[..i]) && IndexOf(s[i]).Some?
    ensures AllSymbols(s[..i + 1]) && Digits(s[..i + 1]) == Digits(s[..i]) + [IndexOf(s[i]).value]
  {
  }

  lemma AbsorbDigit(front: seq<bool>, value: nat, bits: nat, digits: seq<nat>, d: nat)
    requires front + LowBits(value, bits) == DigitBits(digits, 5) && bits <= 24 && d < 32
    ensures front + LowBits(Shl5(value) + d, bits + 5) == DigitBits(digits + [d], 5)
  {
    PushSymbol(value, d, bits);
    DigitBitsSnoc(digits, d, 5);
  }

  lemma AbsorbSymbol(out: seq<byte>, value: nat, bits: nat, s: string, i: nat)
    requires i < |s| && Consumed(out, value, bits, s, i) && IndexOf(s[i]).Some? && bits <= 24
    ensures Consumed(out, Shl5(value) + IndexOf(s[i]).value, bits + 5, s, i + 1)
  {
    hide LowBits, Shl5, DigitBits, Digits, IndexOf;
    AbsorbDigit(DigitBits(out, 8), value, bits, Digits(s[..i]), IndexOf(s[i]).value);
    NextSymbol(s, i);
  }

  lemma EmitByte(out: seq<byte>, value: nat, m: nat, s: string, i: nat)
    requires i <= |s| && Consumed(out, value, m + 8, s, i)
    ensures Consumed(out + [Shr(value, m) % 256], value, m, s, i)
  {
    hide LowBits, Shr, DigitBits, Digits, AllSymbols;
    TakeByte(value, m);
    var b := Shr(value, m) % 256;
    DigitBitsSnoc(out, b, 8);
    assert (DigitBits(out, 8) + LowBits(b, 8)) + LowBits(value, m) ==
        DigitBits(out, 8) + (LowBits(b, 8) + LowBits(value, m));
  }

  lemma AllConsumed(input: string, s: string, out: seq<byte>, value: nat, bits: nat)
    requires s == Clean(input) && bits < 8 && 8 * |out| + bits == 5 * |s| && Consumed(out, value, bits, s, |s|)
    ensures IsDecoding(input, Ok(out))
  {
    assert s[..|s|] == s;
  }

  lemma Rejected(input: string, s: string, out: seq<byte>, value: nat, bits: nat, i: nat)
    requires s == Clean(input) && i < |s| && Consumed(out, value, bits, s, i) && IndexOf(s[i]).None?
    ensures IsDecoding(input, Err(s[i]))
  {
  }

  /** The output buffer has floor(5m / 8) bytes; every one of them is written, and none beyond it. */
  method Base32Decode(input: string) returns (r: Result<seq<byte>, char>)
    ensures r == Decode(input)
  {
    hide Consumed, Decode, IsDecoding, Shr, Shl5, Clean;
    var str := Clean(input);
    var bits: nat, value: nat, index: nat := 0, 0, 0;
    var output := new byte[5 * |str| / 8];
    ghost var written: seq<byte> := [];
    NothingConsumed(str);
    for i := 0 to |str|
      invariant bits < 8 && 8 * index + bits == 5 * i && index <= output.Length
      invariant written == output[..index] && Consumed(written, value, bits, str, i)
    {
      var charIndex := IndexOf(str[i]);
      if charIndex.None? {
        Rejected(input, str, written, value, bits, i);
        DecodingIsUnique(input, Err(str[i]));
        return Err(str[i]);
      }
      AbsorbSymbol(written, value, bits, str, i);
      value := Shl5(value) + charIndex.value;
      bits := bits + 5;
      if bits >= 8 {
        bits := bits - 8;
        EmitByte(written, value, bits, str, i + 1);
        var b := Shr(value, bits) % 256;
        written := written + [b];
        output[index] := b;
        index := index + 1;
      }
    }
    AllConsumed(input, str, written, value, bits);
    DecodingIsUnique(input, Ok(written));
    assert index == output.Length;
    r := Ok(output[..index]);
  }

  /** So does the byte that the decoder writes. */
  lemma OnlyLow12BitsReachBytes(value: nat, bits: nat)
    requires 8 <= bits <= 12
    ensures Shr(value, bits - 8) % 256 == Shr(value % 4096, bits - 8) % 256
  {
    PowersUsed();
    Pow2Adds(8, 4);
    var low := value % 4096;
    ModKeepsLowBits(value, 12, bits);
    TakeByte(value, bits - 8);
    TakeByte(low, bits - 8);
    assert LowBits(value, bits)[..8] == LowBits(low, bits)[..8];
    LowBitsInjective(Shr(value, bits - 8) % 256, Shr(low, bits - 8) % 256, 8);
  }

  // ---------------------------------------------------------------- round trips

  lemma SymbolsAreClean(s: string)
    requires AllSymbols(s)
    ensures Clean(s) == s
  {
  }

  /** Decoding undoes encoding for every byte string; `text` may differ from the encoding in case and padding. */
  lemma RoundTrip(buf: seq<byte>, s: string, text: string)
    requires IsEncoding(buf, s) && Clean(text) == s
    ensures Decode(text) == Ok(buf)
  {
    DigitBitsLength(buf, 8);
    assert DigitBits(buf, 8) <= DigitBits(Digits(s), 5);
    DecodingIsUnique(text, Ok(buf));
  }

  function Lower(c: char): char {
    if 'A' <= c <= 'Z' then c - 'A' + 'a' else c
  }

  /** The symbols in any mixture of cases. */
  predicate SameLetters(text: string, s: string) {
    |text| == |s| && forall i :: 0 <= i < |s| ==> text[i] == s[i] || text[i] == Lower(s[i])
  }

  lemma {:induction false} PaddingIsStripped(s: string, n: nat)
    requires s == [] || s[|s| - 1] != '='
    ensures StripPadding(s + seq(n, _ => '=')) == s
  {
    var t := s + seq(n, _ => '=');
    if n == 0 {
      assert t == s;
    } else {
      PaddingIsStripped(s, n - 1);
      assert t[..|t| - 1] == s + seq(n - 1, _ => '=');
    }
  }

  /** Whatever the case of its letters and the padding behind them, an encoding is decoded to its bytes. */
  lemma CaseAndPaddingDoNotMatter(buf: seq<byte>, s: string, text: string, n: nat)
    requires IsEncoding(buf, s) && SameLetters(text, s)
    ensures Clean(text + seq(n, _ => '=')) == s && Decode(text + seq(n, _ => '=')) == Ok(buf)
  {
    var padded := text + seq(n, _ => '=');
    var upper := seq(|padded|, i requires 0 <= i < |padded| => Upper(padded[i]));
    forall i | 0 <= i < |s| ensures Upper(text[i]) == s[i] && s[i] != '=' {
      assert IndexOf(s[i]).Some?;
    }
    assert upper == s + seq(n, _ => '=');
    PaddingIsStripped(s, n);
    RoundTrip(buf, s, padded);
  }

  /** The two methods compose to the identity. */
  method EncodeThenDecode(buf: seq<byte>) returns (r: Result<seq<byte>, char>)
    ensures r == Ok(buf)
  {
    var s := Base32Encode(buf);
    r := Base32Decode(s);
    SymbolsAreClean(s);
    RoundTrip(buf, s, s);
  }

  /** Every byte string has one encoding, and different byte strings have different ones. */
  lemma EncodingIsInjective(a: seq<byte>, b: seq<byte>, s: string, t: string)
    requires IsEncoding(a, s) && IsEncoding(b, t)
    ensures s == t <==> a == b
  {
    PowersUsed();
    if a == b {
      forall k | 0 <= k < |s|
        ensures Digits(s)[k] < 32 && Digits(t)[k] < 32 && s[k] == Symbol(Digits(s)[k]) && t[k] == Symbol(Digits(t)[k])
      {
      }
      DigitBitsInjective(Digits(s), Digits(t), 5);
    } else if s == t && |a| == |b| {
      DigitBitsLength(a, 8);
      DigitBitsLength(b, 8);
      assert DigitBits(a, 8) == DigitBits(Digits(s), 5)[..8 * |a|] == DigitBits(b, 8);
      DigitBitsInjective(a, b, 8);
    }
  }
}
