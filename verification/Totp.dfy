/**
 One-time passwords of totp.ts: section 5.3 of RFC 4226 and sections 4.2 and 5.2 of RFC 6238. HMAC-SHA1 is a
 parameter, any function from a key and a message to 20 bytes.
 */
module Totp {
  import opened Wrappers
  import opened Bits
  import opened Base32

  type Mac = (seq<byte>, seq<byte>) -> seq<byte>

  ghost predicate IsSha1Sized(hmac: Mac) {
    forall key, message :: |hmac(key, message)| == 20
  }

  datatype TotpError = BadSecret(c: char) | OutOfRange | LengthMismatch

  const PERIOD_MS := 30_000
  const UINT32 := 0x1_0000_0000
  const UINT64 := 0x1_0000_0000_0000_0000

  /** The time step of a clock reading in milliseconds. */
  function Counter(time: int): int {
    time / PERIOD_MS
  }

  // ---------------------------------------------------------------- the eight-byte counter

  function At(b: seq<byte>, i: nat): nat
    requires i < |b|
  {
    b[i]
  }

  /** The number a byte string spells, most significant byte first. */
  function FromBigEndian(b: seq<byte>): nat {
    if b == [] then 0 else FromBigEndian(b[..|b| - 1]) * 256 + b[|b| - 1]
  }

  /** `buf.writeUInt32BE(x, offset)`: a RangeError unless x is an unsigned 32-bit number. */
  method WriteUInt32BE(buf: array<byte>, x: int, offset: nat) returns (ok: bool)
    requires offset + 4 <= buf.Length
    modifies buf
    ensures ok <==> 0 <= x < UINT32
    ensures !ok ==> buf[..] == old(buf[..])
    ensures ok ==> FromBigEndian(buf[offset..offset + 4]) == x
    ensures buf[..offset] == old(buf[..offset]) && buf[offset + 4..] == old(buf[offset + 4..])
  {
    hide FromBigEndian;
    if x < 0 || x >= UINT32 {
      return false;
    }
    buf[offset] := x / 0x100_0000;
    buf[offset + 1] := x / 0x1_0000 % 256;
    buf[offset + 2] := x / 0x100 % 256;
    buf[offset + 3] := x % 256;
    WordSpelled(buf[offset..offset + 4], x);
    ok := true;
  }

  lemma WordSpelled(b: seq<byte>, x: nat)
    requires |b| == 4 && b[0] == x / 0x100_0000 && b[1] == x / 0x1_0000 % 256
    requires b[2] == x / 0x100 % 256 && b[3] == x % 256
    ensures FromBigEndian(b) == x
  {
    hide FromBigEndian;
    FourBytes(b);
    WordDigits(x);
  }

  lemma WordDigits(x: nat)
    ensures x == x / 0x100_0000 * 0x100_0000 + x / 0x1_0000 % 256 * 0x1_0000 + x / 0x100 % 256 * 0x100 + x % 256
  {
    var q := x / 0x100;
    assert q / 0x100 == x / 0x1_0000 && q / 0x1_0000 == x / 0x100_0000;
    assert q == q / 0x1_0000 * 0x1_0000 + q / 0x100 % 256 * 0x100 + q % 256;
  }

  lemma FourBytes(b: seq<byte>)
    requires |b| == 4
    ensures FromBigEndian(b) == At(b, 0) * 0x100_0000 + At(b, 1) * 0x1_0000 + At(b, 2) * 0x100 + At(b, 3)
  {
    assert b[..3][..2] == b[..2] && b[..2][..1] == b[..1] && b[..1][..0] == [];
    assert FromBigEndian(b[..1]) == b[0];
    assert FromBigEndian(b[..2]) == At(b, 0) * 256 + At(b, 1);
    assert FromBigEndian(b[..3]) == (At(b, 0) * 256 + At(b, 1)) * 256 + At(b, 2);
  }

  function Pow256(n: nat): nat {
    if n == 0 then 1 else 256 * Pow256(n - 1)
  }

  lemma {:induction false} BigEndianConcat(a: seq<byte>, b: seq<byte>)
    ensures FromBigEndian(a + b) == FromBigEndian(a) * Pow256(|b|) + FromBigEndian(b)
  {
    if b == [] {
      assert a + b == a;
    } else {
      var front, last := b[..|b| - 1], b[|b| - 1];
      BigEndianConcat(a, front);
      assert (a + b)[..|a + b| - 1] == a + front;
      Regroup(FromBigEndian(a), 256, Pow256(|front|), Pow256(|b|));
    }
  }

  lemma {:induction false} BigEndianInjective(a: seq<byte>, b: seq<byte>)
    requires |a| == |b| && FromBigEndian(a) == FromBigEndian(b)
    ensures a == b
  {
    if a != [] {
      var m := |a| - 1;
      BigEndianInjective(a[..m], b[..m]);
    }
  }

  /** The eight-byte message of a counter. */
  function Message(counter: nat): seq<byte> {
    BigEndianBytes(counter, 8)
  }

  function BigEndianBytes(n: nat, k: nat): (b: seq<byte>)
    ensures |b| == k
  {
    if k == 0 then [] else BigEndianBytes(n / 256, k - 1) + [n % 256]
  }

  lemma {:induction false} BigEndianRoundTrip(n: nat, k: nat)
    requires n < Pow256(k)
    ensures FromBigEndian(BigEndianBytes(n, k)) == n
  {
    if k > 0 {
      BigEndianRoundTrip(n / 256, k - 1);
      assert BigEndianBytes(n, k)[..k - 1] == BigEndianBytes(n / 256, k - 1);
    }
  }

  /** The high word and the low word, written one after the other, are the message of the counter. */
  lemma WordsAreMessage(message: seq<byte>, counter: nat)
    requires |message| == 8 && counter < UINT64
    requires FromBigEndian(message[..4]) == counter / UINT32 && FromBigEndian(message[4..]) == counter % UINT32
    ensures message == Message(counter)
  {
    BigEndianConcat(message[..4], message[4..]);
    assert message == message[..4] + message[4..];
    assert Pow256(4) == UINT32 && Pow256(6) == Pow256(4) * 0x1_0000 && Pow256(8) == UINT64;
    BigEndianRoundTrip(counter, 8);
    BigEndianInjective(message, Message(counter));
  }

  // ---------------------------------------------------------------- dynamic truncation

  /** Section 5.3 of RFC 4226: 31 bits starting at the byte that the last four bits select. */
  function Truncate(mac: seq<byte>): (code: nat)
    requires |mac| == 20
    ensures code < 0x8000_0000
  {
    var offset := mac[19] % 16;
    At(mac, offset) % 128 * 0x100_0000 + At(mac, offset + 1) * 0x1_0000 + At(mac, offset + 2) * 0x100
    + At(mac, offset + 3)
  }

  /** The code is the big-endian number in the four bytes at the offset, without its sign bit. */
  lemma TruncateReadsFourBytes(mac: seq<byte>)
    requires |mac| == 20
    ensures var offset := mac[19] % 16;
            Truncate(mac) == FromBigEndian(mac[offset..offset + 4]) % 0x8000_0000
  {
    var offset := mac[19] % 16;
    var b := mac[offset..offset + 4];
    FourBytes(b);
    DropSignBit(At(b, 0), At(b, 1) * 0x1_0000 + At(b, 2) * 0x100 + At(b, 3));
  }

  lemma DropSignBit(first: nat, rest: nat)
    requires first < 256 && rest < 0x100_0000
    ensures (first * 0x100_0000 + rest) % 0x8000_0000 == first % 128 * 0x100_0000 + rest
  {
  }

  /** The HMAC value of the worked example in section 5.4 of RFC 4226. */
  const EXAMPLE_MAC: seq<byte> := [0x1f, 0x86, 0x98, 0x69, 0x0e, 0x02, 0xca, 0x16, 0x61, 0x85,
                                   0x50, 0xef, 0x7f, 0x19, 0xda, 0x8e, 0x94, 0x5b, 0x55, 0x5a]

  lemma ExampleBytes(mac: seq<byte>)
    requires mac == EXAMPLE_MAC
    ensures |mac| == 20 && mac[19] % 16 == 10
    ensures At(mac, 10) % 128 == 0x50 && At(mac, 11) == 0xef && At(mac, 12) == 0x7f && At(mac, 13) == 0x19
  {
  }

  lemma Rfc4226Example(mac: seq<byte>)
    requires mac == EXAMPLE_MAC
    ensures |mac| == 20 && Truncate(mac) == 0x50ef7f19 && NumberOf(TokenOf(mac)) == 872921
  {
    hide TokenOf, NumberOf, Decimal, PadStart, At, EXAMPLE_MAC;
    ExampleBytes(mac);
  }

  /** `String(n)` for a natural number. */
  function Decimal(n: nat): (s: string)
    ensures s != [] && IsDigits(s)
  {
    var digit := [(n % 10) as char + '0'];
    if n < 10 then digit else Decimal(n / 10) + digit
  }

  predicate IsDigits(s: string) {
    forall i :: 0 <= i < |s| ==> '0' <= s[i] <= '9'
  }

  function PadStart(s: string, width: nat): string
    decreases width - |s|
  {
    if |s| >= width then s else PadStart("0" + s, width)
  }

  function NumberOf(s: string): nat
    requires IsDigits(s)
  {
    if s == [] then 0 else NumberOf(s[..|s| - 1]) * 10 + (s[|s| - 1] - '0') as nat
  }

  lemma {:induction false} DecimalSpells(n: nat)
    ensures NumberOf(Decimal(n)) == n
  {
    var s := Decimal(n);
    if n >= 10 {
      DecimalSpells(n / 10);
      assert s[..|s| - 1] == Decimal(n / 10);
    } else {
      assert s[..|s| - 1] == [];
    }
  }

  function Pow10(k: nat): nat {
    if k == 0 then 1 else 10 * Pow10(k - 1)
  }

  lemma {:induction false} DecimalLength(n: nat, k: nat)
    requires 1 <= k && n < Pow10(k)
    ensures |Decimal(n)| <= k
  {
    if n >= 10 {
      DecimalLength(n / 10, k - 1);
    }
  }

  lemma {:induction false} LeadingZero(s: string)
    requires IsDigits(s)
    ensures IsDigits("0" + s) && NumberOf("0" + s) == NumberOf(s)
  {
    if s == [] {
      assert "0" + s == "0";
      assert "0"[..0] == [];
    } else {
      LeadingZero(s[..|s| - 1]);
      assert ("0" + s)[..|s|] == "0" + s[..|s| - 1];
    }
  }

  lemma {:induction false} PaddingKeepsNumber(s: string, width: nat)
    requires IsDigits(s) && |s| <= width
    ensures IsDigits(PadStart(s, width)) && |PadStart(s, width)| == width && NumberOf(PadStart(s, width)) == NumberOf(s)
    decreases width - |s|
  {
    if |s| < width {
      LeadingZero(s);
      PaddingKeepsNumber("0" + s, width);
    }
  }

  /** The token of a MAC: six decimal digits that spell the truncated code modulo a million. */
  function TokenOf(mac: seq<byte>): (token: string)
    requires |mac| == 20
    ensures |token| == 6 && IsDigits(token) && NumberOf(token) == Truncate(mac) % 1_000_000
  {
    var code := Truncate(mac) % 1_000_000;
    assert Pow10(6) == 1_000_000;
    DecimalLength(code, 6);
    DecimalSpells(code);
    PaddingKeepsNumber(Decimal(code), 6);
    PadStart(Decimal(code), 6)
  }

  // ---------------------------------------------------------------- tokens

  /** The token that RFC 6238 assigns to a key and a counter. */
  function Token(hmac: Mac, key: seq<byte>, counter: nat): string
    requires |hmac(key, Message(counter))| == 20
  {
    TokenOf(hmac(key, Message(counter)))
  }

  ghost function GenerateSpec(hmac: Mac, secret: string, counter: int): Result<string, TotpError>
    requires IsSha1Sized(hmac)
  {
    match Decode(secret)
    case Err(c) => Err(BadSecret(c))
    case Ok(key) => if 0 <= counter < UINT64 then Ok(Token(hmac, key, counter)) else Err(OutOfRange)
  }

  method GenerateTotpToken(hmac: Mac, secret: string, time: int) returns (r: Result<string, TotpError>)
    requires IsSha1Sized(hmac)
    ensures r == GenerateSpec(hmac, secret, Counter(time))
  {
    hide Decode, Token, TokenOf, FromBigEndian;
    var counter := Counter(time);
    var key := Base32Decode(secret);
    if key.Err? {
      return Err(BadSecret(key.error));
    }
    var buf := new byte[8](_ => 0);
    var high, low := counter / UINT32, counter % UINT32;
    var ok := WriteUInt32BE(buf, high, 0);
    if !ok {
      return Err(OutOfRange);
    }
    ghost var front := buf[..4];
    ok := WriteUInt32BE(buf, low, 4);
    assert buf[..4] == front && buf[4..8] == buf[4..] && buf[..][..4] == front && buf[..][4..] == buf[4..8];
    WordsAreMessage(buf[..], counter);
    r := Ok(MacToken(hmac, key.value, buf[..]));
    assert r.value == Token(hmac, key.value, counter) by {
      TokenFromMessage(hmac, key.value, counter);
    }
  }

  function MacToken(hmac: Mac, key: seq<byte>, message: seq<byte>): string
    requires |hmac(key, message)| == 20
  {
    TokenOf(hmac(key, message))
  }

  lemma TokenFromMessage(hmac: Mac, key: seq<byte>, counter: nat)
    requires IsSha1Sized(hmac)
    ensures Token(hmac, key, counter) == MacToken(hmac, key, Message(counter))
  {
  }

  // ---------------------------------------------------------------- verification

  /** The token is that of a counter in lo .. hi. */
  ghost predicate MatchesBetween(hmac: Mac, key: seq<byte>, token: string, lo: nat, hi: int)
    requires IsSha1Sized(hmac)
  {
    exists c: nat :: lo <= c < hi && token == Token(hmac, key, c)
  }

  lemma ShiftedCounter(now: int, i: int)
    ensures Counter(now + i * PERIOD_MS) == Counter(now) + i
  {
  }

  /**
   `verifyTotpToken`, with the clock passed in. The token is a string of bytes; timingSafeEqual throws when the
   lengths differ. A token is accepted exactly when it is the token of a counter within the window; counters that
   do not fit 64 bits throw when their turn comes.
   */
  method VerifyTotpToken(hmac: Mac, token: string, secret: string, window: int, now: int)
    returns (r: Result<bool, TotpError>)
    requires IsSha1Sized(hmac)
    ensures window < 0 ==> r == Ok(false)
    ensures window >= 0 && Decode(secret).Err? ==> r == Err(BadSecret(Decode(secret).error))
    ensures window >= 0 && Decode(secret).Ok? ==>
              var lo, hi := Counter(now) - window, Counter(now) + window + 1;
              if lo < 0 || lo >= UINT64 then r == Err(OutOfRange)
              else if |token| != 6 then r == Err(LengthMismatch)
              else if MatchesBetween(hmac, Decode(secret).value, token, lo, if hi < UINT64 then hi else UINT64) then
                r == Ok(true)
              else r == if hi <= UINT64 then Ok(false) else Err(OutOfRange)
  {
    hide Decode, Token;
    var i := -window;
    while i <= window
      invariant window >= 0 ==> -window <= i <= window + 1
      invariant window >= 0 && i > -window ==> Decode(secret).Ok? && 0 <= Counter(now) - window && |token| == 6
      invariant window >= 0 && i > -window ==> Counter(now) + i - 1 < UINT64
      invariant window >= 0 && Decode(secret).Ok? && 0 <= Counter(now) - window ==>
                  !MatchesBetween(hmac, Decode(secret).value, token, Counter(now) - window, Counter(now) + i)
    {
      ShiftedCounter(now, i);
      var expected := GenerateTotpToken(hmac, secret, now + i * PERIOD_MS);
      if expected.Err? {
        return Err(expected.error);
      }
      TokenLength(hmac, Decode(secret).value, Counter(now) + i);
      if |token| != |expected.value| {
        return Err(LengthMismatch);
      }
      if token == expected.value {
        return Ok(true);
      }
      i := i + 1;
    }
    r := Ok(false);
  }

  lemma TokenLength(hmac: Mac, key: seq<byte>, counter: nat)
    requires IsSha1Sized(hmac)
    ensures |Token(hmac, key, counter)| == 6
  {
  }

  /** Readings at most `window` periods apart lie in steps at most `window` apart. */
  lemma ClockSkew(t: int, now: int, window: int)
    requires -window * PERIOD_MS <= now - t <= window * PERIOD_MS
    ensures -window <= Counter(t) - Counter(now) <= window
  {
  }

  /** A token generated at t is accepted at every moment at most 30 * window seconds away, before or after. */
  method TokenSurvivesSkew(hmac: Mac, secret: string, t: int, now: int, window: int) returns (accepted: bool)
    requires IsSha1Sized(hmac) && 0 <= window && -window * PERIOD_MS <= now - t <= window * PERIOD_MS
    requires window <= Counter(now) < UINT64 - window && Decode(secret).Ok?
    ensures accepted
  {
    hide Decode, Token;
    ClockSkew(t, now, window);
    var token := GenerateTotpToken(hmac, secret, t);
    TokenLength(hmac, Decode(secret).value, Counter(t));
    var r := VerifyTotpToken(hmac, token.value, secret, window, now);
    accepted := r.value;
  }
}
