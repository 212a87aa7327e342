/** Base32 as the two TOTP modules write it (src/crypto.rs, src/requests_app.rs):
    a 32-bit accumulator that is shifted left forever, so its high bits fall off
    while the low `bits` of it are still owed to the output. */
module Base32 {
  import opened Text
  import opened Wrappers

  type Byte = b: int | 0 <= b < 256

  const U32 := 0x1_0000_0000
  const ALPHABET := "ABCDEFGHIJKLMNOPQRSTUVWXYZ234567"

  function Pow2(n: nat): (p: nat)
    ensures p > 0
  {
    if n == 0 then 1 else 2 * Pow2(n - 1)
  }

  /** The machine's shifts on a 32-bit word, one place at a time: a left shift
      drops what leaves the word. */
  function Shl(x: nat, n: nat): nat {
    if n == 0 then x else 2 * Shl(x, n - 1) % U32
  }

  function Shr(x: nat, n: nat): nat {
    if n == 0 then x else Shr(x / 2, n - 1)
  }

  // ------------------------------------------------- what the code must mean

  /** The low `n` bits of `x`, most significant first. */
  function Bits(x: nat, n: nat): (s: seq<bool>)
    ensures |s| == n
  {
    if n == 0 then [] else Bits(x / 2, n - 1) + [x % 2 == 1]
  }

  function BitsOf(data: seq<Byte>): (s: seq<bool>)
    ensures |s| == 8 * |data|
  {
    if data == [] then [] else BitsOf(data[..|data| - 1]) + Bits(data[|data| - 1], 8)
  }

  /** The value of a base32 digit in either case, as section 6 of RFC 4648 lists
      them; None for any other character. */
  function Digit(c: char): (v: Option<nat>)
    ensures v.Some? ==> v.value < 32
  {
    var u := UpperChar(c);
    if 'A' <= u <= 'Z' then Some(u as int - 'A' as int)
    else if '2' <= u <= '7' then Some(c as int - '2' as int + 26)
    else None
  }

  predicate Skipped(c: char) {
    IsWhitespace(c) || c == '='
  }

  /** Every character is skipped or a digit. */
  predicate Readable(s: string) {
    s == [] || (Readable(s[..|s| - 1]) && (Skipped(s[|s| - 1]) || Digit(s[|s| - 1]).Some?))
  }

  /** The bits a readable text spells, five to a digit. */
  function Spelled(s: string): seq<bool> {
    if s == [] then []
    else
      var c := s[|s| - 1];
      Spelled(s[..|s| - 1]) + if !Skipped(c) && Digit(c).Some? then Bits(Digit(c).value, 5) else []
  }

  /** `out` is the whole bytes of a bit string, a rest of under eight bits dropped. */
  ghost predicate WholeBytes(bits: seq<bool>, out: seq<Byte>) {
    8 * |out| <= |bits| < 8 * |out| + 8 && BitsOf(out) == bits[..8 * |out|]
  }

  // ----------------------------------------------------------- bit arithmetic

  lemma {:induction false} BitsSplit(x: nat, m: nat, n: nat)
    ensures Bits(x, m + n) == Bits(Shr(x, n), m) + Bits(x, n)
    decreases n
  {
    if n > 0 {
      var low := [x % 2 == 1];
      calc {
        Bits(x, m + n);
        Bits(x / 2, m + n - 1) + low;
        { BitsSplit(x / 2, m, n - 1); }
        (Bits(Shr(x / 2, n - 1), m) + Bits(x / 2, n - 1)) + low;
        Bits(Shr(x / 2, n - 1), m) + (Bits(x / 2, n - 1) + low);
      }
    }
  }

  /** The low `k` bits of `x` are zero. */
  predicate LowZero(x: nat, k: nat) {
    k == 0 || (x % 2 == 0 && LowZero(x / 2, k - 1))
  }

  lemma {:induction false} MultiplesAreLowZero(q: nat, k: nat)
    ensures LowZero(q * Pow2(k), k)
  {
    if k > 0 {
      assert q * Pow2(k) == 2 * (q * Pow2(k - 1));
      MultiplesAreLowZero(q, k - 1);
    }
  }

  /** Adding something whose low bits are zero does not disturb the low bits. */
  lemma {:induction false} AddHigh(x: nat, high: nat, n: nat)
    requires LowZero(high, n)
    ensures Bits(x + high, n) == Bits(x, n)
    ensures LowZero(x, n) <==> LowZero(x + high, n)
    decreases n
  {
    if n > 0 {
      assert (x + high) / 2 == x / 2 + high / 2;
      AddHigh(x / 2, high / 2, n - 1);
    }
  }

  lemma {:induction false} LowZeroFewer(x: nat, k: nat, n: nat)
    requires LowZero(x, k) && n <= k
    ensures LowZero(x, n)
  {
    if n > 0 {
      LowZeroFewer(x / 2, k - 1, n - 1);
    }
  }

  /** Reducing modulo 2^k keeps the low bits up to `k`. */
  lemma DropHigh(x: nat, rest: nat, high: nat, k: nat, n: nat)
    requires n <= k && x == rest + high && LowZero(high, k)
    ensures Bits(rest, n) == Bits(x, n)
    ensures LowZero(rest, n) <==> LowZero(x, n)
  {
    LowZeroFewer(high, k, n);
    AddHigh(rest, high, n);
  }

  lemma Mod32KeepsLow(x: nat)
    ensures Bits(x % 32, 5) == Bits(x, 5)
  {
    Powers();
    MultiplesAreLowZero(x / 32, 5);
    DropHigh(x, x % 32, x / 32 * 32, 5, 5);
  }

  lemma Mod256KeepsLow(x: nat)
    ensures Bits(x % 256, 8) == Bits(x, 8)
  {
    Powers();
    MultiplesAreLowZero(x / 256, 8);
    DropHigh(x, x % 256, x / 256 * 256, 8, 8);
  }

  lemma WordKeepsLow(x: nat, n: nat)
    requires n <= 32
    ensures Bits(x % U32, n) == Bits(x, n)
    ensures LowZero(x % U32, n) <==> LowZero(x, n)
  {
    Powers();
    MultiplesAreLowZero(x / U32, 32);
    DropHigh(x, x % U32, x / U32 * U32, 32, n);
  }

  lemma Powers()
    ensures Pow2(5) == 32 && Pow2(8) == 256 && Pow2(32) == U32
  {
    assert Pow2(8) == 256;
    assert Pow2(16) == 65_536;
    assert Pow2(24) == 16_777_216;
  }

  /** A left shift appends zeros to the bits that still fit the word. */
  lemma {:induction false} ShlAppendsZeros(x: nat, owed: nat, w: nat)
    requires owed + w <= 32
    ensures Bits(Shl(x, w), owed + w) == Bits(x, owed) + seq(w, _ => false)
    ensures LowZero(Shl(x, w), w)
    decreases w
  {
    if w > 0 {
      var y := Shl(x, w - 1);
      ShlAppendsZeros(x, owed, w - 1);
      Double(y, owed + w - 1, w - 1);
      assert seq(w - 1, _ => false) + [false] == seq(w, _ => false);
    }
  }

  lemma Double(y: nat, n: nat, k: nat)
    requires n < 32 && k < 32 && LowZero(y, k)
    ensures Bits(2 * y % U32, n + 1) == Bits(y, n) + [false]
    ensures LowZero(2 * y % U32, k + 1)
  {
    WordKeepsLow(2 * y, n + 1);
    WordKeepsLow(2 * y, k + 1);
    assert 2 * y / 2 == y;
  }

  /** The value or-ed into zeroed low bits takes their place. */
  lemma {:induction false} OrLow(x: nat, v: nat, m: nat, w: nat)
    requires LowZero(x, w) && v < Pow2(w)
    ensures Bits(x + v, m + w) == Bits(x, m + w)[..m] + Bits(v, w)
    decreases w
  {
    if w > 0 {
      assert (x + v) / 2 == x / 2 + v / 2 && (x + v) % 2 == v % 2;
      OrLow(x / 2, v / 2, m, w - 1);
    }
  }

  /** Pushing `w` new low bits into the 32-bit accumulator appends them to the
      bits still owed, as long as owed and new together fit the word. */
  lemma PushBits(done: seq<bool>, buffer: nat, owed: nat, v: nat, w: nat)
    requires owed + w <= 32 && v < Pow2(w)
    ensures done + Bits(Shl(buffer, w) + v, owed + w) == done + Bits(buffer, owed) + Bits(v, w)
  {
    ShlAppendsZeros(buffer, owed, w);
    OrLow(Shl(buffer, w), v, owed, w);
  }

  lemma PushByte(done: seq<bool>, buffer: nat, owed: nat, b: Byte)
    requires owed <= 24
    ensures done + Bits(Shl(buffer, 8) + b, owed + 8) == done + Bits(buffer, owed) + Bits(b, 8)
  {
    assert b < Pow2(8) by { Powers(); }
    PushBits(done, buffer, owed, b, 8);
  }

  /** Taking the top five, or the top eight, of the owed bits. */
  lemma PopFive(done: seq<bool>, buffer: nat, owed: nat, v: nat)
    requires 5 <= owed <= 32 && v == Shr(buffer, owed - 5) % 32
    ensures done + Bits(v, 5) + Bits(buffer, owed - 5) == done + Bits(buffer, owed)
  {
    BitsSplit(buffer, 5, owed - 5);
    Mod32KeepsLow(Shr(buffer, owed - 5));
  }

  lemma PopEight(done: seq<bool>, buffer: nat, owed: nat, v: nat)
    requires 8 <= owed <= 32 && v == Shr(buffer, owed - 8) % 256
    ensures done + Bits(v, 8) + Bits(buffer, owed - 8) == done + Bits(buffer, owed)
  {
    BitsSplit(buffer, 8, owed - 8);
    Mod256KeepsLow(Shr(buffer, owed - 8));
  }

  /** The last, partial symbol: the rest shifted up, zeros behind it. */
  lemma PadBits(buffer: nat, owed: nat)
    requires 0 < owed < 5
    ensures Bits(Shl(buffer, 5 - owed) % 32, 5) == Bits(buffer, owed) + seq(5 - owed, _ => false)
  {
    Mod32KeepsLow(Shl(buffer, 5 - owed));
    ShlAppendsZeros(buffer, owed, 5 - owed);
  }

  /** `c` is the symbol of the RFC 4648 alphabet for the value `v`. */
  predicate SymbolOf(c: char, v: nat) {
    Digit(c) == Some(v) && UpperChar(c) == c && !Skipped(c)
  }

  /** The alphabet table lists each value's symbol. */
  method SymbolAt(v: nat) returns (c: char)
    requires v < 32
    ensures SymbolOf(c, v)
  {
    c := ALPHABET[v];
    assert ALPHABET[v] == if v < 26 then (v + 65) as char else (v + 24) as char;
  }

  lemma SpelledAppend(s: string, c: char)
    ensures Spelled(s + [c])
            == Spelled(s) + if !Skipped(c) && Digit(c).Some? then Bits(Digit(c).value, 5) else []
    ensures Readable(s + [c]) <==> Readable(s) && (Skipped(c) || Digit(c).Some?)
  {
    assert (s + [c])[..|s|] == s;
  }

  lemma SpelledSymbol(s: string, c: char, v: nat)
    requires SymbolOf(c, v)
    ensures Spelled(s + [c]) == Spelled(s) + Bits(v, 5)
    ensures InAlphabet(s) ==> InAlphabet(s + [c])
  {
    assert (s + [c])[..|s|] == s;
  }

  lemma SpelledDigit(s: string, c: char, v: nat)
    requires Digit(c) == Some(v) && !Skipped(c)
    ensures Spelled(s + [c]) == Spelled(s) + Bits(v, 5)
    ensures Readable(s + [c]) <==> Readable(s)
  {
    SpelledAppend(s, c);
  }

  lemma {:induction false} ReadablePrefix(s: string, n: nat)
    requires n <= |s| && Readable(s)
    ensures Readable(s[..n])
    decreases |s|
  {
    if n < |s| {
      assert s[..|s| - 1][..n] == s[..n];
      ReadablePrefix(s[..|s| - 1], n);
    } else {
      assert s[..n] == s;
    }
  }

  lemma {:induction false} AlphabetIsReadable(s: string)
    requires InAlphabet(s)
    ensures Readable(s)
  {
    if s != [] {
      AlphabetIsReadable(s[..|s| - 1]);
    }
  }

  lemma BitsOfAppend(data: seq<Byte>, b: Byte)
    ensures BitsOf(data + [b]) == BitsOf(data) + Bits(b, 8)
  {
    assert (data + [b])[..|data|] == data;
  }

  // ---------------------------------------------------------------- the code

  /** Only symbols, no padding, no lower case. */
  predicate InAlphabet(s: string) {
    s == [] || (InAlphabet(s[..|s| - 1]) && Digit(s[|s| - 1]).Some? && SymbolOf(s[|s| - 1], Digit(s[|s| - 1]).value))
  }

  /** The encoder's invariant: the symbols out and the bits still owed spell the
      bytes taken so far. */
  ghost predicate EncodedSoFar(taken: seq<Byte>, out: string, buffer: nat, bits: nat) {
    InAlphabet(out) && 5 * |out| + bits == 8 * |taken| && Spelled(out) + Bits(buffer, bits) == BitsOf(taken)
  }

  lemma EmitSymbol(taken: seq<Byte>, out: string, buffer: nat, bits: nat, v: nat, c: char)
    requires EncodedSoFar(taken, out, buffer, bits) && 5 <= bits <= 32 && v == Shr(buffer, bits - 5) % 32
    requires SymbolOf(c, v)
    ensures EncodedSoFar(taken, out + [c], buffer, bits - 5)
  {
    SpelledSymbol(out, c, v);
    PopFive(Spelled(out), buffer, bits, v);
  }

  /** Taking one byte in. */
  lemma TakeByte(taken: seq<Byte>, b: Byte, out: string, buffer: nat, bits: nat)
    requires EncodedSoFar(taken, out, buffer, bits) && bits < 5
    ensures EncodedSoFar(taken + [b], out, Shl(buffer, 8) + b, bits + 8)
  {
    BitsOfAppend(taken, b);
    PushByte(Spelled(out), buffer, bits, b);
  }

  lemma EmitRest(taken: seq<Byte>, out: string, buffer: nat, bits: nat, v: nat, c: char)
    requires EncodedSoFar(taken, out, buffer, bits) && 0 < bits < 5 && v == Shl(buffer, 5 - bits) % 32
    requires SymbolOf(c, v)
    ensures IsEncoding(taken, out + [c])
  {
    PadBits(buffer, bits);
    SpelledSymbol(out, c, v);
    var zeros := seq(5 - bits, _ => false);
    assert Spelled(out) + (Bits(buffer, bits) + zeros) == BitsOf(taken) + zeros;
  }

  /** The encoding of section 6 of RFC 4648 without padding: the bytes' bits in
      fives, zeros after the last. */
  ghost predicate IsEncoding(data: seq<Byte>, out: string) {
    |out| == (8 * |data| + 4) / 5 && InAlphabet(out)
    && Spelled(out) == BitsOf(data) + seq(5 * |out| - 8 * |data|, _ => false)
  }

  method Encode(data: seq<Byte>) returns (out: string)
    ensures IsEncoding(data, out)
  {
    out := "";
    var buffer: nat, bits: nat := 0, 0;
    for i := 0 to |data|
      invariant bits < 5 && EncodedSoFar(data[..i], out, buffer, bits)
    {
      TakeByte(data[..i], data[i], out, buffer, bits);
      // the low eight bits of the shifted word are zero, so this is `|`
      buffer := Shl(buffer, 8) + data[i];
      bits := bits + 8;
      assert data[..i] + [data[i]] == data[..i + 1];
      while bits >= 5
        invariant bits <= 12 && EncodedSoFar(data[..i + 1], out, buffer, bits)
      {
        var idx := Shr(buffer, bits - 5) % 32;
        var symbol := SymbolAt(idx);
        EmitSymbol(data[..i + 1], out, buffer, bits, idx, symbol);
        out := out + [symbol];
        bits := bits - 5;
      }
    }
    assert data[..|data|] == data;
    if bits > 0 {
      var idx := Shl(buffer, 5 - bits) % 32;
      var symbol := SymbolAt(idx);
      EmitRest(data, out, buffer, bits, idx, symbol);
      out := out + [symbol];
    }
  }

  datatype DecodeError = InvalidCharacter

  /** What both decoders must answer for a text. */
  ghost predicate IsDecoded(s: string, r: Result<seq<Byte>, DecodeError>) {
    (r.Ok? <==> Readable(s)) && (r.Ok? ==> WholeBytes(Spelled(s), r.value))
  }

  /** One more character of a readable text: the invariant of both decoders. */
  ghost predicate DecodedSoFar(s: string, out: seq<Byte>, buffer: nat, bits: nat) {
    Readable(s) && Spelled(s) == BitsOf(out) + Bits(buffer, bits)
  }

  lemma TakeDigit(s: string, c: char, v: nat, out: seq<Byte>, buffer: nat, bits: nat)
    requires DecodedSoFar(s, out, buffer, bits) && bits < 8 && !Skipped(c) && Digit(c) == Some(v)
    ensures DecodedSoFar(s + [c], out, Shl(buffer, 5) + v, bits + 5)
  {
    SpelledDigit(s, c, v);
    assert v < Pow2(5) by { Powers(); }
    PushBits(BitsOf(out), buffer, bits, v, 5);
  }

  lemma SkipOne(s: string, c: char, out: seq<Byte>, buffer: nat, bits: nat)
    requires DecodedSoFar(s, out, buffer, bits) && Skipped(c)
    ensures DecodedSoFar(s + [c], out, buffer, bits)
  {
    SpelledAppend(s, c);
  }

  lemma Unreadable(s: string, i: nat)
    requires i < |s| && !Skipped(s[i]) && Digit(s[i]).None?
    ensures !Readable(s)
  {
    if Readable(s) {
      ReadablePrefix(s, i + 1);
    }
  }

  lemma EmitByte(s: string, out: seq<Byte>, buffer: nat, bits: nat)
    requires DecodedSoFar(s, out, buffer, bits) && 8 <= bits < 13
    ensures DecodedSoFar(s, out + [Shr(buffer, bits - 8) % 256], buffer, bits - 8)
  {
    BitsOfAppend(out, Shr(buffer, bits - 8) % 256);
    PopEight(BitsOf(out), buffer, bits, Shr(buffer, bits - 8) % 256);
  }

  lemma AllTaken(s: string, out: seq<Byte>, buffer: nat, bits: nat)
    requires DecodedSoFar(s, out, buffer, bits) && bits < 8
    ensures IsDecoded(s, Ok(out))
  {
    assert Spelled(s)[..8 * |out|] == BitsOf(out);
  }

  /** `crypto.rs` computes the digit in unsigned bytes. */
  method DigitAsByte(c: char) returns (v: Option<nat>)
    ensures v == Digit(c)
  {
    if 'A' <= UpperChar(c) <= 'Z' {
      return Some((UpperChar(c) as int % 256 - 65) % 256);
    } else if '2' <= UpperChar(c) <= '7' {
      return Some((c as int % 256 - 50) % 256 + 26);
    }
    return None;
  }

  /** `requests_app.rs` computes it in 32-bit words. */
  method DigitAsWord(c: char) returns (v: Option<nat>)
    ensures v == Digit(c)
  {
    if 'A' <= UpperChar(c) <= 'Z' {
      return Some((UpperChar(c) as int - 65) % U32);
    } else if '2' <= UpperChar(c) <= '7' {
      return Some((c as int - 50) % U32 + 26);
    }
    return None;
  }

  /** `crypto.rs`: the emitted byte is masked out of the word. */
  method Decode(s: string) returns (r: Result<seq<Byte>, DecodeError>)
    ensures IsDecoded(s, r)
  {
    var out: seq<Byte> := [];
    var buffer: nat, bits: nat := 0, 0;
    for i := 0 to |s|
      invariant bits < 8 && DecodedSoFar(s[..i], out, buffer, bits)
    {
      assert s[..i + 1] == s[..i] + [s[i]];
      if Skipped(s[i]) {
        SkipOne(s[..i], s[i], out, buffer, bits);
      } else {
        var v := DigitAsByte(s[i]);
        if v.None? {
          Unreadable(s, i);
          return Err(InvalidCharacter);
        }
        TakeDigit(s[..i], s[i], v.value, out, buffer, bits);
        buffer := Shl(buffer, 5) + v.value;
        bits := bits + 5;
        if bits >= 8 {
          EmitByte(s[..i + 1], out, buffer, bits);
          out := out + [Shr(buffer, bits - 8) % 256];
          bits := bits - 8;
        }
      }
    }
    assert s[..|s|] == s;
    AllTaken(s, out, buffer, bits);
    return Ok(out);
  }

  /** `requests_app.rs`: the word is truncated to its low byte. */
  method DecodeForRequests(s: string) returns (r: Result<seq<Byte>, DecodeError>)
    ensures IsDecoded(s, r)
  {
    var out: seq<Byte> := [];
    var buffer: nat, bits: nat := 0, 0;
    for i := 0 to |s|
      invariant bits < 8 && DecodedSoFar(s[..i], out, buffer, bits)
    {
      assert s[..i + 1] == s[..i] + [s[i]];
      if Skipped(s[i]) {
        SkipOne(s[..i], s[i], out, buffer, bits);
      } else {
        var val := DigitAsWord(s[i]);
        if val.None? {
          Unreadable(s, i);
          return Err(InvalidCharacter);
        }
        TakeDigit(s[..i], s[i], val.value, out, buffer, bits);
        buffer := Shl(buffer, 5) + val.value;
        bits := bits + 5;
        if bits >= 8 {
          EmitByte(s[..i + 1], out, buffer, bits);
          out := out + [TruncateToByte(Shr(buffer, bits - 8))];
          bits := bits - 8;
        }
      }
    }
    assert s[..|s|] == s;
    AllTaken(s, out, buffer, bits);
    return Ok(out);
  }

  function TruncateToByte(x: nat): Byte {
    x % 256
  }

  // ------------------------------------------------------------ main results

  lemma {:induction false} BytesDetermined(a: seq<Byte>, b: seq<Byte>)
    requires BitsOf(a) == BitsOf(b)
    ensures a == b
  {
    if a != [] {
      var p, q := a[..|a| - 1], b[..|b| - 1];
      assert BitsOf(a)[..8 * |p|] == BitsOf(p) && BitsOf(b)[..8 * |q|] == BitsOf(q);
      assert BitsOf(a)[8 * |p|..] == Bits(a[|p|], 8) && BitsOf(b)[8 * |q|..] == Bits(b[|q|], 8);
      BytesDetermined(p, q);
      Powers();
      BitsDetermine(a[|p|], b[|q|], 8);
      assert a == p + [a[|p|]] && b == q + [b[|q|]];
    }
  }

  lemma {:induction false} BitsDetermine(x: nat, y: nat, n: nat)
    requires x < Pow2(n) && y < Pow2(n) && Bits(x, n) == Bits(y, n)
    ensures x == y
    decreases n
  {
    if n > 0 {
      var s, t := Bits(x, n), Bits(y, n);
      assert s[..n - 1] == Bits(x / 2, n - 1) && t[..n - 1] == Bits(y / 2, n - 1);
      assert s[n - 1] == (x % 2 == 1) && t[n - 1] == (y % 2 == 1);
      BitsDetermine(x / 2, y / 2, n - 1);
    }
  }

  /** The answer to a text is unique, so the two decoders agree on every input. */
  lemma DecodersAgree(s: string, r: Result<seq<Byte>, DecodeError>, r': Result<seq<Byte>, DecodeError>)
    requires IsDecoded(s, r) && IsDecoded(s, r')
    ensures r == r'
  {
    if r.Err? {
      assert r.error == InvalidCharacter && r'.error == InvalidCharacter;
    } else {
      assert |r.value| == |r'.value|;
      BytesDetermined(r.value, r'.value);
    }
  }

  /** Every encoding of `data` reads back as `data`, and as nothing else. */
  lemma RoundTrip(data: seq<Byte>, text: string, r: Result<seq<Byte>, DecodeError>)
    requires IsEncoding(data, text) && IsDecoded(text, r)
    ensures r == Ok(data)
  {
    AlphabetIsReadable(text);
    assert Spelled(text)[..8 * |data|] == BitsOf(data);
    assert WholeBytes(Spelled(text), data);
    DecodersAgree(text, r, Ok(data));
  }

  /** Both decoders undo the encoder on every byte string. */
  method DecodeBack(data: seq<Byte>) returns (a: Result<seq<Byte>, DecodeError>, b: Result<seq<Byte>, DecodeError>)
    ensures a == b == Ok(data)
  {
    var text := Encode(data);
    a := Decode(text);
    b := DecodeForRequests(text);
    RoundTrip(data, text, a);
    RoundTrip(data, text, b);
  }
}
