/** The counter-mode keystream a sign-in token travels under (`hmac_ctr_xor` in
    src/auth.rs). The keyed hash is a parameter; only its length matters. */
module Keystream {
  const BLOCK: nat := 32
  const WORD: nat := 0x1_0000_0000

  /** Bytes that are combined bit by bit. */
  type Bytes = seq<bv8>

  /** Bytes that are only hashed, as numbers. */
  type Octets = seq<nat>

  type Mac = (Octets, Octets) -> Bytes

  ghost predicate IsMac(mac: Mac) {
    forall key, message :: |mac(key, message)| == BLOCK
  }

  function BigEndian(counter: nat): (b: Octets)
    ensures |b| == 4
  {
    [counter / 0x100_0000, counter / 0x1_0000 % 0x100, counter / 0x100 % 0x100, counter % 0x100]
  }

  /** The number is written high byte first. */
  lemma BigEndianReadsBack(counter: nat)
    requires counter < WORD
    ensures var b := BigEndian(counter);
            (forall i :: 0 <= i < 4 ==> b[i] < 256) && ((b[0] * 256 + b[1]) * 256 + b[2]) * 256 + b[3] == counter
  {
  }

  /** Keystream block `n`; its number wraps at a word. */
  function BlockAt(key: Octets, iv: Octets, mac: Mac, n: nat): Bytes {
    mac(key, iv + BigEndian(n % WORD))
  }

  ghost function KeyByte(key: Octets, iv: Octets, mac: Mac, i: nat): bv8
    requires IsMac(mac)
  {
    BlockAt(key, iv, mac, i / BLOCK)[i % BLOCK]
  }

  ghost function Xored(key: Octets, iv: Octets, data: Bytes, mac: Mac): Bytes
    requires IsMac(mac)
  {
    seq(|data|, i requires 0 <= i < |data| => data[i] ^ KeyByte(key, iv, mac, i))
  }

  method NextBlock(key: Octets, iv: Octets, mac: Mac, counter: nat, ghost n: nat) returns (block: Bytes, next: nat)
    requires IsMac(mac) && counter == n % WORD
    ensures block == BlockAt(key, iv, mac, n) && |block| == BLOCK && next == (n + 1) % WORD
  {
    block := mac(key, iv + BigEndian(counter));
    SameBlock(key, iv, mac, counter, n);
    next := (counter + 1) % WORD;
  }

  /** Where the generator stands before byte `i`: `at` bytes into block `begun` - 1. */
  ghost predicate Stands(key: Octets, iv: Octets, mac: Mac, i: nat, counter: nat, block: Bytes, at: nat, begun: nat) {
    at <= 32 && i + 32 == 32 * begun + at && (at < 32 ==> begun > 0) && counter == begun % WORD
    && (begun > 0 ==> |block| == BLOCK && block == BlockAt(key, iv, mac, begun - 1))
  }

  /** A used-up block is replaced by the next. */
  method Refilled(
    key: Octets, iv: Octets, mac: Mac, ghost i: nat, counter: nat, block: Bytes, at: nat, ghost begun: nat)
    returns (counter2: nat, block2: Bytes, at2: nat, ghost begun2: nat)
    requires IsMac(mac) && Stands(key, iv, mac, i, counter, block, at, begun)
    ensures Stands(key, iv, mac, i, counter2, block2, at2, begun2) && at2 < BLOCK
  {
    counter2, block2, at2, begun2 := counter, block, at, begun;
    if at >= BLOCK {
      block2, counter2 := NextBlock(key, iv, mac, counter, begun);
      at2, begun2 := 0, begun + 1;
    }
  }

  method HmacCtrXor(key: Octets, iv: Octets, data: Bytes, mac: Mac) returns (out: Bytes)
    requires IsMac(mac)
    ensures out == Xored(key, iv, data, mac)
  {
    out := [];
    var counter: nat, block: Bytes, at: nat := 0, [], BLOCK;
    ghost var begun: nat := 0;
    for i := 0 to |data|
      invariant Stands(key, iv, mac, i, counter, block, at, begun)
      invariant out == Xored(key, iv, data[..i], mac)
    {
      counter, block, at, begun := Refilled(key, iv, mac, i, counter, block, at, begun);
      OneMore(key, iv, data, mac, i, begun - 1, at);
      out := out + [data[i] ^ block[at]];
      at := at + 1;
    }
    assert data[..|data|] == data;
  }

  lemma SameBlock(key: Octets, iv: Octets, mac: Mac, counter: nat, n: nat)
    requires counter == n % WORD
    ensures mac(key, iv + BigEndian(counter)) == BlockAt(key, iv, mac, n)
    ensures (counter + 1) % WORD == (n + 1) % WORD
  {
  }

  lemma InBlock(key: Octets, iv: Octets, mac: Mac, i: nat, n: nat, at: nat)
    requires IsMac(mac) && at < BLOCK && i == 32 * n + at
    ensures KeyByte(key, iv, mac, i) == BlockAt(key, iv, mac, n)[at]
  {
    assert i / BLOCK == n && i % BLOCK == at;
  }

  lemma OneMore(key: Octets, iv: Octets, data: Bytes, mac: Mac, i: nat, n: nat, at: nat)
    requires IsMac(mac) && i < |data| && at < BLOCK && i == 32 * n + at
    ensures Xored(key, iv, data[..i + 1], mac)
            == Xored(key, iv, data[..i], mac) + [data[i] ^ BlockAt(key, iv, mac, n)[at]]
  {
    InBlock(key, iv, mac, i, n, at);
  }

  /** Decrypting is encrypting again. */
  lemma XoredTwice(key: Octets, iv: Octets, data: Bytes, mac: Mac)
    requires IsMac(mac)
    ensures Xored(key, iv, Xored(key, iv, data, mac), mac) == data
  {
    forall i | 0 <= i < |data| ensures Xored(key, iv, Xored(key, iv, data, mac), mac)[i] == data[i] {
      XorCancels(data[i], KeyByte(key, iv, mac, i));
    }
  }

  lemma XorCancels(a: bv8, b: bv8)
    ensures (a ^ b) ^ b == a
  {
  }

  lemma BigEndianTells(a: nat, b: nat)
    requires a < WORD && b < WORD && BigEndian(a) == BigEndian(b)
    ensures a == b
  {
    Digits(a);
    Digits(b);
  }

  lemma Digits(n: nat)
    requires n < WORD
    ensures var d := BigEndian(n); n == ((d[0] * 0x100 + d[1]) * 0x100 + d[2]) * 0x100 + d[3]
  {
    assert n / 0x100 / 0x100 == n / 0x1_0000 && n / 0x1_0000 / 0x100 == n / 0x100_0000;
  }

  /** Two bytes come from one mac message exactly if their block numbers agree modulo
      a word: within 2^37 bytes no message serves two blocks. */
  lemma BlocksShareNoMessage(iv: Octets, i: nat, j: nat)
    ensures iv + BigEndian(i / BLOCK % WORD) == iv + BigEndian(j / BLOCK % WORD)
            <==> i / BLOCK % WORD == j / BLOCK % WORD
    ensures i < BLOCK * WORD && j < BLOCK * WORD && i / BLOCK != j / BLOCK
            ==> iv + BigEndian(i / BLOCK % WORD) != iv + BigEndian(j / BLOCK % WORD)
  {
    var a, b := BigEndian(i / BLOCK % WORD), BigEndian(j / BLOCK % WORD);
    if iv + a == iv + b {
      assert a == (iv + a)[|iv|..] == (iv + b)[|iv|..] == b;
      BigEndianTells(i / BLOCK % WORD, j / BLOCK % WORD);
    }
  }
}
