/** BaseCrypto: PKCS#7 padding (section 6.3 of RFC 5652) and CBC mode (section 6.2 of NIST SP 800-38A)
    around any invertible 16-byte block cipher. */
module Crypto {
  import opened Options

  type Bytes = seq<bv8>

  const BLOCK: nat := 16

  // b'RAGF'
  const MAGIC: Bytes := [0x52, 0x41, 0x47, 0x46]

  datatype Failure = BadIv | BadLength | BadPadding

  // The block cipher under a fixed key.
  datatype Cipher = Cipher(enc: Bytes -> Bytes, dec: Bytes -> Bytes)

  ghost predicate Invertible(c: Cipher)
  {
    && (forall b {:trigger c.enc(b)} :: |b| == BLOCK ==> |c.enc(b)| == BLOCK && c.dec(c.enc(b)) == b)
    && (forall b {:trigger c.dec(b)} :: |b| == BLOCK ==> |c.dec(b)| == BLOCK && c.enc(c.dec(b)) == b)
  }

  /* ---------- padding ---------- */

  function PadByte(n: nat): bv8
    requires n <= BLOCK
  {
    n as bv8
  }

  function PadSize(b: bv8): nat
  {
    b as nat
  }

  lemma PadByteSize(n: nat)
    requires n <= BLOCK
    ensures PadSize(PadByte(n)) == n
  {
  }

  function PadOf(n: nat): (r: Bytes)
    requires n <= BLOCK
    ensures |r| == n
  {
    seq(n, i => PadByte(n))
  }

  function PadLength(d: Bytes): (n: nat)
    ensures 1 <= n <= BLOCK && (|d| + n) % BLOCK == 0
  {
    BLOCK - |d| % BLOCK
  }

  function Pad(d: Bytes): (r: Bytes)
    ensures |r| % BLOCK == 0 && |r| == BLOCK * (|d| / BLOCK + 1)
  {
    d + PadOf(PadLength(d))
  }

  function Unpad(p: Bytes): Result<Bytes, Failure>
  {
    if |p| == 0 || |p| % BLOCK != 0 then Err(BadPadding)
    else
      var n := PadSize(p[|p| - 1]);
      if n == 0 || n > BLOCK || p[|p| - n..] != PadOf(n) then Err(BadPadding) else Ok(p[..|p| - n])
  }

  lemma UnpadPad(d: Bytes)
    ensures Unpad(Pad(d)) == Ok(d)
  {
    hide PadByte, PadSize;
    var n := PadLength(d);
    var p := Pad(d);
    PadByteSize(n);
    assert p[|p| - 1] == PadOf(n)[n - 1] == PadByte(n);
    assert p[|p| - n..] == PadOf(n) && p[..|p| - n] == d;
  }

  lemma PadUnpad(p: Bytes)
    requires Unpad(p).Ok?
    ensures Pad(Unpad(p).value) == p
  {
    hide PadByte, PadSize;
    var n := PadSize(p[|p| - 1]);
    var d := Unpad(p).value;
    assert p == d + PadOf(n);
    PadLengthIsUnique(d, n);
  }

  lemma PadLengthIsUnique(d: Bytes, n: nat)
    requires 1 <= n <= BLOCK && (|d| + n) % BLOCK == 0
    ensures PadLength(d) == n
  {
  }

  /* ---------- CBC ---------- */

  function Xor(a: Bytes, b: Bytes): (r: Bytes)
    requires |a| == |b|
    ensures |r| == |a|
  {
    seq(|a|, i requires 0 <= i < |a| => a[i] ^ b[i])
  }

  lemma XorTwice(a: Bytes, b: Bytes)
    requires |a| == |b|
    ensures Xor(Xor(a, b), b) == a
  {
    forall i | 0 <= i < |a| ensures (a[i] ^ b[i]) ^ b[i] == a[i] {
      XorByte(a[i], b[i]);
    }
  }

  lemma XorByte(a: bv8, b: bv8)
    ensures (a ^ b) ^ b == a
  {
  }

  function Cbc(c: Cipher, iv: Bytes, p: Bytes): Bytes
    requires |iv| == BLOCK && |p| % BLOCK == 0
    decreases |p|
  {
    if p == [] then []
    else
      var x := c.enc(Xor(p[..BLOCK], iv));
      if |x| != BLOCK then [] else x + Cbc(c, x, p[BLOCK..])
  }

  function UnCbc(c: Cipher, iv: Bytes, x: Bytes): Bytes
    requires |iv| == BLOCK && |x| % BLOCK == 0
    decreases |x|
  {
    if x == [] then []
    else
      var y := c.dec(x[..BLOCK]);
      if |y| != BLOCK then [] else Xor(y, iv) + UnCbc(c, x[..BLOCK], x[BLOCK..])
  }

  lemma {:induction false} UnCbcCbc(c: Cipher, iv: Bytes, p: Bytes)
    requires Invertible(c) && |iv| == BLOCK && |p| % BLOCK == 0
    ensures |Cbc(c, iv, p)| == |p| && UnCbc(c, iv, Cbc(c, iv, p)) == p
    decreases |p|
  {
    hide Xor;
    if p != [] {
      var head, tail := p[..BLOCK], p[BLOCK..];
      var x := c.enc(Xor(head, iv));
      XorTwice(head, iv);
      UnCbcCbc(c, x, tail);
      var y := Cbc(c, iv, p);
      assert y[..BLOCK] == x && y[BLOCK..] == Cbc(c, x, tail);
      assert p == head + tail;
    }
  }

  lemma {:induction false} CbcUnCbc(c: Cipher, iv: Bytes, x: Bytes)
    requires Invertible(c) && |iv| == BLOCK && |x| % BLOCK == 0
    ensures |UnCbc(c, iv, x)| == |x| && Cbc(c, iv, UnCbc(c, iv, x)) == x
    decreases |x|
  {
    hide Xor;
    if x != [] {
      var head, tail := x[..BLOCK], x[BLOCK..];
      var y := c.dec(head);
      XorTwice(y, iv);
      CbcUnCbc(c, head, tail);
      var p := UnCbc(c, iv, x);
      assert p[..BLOCK] == Xor(y, iv) && p[BLOCK..] == UnCbc(c, head, tail);
      assert x == head + tail;
    }
  }

  /* ---------- encrypt and decrypt ---------- */

  function Encrypt(c: Cipher, iv: Bytes, data: Bytes): Result<Bytes, Failure>
  {
    if |iv| != BLOCK then Err(BadIv) else Ok(MAGIC + iv + Cbc(c, iv, Pad(data)))
  }

  function Decrypt(c: Cipher, x: Bytes): Result<Bytes, Failure>
  {
    if !(MAGIC <= x) then Ok(x)
    else
      var body := x[|MAGIC|..];
      if |body| < BLOCK then Err(BadIv)
      else
        var iv, text := body[..BLOCK], body[BLOCK..];
        if |text| % BLOCK != 0 then Err(BadLength) else Unpad(UnCbc(c, iv, text))
  }

  // Block k of the bytes.
  function BlockAt(x: Bytes, k: nat): Bytes
    requires 16 * k + 16 <= |x|
  {
    x[16 * k..16 * k + 16]
  }

  // Every block of the text is the cipher of the plain block, byte by byte exclusive-or the block of the text before it,
  // the IV for the first.
  lemma {:induction false} CbcChains(c: Cipher, iv: Bytes, p: Bytes, k: nat)
    requires Invertible(c) && |iv| == 16 && |p| % 16 == 0 && 16 * k + 16 <= |p|
    ensures |Cbc(c, iv, p)| == |p|
    ensures var x := Cbc(c, iv, p);
            var before := if k == 0 then iv else BlockAt(x, k - 1);
            BlockAt(x, k) == c.enc(seq(16, i requires 0 <= i < 16 => BlockAt(p, k)[i] ^ before[i]))
    decreases k
  {
    hide Xor;
    var head, tail := p[..16], p[16..];
    var x := c.enc(Xor(head, iv));
    UnCbcCbc(c, iv, p);
    UnCbcCbc(c, x, tail);
    var y := Cbc(c, iv, p);
    assert y == x + Cbc(c, x, tail);
    if k == 0 {
      assert BlockAt(y, 0) == x && BlockAt(p, 0) == head;
      XorIs(head, iv);
    } else {
      CbcChains(c, x, tail, k - 1);
      BlockAfter(x, Cbc(c, x, tail), k);
      BlockAfter(head, tail, k);
      assert p == head + tail;
      if k == 1 {
        assert BlockAt(y, 0) == x;
      } else {
        BlockAfter(x, Cbc(c, x, tail), k - 1);
      }
    }
  }

  lemma XorIs(a: Bytes, b: Bytes)
    requires |a| == |b| == 16
    ensures Xor(a, b) == seq(16, i requires 0 <= i < 16 => a[i] ^ b[i])
  {
  }

  lemma BlockAfter(head: Bytes, tail: Bytes, k: nat)
    requires |head| == 16 && k > 0 && 16 * k <= |tail|
    ensures BlockAt(head + tail, k) == BlockAt(tail, k - 1)
  {
  }

  // Padding adds one to sixteen bytes, each of which tells their number, up to a whole block.
  lemma PadTells(d: Bytes)
    ensures var p := Pad(d);
            var n := |p| - |d|;
            && 1 <= n <= 16 && |p| % 16 == 0 && d <= p
            && forall k :: |d| <= k < |p| ==> p[k] as nat == n
  {
    hide PadByte;
    var n := PadLength(d);
    PadByteSize(n);
    assert PadByte(n) as nat == n;
    forall k | |d| <= k < |Pad(d)| ensures Pad(d)[k] as nat == n {
      assert Pad(d)[k] == PadOf(n)[k - |d|] == PadByte(n);
    }
  }

  // An encrypted text is the header "RAGF", the IV and the chained blocks of the padded data; bytes without the header
  // are taken for plain and given back.
  lemma EncryptedIs(c: Cipher, iv: Bytes, data: Bytes)
    requires Invertible(c) && |iv| == 16
    ensures var e := Encrypt(c, iv, data);
            && e.Ok? && |e.value| == 20 + |Pad(data)|
            && e.value[..4] == [0x52, 0x41, 0x47, 0x46] && e.value[4..20] == iv && e.value[20..] == Cbc(c, iv, Pad(data))
    ensures !([0x52, 0x41, 0x47, 0x46] <= data) ==> Decrypt(c, data) == Ok(data)
  {
    hide Pad, Cbc;
    UnCbcCbc(c, iv, Pad(data));
  }

  // What is refused: with the header, less than a whole IV, a text that is no whole number of blocks, and a padding that is
  // none.
  lemma WhatIsRefused(c: Cipher, x: Bytes)
    requires Invertible(c) && [0x52, 0x41, 0x47, 0x46] <= x
    ensures Decrypt(c, x) == Err(BadIv) <==> |x| < 20
    ensures Decrypt(c, x) == Err(BadLength) <==> |x| >= 20 && (|x| - 20) % 16 != 0
    ensures |x| >= 20 && (|x| - 20) % 16 == 0 ==>
      (Decrypt(c, x) == Err(BadPadding) <==> forall d :: Pad(d) != UnCbc(c, x[4..20], x[20..]))
  {
    hide Pad, Unpad, UnCbc, Cbc;
    if |x| >= 20 && (|x| - 20) % 16 == 0 {
      assert x[4..][..16] == x[4..20] && x[4..][16..] == x[20..];
      var p := UnCbc(c, x[4..20], x[20..]);
      if Unpad(p).Ok? {
        PadUnpad(p);
      }
      forall d | Pad(d) == p ensures Unpad(p) == Ok(d) {
        UnpadPad(d);
      }
      OnlyPadding(p);
    } else if |x| >= 20 {
      assert x[4..][16..] == x[20..];
    }
  }

  lemma OnlyPadding(p: Bytes)
    ensures Unpad(p).Ok? || Unpad(p) == Err(BadPadding)
  {
  }

  // Decrypting gives the data back, and the length is four bytes of header, the IV, and whole blocks.
  lemma RoundTrip(c: Cipher, iv: Bytes, data: Bytes)
    requires Invertible(c) && |iv| == BLOCK
    ensures var e := Encrypt(c, iv, data);
            e.Ok? && Decrypt(c, e.value) == Ok(data) && |e.value| == 4 + 16 + 16 * (|data| / 16 + 1)
  {
    hide Pad, Unpad, Cbc, UnCbc;
    var x := Encrypt(c, iv, data).value;
    UnCbcCbc(c, iv, Pad(data));
    UnpadPad(data);
    assert x[|MAGIC|..] == iv + Cbc(c, iv, Pad(data));
    assert x[|MAGIC|..][..BLOCK] == iv && x[|MAGIC|..][BLOCK..] == Cbc(c, iv, Pad(data));
  }

  // Anything with the header that decrypts at all is what encrypting the result under its own IV gives.
  lemma DecryptedIsEncrypted(c: Cipher, x: Bytes)
    requires Invertible(c) && MAGIC <= x && Decrypt(c, x).Ok?
    ensures |x| >= 20 && Encrypt(c, x[4..20], Decrypt(c, x).value) == Ok(x)
  {
    hide Pad, Unpad, Cbc, UnCbc;
    var body := x[|MAGIC|..];
    var iv, text := body[..BLOCK], body[BLOCK..];
    CbcUnCbc(c, iv, text);
    PadUnpad(UnCbc(c, iv, text));
    assert x[4..20] == iv;
    assert x == MAGIC + iv + text;
  }
}
