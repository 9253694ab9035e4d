/** The padded block encryption of messages, for any block cipher. */
module Crypto {
  const BLOCK: nat := 16

  type Byte = x: nat | x < 256
  type Bytes = seq<Byte>

  /** What a key makes of the block cipher. */
  datatype Cipher = Cipher(encrypt: Bytes -> Bytes, decrypt: Bytes -> Bytes)

  ghost predicate KeepsBlocks(f: Bytes -> Bytes) {
    forall b :: |b| == BLOCK ==> |f(b)| == BLOCK
  }

  ghost predicate Invertible(c: Cipher) {
    KeepsBlocks(c.encrypt) && KeepsBlocks(c.decrypt) && forall b :: |b| == BLOCK ==> c.decrypt(c.encrypt(b)) == b
  }

  /** Every block for itself. */
  ghost function Ecb(f: Bytes -> Bytes, data: Bytes): (r: Bytes)
    requires KeepsBlocks(f) && |data| % BLOCK == 0
    ensures |r| == |data|
    decreases |data|
  {
    if data == [] then [] else f(data[..BLOCK]) + Ecb(f, data[BLOCK..])
  }

  /** The length of the encrypted data: always more than what was given. */
  function PaddedLength(n: nat): (r: nat)
    ensures r % BLOCK == 0 && n < r <= n + BLOCK
  {
    (n + BLOCK) / BLOCK * BLOCK
  }

  /** Each byte of the padding is its length. */
  function Padded(data: Bytes): (r: Bytes)
    ensures |r| == PaddedLength(|data|)
  {
    data + seq(PaddedLength(|data|) - |data|, _ => PaddedLength(|data|) - |data|)
  }

  ghost function Encrypted(c: Cipher, data: Bytes): Bytes
    requires Invertible(c)
  {
    Ecb(c.encrypt, Padded(data))
  }

  /** Data that is not made of blocks, and a padding longer than the data, give nothing. */
  ghost function Decrypted(c: Cipher, data: Bytes): Bytes
    requires Invertible(c)
  {
    if |data| == 0 || |data| % BLOCK != 0 then [] else
      var r := Ecb(c.decrypt, data);
      var padding := r[|data| - 1];
      if |data| < padding then [] else r[..|data| - padding]
  }

  // ---------------------------------------------------------------------------------------
  // Round trip
  // ---------------------------------------------------------------------------------------

  lemma {:induction false} EcbUndone(c: Cipher, data: Bytes)
    requires Invertible(c) && |data| % BLOCK == 0
    ensures Ecb(c.decrypt, Ecb(c.encrypt, data)) == data
    decreases |data|
  {
    if data != [] {
      var first, rest := c.encrypt(data[..BLOCK]), Ecb(c.encrypt, data[BLOCK..]);
      assert (first + rest)[..BLOCK] == first && (first + rest)[BLOCK..] == rest;
      EcbUndone(c, data[BLOCK..]);
      assert data == data[..BLOCK] + data[BLOCK..];
    }
  }

  /** Decrypting what was encrypted gives back the data, whatever its length. */
  lemma DecryptedEncrypted(c: Cipher, data: Bytes)
    requires Invertible(c)
    ensures Decrypted(c, Encrypted(c, data)) == data
  {
    EcbUndone(c, Padded(data));
    assert Padded(data)[..|data|] == data;
    hide Ecb;
  }

  /** The encrypted data is as long as the least multiple of the block size above the length of the data. */
  lemma LeastMultipleAbove(c: Cipher, data: Bytes, n: nat)
    requires Invertible(c) && n % BLOCK == 0 && |data| < n
    ensures |data| < |Encrypted(c, data)| <= n && |Encrypted(c, data)| % BLOCK == 0
  {
    hide Ecb;
  }

  /** The padding: the data itself, and behind it 1 to 16 bytes, each of which is their number. */
  lemma PaddingIsItsLength(data: Bytes, i: nat)
    requires |data| <= i < |Padded(data)|
    ensures Padded(data)[..|data|] == data && 1 <= |Padded(data)| - |data| <= 16
    ensures Padded(data)[i] == |Padded(data)| - |data|
  {
  }

  lemma {:induction false} EcbBlock(f: Bytes -> Bytes, data: Bytes, k: nat)
    requires KeepsBlocks(f) && |data| % BLOCK == 0 && k * BLOCK + BLOCK <= |data|
    ensures Ecb(f, data)[k * BLOCK..k * BLOCK + BLOCK] == f(data[k * BLOCK..k * BLOCK + BLOCK])
    decreases k
  {
    var first, rest := f(data[..BLOCK]), Ecb(f, data[BLOCK..]);
    if k == 0 {
      assert (first + rest)[..BLOCK] == first;
    } else {
      var n := (k - 1) * BLOCK;
      EcbBlock(f, data[BLOCK..], k - 1);
      assert (first + rest)[n + BLOCK..n + 2 * BLOCK] == rest[n..n + BLOCK];
      assert data[n + BLOCK..n + 2 * BLOCK] == data[BLOCK..][n..n + BLOCK];
    }
  }

  /** Every block of the result is the encryption of the block of the padded data in the same place. */
  lemma BlockForItself(c: Cipher, data: Bytes, k: nat)
    requires Invertible(c) && k * 16 + 16 <= |Encrypted(c, data)|
    ensures Encrypted(c, data)[k * 16..k * 16 + 16] == c.encrypt(Padded(data)[k * 16..k * 16 + 16])
  {
    EcbBlock(c.encrypt, Padded(data), k);
    hide Ecb, Padded;
  }

  // ---------------------------------------------------------------------------------------
  // The functions, in their buffers
  // ---------------------------------------------------------------------------------------

  lemma {:induction false} EcbNext(f: Bytes -> Bytes, data: Bytes, i: nat)
    requires KeepsBlocks(f) && |data| % BLOCK == 0 && (i + 1) * BLOCK <= |data|
    ensures Ecb(f, data[..(i + 1) * BLOCK]) == Ecb(f, data[..i * BLOCK]) + f(data[i * BLOCK..(i + 1) * BLOCK])
    decreases i
  {
    var n := i * BLOCK;
    if n == 0 {
      assert data[..BLOCK][..BLOCK] == data[0..BLOCK] && data[..BLOCK][BLOCK..] == [];
    } else {
      var rest := data[BLOCK..];
      EcbNext(f, rest, i - 1);
      assert data[..n + BLOCK][..BLOCK] == data[..BLOCK] && data[..n + BLOCK][BLOCK..] == rest[..n];
      assert data[..n][..BLOCK] == data[..BLOCK] && data[..n][BLOCK..] == rest[..n - BLOCK];
      assert rest[n - BLOCK..n] == data[n..n + BLOCK];
    }
  }

  lemma EcbNone(f: Bytes -> Bytes)
    requires KeepsBlocks(f)
    ensures Ecb(f, []) == []
  {
  }

  method PutBlock(buffer: array<Byte>, dst: nat, block: Bytes)
    requires |block| == BLOCK && dst + BLOCK <= buffer.Length
    modifies buffer
    ensures buffer[..] == old(buffer[..])[..dst] + block + old(buffer[..])[dst + BLOCK..]
  {
    var j := 0;
    while j < BLOCK
      invariant 0 <= j <= BLOCK
      invariant buffer[..] == old(buffer[..])[..dst] + block[..j] + old(buffer[..])[dst + j..]
    {
      buffer[dst + j] := block[j];
      j := j + 1;
    }
    assert block[..j] == block;
  }

  lemma BlockPut(before: Bytes, after: Bytes, dst: nat, block: Bytes)
    requires |block| == BLOCK && dst + BLOCK <= |before| && after == before[..dst] + block + before[dst + BLOCK..]
    ensures after[..dst + BLOCK] == before[..dst] + block
    ensures forall n :: dst + BLOCK <= n <= |before| ==> after[n..] == before[n..]
  {
    forall n | dst + BLOCK <= n <= |before| ensures after[n..] == before[n..] { }
  }

  lemma UpperBlock(before: Bytes, length: nat, dst: nat)
    requires length + dst + BLOCK <= |before|
    ensures before[length + dst..length + dst + BLOCK] == before[length..][dst..dst + BLOCK]
  {
  }

  /** The padded data in the upper half of the buffer. */
  method FillBuffer(data: Bytes, length: nat) returns (buffer: array<Byte>)
    requires length == PaddedLength(|data|)
    ensures fresh(buffer) && buffer.Length == 2 * length && buffer[length..] == Padded(data)
  {
    buffer := new Byte[length * 2];
    forall j | 0 <= j < |data| { buffer[length + j] := data[j]; }
    var padding, paddingLength := length + |data|, length - |data|;
    var i := 0;
    while i < paddingLength
      invariant 0 <= i <= paddingLength && padding == length + |data| + i
      invariant forall j :: length <= j < length + |data| ==> buffer[j] == data[j - length]
      invariant forall j :: length + |data| <= j < padding ==> buffer[j] == paddingLength
    {
      buffer[padding] := paddingLength;
      padding := padding + 1;
      i := i + 1;
    }
    assert forall j :: 0 <= j < length ==> buffer[length..][j] == buffer[length + j];
    assert buffer[length..] == Padded(data);
  }

  /** `Encrypt`: one buffer whose upper half takes the padded data and whose lower half the result. A block
      is never written over data that is still to be read. */
  method Encrypt(c: Cipher, data: Bytes) returns (r: Bytes)
    requires Invertible(c)
    ensures r == Encrypted(c, data)
  {
    hide Ecb, Padded, PaddedLength, Invertible;
    var blocks := (|data| + BLOCK) / BLOCK;
    var length := blocks * BLOCK;
    LengthIsPadded(|data|);
    KeyKeepsBlocks(c);
    var buffer := FillBuffer(data, length);
    ghost var all := Padded(data);
    var dst, src := 0, length;
    EcbNone(c.encrypt);
    var i := 0;
    while i < blocks
      invariant 0 <= i <= blocks && dst == i * BLOCK && src == length + dst
      invariant buffer[..][length..] == all && buffer[..][..dst] == Ecb(c.encrypt, all[..dst])
    {
      ghost var before := buffer[..];
      EcbNext(c.encrypt, all, i);
      UpperBlock(before, length, dst);
      assert buffer[src..src + BLOCK] == before[src..src + BLOCK];
      var block := c.encrypt(buffer[src..src + BLOCK]);
      PutBlock(buffer, dst, block);
      BlockPut(before, buffer[..], dst, block);
      src, dst := src + BLOCK, dst + BLOCK;
      i := i + 1;
    }
    assert all[..length] == all;
    r := buffer[..length];
    assert r == buffer[..][..length];
  }

  lemma LengthIsPadded(n: nat)
    ensures (n + BLOCK) / BLOCK * BLOCK == PaddedLength(n)
  {
  }

  lemma KeyKeepsBlocks(c: Cipher)
    requires Invertible(c)
    ensures KeepsBlocks(c.encrypt) && KeepsBlocks(c.decrypt)
  {
  }

  /** `Decrypt`. */
  method Decrypt(c: Cipher, data: Bytes) returns (r: Bytes)
    requires Invertible(c)
    ensures r == Decrypted(c, data)
  {
    hide Ecb, Invertible;
    KeyKeepsBlocks(c);
    if |data| == 0 || |data| % BLOCK != 0 { return []; }
    var buffer := new Byte[|data|];
    var blocks := |data| / BLOCK;
    var pos, i := 0, 0;
    EcbNone(c.decrypt);
    while i < blocks
      invariant 0 <= i <= blocks && pos == i * BLOCK
      invariant buffer[..][..pos] == Ecb(c.decrypt, data[..pos])
    {
      ghost var before := buffer[..];
      EcbNext(c.decrypt, data, i);
      var block := c.decrypt(data[pos..pos + BLOCK]);
      PutBlock(buffer, pos, block);
      BlockPut(before, buffer[..], pos, block);
      pos := pos + BLOCK;
      i := i + 1;
    }
    assert data[..pos] == data && buffer[..][..pos] == buffer[..];
    var padding := buffer[|data| - 1];
    if |data| < padding { return []; }
    r := buffer[..|data| - padding];
  }
}
