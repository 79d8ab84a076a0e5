/**
 * PSKc derivation of a Thread network: the salt "Thread" || extended PAN ID || network name,
 * and PBKDF2 (section 5.2 of RFC 8018) with AES-CMAC-PRF-128 (RFC 4615) as the
 * pseudo-random function. The PRF itself is left uninterpreted: it is a parameter that maps
 * a key and a message to one 16-byte block.
 */
module Pskc {

  type byte = bv8

  /** The ASCII bytes of "Thread". */
  const SALT_PREFIX: seq<byte> := [0x54, 0x68, 0x72, 0x65, 0x61, 0x64]
  const EXTEND_PAN_ID_LEN: nat := 8
  /** "Thread" (6) + extended PAN ID (8) + longest network name (16). */
  const PBKDF2_SALT_MAX_LEN: nat := 30
  /** The PSKc is 128 bits long. */
  const PSKC_LENGTH: nat := 16
  const ITERATION_COUNTS: nat := 16384
  /** MBEDTLS_CIPHER_BLKSIZE_MAX: the output size of AES-CMAC-PRF-128. */
  const BLOCK_SIZE: nat := 16

  type Block = b: seq<byte> | |b| == BLOCK_SIZE witness seq(16, i => 0 as byte)

  /** AES-CMAC-PRF-128(key, message): one block of output. */
  type Prf = (seq<byte>, seq<byte>) -> Block

  // ---------------------------------------------------------------------------------------
  // Specification of the derivation
  // ---------------------------------------------------------------------------------------

  /** The PBKDF2 salt of a Thread network. */
  function Salt(extPanId: seq<byte>, networkName: seq<byte>): (s: seq<byte>)
    requires |extPanId| == EXTEND_PAN_ID_LEN
    ensures |s| == |SALT_PREFIX| + EXTEND_PAN_ID_LEN + |networkName|
    ensures s[..6] == SALT_PREFIX && s[6..14] == extPanId && s[14..] == networkName
  {
    SALT_PREFIX + extPanId + networkName
  }

  /** The low 8 bits of a 32-bit word, as a uint8_t cast keeps them. */
  function Low8(w: bv32): byte {
    (w & 0xFF) as bv8
  }

  /** INT(i) of RFC 8018: the block index as four big-endian bytes. */
  function Int32BE(i: bv32): (r: seq<byte>)
    ensures |r| == 4
  {
    [Low8(i >> 24), Low8(i >> 16), Low8(i >> 8), Low8(i)]
  }

  /** Reads four big-endian bytes back into a 32-bit word. */
  function ReadInt32BE(r: seq<byte>): bv32
    requires |r| == 4
  {
    (r[0] as bv32 << 24) | (r[1] as bv32 << 16) | (r[2] as bv32 << 8) | r[3] as bv32
  }

  lemma Int32BERoundTrip(i: bv32)
    ensures ReadInt32BE(Int32BE(i)) == i
  {
  }

  /** Byte-wise exclusive or of two blocks. */
  function XorBlock(a: Block, b: Block): (r: Block)
  {
    seq(BLOCK_SIZE, k requires 0 <= k < BLOCK_SIZE => a[k] ^ b[k])
  }

  /** U_j of RFC 8018 for block index i: U_1 = PRF(P, S || INT(i)), U_j = PRF(P, U_{j-1}). */
  function U(prf: Prf, password: seq<byte>, salt: seq<byte>, i: nat, j: nat): Block
    requires i < 0x1_0000_0000 && j >= 1
  {
    if j == 1 then prf(password, salt + Int32BE(i as bv32))
    else prf(password, U(prf, password, salt, i, j - 1))
  }

  /** F(P, S, c, i) = U_1 xor U_2 xor ... xor U_c. */
  function F(prf: Prf, password: seq<byte>, salt: seq<byte>, c: nat, i: nat): Block
    requires i < 0x1_0000_0000 && c >= 1
  {
    if c == 1 then U(prf, password, salt, i, 1)
    else XorBlock(F(prf, password, salt, c - 1, i), U(prf, password, salt, i, c))
  }

  /**
   * T_i || T_{i+1} || ..., cut to len bytes: the blocks of the derived key from block
   * index i on. The last block is truncated to what remains.
   */
  function Blocks(prf: Prf, password: seq<byte>, salt: seq<byte>, c: nat, i: nat, len: nat): (dk: seq<byte>)
    requires c >= 1 && 1 <= i && i + len < 0x1_0000_0000
    ensures |dk| == len
    decreases len
  {
    if len == 0 then []
    else
      var t := F(prf, password, salt, c, i);
      if len <= BLOCK_SIZE then t[..len]
      else t + Blocks(prf, password, salt, c, i + 1, len - BLOCK_SIZE)
  }

  /** PBKDF2(P, S, c, dkLen) of section 5.2 of RFC 8018; block indices start at 1. */
  function Pbkdf2(prf: Prf, password: seq<byte>, salt: seq<byte>, c: nat, dkLen: nat): (dk: seq<byte>)
    requires c >= 1 && dkLen < 0x1_0000
    ensures |dk| == dkLen
  {
    Blocks(prf, password, salt, c, 1, dkLen)
  }

  /** The derived key from block i on starts with T_i, cut to what remains, and goes on from block i + 1. */
  lemma BlocksStep(prf: Prf, password: seq<byte>, salt: seq<byte>, c: nat, i: nat, len: nat)
    requires c >= 1 && 1 <= i && i + len < 0x1_0000_0000 && len > 0
    ensures var use := if len < BLOCK_SIZE then len else BLOCK_SIZE;
            Blocks(prf, password, salt, c, i, len)
              == F(prf, password, salt, c, i)[..use] + Blocks(prf, password, salt, c, i + 1, len - use)
  {
    if len <= BLOCK_SIZE {
      assert Blocks(prf, password, salt, c, i + 1, 0) == [];
      assert F(prf, password, salt, c, i)[..BLOCK_SIZE] == F(prf, password, salt, c, i);
    }
  }

  /** A PSKc is one block long, so it is T_1 = F(P, S, c, 1) whole. */
  lemma PskcIsFirstBlock(prf: Prf, password: seq<byte>, salt: seq<byte>)
    ensures Pbkdf2(prf, password, salt, ITERATION_COUNTS, PSKC_LENGTH) == F(prf, password, salt, ITERATION_COUNTS, 1)
  {
    BlocksStep(prf, password, salt, ITERATION_COUNTS, 1, PSKC_LENGTH);
    assert Blocks(prf, password, salt, ITERATION_COUNTS, 2, 0) == [];
    assert F(prf, password, salt, ITERATION_COUNTS, 1)[..BLOCK_SIZE] == F(prf, password, salt, ITERATION_COUNTS, 1);
  }

  /** The first block depends on the salt only through S || INT(1). */
  lemma FirstBlockUsesSaltAndCounter(prf: Prf, password: seq<byte>, salt: seq<byte>)
    ensures U(prf, password, salt, 1, 1) == prf(password, salt + [0, 0, 0, 1])
  {
    assert Int32BE(1) == [0, 0, 0, 1];
  }

  // ---------------------------------------------------------------------------------------
  // The generator object
  // ---------------------------------------------------------------------------------------

  /** Copies src over dst[off..off + |src|], as memcpy does. */
  method CopyInto(dst: array<byte>, off: nat, src: seq<byte>)
    requires off + |src| <= dst.Length
    modifies dst
    ensures dst[..] == old(dst[..off]) + src + old(dst[off + |src|..])
  {
    var k := 0;
    while k < |src|
      invariant 0 <= k <= |src|
      invariant forall j :: 0 <= j < dst.Length ==> dst[j] == if off <= j < off + k then src[j - off] else old(dst[j])
    {
      dst[off + k] := src[k];
      k := k + 1;
    }
    assert forall j :: 0 <= j < dst.Length ==> dst[..][j] == (old(dst[..off]) + src + old(dst[off + |src|..]))[j];
  }

  /** The contents of the salt buffer after SetSalt: the salt, and zeros up to its size. */
  function SaltBuffer(extPanId: seq<byte>, networkName: seq<byte>): (b: seq<byte>)
    requires |extPanId| == EXTEND_PAN_ID_LEN
    requires |SALT_PREFIX| + EXTEND_PAN_ID_LEN + |networkName| <= PBKDF2_SALT_MAX_LEN
    ensures |b| == PBKDF2_SALT_MAX_LEN
    ensures b[..14] == SALT_PREFIX + extPanId
    ensures |networkName| > 0 ==> b[..14 + |networkName|] == Salt(extPanId, networkName)
    ensures forall k :: (if |networkName| > 0 then 14 + |networkName| else 14) <= k < |b| ==> b[k] == 0
  {
    var used := if |networkName| > 0 then networkName else [];
    Salt(extPanId, used) + seq(PBKDF2_SALT_MAX_LEN - 14 - |used|, k => 0 as byte)
  }

  class Generator {
    var salt: array<byte>
    var saltLen: nat
    var pskc: array<byte>
    var passphrase: seq<byte>

    ghost predicate Valid()
      reads this
    {
      salt.Length == PBKDF2_SALT_MAX_LEN && pskc.Length == PSKC_LENGTH && salt != pskc
      && saltLen <= PBKDF2_SALT_MAX_LEN
    }

    constructor (passphrase: seq<byte>)
      ensures Valid() && fresh(salt) && fresh(pskc)
      ensures salt[..] == seq(PBKDF2_SALT_MAX_LEN, k => 0 as byte)
      ensures pskc[..] == seq(PSKC_LENGTH, k => 0 as byte)
      ensures this.passphrase == passphrase && saltLen == 0
    {
      salt := new byte[PBKDF2_SALT_MAX_LEN](_ => 0);
      pskc := new byte[PSKC_LENGTH](_ => 0);
      saltLen := 0;
      this.passphrase := passphrase;
    }

    /**
     * Fills the salt buffer with "Thread", the extended PAN ID and the network name.
     * The name is a C string measured by strlen, so it holds no zero byte.
     * An empty network name is an error: the name is not copied and saltLen keeps its value,
     * although the prefix and the extended PAN ID have already been written.
     */
    method SetSalt(extPanId: seq<byte>, networkName: seq<byte>)
      requires Valid()
      requires |extPanId| == EXTEND_PAN_ID_LEN
      requires |SALT_PREFIX| + EXTEND_PAN_ID_LEN + |networkName| <= PBKDF2_SALT_MAX_LEN
      requires forall i :: 0 <= i < |networkName| ==> networkName[i] != 0
      modifies salt, this`saltLen
      ensures Valid()
      ensures salt[..] == SaltBuffer(extPanId, networkName)
      ensures saltLen == if |networkName| > 0 then |SALT_PREFIX| + EXTEND_PAN_ID_LEN + |networkName| else old(saltLen)
      ensures |networkName| > 0 ==> salt[..saltLen] == Salt(extPanId, networkName)
    {
      forall k | 0 <= k < salt.Length {
        salt[k] := 0;
      }
      ghost var zeros := seq(PBKDF2_SALT_MAX_LEN, k => 0 as byte);
      assert salt[..] == zeros;
      CopyInto(salt, 0, SALT_PREFIX);
      var cur := |SALT_PREFIX|;
      assert salt[..] == SALT_PREFIX + zeros[cur..];
      CopyInto(salt, cur, extPanId);
      cur := cur + EXTEND_PAN_ID_LEN;
      assert salt[..] == SALT_PREFIX + extPanId + zeros[cur..];
      if |networkName| > 0 {
        CopyInto(salt, cur, networkName);
        cur := cur + |networkName|;
        saltLen := cur;
        assert salt[..] == SALT_PREFIX + extPanId + networkName + zeros[cur..];
      }
    }

    /**
     * PBKDF2 with AES-CMAC-PRF-128 over the passphrase and salt[..saltLen], writing exactly
     * PSKC_LENGTH bytes into pskc, one key block per turn of the outer loop.
     */
    method Pbkdf2Cmac(prf: Prf)
      requires Valid()
      modifies pskc
      ensures Valid()
      ensures pskc[..] == Pbkdf2(prf, passphrase, salt[..saltLen], ITERATION_COUNTS, PSKC_LENGTH)
    {
      var s := salt[..saltLen];
      // The uint32_t block counter never exceeds the number of bytes written, so it never wraps.
      var blockCounter: nat := 0;
      var keyLen: nat := PSKC_LENGTH;
      var written: nat := 0;
      var keyBlock := new byte[BLOCK_SIZE];
      while keyLen > 0
        invariant written + keyLen == PSKC_LENGTH && blockCounter <= written
        invariant pskc[..written] + Blocks(prf, passphrase, s, ITERATION_COUNTS, blockCounter + 1, keyLen)
               == Pbkdf2(prf, passphrase, s, ITERATION_COUNTS, PSKC_LENGTH)
        decreases keyLen
      {
        blockCounter := blockCounter + 1;
        KeyBlock(prf, passphrase, s, blockCounter, keyBlock);
        var useLen := if keyLen < BLOCK_SIZE then keyLen else BLOCK_SIZE;
        BlocksStep(prf, passphrase, s, ITERATION_COUNTS, blockCounter, keyLen);
        ghost var before := pskc[..written];
        ghost var later := Blocks(prf, passphrase, s, ITERATION_COUNTS, blockCounter + 1, keyLen - useLen);
        CopyInto(pskc, written, keyBlock[..useLen]);
        assert pskc[..written + useLen] == before + keyBlock[..useLen];
        assert before + keyBlock[..useLen] + later == before + (keyBlock[..useLen] + later);
        written := written + useLen;
        keyLen := keyLen - useLen;
      }
      assert pskc[..] == pskc[..written];
    }
  }

  /**
   * One turn of the outer loop of Pbkdf2Cmac before the copy: U_1 from the salt and the
   * block counter, then ITERATION_COUNTS - 1 further PRF calls xored into keyBlock.
   */
  method KeyBlock(prf: Prf, passphrase: seq<byte>, s: seq<byte>, blockCounter: nat, keyBlock: array<byte>)
    requires 1 <= blockCounter < 0x1_0000_0000 && keyBlock.Length == BLOCK_SIZE
    modifies keyBlock
    ensures keyBlock[..] == F(prf, passphrase, s, ITERATION_COUNTS, blockCounter)
  {
    var prfInput := s + Int32BE(blockCounter as bv32);
    var prfOutput := prf(passphrase, prfInput);
    CopyInto(keyBlock, 0, prfOutput);
    var i := 1;
    while i < ITERATION_COUNTS
      invariant 1 <= i <= ITERATION_COUNTS
      invariant prfOutput == U(prf, passphrase, s, blockCounter, i)
      invariant keyBlock[..] == F(prf, passphrase, s, i, blockCounter)
    {
      prfInput := prfOutput;
      prfOutput := prf(passphrase, prfInput);
      XorInto(keyBlock, prfOutput);
      i := i + 1;
    }
  }

  /** keyBlock[j] ^= output[j] for every j of the block. */
  method XorInto(keyBlock: array<byte>, output: Block)
    requires keyBlock.Length == BLOCK_SIZE
    modifies keyBlock
    ensures keyBlock[..] == XorBlock(old(keyBlock[..]), output)
  {
    var j := 0;
    while j < BLOCK_SIZE
      invariant 0 <= j <= BLOCK_SIZE
      invariant forall k :: 0 <= k < j ==> keyBlock[k] == old(keyBlock[k]) ^ output[k]
      invariant forall k :: j <= k < BLOCK_SIZE ==> keyBlock[k] == old(keyBlock[k])
    {
      keyBlock[j] := keyBlock[j] ^ output[j];
      j := j + 1;
    }
  }
}
