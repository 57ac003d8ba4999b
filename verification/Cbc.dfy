/**
  Cipher block chaining over arbitrary buffers: the chaining itself as section 6.2
  of NIST SP 800-38A defines it, the two loops that run it over a stretch of
  memory, in place or not, and the outer loop that cuts a message into runs.
  The block cipher is any function on blocks; decryption assumes an inverse.
 */
module Cbc {

  type Byte = bv8

  // ----- the mode of operation

  ghost predicate KeepsLength(f: seq<Byte> -> seq<Byte>) {
    forall b: seq<Byte> :: |f(b)| == |b|
  }

  // A keyed block transformation: any function that keeps the length of its block.
  type BlockCipher = f: seq<Byte> -> seq<Byte> | KeepsLength(f) ghost witness b => b

  // One application of the block cipher.
  function Cipher(f: BlockCipher, b: seq<Byte>): (r: seq<Byte>)
    ensures |r| == |b|
  {
    f(b)
  }

  ghost predicate Inverse(enc: BlockCipher, dec: BlockCipher, bs: nat) {
    forall b: seq<Byte> :: |b| == bs ==> Cipher(dec, Cipher(enc, b)) == b
  }

  function Xor(a: seq<Byte>, b: seq<Byte>): (r: seq<Byte>)
    requires |a| == |b|
  {
    seq(|a|, i requires 0 <= i < |a| => a[i] ^ b[i])
  }

  lemma XorCancels(a: seq<Byte>, b: seq<Byte>)
    requires |a| == |b|
    ensures Xor(Xor(a, b), b) == a
    ensures Xor(Xor(a, b), a) == b
    ensures Xor(a, b) == Xor(b, a)
  {
  }

  datatype Mode = Encrypt | Decrypt

  // One block through the mode: its output, and the chaining value it leaves.
  ghost function BlockOut(mode: Mode, f: BlockCipher, iv: seq<Byte>, b: seq<Byte>): (r: seq<Byte>)
    requires |b| == |iv|
  {
    if mode == Encrypt then Cipher(f, Xor(iv, b)) else Xor(Cipher(f, b), iv)
  }

  ghost function BlockIv(mode: Mode, f: BlockCipher, iv: seq<Byte>, b: seq<Byte>): (r: seq<Byte>)
    requires |b| == |iv|
    ensures |r| == |iv|
  {
    if mode == Encrypt then Cipher(f, Xor(iv, b)) else b
  }

  // n bytes are a whole number of blocks.
  ghost predicate Whole(bs: nat, n: nat) {
    bs > 0 && (n == 0 || (n >= bs && Whole(bs, n - bs)))
  }

  // A message of whole blocks in one pass.
  ghost function Process(mode: Mode, f: BlockCipher, iv: seq<Byte>, m: seq<Byte>): (r: seq<Byte>)
    requires Whole(|iv|, |m|)
    ensures |r| == |m|
    decreases |m|
  {
    if m == [] then []
    else
      var b := m[..|iv|];
      BlockOut(mode, f, iv, b) + Process(mode, f, BlockIv(mode, f, iv, b), m[|iv|..])
  }

  ghost function FinalIv(mode: Mode, f: BlockCipher, iv: seq<Byte>, m: seq<Byte>): (r: seq<Byte>)
    requires Whole(|iv|, |m|)
    ensures |r| == |iv|
    decreases |m|
  {
    if m == [] then iv
    else
      var b := m[..|iv|];
      FinalIv(mode, f, BlockIv(mode, f, iv, b), m[|iv|..])
  }

  lemma WholeBlocks(bs: nat, n: nat)
    requires bs > 0
    ensures n < bs ==> n % bs == n
    ensures n >= bs ==> (n - bs) % bs == n % bs
  {
    if n >= bs {
      var q, r := (n - bs) / bs, (n - bs) % bs;
      assert n == (q + 1) * bs + r;
      RemainderUnique(n, bs, q + 1, r);
    }
  }

  lemma RemainderUnique(n: nat, bs: nat, q: nat, r: nat)
    requires bs > 0 && n == q * bs + r && r < bs
    ensures n % bs == r
  {
    var q', r' := n / bs, n % bs;
    if q' < q {
      AtLeastOne(bs, q', q);
    } else if q < q' {
      AtLeastOne(bs, q, q');
    }
  }

  lemma AtLeastOne(bs: nat, a: nat, b: nat)
    requires a < b
    ensures a * bs + bs <= b * bs
  {
    assert (b - a - 1) * bs >= 0;
    assert b * bs == a * bs + bs + (b - a - 1) * bs;
  }

  lemma {:induction false} WholeIsMultiple(bs: nat, n: nat)
    requires bs > 0
    ensures Whole(bs, n) <==> n % bs == 0
  {
    WholeBlocks(bs, n);
    if n >= bs { WholeIsMultiple(bs, n - bs); }
  }

  lemma {:induction false} WholeSum(bs: nat, a: nat, b: nat)
    requires Whole(bs, a)
    ensures Whole(bs, a + b) <==> Whole(bs, b)
    decreases a
  {
    if a > 0 { WholeSum(bs, a - bs, b); }
  }

  lemma Regroup<T>(a: seq<T>, b: seq<T>, c: seq<T>)
    ensures a + b + c == a + (b + c)
  {
  }

  lemma Cut<T>(a: seq<T>, k: nat, b: seq<T>)
    requires k <= |a|
    ensures a[..k] + a[k..] == a && a[..k] + (a[k..] + b) == a + b
  {
  }

  // The first block of a message, and what it leaves to the rest.
  lemma ProcessFirst(mode: Mode, f: BlockCipher, iv: seq<Byte>, b: seq<Byte>, rest: seq<Byte>)
    requires |b| == |iv| && Whole(|iv|, |rest|) && iv != []
    ensures Whole(|iv|, |b + rest|)
    ensures Process(mode, f, iv, b + rest) == BlockOut(mode, f, iv, b) + Process(mode, f, BlockIv(mode, f, iv, b), rest)
    ensures FinalIv(mode, f, iv, b + rest) == FinalIv(mode, f, BlockIv(mode, f, iv, b), rest)
  {
    assert (b + rest)[..|iv|] == b && (b + rest)[|iv|..] == rest;
  }

  // Cutting a message between blocks and carrying the chaining value over changes nothing.
  lemma {:induction false} ProcessSplit(mode: Mode, f: BlockCipher, iv: seq<Byte>, a: seq<Byte>, b: seq<Byte>)
    requires Whole(|iv|, |a|) && Whole(|iv|, |b|)
    ensures Whole(|iv|, |a + b|)
    ensures Process(mode, f, iv, a + b) == Process(mode, f, iv, a) + Process(mode, f, FinalIv(mode, f, iv, a), b)
    ensures FinalIv(mode, f, iv, a + b) == FinalIv(mode, f, FinalIv(mode, f, iv, a), b)
    decreases |a|
  {
    if a == [] {
      assert a + b == b;
    } else {
      var head, rest := a[..|iv|], a[|iv|..];
      var iv' := BlockIv(mode, f, iv, head);
      ProcessSplit(mode, f, iv', rest, b);
      ProcessFirst(mode, f, iv, head, rest + b);
      Cut(a, |iv|, b);
      Regroup(BlockOut(mode, f, iv, head), Process(mode, f, iv', rest), Process(mode, f, FinalIv(mode, f, iv', rest), b));
    }
  }

  // Having produced `out` and the chaining value iv from m, what follows m may be
  // processed on its own.
  ghost predicate Chained(mode: Mode, f: BlockCipher, iv0: seq<Byte>, m: seq<Byte>, out: seq<Byte>, iv: seq<Byte>) {
    && |iv| == |iv0| && Whole(|iv0|, |m|)
    && (forall rest: seq<Byte> :: Continues(mode, f, iv0, m, out, iv, rest))
  }

  ghost predicate Continues(mode: Mode, f: BlockCipher, iv0: seq<Byte>, m: seq<Byte>, out: seq<Byte>, iv: seq<Byte>,
                            rest: seq<Byte>)
    requires |iv| == |iv0|
  {
    Whole(|iv0|, |rest|) ==>
      && Whole(|iv0|, |m + rest|)
      && Process(mode, f, iv0, m + rest) == out + Process(mode, f, iv, rest)
      && FinalIv(mode, f, iv0, m + rest) == FinalIv(mode, f, iv, rest)
  }

  // That determines both: they are the one-pass result and its last chaining value.
  lemma ChainedIsProcess(mode: Mode, f: BlockCipher, iv0: seq<Byte>, m: seq<Byte>, out: seq<Byte>, iv: seq<Byte>)
    requires Whole(|iv0|, |m|)
    ensures Chained(mode, f, iv0, m, out, iv) <==> out == Process(mode, f, iv0, m) && iv == FinalIv(mode, f, iv0, m)
  {
    if Chained(mode, f, iv0, m, out, iv) {
      assert Continues(mode, f, iv0, m, out, iv, []);
      assert m + [] == m && out + [] == out;
    }
    if out == Process(mode, f, iv0, m) && iv == FinalIv(mode, f, iv0, m) {
      forall rest: seq<Byte> ensures Continues(mode, f, iv0, m, out, iv, rest) {
        if Whole(|iv0|, |rest|) { ProcessSplit(mode, f, iv0, m, rest); }
      }
    }
  }

  // Appending to what has been produced.
  lemma ChainedStep(mode: Mode, f: BlockCipher, iv0: seq<Byte>, m: seq<Byte>, out: seq<Byte>, iv: seq<Byte>, b: seq<Byte>)
    requires Chained(mode, f, iv0, m, out, iv) && |b| == |iv0|
    ensures Chained(mode, f, iv0, m + b, out + BlockOut(mode, f, iv, b), BlockIv(mode, f, iv, b))
  {
    WholeSum(|iv0|, |m|, |b|);
    var out', iv' := out + BlockOut(mode, f, iv, b), BlockIv(mode, f, iv, b);
    forall rest: seq<Byte> ensures Continues(mode, f, iv0, m + b, out', iv', rest) {
      if Whole(|iv0|, |rest|) {
        ProcessFirst(mode, f, iv, b, rest);
        assert Continues(mode, f, iv0, m, out, iv, b + rest);
        Regroup(m, b, rest);
        Regroup(out, BlockOut(mode, f, iv, b), Process(mode, f, iv', rest));
      }
    }
  }

  // Decryption recovers every message of whole blocks, and both sides end with the
  // same chaining value.
  lemma {:induction false} DecryptionRecovers(enc: BlockCipher, dec: BlockCipher, iv: seq<Byte>, m: seq<Byte>)
    requires Inverse(enc, dec, |iv|) && Whole(|iv|, |m|)
    ensures Process(Decrypt, dec, iv, Process(Encrypt, enc, iv, m)) == m
    ensures FinalIv(Decrypt, dec, iv, Process(Encrypt, enc, iv, m)) == FinalIv(Encrypt, enc, iv, m)
    decreases |m|
  {
    if m != [] {
      var b, rest := m[..|iv|], m[|iv|..];
      Cut(m, |iv|, []);
      DecryptionStep(enc, dec, iv, b, rest);
      DecryptionRecovers(enc, dec, Cipher(enc, Xor(iv, b)), rest);
    }
  }

  // The ciphertext of a first block decrypts to it and chains as encryption did.
  lemma DecryptionStep(enc: BlockCipher, dec: BlockCipher, iv: seq<Byte>, b: seq<Byte>, rest: seq<Byte>)
    requires Inverse(enc, dec, |iv|) && iv != [] && |b| == |iv| && Whole(|iv|, |rest|)
    ensures var c := Cipher(enc, Xor(iv, b));
            var out := Process(Encrypt, enc, c, rest);
            && Whole(|iv|, |b + rest|)
            && FinalIv(Encrypt, enc, iv, b + rest) == FinalIv(Encrypt, enc, c, rest)
            && Process(Decrypt, dec, iv, Process(Encrypt, enc, iv, b + rest)) == b + Process(Decrypt, dec, c, out)
            && FinalIv(Decrypt, dec, iv, Process(Encrypt, enc, iv, b + rest)) == FinalIv(Decrypt, dec, c, out)
  {
    var c := Cipher(enc, Xor(iv, b));
    ProcessFirst(Encrypt, enc, iv, b, rest);
    ProcessFirst(Decrypt, dec, iv, c, Process(Encrypt, enc, c, rest));
    XorCancels(iv, b);
  }

  // ----- the definition of NIST SP 800-38A, block by block

  ghost function Block(s: seq<Byte>, bs: nat, k: nat): seq<Byte>
    requires (k + 1) * bs <= |s|
  {
    Scale(bs, k, k + 1);
    s[k * bs..(k + 1) * bs]
  }

  lemma Scale(bs: nat, a: nat, b: nat)
    requires a <= b
    ensures 0 <= a * bs <= b * bs
  {
    assert b * bs == a * bs + (b - a) * bs;
  }

  // C_1 = CIPH(P_1 xor IV) and C_j = CIPH(P_j xor C_(j-1)).
  ghost predicate NistEncryption(enc: BlockCipher, iv: seq<Byte>, m: seq<Byte>, c: seq<Byte>) {
    && |c| == |m|
    && (forall k: nat :: (k + 1) * |iv| <= |m| ==> NistBlock(enc, iv, m, c, k))
  }

  ghost predicate NistBlock(enc: BlockCipher, iv: seq<Byte>, m: seq<Byte>, c: seq<Byte>, k: nat)
    requires |c| == |m| && (k + 1) * |iv| <= |m|
  {
    Scale(|iv|, k, k + 1);
    Scale(|iv|, 0, k);
    BlockSize(m, |iv|, k);
    var prev := if k == 0 then iv else Block(c, |iv|, k - 1);
    |prev| == |iv| && Block(c, |iv|, k) == Cipher(enc, Xor(Block(m, |iv|, k), prev))
  }

  lemma BlockSize(s: seq<Byte>, bs: nat, k: nat)
    requires (k + 1) * bs <= |s|
    ensures |Block(s, bs, k)| == bs
  {
    Scale(bs, k, k + 1);
    assert (k + 1) * bs == k * bs + bs;
  }

  // Block k + 1 of a sequence is block k of what follows its first block.
  lemma BlockShift(s: seq<Byte>, bs: nat, k: nat)
    requires (k + 2) * bs <= |s|
    ensures bs <= |s| && (k + 1) * bs <= |s| - bs
    ensures Block(s, bs, k + 1) == Block(s[bs..], bs, k)
  {
    assert (k + 2) * bs == (k + 1) * bs + bs;
    assert (k + 1) * bs == k * bs + bs;
    Scale(bs, 0, k);
  }

  // One-pass encryption is the standard's definition, and the only sequence that meets it.
  lemma {:induction false} EncryptionMeetsStandard(enc: BlockCipher, iv: seq<Byte>, m: seq<Byte>)
    requires Whole(|iv|, |m|)
    ensures NistEncryption(enc, iv, m, Process(Encrypt, enc, iv, m))
    decreases |m|
  {
    var out, bs := Process(Encrypt, enc, iv, m), |iv|;
    if m != [] {
      var c, rest := Cipher(enc, Xor(iv, m[..bs])), m[bs..];
      EncryptionMeetsStandard(enc, c, rest);
      assert out[..bs] == c && out[bs..] == Process(Encrypt, enc, c, rest);
    }
    forall k: nat | (k + 1) * bs <= |m| ensures NistBlock(enc, iv, m, out, k) {
      Scale(bs, 1, k + 1);
      if k == 0 {
        assert Block(out, bs, 0) == out[..bs] && Block(m, bs, 0) == m[..bs];
        XorCancels(iv, m[..bs]);
      } else {
        ShiftNistBlock(enc, iv, m, out, k - 1);
      }
    }
  }

  lemma ShiftNistBlock(enc: BlockCipher, iv: seq<Byte>, m: seq<Byte>, c: seq<Byte>, k: nat)
    requires |c| == |m| && (k + 2) * |iv| <= |m| && |iv| > 0
    ensures |iv| <= |m| && (k + 1) * |iv| <= |m| - |iv|
    ensures NistBlock(enc, c[..|iv|], m[|iv|..], c[|iv|..], k) <==> NistBlock(enc, iv, m, c, k + 1)
  {
    var bs := |iv|;
    BlockShift(m, bs, k);
    BlockShift(c, bs, k);
    if k == 0 {
      assert Block(c, bs, 0) == c[..bs];
    } else {
      assert (k + 1) * bs <= (k + 2) * bs by { Scale(bs, k + 1, k + 2); }
      BlockShift(c, bs, k - 1);
    }
  }

  lemma {:induction false} StandardDetermines(enc: BlockCipher, iv: seq<Byte>, m: seq<Byte>, c: seq<Byte>)
    requires Whole(|iv|, |m|) && NistEncryption(enc, iv, m, c)
    ensures c == Process(Encrypt, enc, iv, m)
    decreases |m|
  {
    if m != [] {
      var bs := |iv|;
      var c0, rest, out := c[..bs], m[bs..], c[bs..];
      assert NistBlock(enc, iv, m, c, 0);
      assert Block(c, bs, 0) == c0 && Block(m, bs, 0) == m[..bs];
      XorCancels(iv, m[..bs]);
      forall k: nat | (k + 1) * |c0| <= |rest| ensures NistBlock(enc, c0, rest, out, k) {
        assert (k + 2) * bs == (k + 1) * bs + bs;
        assert NistBlock(enc, iv, m, c, k + 1);
        ShiftNistBlock(enc, iv, m, c, k);
      }
      StandardDetermines(enc, c0, rest, out);
      assert c == c0 + out;
    }
  }

  // ----- runs over memory

  // Memory with the bytes b written at off.
  function Splice(mem: seq<Byte>, off: nat, b: seq<Byte>): (r: seq<Byte>)
    requires off + |b| <= |mem|
    ensures |r| == |mem|
  {
    mem[..off] + b + mem[off + |b|..]
  }

  method Store(a: array<Byte>, off: nat, b: seq<Byte>)
    requires off + |b| <= a.Length
    modifies a
    ensures a[..] == Splice(old(a[..]), off, b)
    ensures a[off..off + |b|] == b
  {
    ghost var was := a[..];
    for i := 0 to |b|
      invariant a[..] == Splice(was, off, b[..i])
    {
      a[off + i] := b[i];
      assert b[..i + 1] == b[..i] + [b[i]];
    }
    assert b[..|b|] == b;
  }

  method Overwrite(a: array<Byte>, b: seq<Byte>)
    requires |b| == a.Length
    modifies a
    ensures a[..] == b
  {
    Store(a, 0, b);
    assert a[..] == a[0..0 + |b|];
  }

  // Source and destination of a run are the same stretch of memory or do not overlap.
  ghost predicate Separate(same: bool, d0: nat, s0: nat, n: nat) {
    same ==> d0 == s0 || d0 + n <= s0 || s0 + n <= d0
  }

  // The destination `mem` and the chaining value `iv` after `done` bytes of the
  // message m have gone through, starting from `mem0` and `iv0`.
  ghost predicate RunState(mode: Mode, f: BlockCipher, mem0: seq<Byte>, d0: nat, iv0: seq<Byte>, m: seq<Byte>,
                           done: nat, mem: seq<Byte>, iv: seq<Byte>)
  {
    && |mem| == |mem0| && d0 + |m| <= |mem0| && done <= |m|
    && mem[..d0] == mem0[..d0]
    && mem[d0 + done..] == mem0[d0 + done..]
    && Chained(mode, f, iv0, m[..done], mem[d0..d0 + done], iv)
  }

  lemma RunStarts(mode: Mode, f: BlockCipher, mem0: seq<Byte>, d0: nat, iv0: seq<Byte>, m: seq<Byte>)
    requires d0 + |m| <= |mem0| && iv0 != []
    ensures RunState(mode, f, mem0, d0, iv0, m, 0, mem0, iv0)
  {
    assert m[..0] == [] && mem0[d0..d0 + 0] == [];
    ChainedIsProcess(mode, f, iv0, [], [], iv0);
  }

  // Writing the next block's output advances the run.
  lemma RunStep(mode: Mode, f: BlockCipher, mem0: seq<Byte>, d0: nat, iv0: seq<Byte>, m: seq<Byte>,
                done: nat, mem: seq<Byte>, iv: seq<Byte>)
    requires RunState(mode, f, mem0, d0, iv0, m, done, mem, iv) && done + |iv0| <= |m|
    ensures var b := m[done..done + |iv0|];
            RunState(mode, f, mem0, d0, iv0, m, done + |iv0|,
                     Splice(mem, d0 + done, BlockOut(mode, f, iv, b)), BlockIv(mode, f, iv, b))
  {
    var bs := |iv0|;
    var b := m[done..done + bs];
    var out := BlockOut(mode, f, iv, b);
    var mem' := Splice(mem, d0 + done, out);
    ChainedStep(mode, f, iv0, m[..done], mem[d0..d0 + done], iv, b);
    assert m[..done] + b == m[..done + bs];
    SpliceParts(mem, d0, done, out);
    assert mem'[d0 + done + bs..] == mem[d0 + done..][bs..] == mem0[d0 + done..][bs..];
  }

  lemma SpliceParts(mem: seq<Byte>, d0: nat, done: nat, out: seq<Byte>)
    requires d0 + done + |out| <= |mem|
    ensures var mem' := Splice(mem, d0 + done, out);
            && mem'[..d0] == mem[..d0]
            && mem'[d0..d0 + done + |out|] == mem[d0..d0 + done] + out
            && mem'[d0 + done + |out|..] == mem[d0 + done + |out|..]
            && mem'[d0 + done..d0 + done + |out|] == out
  {
  }

  lemma OutsideKept(mode: Mode, f: BlockCipher, mem0: seq<Byte>, d0: nat, iv0: seq<Byte>, m: seq<Byte>,
                    done: nat, mem: seq<Byte>, iv: seq<Byte>)
    requires RunState(mode, f, mem0, d0, iv0, m, done, mem, iv)
    ensures |mem| == |mem0| && d0 + done <= |mem|
    ensures forall i :: 0 <= i < d0 || d0 + done <= i < |mem| ==> mem[i] == mem0[i]
  {
    forall i | 0 <= i < d0 || d0 + done <= i < |mem| ensures mem[i] == mem0[i] {
      if i < d0 {
        assert mem[i] == mem[..d0][i] == mem0[..d0][i];
      } else {
        assert mem[i] == mem[d0 + done..][i - d0 - done] == mem0[d0 + done..][i - d0 - done];
      }
    }
  }

  // What a run reads from: the source is untouched or is the destination's own memory.
  ghost predicate Reads(same: bool, mem0: seq<Byte>, srcNow: seq<Byte>, s0: nat, m: seq<Byte>) {
    s0 + |m| <= |srcNow| && (if same then |srcNow| == |mem0| && m == mem0[s0..s0 + |m|] else m == srcNow[s0..s0 + |m|])
  }

  // The next n bytes of the source have not been overwritten.
  lemma NextUnread(mode: Mode, f: BlockCipher, mem0: seq<Byte>, d0: nat, iv0: seq<Byte>, m: seq<Byte>,
                   done: nat, mem: seq<Byte>, iv: seq<Byte>, same: bool, srcNow: seq<Byte>, s0: nat, n: nat)
    requires RunState(mode, f, mem0, d0, iv0, m, done, mem, iv) && done + n <= |m|
    requires same ==> srcNow == mem
    requires Reads(same, mem0, srcNow, s0, m) && Separate(same, d0, s0, |m|)
    ensures srcNow[s0 + done..s0 + done + n] == m[done..done + n]
  {
    OutsideKept(mode, f, mem0, d0, iv0, m, done, mem, iv);
    forall k | 0 <= k < |m| ensures m[k] == if same then mem0[s0 + k] else srcNow[s0 + k] {
      if same { assert m[k] == mem0[s0..s0 + |m|][k]; } else { assert m[k] == srcNow[s0..s0 + |m|][k]; }
    }
    forall k | done <= k < done + n ensures srcNow[s0 + k] == m[k] {
    }
  }

  // So writing the output of the block now at the source advances the run.
  lemma RunNext(mode: Mode, f: BlockCipher, mem0: seq<Byte>, d0: nat, iv0: seq<Byte>, m: seq<Byte>,
                done: nat, mem: seq<Byte>, iv: seq<Byte>, same: bool, srcNow: seq<Byte>, s0: nat, b: seq<Byte>)
    requires RunState(mode, f, mem0, d0, iv0, m, done, mem, iv) && done + |iv0| <= |m|
    requires same ==> srcNow == mem
    requires Reads(same, mem0, srcNow, s0, m) && Separate(same, d0, s0, |m|)
    requires b == srcNow[s0 + done..s0 + done + |iv0|]
    ensures |iv| == |iv0| && d0 + done + |iv| <= |mem|
    ensures RunState(mode, f, mem0, d0, iv0, m, done + |iv0|,
                     Splice(mem, d0 + done, BlockOut(mode, f, iv, b)), BlockIv(mode, f, iv, b))
  {
    NextUnread(mode, f, mem0, d0, iv0, m, done, mem, iv, same, srcNow, s0, |iv0|);
    RunStep(mode, f, mem0, d0, iv0, m, done, mem, iv);
  }

  // A ciphertext block goes out, and is read back as the chaining value.
  method Emit(dst: array<Byte>, d: nat, c: seq<Byte>, iv: array<Byte>)
    requires |c| == iv.Length && d + iv.Length <= dst.Length && iv != dst
    modifies dst, iv
    ensures dst[..] == Splice(old(dst[..]), d, c) && iv[..] == c
  {
    Store(dst, d, c);
    Overwrite(iv, dst[d..d + iv.Length]);
  }

  // One block: xor the chaining value with the source, encrypt into the
  // destination, and copy the result back as the new chaining value.
  method EncryptBlock(enc: BlockCipher, dst: array<Byte>, d: nat, src: array<Byte>, s: nat, iv: array<Byte>)
    requires 0 < iv.Length && iv != dst && iv != src
    requires s + iv.Length <= src.Length && d + iv.Length <= dst.Length
    modifies dst, iv
    ensures dst[..] == Splice(old(dst[..]), d, BlockOut(Encrypt, enc, old(iv[..]), old(src[..])[s..s + iv.Length]))
    ensures iv[..] == BlockIv(Encrypt, enc, old(iv[..]), old(src[..])[s..s + iv.Length])
  {
    var bs := iv.Length;
    var x := Xor(iv[..], src[..][s..s + bs]);
    Overwrite(iv, x);
    Emit(dst, d, Cipher(enc, iv[..]), iv);
  }

  // The next block of an encrypting run.
  method EncryptNext(enc: BlockCipher, dst: array<Byte>, d0: nat, src: array<Byte>, s0: nat, iv: array<Byte>, done: nat,
                     ghost mem0: seq<Byte>, ghost iv0: seq<Byte>, ghost m: seq<Byte>)
    requires 0 < iv.Length == |iv0| && iv != dst && iv != src && Separate(dst == src, d0, s0, |m|)
    requires done + iv.Length <= |m| && Reads(dst == src, mem0, src[..], s0, m)
    requires RunState(Encrypt, enc, mem0, d0, iv0, m, done, dst[..], iv[..])
    modifies dst, iv
    ensures RunState(Encrypt, enc, mem0, d0, iv0, m, done + iv.Length, dst[..], iv[..])
  {
    RunNext(Encrypt, enc, mem0, d0, iv0, m, done, dst[..], iv[..], dst == src, src[..], s0,
            src[..][s0 + done..s0 + done + iv.Length]);
    EncryptBlock(enc, dst, d0 + done, src, s0 + done, iv);
  }

  // cbc_process_encrypt: as many whole blocks as the run holds.
  method CbcProcessEncrypt(enc: BlockCipher, dst: array<Byte>, d0: nat, src: array<Byte>, s0: nat, nbytes: nat, iv: array<Byte>)
    returns (done: nat)
    requires 0 < iv.Length <= nbytes
    requires iv != dst && iv != src && Separate(dst == src, d0, s0, nbytes)
    requires s0 + nbytes <= src.Length && d0 + nbytes <= dst.Length
    modifies dst, iv
    ensures done <= nbytes < done + iv.Length
    ensures RunState(Encrypt, enc, old(dst[..]), d0, old(iv[..]), old(src[..][s0..s0 + nbytes]), done, dst[..], iv[..])
  {
    var bs := iv.Length;
    RunStarts(Encrypt, enc, dst[..], d0, iv[..], src[..][s0..s0 + nbytes]);
    done := 0;
    while true
      invariant done + bs <= nbytes
      invariant RunState(Encrypt, enc, old(dst[..]), d0, old(iv[..]), old(src[..][s0..s0 + nbytes]), done, dst[..], iv[..])
      invariant dst != src ==> src[..] == old(src[..])
      decreases nbytes - done
    {
      EncryptNext(enc, dst, d0, src, s0, iv, done, old(dst[..]), old(iv[..]), old(src[..][s0..s0 + nbytes]));
      done := done + bs;
      if done > nbytes - bs {
        break;
      }
    }
  }

  lemma SpliceTwice(mem: seq<Byte>, d: nat, a: seq<Byte>, b: seq<Byte>)
    requires |a| == |b| && d + |a| <= |mem|
    ensures Splice(Splice(mem, d, a), d, b) == Splice(mem, d, b)
  {
  }

  lemma SpliceAway(mem: seq<Byte>, d: nat, b: seq<Byte>, s: nat, n: nat)
    requires d + |b| <= |mem| && s + n <= |mem| && (d + |b| <= s || s + n <= d)
    ensures Splice(mem, d, b)[s..s + n] == mem[s..s + n]
  {
  }

  // One block in place: decrypt into the side buffer, xor, take the ciphertext as
  // the new chaining value, and copy the buffer over it.
  method DecryptBlockInPlace(dec: BlockCipher, dst: array<Byte>, d: nat, iv: array<Byte>, buf: array<Byte>)
    requires buf.Length == iv.Length && d + iv.Length <= dst.Length
    requires iv != dst && buf != dst && buf != iv
    modifies dst, iv, buf
    ensures dst[..] == Splice(old(dst[..]), d, BlockOut(Decrypt, dec, old(iv[..]), old(dst[..])[d..d + iv.Length]))
    ensures iv[..] == BlockIv(Decrypt, dec, old(iv[..]), old(dst[..])[d..d + iv.Length])
  {
    var bs := iv.Length;
    Overwrite(buf, Cipher(dec, dst[..][d..d + bs]));
    Overwrite(buf, Xor(buf[..], iv[..]));
    Overwrite(iv, dst[..][d..d + bs]);
    Store(dst, d, buf[..]);
  }

  // A decrypted block goes to its place, and the chaining value is xored into it there.
  method StoreXored(dst: array<Byte>, d: nat, b: seq<Byte>, iv: array<Byte>)
    requires |b| == iv.Length && d + iv.Length <= dst.Length && iv != dst
    modifies dst
    ensures dst[..] == Splice(old(dst[..]), d, Xor(b, iv[..]))
  {
    Store(dst, d, b);
    var out := Xor(dst[d..d + |b|], iv[..]);
    Store(dst, d, out);
    SpliceTwice(old(dst[..]), d, b, out);
  }

  // One block between separate places: decrypt straight into the destination.
  method DecryptBlockAcross(dec: BlockCipher, dst: array<Byte>, d: nat, src: array<Byte>, s: nat, iv: array<Byte>)
    requires s + iv.Length <= src.Length && d + iv.Length <= dst.Length
    requires iv != dst && iv != src && (dst == src ==> d + iv.Length <= s || s + iv.Length <= d)
    modifies dst, iv
    ensures dst[..] == Splice(old(dst[..]), d, BlockOut(Decrypt, dec, old(iv[..]), old(src[..])[s..s + iv.Length]))
    ensures iv[..] == BlockIv(Decrypt, dec, old(iv[..]), old(src[..])[s..s + iv.Length])
  {
    var bs := iv.Length;
    ghost var b := src[..][s..s + bs];
    StoreXored(dst, d, Cipher(dec, src[..][s..s + bs]), iv);
    if dst == src { SpliceAway(old(dst[..]), d, Xor(Cipher(dec, b), old(iv[..])), s, bs); }
    Overwrite(iv, src[..][s..s + bs]);
  }

  method DecryptBlock(dec: BlockCipher, dst: array<Byte>, d: nat, src: array<Byte>, s: nat, iv: array<Byte>, buf: array<Byte>)
    requires s + iv.Length <= src.Length && d + iv.Length <= dst.Length
    requires iv != dst && iv != src && Separate(dst == src, d, s, iv.Length)
    requires buf.Length == iv.Length && buf != dst && buf != src && buf != iv
    modifies dst, iv, buf
    ensures dst[..] == Splice(old(dst[..]), d, BlockOut(Decrypt, dec, old(iv[..]), old(src[..])[s..s + iv.Length]))
    ensures iv[..] == BlockIv(Decrypt, dec, old(iv[..]), old(src[..])[s..s + iv.Length])
  {
    if dst == src && d == s {
      DecryptBlockInPlace(dec, dst, d, iv, buf);
    } else {
      DecryptBlockAcross(dec, dst, d, src, s, iv);
    }
  }

  // The next block of a decrypting run.
  method DecryptNext(dec: BlockCipher, dst: array<Byte>, d0: nat, src: array<Byte>, s0: nat, iv: array<Byte>,
                     buf: array<Byte>, done: nat, ghost mem0: seq<Byte>, ghost iv0: seq<Byte>, ghost m: seq<Byte>)
    requires 0 < iv.Length == |iv0| && iv != dst && iv != src && Separate(dst == src, d0, s0, |m|)
    requires buf.Length == iv.Length && buf != dst && buf != src && buf != iv
    requires done + iv.Length <= |m| && Reads(dst == src, mem0, src[..], s0, m)
    requires RunState(Decrypt, dec, mem0, d0, iv0, m, done, dst[..], iv[..])
    modifies dst, iv, buf
    ensures RunState(Decrypt, dec, mem0, d0, iv0, m, done + iv.Length, dst[..], iv[..])
  {
    RunNext(Decrypt, dec, mem0, d0, iv0, m, done, dst[..], iv[..], dst == src, src[..], s0,
            src[..][s0 + done..s0 + done + iv.Length]);
    DecryptBlock(dec, dst, d0 + done, src, s0 + done, iv, buf);
  }

  // cbc_process_decrypt.
  method CbcProcessDecrypt(dec: BlockCipher, dst: array<Byte>, d0: nat, src: array<Byte>, s0: nat, nbytes: nat, iv: array<Byte>)
    returns (done: nat)
    requires 0 < iv.Length <= nbytes
    requires iv != dst && iv != src && Separate(dst == src, d0, s0, nbytes)
    requires s0 + nbytes <= src.Length && d0 + nbytes <= dst.Length
    modifies dst, iv
    ensures done <= nbytes < done + iv.Length
    ensures RunState(Decrypt, dec, old(dst[..]), d0, old(iv[..]), old(src[..][s0..s0 + nbytes]), done, dst[..], iv[..])
  {
    var bs := iv.Length;
    var buf := new Byte[bs];
    RunStarts(Decrypt, dec, dst[..], d0, iv[..], src[..][s0..s0 + nbytes]);
    done := 0;
    while true
      invariant done + bs <= nbytes && fresh(buf)
      invariant RunState(Decrypt, dec, old(dst[..]), d0, old(iv[..]), old(src[..][s0..s0 + nbytes]), done, dst[..], iv[..])
      invariant dst != src ==> src[..] == old(src[..])
      decreases nbytes - done
    {
      DecryptNext(dec, dst, d0, src, s0, iv, buf, done, old(dst[..]), old(iv[..]), old(src[..][s0..s0 + nbytes]));
      done := done + bs;
      if done > nbytes - bs {
        break;
      }
    }
  }

  // The mode's own loop over one run.
  method ProcessRun(mode: Mode, f: BlockCipher, dst: array<Byte>, d0: nat, src: array<Byte>, s0: nat, nbytes: nat, iv: array<Byte>)
    returns (done: nat)
    requires 0 < iv.Length <= nbytes
    requires iv != dst && iv != src && Separate(dst == src, d0, s0, nbytes)
    requires s0 + nbytes <= src.Length && d0 + nbytes <= dst.Length
    modifies dst, iv
    ensures done <= nbytes < done + iv.Length
    ensures RunState(mode, f, old(dst[..]), d0, old(iv[..]), old(src[..][s0..s0 + nbytes]), done, dst[..], iv[..])
  {
    match mode
    case Encrypt => done := CbcProcessEncrypt(f, dst, d0, src, s0, nbytes, iv);
    case Decrypt => done := CbcProcessDecrypt(f, dst, d0, src, s0, nbytes, iv);
  }

  // ----- cutting a message into runs

  // A run made in a side buffer and copied to the destination is a run there.
  lemma RunTransfers(mode: Mode, f: BlockCipher, side0: seq<Byte>, iv0: seq<Byte>, m: seq<Byte>, done: nat, side: seq<Byte>,
                     iv: seq<Byte>, mem0: seq<Byte>, d0: nat)
    requires RunState(mode, f, side0, 0, iv0, m, done, side, iv) && d0 + |m| <= |mem0|
    ensures RunState(mode, f, mem0, d0, iv0, m, done, Splice(mem0, d0, side[..done]), iv)
  {
    SpliceParts(mem0, d0, 0, side[..done]);
    assert side[0..0 + done] == side[..done];
  }

  // crypt_fast: the run as far as it has whole blocks, through the page buffer when
  // the data is not aligned.
  method CryptFast(mode: Mode, f: BlockCipher, dst: array<Byte>, d0: nat, src: array<Byte>, s0: nat, nbytes: nat,
                   iv: array<Byte>, buffered: bool,
                   ghost b: seq<Byte>)
    returns (done: nat)
    requires 0 < iv.Length <= nbytes
    requires iv != dst && iv != src && Separate(dst == src, d0, s0, nbytes)
    requires s0 + nbytes <= src.Length && d0 + nbytes <= dst.Length && b == src[..][s0..s0 + nbytes]
    modifies dst, iv
    ensures done <= nbytes < done + iv.Length
    ensures RunState(mode, f, old(dst[..]), d0, old(iv[..]), b, done, dst[..], iv[..])
  {
    if !buffered {
      done := ProcessRun(mode, f, dst, d0, src, s0, nbytes, iv);
    } else {
      var tmp := new Byte[nbytes];
      Overwrite(tmp, src[..][s0..s0 + nbytes]);
      assert tmp[..][0..0 + nbytes] == tmp[..];
      done := ProcessRun(mode, f, tmp, 0, tmp, 0, nbytes, iv);
      RunTransfers(mode, f, b, old(iv[..]), b, done, tmp[..], iv[..],
                   old(dst[..]), d0);
      Store(dst, d0, tmp[..][..done]);
    }
  }

  // crypt_slow: one block that straddles a page boundary, gathered into a buffer.
  method CryptSlow(mode: Mode, f: BlockCipher, dst: array<Byte>, d0: nat, src: array<Byte>, s0: nat, iv: array<Byte>,
                   ghost b: seq<Byte>)
    returns (done: nat)
    requires 0 < iv.Length && iv != dst && iv != src
    requires s0 + iv.Length <= src.Length && d0 + iv.Length <= dst.Length && b == src[..][s0..s0 + iv.Length]
    modifies dst, iv
    ensures done == iv.Length
    ensures RunState(mode, f, old(dst[..]), d0, old(iv[..]), b, done, dst[..], iv[..])
  {
    var bs := iv.Length;
    var from := new Byte[bs];
    var to := new Byte[bs];
    ghost var to0 := to[..];
    Overwrite(from, src[..][s0..s0 + bs]);
    assert from[..][0..0 + bs] == from[..];
    var n := ProcessRun(mode, f, to, 0, from, 0, bs, iv);
    done := bs;
    RunIsWhole(mode, f, to0, 0, old(iv[..]), b, n, to[..], iv[..]);
    RunTransfers(mode, f, to0, old(iv[..]), b, n, to[..], iv[..], old(dst[..]), d0);
    assert to[..][..n] == to[..];
    Store(dst, d0, to[..]);
  }

  // A run that stops short of a block has done everything when its length is whole.
  lemma RunIsWhole(mode: Mode, f: BlockCipher, mem0: seq<Byte>, d0: nat, iv0: seq<Byte>, m: seq<Byte>, done: nat,
                   mem: seq<Byte>, iv: seq<Byte>)
    requires RunState(mode, f, mem0, d0, iv0, m, done, mem, iv) && |m| < done + |iv0| && Whole(|iv0|, |m|)
    ensures done == |m|
  {
    WholeSum(|iv0|, done, |m| - done);
  }

  lemma ChainedJoin(mode: Mode, f: BlockCipher, iv0: seq<Byte>, m: seq<Byte>, out: seq<Byte>, iv: seq<Byte>,
                    m': seq<Byte>, out': seq<Byte>, iv': seq<Byte>)
    requires Chained(mode, f, iv0, m, out, iv) && Chained(mode, f, iv, m', out', iv')
    ensures Chained(mode, f, iv0, m + m', out + out', iv')
  {
    WholeSum(|iv0|, |m|, |m'|);
    forall rest: seq<Byte> ensures Continues(mode, f, iv0, m + m', out + out', iv', rest) {
      if Whole(|iv0|, |rest|) {
        WholeSum(|iv0|, |m'|, |rest|);
        assert Continues(mode, f, iv, m', out', iv', rest);
        assert Continues(mode, f, iv0, m, out, iv, m' + rest);
        Regroup(m, m', rest);
        Regroup(out, out', Process(mode, f, iv', rest));
      }
    }
  }

  // A run that starts where another stopped continues it.
  lemma RunJoins(mode: Mode, f: BlockCipher, mem0: seq<Byte>, d0: nat, iv0: seq<Byte>, m: seq<Byte>, done: nat,
                 mem: seq<Byte>, iv: seq<Byte>, n: nat, k: nat, mem': seq<Byte>, iv': seq<Byte>)
    requires RunState(mode, f, mem0, d0, iv0, m, done, mem, iv) && done + n <= |m|
    requires RunState(mode, f, mem, d0 + done, iv, m[done..done + n], k, mem', iv')
    ensures RunState(mode, f, mem0, d0, iv0, m, done + k, mem', iv')
  {
    ChainedJoin(mode, f, iv0, m[..done], mem[d0..d0 + done], iv,
                m[done..done + n][..k], mem'[d0 + done..d0 + done + k], iv');
    assert m[..done] + m[done..done + n][..k] == m[..done + k];
    var at := d0 + done;
    assert mem'[..d0] == mem'[..at][..d0] && mem[..d0] == mem[..at][..d0];
    assert mem'[d0..at] == mem'[..at][d0..] && mem[d0..at] == mem[..at][d0..];
    assert mem'[d0..d0 + (done + k)] == mem'[d0..at] + mem'[at..at + k];
    assert mem[at + k..] == mem[at..][k..] && mem0[at + k..] == mem0[at..][k..];
  }

  lemma ThreeParts(mem: seq<Byte>, d0: nat, n: nat)
    requires d0 + n <= |mem|
    ensures mem == mem[..d0] + mem[d0..d0 + n] + mem[d0 + n..]
  {
  }

  // A finished run, written out.
  lemma RunEnds(mode: Mode, f: BlockCipher, mem0: seq<Byte>, d0: nat, iv0: seq<Byte>, m: seq<Byte>, mem: seq<Byte>, iv: seq<Byte>)
    requires RunState(mode, f, mem0, d0, iv0, m, |m|, mem, iv)
    ensures Whole(|iv0|, |m|)
    ensures mem == Splice(mem0, d0, Process(mode, f, iv0, m)) && iv == FinalIv(mode, f, iv0, m)
  {
    assert m[..|m|] == m;
    ChainedIsProcess(mode, f, iv0, m, mem[d0..d0 + |m|], iv);
    ThreeParts(mem, d0, |m|);
  }

  // How the two walks cut a message: at each position, the bytes left in the current
  // page of both, whether either is unaligned, and whether a page could be had.
  datatype Walk = Walk(avail: nat -> nat, unaligned: nat -> bool, pageFree: nat -> bool)

  const EINVAL: int := 22

  // One turn of the outer loop, at position pos of the message.
  method CryptTurn(mode: Mode, f: BlockCipher, dst: array<Byte>, d0: nat, src: array<Byte>, s0: nat, iv: array<Byte>,
                   want: nat, buffered: bool, pos: nat, ghost mem0: seq<Byte>, ghost iv0: seq<Byte>, ghost m: seq<Byte>)
    returns (k: nat)
    requires 0 < iv.Length == |iv0| && iv != dst && iv != src && Separate(dst == src, d0, s0, |m|)
    requires pos + iv.Length <= |m| && pos + want <= |m| && Reads(dst == src, mem0, src[..], s0, m)
    requires RunState(mode, f, mem0, d0, iv0, m, pos, dst[..], iv[..])
    modifies dst, iv
    ensures 0 < k && pos + k <= |m|
    ensures RunState(mode, f, mem0, d0, iv0, m, pos + k, dst[..], iv[..])
  {
    var n := if want >= iv.Length then want else iv.Length;
    NextUnread(mode, f, mem0, d0, iv0, m, pos, dst[..], iv[..], dst == src, src[..], s0, n);
    ghost var mem, chain := dst[..], iv[..];
    if want >= iv.Length {
      k := CryptFast(mode, f, dst, d0 + pos, src, s0 + pos, n, iv, buffered, m[pos..pos + n]);
    } else {
      k := CryptSlow(mode, f, dst, d0 + pos, src, s0 + pos, iv, m[pos..pos + n]);
    }
    RunJoins(mode, f, mem0, d0, iv0, m, pos, mem, chain, n, k, dst[..], iv[..]);
  }

  // crypt: the whole message, cut however the pages fall.
  method Crypt(mode: Mode, f: BlockCipher, dst: array<Byte>, d0: nat, src: array<Byte>, s0: nat, nbytes: nat, iv: array<Byte>,
               walk: Walk)
    returns (err: int, badBlockLen: bool)
    requires 0 < iv.Length && iv != dst && iv != src && Separate(dst == src, d0, s0, nbytes)
    requires s0 + nbytes <= src.Length && d0 + nbytes <= dst.Length
    modifies dst, iv
    ensures badBlockLen <==> nbytes % iv.Length != 0
    ensures err == if badBlockLen then -EINVAL else 0
    ensures badBlockLen ==> dst[..] == old(dst[..]) && iv[..] == old(iv[..])
    ensures !badBlockLen ==>
              && Whole(iv.Length, nbytes)
              && dst[..] == Splice(old(dst[..]), d0, Process(mode, f, old(iv[..]), old(src[..][s0..s0 + nbytes])))
              && iv[..] == FinalIv(mode, f, old(iv[..]), old(src[..][s0..s0 + nbytes]))
  {
    var bs := iv.Length;
    WholeIsMultiple(bs, nbytes);
    ghost var mem0, iv0, m := dst[..], iv[..], src[..][s0..s0 + nbytes];
    RunStarts(mode, f, mem0, d0, iv0, m);
    badBlockLen := nbytes % bs != 0;
    if nbytes == 0 {
      RunEnds(mode, f, mem0, d0, iv0, m, dst[..], iv[..]);
      return 0, false;
    }
    if badBlockLen {
      return -EINVAL, true;
    }
    var pos, havePage := 0, false;
    while true
      invariant pos < nbytes && |m| == nbytes
      invariant RunState(mode, f, mem0, d0, iv0, m, pos, dst[..], iv[..])
      invariant dst != src ==> src[..] == old(src[..])
      decreases nbytes - pos
    {
      var want, buffered := nbytes - pos, false;
      if walk.unaligned(pos) {
        if !havePage && !walk.pageFree(pos) {
          want := 0;
        } else {
          havePage, buffered := true, true;
        }
      }
      if walk.avail(pos) < want {
        want := walk.avail(pos);
      }
      RunLeavesABlock(mode, f, mem0, d0, iv0, m, pos, dst[..], iv[..]);
      var k := CryptTurn(mode, f, dst, d0, src, s0, iv, want, buffered, pos, mem0, iv0, m);
      pos := pos + k;
      if pos == nbytes {
        break;
      }
    }
    RunEnds(mode, f, mem0, d0, iv0, m, dst[..], iv[..]);
    err := 0;
  }

  lemma RunLeavesABlock(mode: Mode, f: BlockCipher, mem0: seq<Byte>, d0: nat, iv0: seq<Byte>, m: seq<Byte>, done: nat,
                        mem: seq<Byte>, iv: seq<Byte>)
    requires RunState(mode, f, mem0, d0, iv0, m, done, mem, iv) && done < |m| && Whole(|iv0|, |m|)
    ensures done + |iv0| <= |m|
  {
    WholeGap(|iv0|, done, |m|);
  }

  lemma WholeGap(bs: nat, done: nat, n: nat)
    requires Whole(bs, done) && Whole(bs, n) && done < n
    ensures done + bs <= n
  {
    WholeSum(bs, done, n - done);
  }

  lemma SpliceBack(mem: seq<Byte>, at: nat, n: nat, c: seq<Byte>)
    requires at + n <= |mem| && |c| == n
    ensures Splice(mem, at, c)[at..at + n] == c
    ensures Splice(Splice(mem, at, c), at, mem[at..at + n]) == mem
  {
    SpliceTwice(mem, at, c, mem[at..at + n]);
    ThreeParts(mem, at, n);
  }

  // A stretch of memory that decrypts to m becomes m.
  method DecryptTo(dec: BlockCipher, mem: array<Byte>, at: nat, nbytes: nat, iv: array<Byte>, walk: Walk,
                   ghost m: seq<Byte>, ghost last: seq<Byte>)
    requires 0 < iv.Length && iv != mem && at + nbytes <= mem.Length && nbytes % iv.Length == 0
    requires Decrypts(dec, iv[..], mem[..][at..at + nbytes], m, last)
    modifies mem, iv
    ensures mem[..] == Splice(old(mem[..]), at, m) && iv[..] == last
  {
    var err, bad := Crypt(Decrypt, dec, mem, at, mem, at, nbytes, iv, walk);
  }

  ghost predicate Decrypts(dec: BlockCipher, iv: seq<Byte>, c: seq<Byte>, m: seq<Byte>, last: seq<Byte>) {
    && |m| == |c| && Whole(|iv|, |c|)
    && Process(Decrypt, dec, iv, c) == m && FinalIv(Decrypt, dec, iv, c) == last
  }

  // Encrypting in place and decrypting in place, each cut up in its own way, gives the
  // memory back and leaves both chaining values equal.
  method RoundTrip(enc: BlockCipher, dec: BlockCipher, mem: array<Byte>, at: nat, nbytes: nat, iv: array<Byte>, iv': array<Byte>,
                   there: Walk, back: Walk)
    requires 0 < iv.Length == iv'.Length && iv != mem && iv' != mem && iv != iv' && iv[..] == iv'[..]
    requires at + nbytes <= mem.Length && nbytes % iv.Length == 0 && Inverse(enc, dec, iv.Length)
    modifies mem, iv, iv'
    ensures mem[..] == old(mem[..]) && iv[..] == iv'[..]
  {
    ghost var mem0, iv0, m := mem[..], iv[..], mem[..][at..at + nbytes];
    var err, bad := Crypt(Encrypt, enc, mem, at, mem, at, nbytes, iv, there);
    assert Decrypts(dec, iv0, mem[..][at..at + nbytes], m, iv[..]) && mem[..][at..at + nbytes] == Process(Encrypt, enc, iv0, m) by {
      DecryptionRecovers(enc, dec, iv0, m);
      SpliceBack(mem0, at, nbytes, Process(Encrypt, enc, iv0, m));
    }
    SpliceBack(mem0, at, nbytes, mem[..][at..at + nbytes]);
    DecryptTo(dec, mem, at, nbytes, iv', back, m, iv[..]);
  }
}
