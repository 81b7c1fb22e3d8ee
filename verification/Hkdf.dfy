/**
 HKDF-Expand (hkdf.c), with its 8-bit block counter that starts at 0 for version 2 and at
 1 for version 3. HMAC is a parameter of which only the output length is known.
 */
module Hkdf {
  import opened Common
  import opened Bytes

  const HASH_OUTPUT_SIZE: nat := 32

  /** HMAC-SHA256: a key and a message give 32 bytes. */
  type Mac = (Data, Data) -> Data

  ghost predicate IsMac(h: Mac) {
    forall key, text :: |h(key, text)| == HASH_OUTPUT_SIZE
  }

  /** `hkdf_create`: the first counter of a version. */
  function StartOffset(version: int): Result<byte> {
    if version == 2 then Ok(0) else if version == 3 then Ok(1) else Err(Invalid)
  }

  /** How many 32-byte blocks an output of this length needs. */
  function Blocks(length: nat): (n: nat)
    ensures 32 * n >= length && (n > 0 ==> 32 * (n - 1) < length)
  {
    (length + 31) / 32
  }

  function CounterByte(n: nat): byte {
    n % 256
  }

  // ---- Section 2.3 of RFC 5869 ----

  /** T(i): the HMAC of T(i - 1), the info and the byte i; T(0) is empty. */
  function T(h: Mac, prk: Data, info: Data, i: nat): Data {
    if i == 0 then [] else h(prk, T(h, prk, info, i - 1) + info + [i % 256])
  }

  /** T(1) | T(2) | ... | T(n). */
  function Ts(h: Mac, prk: Data, info: Data, n: nat): Data {
    if n == 0 then [] else Ts(h, prk, info, n - 1) + T(h, prk, info, n)
  }

  // ---- The block sequence from any first counter ----

  /** The n-th block, counted from 0, when the first counter is `offset`. */
  function Block(h: Mac, prk: Data, info: Data, offset: byte, n: nat): Data {
    h(prk, (if n == 0 then [] else Block(h, prk, info, offset, n - 1)) + info + [CounterByte(offset + n)])
  }

  /** The first `n` blocks one after the other. */
  function Output(h: Mac, prk: Data, info: Data, offset: byte, n: nat): Data {
    if n == 0 then [] else Output(h, prk, info, offset, n - 1) + Block(h, prk, info, offset, n - 1)
  }

  lemma {:induction false} OutputLength(h: Mac, prk: Data, info: Data, offset: byte, n: nat)
    requires IsMac(h)
    ensures |Output(h, prk, info, offset, n)| == 32 * n
  {
    if n > 0 {
      OutputLength(h, prk, info, offset, n - 1);
    }
  }

  /** From counter 1 the blocks are those of RFC 5869. */
  lemma {:induction false} BlocksAreRfc5869(h: Mac, prk: Data, info: Data, n: nat)
    ensures Block(h, prk, info, 1, n) == T(h, prk, info, n + 1)
    ensures Output(h, prk, info, 1, n) == Ts(h, prk, info, n)
  {
    if n > 0 {
      BlocksAreRfc5869(h, prk, info, n - 1);
    }
  }

  /** The loop ends: the 8-bit counter can get past the last block. */
  predicate Terminates(offset: byte, length: nat) {
    Blocks(length) + offset <= 255
  }

  function Given(data: Option<Data>): Data {
    if data.Some? then data.value else []
  }

  /** One round's HMAC: over the previous block, the info and the counter, the first two only if present. */
  method NextBlock(h: Mac, prk: Data, previous: Option<Data>, info: Option<Data>, i: byte) returns (block: Data)
    ensures block == h(prk, Given(previous) + Given(info) + [i])
  {
    var text: Data := [];
    if previous.Some? {
      text := text + previous.value;
    }
    if info.Some? {
      text := text + info.value;
    }
    text := text + [i];
    assert text == Given(previous) + Given(info) + [i];
    block := h(prk, text);
  }

  lemma PrefixOneMore(out: Data, whole: Data, block: Data, size: nat)
    requires out == whole && size <= |block|
    ensures out + block[..size] <= whole + block
  {
  }

  /** `hkdf_expand`: the first `length` bytes of the block sequence; `info` may be missing. */
  method Expand(h: Mac, offset: byte, prk: Data, info: Option<Data>, length: nat) returns (out: Data)
    requires IsMac(h) && Terminates(offset, length)
    ensures |out| == length
    ensures out <= Output(h, prk, Given(info), offset, Blocks(length))
  {
    var iterations := Blocks(length);
    var remaining: nat := length;
    var step: Option<Data> := None;
    ghost var n := 0;
    out := [];
    var i := offset;
    while i < iterations + offset
      invariant i == offset + n && n <= iterations
      invariant Given(step) == if n == 0 then [] else Block(h, prk, Given(info), offset, n - 1)
      invariant |out| + remaining == length && (n == iterations ==> remaining == 0)
      invariant if n < iterations then |out| == 32 * n && out == Output(h, prk, Given(info), offset, n)
                else out <= Output(h, prk, Given(info), offset, n)
      decreases iterations - n
    {
      var block := NextBlock(h, prk, step, info, i);
      assert block == Block(h, prk, Given(info), offset, n);
      step := Some(block);
      var stepSize := if remaining < |block| then remaining else |block|;
      PrefixOneMore(out, Output(h, prk, Given(info), offset, n), block, stepSize);
      out := out + block[..stepSize];
      remaining := remaining - stepSize;
      n := n + 1;
      i := (i + 1) % 256;
    }
  }

  /** `hkdf_create` and `hkdf_derive_secrets`: for version 3 the HKDF of RFC 5869, with an HMAC keyed by the salt as
      the extraction step. */
  method DeriveSecrets(h: Mac, version: int, salt: Data, material: Data, info: Option<Data>, length: nat)
    returns (r: Result<Data>)
    requires IsMac(h) && (StartOffset(version).Ok? ==> Terminates(StartOffset(version).value, length))
    ensures r.Ok? <==> version == 2 || version == 3
    ensures r.Err? ==> r == Err(Invalid)
    ensures r.Ok? ==> |r.value| == length
    ensures version == 2 ==> r.value <= Output(h, h(salt, material), Given(info), 0, Blocks(length))
    ensures version == 3 ==> r.value <= Ts(h, h(salt, material), Given(info), Blocks(length))
  {
    var offset := StartOffset(version);
    if offset.Err? {
      return Err(offset.error);
    }
    var out := Expand(h, offset.value, h(salt, material), info, length);
    BlocksAreRfc5869(h, h(salt, material), Given(info), Blocks(length));
    return Ok(out);
  }

  /** The counter after some rounds of the loop. */
  function CounterAfter(offset: byte, rounds: nat): byte {
    CounterByte(offset + rounds)
  }

  /** The loop condition fails after some number of rounds exactly when the blocks and the first counter together
      stay within 255; otherwise the counter wraps and the loop never ends. */
  lemma EndsExactlyWithinAByte(offset: byte, length: nat)
    ensures (exists rounds :: CounterAfter(offset, rounds) >= Blocks(length) + offset) <==> Terminates(offset, length)
  {
    if Terminates(offset, length) {
      assert CounterAfter(offset, Blocks(length)) >= Blocks(length) + offset;
    }
  }

  lemma {:induction false} OutputGrows(h: Mac, prk: Data, info: Data, offset: byte, n: nat, m: nat)
    requires n <= m
    ensures Output(h, prk, info, offset, n) <= Output(h, prk, info, offset, m)
    decreases m
  {
    if n < m {
      OutputGrows(h, prk, info, offset, n, m - 1);
    }
  }

  /** Asking for fewer bytes gives a prefix of what asking for more gives. */
  lemma ShorterIsPrefix(h: Mac, prk: Data, info: Data, offset: byte, shorter: nat, longer: nat)
    requires IsMac(h) && shorter <= longer
    ensures |Output(h, prk, info, offset, Blocks(longer))| >= longer
            && |Output(h, prk, info, offset, Blocks(shorter))| >= shorter
    ensures Output(h, prk, info, offset, Blocks(shorter))[..shorter]
            <= Output(h, prk, info, offset, Blocks(longer))[..longer]
  {
    OutputLength(h, prk, info, offset, Blocks(shorter));
    OutputLength(h, prk, info, offset, Blocks(longer));
    OutputGrows(h, prk, info, offset, Blocks(shorter), Blocks(longer));
  }
}
