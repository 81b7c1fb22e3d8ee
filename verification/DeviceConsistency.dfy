/**
 Device consistency codes (device_consistency.c): a commitment to a list of identity keys
 and a six-digit code over the devices' VRF outputs, both over sorted lists.
 */
module DeviceConsistency {
  import opened Common
  import opened Bytes
  import opened Fingerprints

  const CODE_VERSION: nat := 0

  /** The ASCII bytes of "DeviceConsistencyCommitment_V0". */
  const COMMITMENT_VERSION: Data :=
    [68, 101, 118, 105, 99, 101, 67, 111, 110, 115, 105, 115, 116, 101, 110, 99, 121,
     67, 111, 109, 109, 105, 116, 109, 101, 110, 116, 95, 86, 48]

  datatype Signature = Signature(signature: Data, vrfOutput: Data)

  function BigEndian(n: uint32): Data {
    [n / 0x1000000 % 256, n / 0x10000 % 256, n / 0x100 % 256, n % 256]
  }

  /** The four bytes are those of the number, the highest first. */
  lemma BigEndianSpellsTheNumber(n: uint32)
    ensures var b := BigEndian(n);
            n == 0x1000000 * (b[0] as int) + 0x10000 * (b[1] as int) + 0x100 * (b[2] as int) + b[3]
  {
    assert n / 0x100 / 0x100 == n / 0x10000 && n / 0x10000 / 0x100 == n / 0x1000000;
  }

  function CommitmentOf(sha: Digest, generation: uint32, sorted: seq<Data>): Data {
    sha(COMMITMENT_VERSION + BigEndian(generation) + KeyBytes(sorted))
  }

  /** `device_consistency_commitment_create`: what is fed to the digest piece by piece is hashed at the end. */
  method CreateCommitment(sha: Digest, generation: uint32, keys: seq<Data>, sorted: seq<Data>)
    returns (commitment: Data)
    requires SortOf(sorted, keys)
    ensures commitment == CommitmentOf(sha, generation, sorted)
  {
    var fed: Data := COMMITMENT_VERSION;
    fed := fed + BigEndian(generation);
    ghost var head := fed;
    var i := 0;
    while i < |sorted|
      invariant 0 <= i <= |sorted|
      invariant fed == head + KeyBytes(sorted[..i])
    {
      assert sorted[..i + 1][..i] == sorted[..i];
      fed := fed + Serialized(sorted[i]);
      i := i + 1;
    }
    assert sorted[..i] == sorted;
    commitment := sha(fed);
  }

  /** The commitment depends only on the keys, not on the order of the list or on the sort. */
  lemma CommitmentIgnoresOrder(sha: Digest, generation: uint32, xs: seq<Data>, ys: seq<Data>, sortedXs: seq<Data>,
                               sortedYs: seq<Data>)
    requires multiset(xs) == multiset(ys) && SortOf(sortedXs, xs) && SortOf(sortedYs, ys)
    ensures CommitmentOf(sha, generation, sortedXs) == CommitmentOf(sha, generation, sortedYs)
  {
    KeyBytesIgnoreOrder(xs, ys, sortedXs, sortedYs);
  }

  /** The version is the ASCII text it looks like. */
  lemma VersionIsAscii()
    ensures var text := "DeviceConsistencyCommitment_V0";
            |COMMITMENT_VERSION| == |text| && forall i :: 0 <= i < |text| ==> COMMITMENT_VERSION[i] == text[i] as int
  {
  }

  /** A commitment stands for its generation and keys: if the digest tells apart the version, the generation and the
      typed keys of both, equal commitments mean equal generations and the same keys equally often. */
  lemma CommitmentDeterminesKeys(sha: Digest, generation: uint32, generation': uint32, xs: seq<Data>, ys: seq<Data>,
                                 sortedXs: seq<Data>, sortedYs: seq<Data>, length: nat)
    requires SortOf(sortedXs, xs) && SortOf(sortedYs, ys)
    requires AllOfLength(sortedXs, length) && AllOfLength(sortedYs, length)
    requires TellsApart(sha, COMMITMENT_VERSION + BigEndian(generation) + KeyBytes(sortedXs),
                        COMMITMENT_VERSION + BigEndian(generation') + KeyBytes(sortedYs))
    ensures CommitmentOf(sha, generation, sortedXs) == CommitmentOf(sha, generation', sortedYs) <==>
              generation == generation' && multiset(xs) == multiset(ys)
  {
    hide SortOf, AllOfLength, BigEndian, KeyBytes;
    KeyBytesDetermineKeys(xs, ys, sortedXs, sortedYs, length);
    BigEndianDetermines(generation, generation');
    InPieces(COMMITMENT_VERSION, BigEndian(generation), KeyBytes(sortedXs), BigEndian(generation'), KeyBytes(sortedYs));
  }

  lemma BigEndianDetermines(m: uint32, n: uint32)
    ensures |BigEndian(m)| == |BigEndian(n)| && (BigEndian(m) == BigEndian(n) <==> m == n)
  {
    BigEndianSpellsTheNumber(m);
    BigEndianSpellsTheNumber(n);
  }

  lemma InPieces(head: Data, a: Data, b: Data, a': Data, b': Data)
    requires |a| == |a'|
    ensures head + a + b == head + a' + b' <==> a == a' && b == b'
  {
    var (x, y, n) := (head + a + b, head + a' + b', |head| + |a|);
    assert x[|head|..n] == a && y[|head|..n] == a' && x[n..] == b && y[n..] == b';
  }

  function VrfOutputs(s: seq<Signature>): (r: seq<Data>)
    ensures |r| == |s|
    ensures forall i :: 0 <= i < |s| ==> r[i] == s[i].vrfOutput
  {
    seq(|s|, i requires 0 <= i < |s| => s[i].vrfOutput)
  }

  /** What a sort of signatures by their VRF outputs may return: signatures with equal outputs in any order. */
  predicate SignatureSortOf(sorted: seq<Signature>, list: seq<Signature>) {
    multiset(sorted) == multiset(list) && Sorted(VrfOutputs(sorted))
  }

  function CodeOf(sha: Digest, commitment: Data, outputs: seq<Data>): Result<string> {
    var hash := sha([0, 0] + commitment + Concat(outputs));
    if |hash| < 10 then Err(Unknown) else Ok(ChunkDigits(hash, 2)[..6])
  }

  /** `device_consistency_code_generate_for`. */
  method GenerateCode(sha: Digest, commitment: Data, signatures: seq<Signature>, sorted: seq<Signature>)
    returns (r: Result<string>)
    requires SignatureSortOf(sorted, signatures)
    ensures r == CodeOf(sha, commitment, VrfOutputs(sorted))
  {
    var fed: Data := [CODE_VERSION / 256 % 256, CODE_VERSION % 256];
    fed := fed + commitment;
    ghost var head := fed;
    ghost var outputs := VrfOutputs(sorted);
    var i := 0;
    while i < |sorted|
      invariant 0 <= i <= |sorted|
      invariant fed == head + Concat(outputs[..i])
    {
      assert outputs[..i + 1][..i] == outputs[..i];
      fed := fed + sorted[i].vrfOutput;
      i := i + 1;
    }
    assert outputs[..i] == outputs;
    var hash := sha(fed);
    if |hash| < 10 {
      return Err(Unknown);
    }
    var encoded := EncodeChunks(hash, 10, 2);
    return Ok(encoded[..6]);
  }

  lemma WithoutOne(s: seq<Signature>, i: nat)
    requires i < |s|
    ensures multiset(RemoveAt(s, i)) == multiset(s) - multiset{s[i]}
    ensures multiset(VrfOutputs(s)) == multiset(VrfOutputs(RemoveAt(s, i))) + multiset{s[i].vrfOutput}
  {
    assert s == s[..i] + [s[i]] + s[i + 1..];
    var outputs := VrfOutputs(s);
    assert outputs == outputs[..i] + [outputs[i]] + outputs[i + 1..];
    assert VrfOutputs(RemoveAt(s, i)) == outputs[..i] + outputs[i + 1..];
  }

  lemma {:induction false} OutputsAsMultiset(s: seq<Signature>, t: seq<Signature>)
    requires multiset(s) == multiset(t)
    ensures multiset(VrfOutputs(s)) == multiset(VrfOutputs(t))
    decreases |s|
  {
    hide VrfOutputs, RemoveAt;
    assert |multiset(s)| == |s| && |multiset(t)| == |t|;
    if s == [] {
      assert s == t;
    } else {
      assert s[0] in multiset(t);
      var i :| 0 <= i < |t| && t[i] == s[0];
      WithoutOne(s, 0);
      WithoutOne(t, i);
      OutputsAsMultiset(RemoveAt(s, 0), RemoveAt(t, i));
    }
  }

  /** The code depends only on the VRF outputs and how often each occurs, not on the order of the list, on the sort,
      or on how signatures with equal outputs are placed; and it is six digits. */
  lemma CodeIgnoresOrder(sha: Digest, commitment: Data, xs: seq<Signature>, ys: seq<Signature>,
                         sortedXs: seq<Signature>, sortedYs: seq<Signature>)
    requires multiset(VrfOutputs(xs)) == multiset(VrfOutputs(ys))
    requires SignatureSortOf(sortedXs, xs) && SignatureSortOf(sortedYs, ys)
    ensures CodeOf(sha, commitment, VrfOutputs(sortedXs)) == CodeOf(sha, commitment, VrfOutputs(sortedYs))
    ensures IsDigest(sha) ==>
              var code := CodeOf(sha, commitment, VrfOutputs(sortedXs));
              code.Ok? && |code.value| == 6 && AllDigits(code.value)
  {
    hide ChunkDigits, Sorted, VrfOutputs;
    OutputsAsMultiset(sortedXs, xs);
    OutputsAsMultiset(sortedYs, ys);
    SortedIsCanonical(VrfOutputs(sortedXs), VrfOutputs(sortedYs));
  }

  /** The last five digits of the number of the first five bytes, and the first of the last five of the next. */
  function SixDigits(hash: Data): string
    requires |hash| >= 10
  {
    FiveDigits(Number(hash[..5]) % 100000) + FiveDigits(Number(hash[5..10]) % 100000)[..1]
  }

  /** The code is six digits of the digest of version, commitment and outputs. */
  lemma CodeDigits(sha: Digest, commitment: Data, outputs: seq<Data>)
    requires IsDigest(sha)
    ensures CodeOf(sha, commitment, outputs) == Ok(SixDigits(sha([0, 0] + commitment + Concat(outputs))))
  {
    var hash := sha([0, 0] + commitment + Concat(outputs));
    var (digits, second) := (ChunkDigits(hash, 2), FiveDigits(Number(hash[5..10]) % 100000));
    DigitsOfChunk(hash, 2, 0);
    DigitsOfChunk(hash, 2, 1);
    assert digits[5..6] == digits[5..10][..1];
    assert digits[..6] == digits[0..5] + digits[5..6];
  }

  /** A code stands for the commitment and the VRF outputs: if the six digits tell apart what is hashed for both, equal
      codes mean equal commitments and the same outputs equally often. */
  lemma CodeDeterminesOutputs(sha: Digest, commitment: Data, commitment': Data, xs: seq<Signature>, ys: seq<Signature>,
                              sortedXs: seq<Signature>, sortedYs: seq<Signature>, length: nat)
    requires SignatureSortOf(sortedXs, xs) && SignatureSortOf(sortedYs, ys) && IsDigest(sha)
    requires |commitment| == |commitment'| && length > 0
    requires AllOfLength(VrfOutputs(sortedXs), length) && AllOfLength(VrfOutputs(sortedYs), length)
    requires var (x, y) := ([0, 0] + commitment + Concat(VrfOutputs(sortedXs)),
                            [0, 0] + commitment' + Concat(VrfOutputs(sortedYs)));
             SixDigits(sha(x)) == SixDigits(sha(y)) ==> x == y
    ensures CodeOf(sha, commitment, VrfOutputs(sortedXs)) == CodeOf(sha, commitment', VrfOutputs(sortedYs)) <==>
              commitment == commitment' && multiset(VrfOutputs(xs)) == multiset(VrfOutputs(ys))
  {
    hide ChunkDigits, Sorted, VrfOutputs, Concat, CodeOf, SixDigits;
    var (s, t) := (VrfOutputs(sortedXs), VrfOutputs(sortedYs));
    CodeDigits(sha, commitment, s);
    CodeDigits(sha, commitment', t);
    OutputsAsMultiset(sortedXs, xs);
    OutputsAsMultiset(sortedYs, ys);
    InPieces([0, 0], commitment, Concat(s), commitment', Concat(t));
    if Concat(s) == Concat(t) {
      ConcatDeterminesElements(s, t, length);
    }
    if multiset(VrfOutputs(xs)) == multiset(VrfOutputs(ys)) {
      SortedIsCanonical(s, t);
    }
  }
}
