/**
 Fingerprints (fingerprint.c): the digits two people compare and the codes they scan. SHA-512
 is a parameter of which only the output length is known, the sort of a key list may be any.
 */
module Fingerprints {
  import opened Common
  import opened Bytes

  const FINGERPRINT_LENGTH: nat := 30
  const FINGERPRINT_VERSION: byte := 0
  const DJB_TYPE: byte := 5

  type Digest = Data -> Data

  ghost predicate IsDigest(sha: Digest) {
    forall d :: |sha(d)| == 64
  }

  // ---- Logical key bytes ----

  /** `ec_public_key_serialize`. */
  function Serialized(key: Data): Data {
    [DJB_TYPE] + key
  }

  /** The serialised keys one after the other. */
  function KeyBytes(keys: seq<Data>): Data {
    if keys == [] then [] else KeyBytes(keys[..|keys| - 1]) + Serialized(keys[|keys| - 1])
  }

  /** `fingerprint_generator_get_logical_key_bytes`, given what the library's sort made of the list. */
  method LogicalKeyBytes(keys: seq<Data>, sorted: seq<Data>) returns (bytes: Data)
    requires SortOf(sorted, keys)
    ensures bytes == KeyBytes(sorted)
  {
    bytes := [];
    var i := 0;
    while i < |sorted|
      invariant 0 <= i <= |sorted|
      invariant bytes == KeyBytes(sorted[..i])
    {
      assert sorted[..i + 1][..i] == sorted[..i];
      bytes := bytes + Serialized(sorted[i]);
      i := i + 1;
    }
    assert sorted[..i] == sorted;
  }

  /** Key bytes depend only on which keys a list holds and how often, not on their order or on the sort. */
  lemma KeyBytesIgnoreOrder(xs: seq<Data>, ys: seq<Data>, sortedXs: seq<Data>, sortedYs: seq<Data>)
    requires multiset(xs) == multiset(ys) && SortOf(sortedXs, xs) && SortOf(sortedYs, ys)
    ensures KeyBytes(sortedXs) == KeyBytes(sortedYs)
  {
    SortsAgree(sortedXs, sortedYs, xs, ys);
  }

  /** Keys with their type byte in front. */
  function Typed(keys: seq<Data>): (r: seq<Data>)
    ensures |r| == |keys| && forall i :: 0 <= i < |r| ==> r[i] == [5] + keys[i]
  {
    seq(|keys|, i requires 0 <= i < |keys| => [5] + keys[i])
  }

  /** Each key in order, with its type byte 5 in front. */
  lemma {:induction false} KeyBytesAreTyped(keys: seq<Data>)
    ensures KeyBytes(keys) == Concat(Typed(keys))
  {
    if keys != [] {
      var before := keys[..|keys| - 1];
      KeyBytesAreTyped(before);
      assert Typed(keys)[..|keys| - 1] == Typed(before);
    }
  }

  lemma TypedDetermines(xs: seq<Data>, ys: seq<Data>, length: nat)
    requires AllOfLength(xs, length) && AllOfLength(ys, length) && Concat(Typed(xs)) == Concat(Typed(ys))
    ensures xs == ys
  {
    hide Typed, Concat;
    assert AllOfLength(Typed(xs), length + 1) && AllOfLength(Typed(ys), length + 1);
    ConcatDeterminesElements(Typed(xs), Typed(ys), length + 1);
    forall i | 0 <= i < |xs|
      ensures xs[i] == ys[i]
    {
      assert xs[i] == Typed(xs)[i][1..] && ys[i] == Typed(ys)[i][1..];
    }
  }

  /** Key bytes of keys of one length determine the keys; over sorted lists, which keys there are and how often. */
  lemma KeyBytesDetermineKeys(xs: seq<Data>, ys: seq<Data>, sortedXs: seq<Data>, sortedYs: seq<Data>, length: nat)
    requires SortOf(sortedXs, xs) && SortOf(sortedYs, ys)
    requires AllOfLength(sortedXs, length) && AllOfLength(sortedYs, length)
    ensures KeyBytes(sortedXs) == KeyBytes(sortedYs) <==> multiset(xs) == multiset(ys)
  {
    hide KeyBytes, Sorted, AllOfLength;
    KeyBytesAreTyped(sortedXs);
    KeyBytesAreTyped(sortedYs);
    if KeyBytes(sortedXs) == KeyBytes(sortedYs) {
      TypedDetermines(sortedXs, sortedYs, length);
    } else if multiset(xs) == multiset(ys) {
      KeyBytesIgnoreOrder(xs, ys, sortedXs, sortedYs);
    }
  }

  // ---- The hash ----

  /** `n` rounds of hashing the previous value followed by the identity. */
  function Rounds(sha: Digest, start: Data, identity: Data, n: nat): Data {
    if n == 0 then start else sha(Rounds(sha, start, identity, n - 1) + identity)
  }

  function HashOf(sha: Digest, iterations: int, id: Data, identity: Data): Result<Data> {
    var rounds := if iterations > 0 then iterations else 0;
    var hash := Rounds(sha, [0, FINGERPRINT_VERSION] + identity + id, identity, rounds);
    if |hash| < FINGERPRINT_LENGTH then Err(Unknown) else Ok(hash)
  }

  /** `fingerprint_generator_get_fingerprint`. */
  method GetFingerprint(sha: Digest, iterations: int, id: Data, identity: Data) returns (r: Result<Data>)
    ensures r == HashOf(sha, iterations, id, identity)
  {
    var hash: Data := [0, FINGERPRINT_VERSION] + identity + id;
    var i := 0;
    while i < iterations
      invariant 0 <= i && (iterations > 0 ==> i <= iterations) && (iterations <= 0 ==> i == 0)
      invariant hash == Rounds(sha, [0, FINGERPRINT_VERSION] + identity + id, identity, i)
    {
      hash := sha(hash + identity);
      i := i + 1;
    }
    if |hash| < FINGERPRINT_LENGTH {
      return Err(Unknown);
    }
    return Ok(hash);
  }

  /** What round `n` feeds to the digest: in the first the version, the key bytes, the identifier and the key bytes
      again; later the previous digest and the key bytes. */
  function RoundInput(sha: Digest, id: Data, identity: Data, n: nat): Data
    requires n >= 1
  {
    if n == 1 then [0, 0] + identity + id + identity else sha(RoundInput(sha, id, identity, n - 1)) + identity
  }

  lemma {:induction false} RoundsFeed(sha: Digest, id: Data, identity: Data, n: nat)
    requires n >= 1
    ensures Rounds(sha, [0, FINGERPRINT_VERSION] + identity + id, identity, n) == sha(RoundInput(sha, id, identity, n))
  {
    if n > 1 {
      RoundsFeed(sha, id, identity, n - 1);
    }
  }

  /** The hash is the digest of the last round; without rounds nothing is hashed. */
  lemma HashIsLastDigest(sha: Digest, iterations: int, id: Data, identity: Data)
    ensures var hash := if iterations >= 1 then sha(RoundInput(sha, id, identity, iterations))
                        else [0, 0] + identity + id;
            HashOf(sha, iterations, id, identity) == if |hash| < 30 then Err(Unknown) else Ok(hash)
  {
    if iterations >= 1 {
      RoundsFeed(sha, id, identity, iterations);
    }
  }

  /** The digest tells these two inputs apart. */
  predicate TellsApart(sha: Digest, x: Data, y: Data) {
    sha(x) == sha(y) ==> x == y
  }

  /** The digest tells apart what it is fed for two parties in the rounds before the `n`-th. */
  predicate RoundsApart(sha: Digest, id: Data, key: Data, id': Data, key': Data, n: nat) {
    forall i :: 1 <= i < n ==> TellsApart(sha, RoundInput(sha, id, key, i), RoundInput(sha, id', key', i))
  }

  lemma FirstInputDetermines(id: Data, key: Data, id': Data, key': Data)
    requires [0, 0] + key + id + key == [0, 0] + key' + id' + key' && |key| == |key'|
    ensures key == key' && id == id'
  {
    var (x, y) := ([0, 0] + key + id + key, [0, 0] + key' + id' + key');
    assert x[2..2 + |key|] == key && y[2..2 + |key'|] == key';
    assert x[2 + |key|..|x| - |key|] == id && y[2 + |key'|..|y| - |key'|] == id';
  }

  /** What is fed in some round determines key bytes and identifier. */
  lemma {:induction false} InputDeterminesParty(sha: Digest, id: Data, key: Data, id': Data, key': Data, n: nat)
    requires IsDigest(sha) && n >= 1 && RoundsApart(sha, id, key, id', key', n) && (n > 1 || |key| == |key'|)
    requires RoundInput(sha, id, key, n) == RoundInput(sha, id', key', n)
    ensures key == key' && id == id'
  {
    if n == 1 {
      FirstInputDetermines(id, key, id', key');
    } else {
      var (x, y) := (RoundInput(sha, id, key, n - 1), RoundInput(sha, id', key', n - 1));
      assert (sha(x) + key)[..64] == sha(x) && (sha(y) + key')[..64] == sha(y);
      assert (sha(x) + key)[64..] == key && (sha(y) + key')[64..] == key';
      assert TellsApart(sha, x, y);
      InputDeterminesParty(sha, id, key, id', key', n - 1);
    }
  }

  /** A fingerprint stands for one person's keys: as far as the digest tells apart what it is fed, equal hashes mean
      equal key bytes and equal identifiers. */
  lemma HashDeterminesParty(sha: Digest, iterations: int, id: Data, key: Data, id': Data, key': Data)
    requires IsDigest(sha) && iterations >= 1 && (iterations > 1 || |key| == |key'|)
    requires RoundsApart(sha, id, key, id', key', iterations + 1)
    ensures HashOf(sha, iterations, id, key) == HashOf(sha, iterations, id', key') <==> key == key' && id == id'
  {
    HashIsLastDigest(sha, iterations, id, key);
    HashIsLastDigest(sha, iterations, id', key');
    if HashOf(sha, iterations, id, key) == HashOf(sha, iterations, id', key') {
      hide HashOf;
      assert TellsApart(sha, RoundInput(sha, id, key, iterations), RoundInput(sha, id', key', iterations));
      InputDeterminesParty(sha, id, key, id', key', iterations);
    }
  }

  // ---- The digits ----

  predicate AllDigits(s: string) {
    forall i :: 0 <= i < |s| ==> '0' <= s[i] <= '9'
  }

  function Digit(n: nat): (c: char)
    requires n < 10
    ensures '0' <= c <= '9' && c as int == '0' as int + n
  {
    (48 + n) as char
  }

  /** The format "%05d" of a number below 100000. */
  function FiveDigits(n: nat): (s: string)
    requires n < 100000
    ensures |s| == 5 && AllDigits(s)
  {
    [Digit(n / 10000), Digit(n / 1000 % 10), Digit(n / 100 % 10), Digit(n / 10 % 10), Digit(n % 10)]
  }

  /** The digits are those of the number. */
  lemma FiveDigitsSpellTheNumber(n: nat)
    requires n < 100000
    ensures var s := FiveDigits(n);
            n == 10000 * (s[0] as int - 48) + 1000 * (s[1] as int - 48) + 100 * (s[2] as int - 48)
                 + 10 * (s[3] as int - 48) + s[4] as int - 48
  {
    assert n / 10 / 10 == n / 100 && n / 100 / 10 == n / 1000 && n / 1000 / 10 == n / 10000;
  }

  function Chunk(b: Data): nat
    requires |b| == 5
  {
    0x1_0000_0000 * (b[0] as int) + 0x100_0000 * (b[1] as int) + 0x1_0000 * (b[2] as int) + 0x100 * (b[3] as int) + b[4]
  }

  /** The digits of the first `n` five-byte chunks. */
  function ChunkDigits(data: Data, n: nat): (s: string)
    requires 5 * n <= |data|
    ensures |s| == 5 * n && AllDigits(s)
  {
    if n == 0 then [] else ChunkDigits(data, n - 1) + FiveDigits(Chunk(data[5 * n - 5..5 * n]) % 100000)
  }

  /** Five bytes are read as one number, the highest byte first. */
  lemma ChunkIsBigEndian(b: Data)
    requires |b| == 5
    ensures Chunk(b) == Number(b)
  {
    assert b[..4][..3] == b[..3] && b[..3][..2] == b[..2] && b[..2][..1] == b[..1] && b[..1][..0] == [];
    assert Number(b[..1]) == b[0] && Number(b[..2]) == 256 * Number(b[..1]) + b[1];
    assert Number(b[..3]) == 256 * Number(b[..2]) + b[2] && Number(b[..4]) == 256 * Number(b[..3]) + b[3];
  }

  /** Each five bytes give the last five decimal digits of their number, in order. */
  lemma {:induction false} DigitsOfChunk(data: Data, n: nat, i: nat)
    requires 5 * n <= |data| && i < n
    ensures ChunkDigits(data, n)[5 * i..5 * i + 5] == FiveDigits(Number(data[5 * i..5 * i + 5]) % 100000)
  {
    if i < n - 1 {
      DigitsOfChunk(data, n - 1, i);
      assert ChunkDigits(data, n)[5 * i..5 * i + 5] == ChunkDigits(data, n - 1)[5 * i..5 * i + 5];
    } else {
      ChunkIsBigEndian(data[5 * i..5 * i + 5]);
    }
  }

  lemma NoDigits(data: Data)
    ensures ChunkDigits(data, 0) == ""
  {
  }

  lemma OneMoreChunk(data: Data, n: nat)
    requires 5 * n + 5 <= |data|
    ensures ChunkDigits(data, n + 1) == ChunkDigits(data, n) + FiveDigits(Chunk(data[5 * n..5 * n + 5]) % 100000)
  {
    hide FiveDigits, Chunk;
  }

  /** The chunk loop of `fingerprint_generator_create_display_string` and of `device_consistency_code_generate_for`. */
  method EncodeChunks(data: Data, length: nat, ghost chunks: nat) returns (s: string)
    requires length == 5 * chunks <= |data|
    ensures s == ChunkDigits(data, chunks)
  {
    hide ChunkDigits, FiveDigits, Chunk;
    s := "";
    ghost var n := 0;
    NoDigits(data);
    var i := 0;
    while i < length
      invariant i == 5 * n <= length
      invariant s == ChunkDigits(data, n)
    {
      OneMoreChunk(data, n);
      s := s + FiveDigits(Chunk(data[i..i + 5]) % 100000);
      i, n := i + 5, n + 1;
    }
  }

  // ---- The displayable fingerprint ----

  /** The sign of `strcmp`. */
  function Strcmp(a: string, b: string): int {
    if a == "" then (if b == "" then 0 else -1)
    else if b == "" then 1
    else if a[0] < b[0] then -1
    else if a[0] > b[0] then 1
    else Strcmp(a[1..], b[1..])
  }

  lemma {:induction false} StrcmpIsTotal(a: string, b: string)
    ensures Strcmp(a, b) == -Strcmp(b, a)
    ensures Strcmp(a, b) == 0 <==> a == b
  {
    if a != "" && b != "" && a[0] == b[0] {
      StrcmpIsTotal(a[1..], b[1..]);
      assert a == [a[0]] + a[1..] && b == [b[0]] + b[1..];
    }
  }

  /** What `strcmp` decides: the first character in which they differ, or which one ends first. */
  lemma {:induction false} StrcmpDecides(a: string, b: string)
    ensures Strcmp(a, b) < 0 <==>
              || (a != b && a <= b)
              || exists i :: 0 <= i < |a| && i < |b| && a[..i] == b[..i] && a[i] < b[i]
  {
    if a != "" && b != "" {
      assert a == [a[0]] + a[1..] && b == [b[0]] + b[1..];
      if a[0] == b[0] {
        StrcmpDecides(a[1..], b[1..]);
        FirstDifferenceInTail(a, b);
      } else {
        assert a[..0] == b[..0];
      }
    }
  }

  lemma FirstDifferenceInTail(a: string, b: string)
    requires a != "" && b != "" && a[0] == b[0]
    ensures (exists i :: 0 <= i < |a| && i < |b| && a[..i] == b[..i] && a[i] < b[i]) <==>
              exists i :: 0 <= i < |a[1..]| && i < |b[1..]| && a[1..][..i] == b[1..][..i] && a[1..][i] < b[1..][i]
  {
    var (s, t) := (a[1..], b[1..]);
    if i :| 0 <= i < |a| && i < |b| && a[..i] == b[..i] && a[i] < b[i] {
      assert s[..i - 1] == a[..i][1..] && t[..i - 1] == b[..i][1..];
      assert s[i - 1] < t[i - 1];
    }
    if i :| 0 <= i < |s| && i < |t| && s[..i] == t[..i] && s[i] < t[i] {
      assert a[..i + 1] == [a[0]] + s[..i] && b[..i + 1] == [b[0]] + t[..i];
      assert a[i + 1] < b[i + 1];
    }
  }

  datatype Displayable = Displayable(local: string, remote: string, text: string)

  /** `displayable_fingerprint_create`: the smaller half comes first. */
  function Display(local: string, remote: string): Displayable {
    Displayable(local, remote, if Strcmp(local, remote) <= 0 then local + remote else remote + local)
  }

  // ---- The scannable fingerprint ----

  datatype Scannable = Scannable(version: nat, localId: Option<Data>, local: Data, remoteId: Option<Data>, remote: Data)

  function FirstBytes(d: Data, n: nat): Data {
    if |d| <= n then d else d[..n]
  }

  /** Version 0 carries identifiers and identity keys, version 1 the first 32 bytes of the hashes. */
  function Scan(version: nat, localId: Data, localKey: Data, localHash: Data, remoteId: Data, remoteKey: Data,
                remoteHash: Data): Scannable {
    if version == 0 then Scannable(0, Some(localId), localKey, Some(remoteId), remoteKey)
    else Scannable(version, None, FirstBytes(localHash, 32), None, FirstBytes(remoteHash, 32))
  }

  datatype Comparison = Matches | Differs | VersionMismatch | IdentMismatch

  /** `scannable_fingerprint_compare`. */
  function Compare(mine: Scannable, theirs: Scannable): Comparison {
    if theirs.version != mine.version then VersionMismatch
    else if mine.version == 0 && mine.localId != theirs.remoteId then IdentMismatch
    else if mine.version == 0 && mine.remoteId != theirs.localId then IdentMismatch
    else if mine.local != theirs.remote then Differs
    else if mine.remote != theirs.local then Differs
    else Matches
  }

  datatype Fingerprint = Fingerprint(displayable: Displayable, scannable: Scannable)

  /** `fingerprint_generator_create` and `fingerprint_generator_create_for`, on the key bytes of both sides. */
  function Generated(sha: Digest, iterations: int, version: int, localId: Data, local: Data, remoteId: Data,
                     remote: Data): Result<Fingerprint> {
    if version < 0 || version > 1 then Err(Invalid)
    else
      match HashOf(sha, iterations, localId, local)
      case Err(e) => Err(e)
      case Ok(localHash) =>
        match HashOf(sha, iterations, remoteId, remote)
        case Err(e) => Err(e)
        case Ok(remoteHash) =>
          Ok(Fingerprint(Display(ChunkDigits(localHash, 6), ChunkDigits(remoteHash, 6)),
                         Scan(version, localId, local, localHash, remoteId, remote, remoteHash)))
  }

  method Generate(sha: Digest, iterations: int, version: int, localId: Data, local: Data, remoteId: Data, remote: Data)
    returns (r: Result<Fingerprint>)
    ensures r == Generated(sha, iterations, version, localId, local, remoteId, remote)
  {
    if version < 0 || version > 1 {
      return Err(Invalid);
    }
    var localHash := GetFingerprint(sha, iterations, localId, local);
    if localHash.Err? {
      return Err(localHash.error);
    }
    var remoteHash := GetFingerprint(sha, iterations, remoteId, remote);
    if remoteHash.Err? {
      return Err(remoteHash.error);
    }
    var localDigits := EncodeChunks(localHash.value, FINGERPRINT_LENGTH, 6);
    var remoteDigits := EncodeChunks(remoteHash.value, FINGERPRINT_LENGTH, 6);
    return Ok(Fingerprint(Display(localDigits, remoteDigits),
                          Scan(version, localId, local, localHash.value, remoteId, remote, remoteHash.value)));
  }

  /** Both people succeed or fail together; they see the same sixty digits, the smaller half first, and each one's
      code matches the other's. */
  lemma BothSidesAgree(sha: Digest, iterations: int, version: int, idA: Data, keyA: Data, idB: Data, keyB: Data)
    ensures var (a, b) := (Generated(sha, iterations, version, idA, keyA, idB, keyB),
                           Generated(sha, iterations, version, idB, keyB, idA, keyA));
            match a
            case Err(e) => b == Err(e)
            case Ok(x) =>
              && b.Ok?
              && x.displayable.text == b.value.displayable.text && |x.displayable.text| == 60
              && AllDigits(x.displayable.text)
              && Strcmp(x.displayable.text[..30], x.displayable.text[30..]) <= 0
              && Compare(x.scannable, b.value.scannable) == Matches
              && Compare(b.value.scannable, x.scannable) == Matches
  {
    hide ChunkDigits;
    var (a, b) := (HashOf(sha, iterations, idA, keyA), HashOf(sha, iterations, idB, keyB));
    if a.Ok? && b.Ok? {
      var (x, y) := (ChunkDigits(a.value, 6), ChunkDigits(b.value, 6));
      StrcmpIsTotal(x, y);
      assert (x + y)[..30] == x && (x + y)[30..] == y && (y + x)[..30] == y && (y + x)[30..] == x;
    }
  }

  /** When there is a fingerprint at all: for version 0 and 1, if both hashes have their thirty bytes. */
  lemma GeneratedExactly(sha: Digest, iterations: int, version: int, idA: Data, keyA: Data, idB: Data, keyB: Data)
    ensures var (r, known) := (Generated(sha, iterations, version, idA, keyA, idB, keyB), version == 0 || version == 1);
            && (r == Err(Invalid) <==> !known)
            && (r.Ok? <==> known && HashOf(sha, iterations, idA, keyA).Ok? && HashOf(sha, iterations, idB, keyB).Ok?)
            && (r.Err? && known ==> r == Err(Unknown))
            && (IsDigest(sha) && iterations >= 1 && known ==> r.Ok?)
  {
    HashIsLastDigest(sha, iterations, idA, keyA);
    HashIsLastDigest(sha, iterations, idB, keyB);
  }

  /** The same with a list of keys on each side, each side holding the lists in its own order. */
  lemma BothSidesAgreeOnLists(sha: Digest, iterations: int, version: int, idA: Data, keysA: seq<Data>,
                              keysA': seq<Data>, idB: Data, keysB: seq<Data>, keysB': seq<Data>,
                              sorts: (seq<Data>, seq<Data>, seq<Data>, seq<Data>))
    requires multiset(keysA) == multiset(keysA') && multiset(keysB) == multiset(keysB')
    requires SortOf(sorts.0, keysA) && SortOf(sorts.1, keysA') && SortOf(sorts.2, keysB) && SortOf(sorts.3, keysB')
    ensures var (a, b) := (Generated(sha, iterations, version, idA, KeyBytes(sorts.0), idB, KeyBytes(sorts.2)),
                           Generated(sha, iterations, version, idB, KeyBytes(sorts.3), idA, KeyBytes(sorts.1)));
            match a
            case Err(e) => b == Err(e)
            case Ok(x) =>
              && b.Ok? && x.displayable.text == b.value.displayable.text
              && Compare(x.scannable, b.value.scannable) == Matches
              && Compare(b.value.scannable, x.scannable) == Matches
  {
    hide Generated, KeyBytes, Compare;
    KeyBytesIgnoreOrder(keysA, keysA', sorts.0, sorts.1);
    KeyBytesIgnoreOrder(keysB, keysB', sorts.2, sorts.3);
    BothSidesAgree(sha, iterations, version, idA, KeyBytes(sorts.0), idB, KeyBytes(sorts.2));
  }

  /** Scanning is mutual: one side sees a match exactly when the other does, which is when each holds the other's
      value for both parties. Codes of different versions, and version-0 codes about other people, are told apart from
      codes that differ. */
  lemma MatchIsMutual(a: Scannable, b: Scannable)
    ensures Compare(a, b) == Matches <==> Compare(b, a) == Matches
    ensures Compare(a, b) == VersionMismatch <==> a.version != b.version
    ensures Compare(a, b) == IdentMismatch <==>
              a.version == b.version == 0 && (a.localId != b.remoteId || a.remoteId != b.localId)
    ensures Compare(a, b) == Matches <==>
              && a.version == b.version && a.local == b.remote && a.remote == b.local
              && (a.version == 0 ==> a.localId == b.remoteId && a.remoteId == b.localId)
  {
  }

  // ---- What a match means ----

  /** The first 32 bytes of the digest tell apart what is fed for two parties in the last round, and the whole digest
      what is fed before. */
  predicate CodesApart(sha: Digest, id: Data, key: Data, id': Data, key': Data, n: nat) {
    n >= 1 && RoundsApart(sha, id, key, id', key', n) &&
    var (x, y) := (RoundInput(sha, id, key, n), RoundInput(sha, id', key', n));
    FirstBytes(sha(x), 32) == FirstBytes(sha(y), 32) ==> x == y
  }

  lemma CodeDeterminesParty(sha: Digest, iterations: int, id: Data, key: Data, id': Data, key': Data)
    requires IsDigest(sha) && iterations >= 1 && (iterations > 1 || |key| == |key'|)
    requires CodesApart(sha, id, key, id', key', iterations)
    ensures HashOf(sha, iterations, id, key).Ok? && HashOf(sha, iterations, id', key').Ok?
    ensures var (hash, hash') := (HashOf(sha, iterations, id, key).value, HashOf(sha, iterations, id', key').value);
            FirstBytes(hash, 32) == FirstBytes(hash', 32) <==> key == key' && id == id'
  {
    HashIsLastDigest(sha, iterations, id, key);
    HashIsLastDigest(sha, iterations, id', key');
    hide HashOf;
    if RoundInput(sha, id, key, iterations) == RoundInput(sha, id', key', iterations) {
      InputDeterminesParty(sha, id, key, id', key', iterations);
    }
  }

  /** Scanning finds a swapped key: as far as the digest tells apart what it is fed, the code of one person matches that
      of the other exactly if both made it from the same identifiers and the same keys of both. */
  lemma MatchMeansSameKeys(sha: Digest, iterations: int, version: int, idA: Data, keyA: Data, idB: Data, keyB: Data,
                           idA': Data, keyA': Data, idB': Data, keyB': Data)
    requires IsDigest(sha) && iterations >= 1 && 0 <= version <= 1
    requires iterations > 1 || (|keyA| == |keyA'| && |keyB| == |keyB'|)
    requires CodesApart(sha, idA, keyA, idA', keyA', iterations) && CodesApart(sha, idB, keyB, idB', keyB', iterations)
    ensures var (a, b) := (Generated(sha, iterations, version, idA, keyA, idB, keyB),
                           Generated(sha, iterations, version, idB', keyB', idA', keyA'));
            && a.Ok? && b.Ok?
            && (Compare(a.value.scannable, b.value.scannable) == Matches <==>
                  keyA == keyA' && keyB == keyB' && idA == idA' && idB == idB')
  {
    hide HashOf, CodesApart, ChunkDigits, FirstBytes;
    CodeDeterminesParty(sha, iterations, idA, keyA, idA', keyA');
    CodeDeterminesParty(sha, iterations, idB, keyB, idB', keyB');
  }

  /** The sixty digits show both halves: two people read the same text exactly if the halves are the same, whichever
      of them each calls its own. */
  lemma TextShowsBothHalves(x: string, y: string, x': string, y': string)
    requires |x| == |y| == |x'| == |y'|
    ensures Display(x, y).text == Display(x', y').text <==> (x, y) == (x', y') || (x, y) == (y', x')
  {
    StrcmpIsTotal(x, y);
    StrcmpIsTotal(x', y');
    var n := |x|;
    assert (x + y)[..n] == x && (x + y)[n..] == y && (y + x)[..n] == y && (y + x)[n..] == x;
    assert (x' + y')[..n] == x' && (x' + y')[n..] == y' && (y' + x')[..n] == y' && (y' + x')[n..] == x';
  }

  /** The thirty digits of a party. */
  function HalfOf(sha: Digest, iterations: nat, id: Data, key: Data): string
    requires IsDigest(sha) && iterations >= 1
  {
    ChunkDigits(sha(RoundInput(sha, id, key, iterations)), 6)
  }

  /** The thirty digits tell apart what is fed for two parties in the last round, and the digest what is fed before. */
  predicate DigitsApart(sha: Digest, x: (Data, Data), y: (Data, Data), n: nat) {
    n >= 1 && RoundsApart(sha, x.0, x.1, y.0, y.1, n) && (n > 1 || |x.1| == |y.1|) &&
    var (hash, hash') := (sha(RoundInput(sha, x.0, x.1, n)), sha(RoundInput(sha, y.0, y.1, n)));
    |hash| >= 30 && |hash'| >= 30 && ChunkDigits(hash, 6) == ChunkDigits(hash', 6) ==>
      RoundInput(sha, x.0, x.1, n) == RoundInput(sha, y.0, y.1, n)
  }

  lemma HalfDeterminesParty(sha: Digest, iterations: nat, x: (Data, Data), y: (Data, Data))
    requires IsDigest(sha) && iterations >= 1 && DigitsApart(sha, x, y, iterations)
    ensures HalfOf(sha, iterations, x.0, x.1) == HalfOf(sha, iterations, y.0, y.1) <==> x == y
  {
    hide ChunkDigits;
    if RoundInput(sha, x.0, x.1, iterations) == RoundInput(sha, y.0, y.1, iterations) {
      InputDeterminesParty(sha, x.0, x.1, y.0, y.1, iterations);
    }
  }

  /** Reading the digits finds a swapped key: as far as the thirty digits tell parties apart, two people read the same
      text exactly if they made it from the same two identifiers with the same keys. */
  lemma SameTextMeansSameKeys(sha: Digest, iterations: nat, version: int, x: (Data, Data), y: (Data, Data),
                              x': (Data, Data), y': (Data, Data))
    requires IsDigest(sha) && iterations >= 1 && 0 <= version <= 1
    requires DigitsApart(sha, x, x', iterations) && DigitsApart(sha, y, y', iterations)
    requires DigitsApart(sha, x, y', iterations) && DigitsApart(sha, y, x', iterations)
    ensures var (a, b) := (Generated(sha, iterations, version, x.0, x.1, y.0, y.1),
                           Generated(sha, iterations, version, x'.0, x'.1, y'.0, y'.1));
            && a.Ok? && b.Ok?
            && (a.value.displayable.text == b.value.displayable.text <==> (x, y) == (x', y') || (x, y) == (y', x'))
  {
    hide ChunkDigits, DigitsApart, HashOf, Display, RoundInput;
    HashIsLastDigest(sha, iterations, x.0, x.1);
    HashIsLastDigest(sha, iterations, y.0, y.1);
    HashIsLastDigest(sha, iterations, x'.0, x'.1);
    HashIsLastDigest(sha, iterations, y'.0, y'.1);
    HalfDeterminesParty(sha, iterations, x, x');
    HalfDeterminesParty(sha, iterations, y, y');
    HalfDeterminesParty(sha, iterations, x, y');
    HalfDeterminesParty(sha, iterations, y, x');
    TextShowsBothHalves(HalfOf(sha, iterations, x.0, x.1), HalfOf(sha, iterations, y.0, y.1),
                        HalfOf(sha, iterations, x'.0, x'.1), HalfOf(sha, iterations, y'.0, y'.1));
  }
}
