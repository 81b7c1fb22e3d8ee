/**
 Result codes, 32-bit counters and small sequence helpers shared by the model.
 */
module Common {

  /** The error codes a modelled call can return. */
  datatype Error =
    | Unknown
    | Invalid
    | InvalidKey
    | InvalidKeyId
    | InvalidMessage
    | InvalidProtoBuf
    | DuplicateMessage
    | NoSession
    | UntrustedIdentity
    | CallbackFailed
    | StoreFailed

  datatype Result<+T> = Ok(value: T) | Err(error: Error)

  datatype Option<+T> = None | Some(value: T)

  const TWO32: nat := 0x1_0000_0000

  /** C's `uint32_t`. */
  type uint32 = n: nat | n < 0x1_0000_0000

  /** `n + 1` on a `uint32_t`. */
  function Increment(n: uint32): (r: uint32)
    ensures n < TWO32 - 1 ==> r == n + 1
    ensures n == TWO32 - 1 ==> r == 0
  {
    (n + 1) % TWO32
  }

  /** The last `limit` elements: what repeated removal of the head leaves. */
  function LastN<T>(s: seq<T>, limit: nat): (r: seq<T>)
    ensures |r| == if |s| <= limit then |s| else limit
    ensures forall i {:trigger r[i]} :: 0 <= i < |r| ==> r[i] == s[|s| - |r| + i]
  {
    if |s| <= limit then s else s[|s| - limit..]
  }

  /** Trimming after every addition or once at the end keeps the same elements. */
  lemma TrimOneMore<T>(s: seq<T>, x: T, limit: nat)
    requires limit > 0
    ensures LastN(LastN(s, limit) + [x], limit) == LastN(s + [x], limit)
  {
  }

  /** `s` without its element at `i`. */
  function RemoveAt<T>(s: seq<T>, i: nat): (r: seq<T>)
    requires i < |s|
    ensures |r| == |s| - 1
    ensures forall j :: 0 <= j < i ==> r[j] == s[j]
    ensures forall j :: i <= j < |r| ==> r[j] == s[j + 1]
  {
    s[..i] + s[i + 1..]
  }
}
