/**
 * The nonce search of `calculate_hash`: try every candidate from 0 to
 * 100 * difficulty in ascending order and return the first whose SHA-1 hex
 * digest of seed + decimal(candidate) equals the pool's target digest.
 *
 * SHA-1 itself is a parameter `sha1` (the hex digest of a whole message);
 * nothing here depends on how it is computed.
 */
module Solver {
  import opened Wrappers
  import opened Decimal

  /**
   * A `hashlib.sha1` object, seen as the message it has absorbed so far.
   * Seeing it this way is the one assumption the model makes about SHA-1:
   * hashing the seed, copying the object and feeding it more text gives the
   * digest of the concatenation.
   */
  datatype Sha1Object = Sha1Object(absorbed: string)

  /** `hashlib.sha1(data)`. */
  function NewSha1(data: string): Sha1Object {
    Sha1Object(data)
  }

  /** `h.copy()`: a separate object in the same state. */
  function Copy(h: Sha1Object): Sha1Object {
    Sha1Object(h.absorbed)
  }

  /** `h.update(data)`. */
  function Update(h: Sha1Object, data: string): Sha1Object {
    Sha1Object(h.absorbed + data)
  }

  /** `h.hexdigest()`. */
  function HexDigest(sha1: string -> string, h: Sha1Object): string {
    sha1(h.absorbed)
  }

  /** Hashing the seed once and updating a copy digests the concatenated message. */
  lemma CopyUpdateDigest(sha1: string -> string, seed: string, suffix: string)
    ensures HexDigest(sha1, Update(Copy(NewSha1(seed)), suffix)) == sha1(seed + suffix)
  {
  }

  /** Candidate i solves the job. */
  predicate IsNonce(sha1: string -> string, seed: string, target: string, i: nat) {
    sha1(seed + NatToDecimal(i)) == target
  }

  /** The first candidate in from .. last that solves the job. */
  function FirstNonceFrom(sha1: string -> string, seed: string, target: string, from: nat, last: int): Option<nat>
    decreases last - from
  {
    if last < from then None
    else if IsNonce(sha1, seed, target, from) then Some(from)
    else FirstNonceFrom(sha1, seed, target, from + 1, last)
  }

  /** What `calculate_hash` returns, as a value: the first solving candidate in 0 .. 100 * difficulty. */
  function FirstNonce(sha1: string -> string, seed: string, target: string, difficulty: int): Option<nat> {
    FirstNonceFrom(sha1, seed, target, 0, 100 * difficulty)
  }

  /** A result of FirstNonceFrom is in range, solves the job, and no earlier candidate in range does. */
  lemma {:induction false} FirstNonceFromSpec(sha1: string -> string, seed: string, target: string, from: nat, last: int)
    ensures var r := FirstNonceFrom(sha1, seed, target, from, last);
      (r.Some? ==> from <= r.value <= last && IsNonce(sha1, seed, target, r.value)
                   && forall i: nat :: from <= i < r.value ==> !IsNonce(sha1, seed, target, i))
      && (r.None? <==> forall i: nat :: from <= i <= last ==> !IsNonce(sha1, seed, target, i))
    decreases last - from
  {
    if last >= from && !IsNonce(sha1, seed, target, from) {
      FirstNonceFromSpec(sha1, seed, target, from + 1, last);
    }
  }

  /**
   * FirstNonce returns a solving candidate in range with no smaller solving
   * candidate, and returns None exactly when no candidate in range solves
   * the job (with difficulty 0 only candidate 0 is tried).
   */
  lemma FirstNonceSpec(sha1: string -> string, seed: string, target: string, difficulty: int)
    ensures var r := FirstNonce(sha1, seed, target, difficulty);
      (r.Some? ==> r.value <= 100 * difficulty && IsNonce(sha1, seed, target, r.value)
                   && forall i: nat :: i < r.value ==> !IsNonce(sha1, seed, target, i))
      && (r.None? <==> forall i: nat :: i <= 100 * difficulty ==> !IsNonce(sha1, seed, target, i))
  {
    FirstNonceFromSpec(sha1, seed, target, 0, 100 * difficulty);
  }

  /** If candidate k solves the job and is in range, the search returns k or a smaller solving candidate. */
  lemma FirstNonceAtMost(sha1: string -> string, seed: string, target: string, difficulty: int, k: nat)
    requires k <= 100 * difficulty && IsNonce(sha1, seed, target, k)
    ensures FirstNonce(sha1, seed, target, difficulty).Some?
    ensures FirstNonce(sha1, seed, target, difficulty).value <= k
  {
    FirstNonceSpec(sha1, seed, target, difficulty);
  }

  /**
   * `calculate_hash(job, difficulty)` without the timestamp: the loop over
   * `range(100 * difficulty + 1)` with the early return.
   */
  method CalculateHash(sha1: string -> string, seed: string, target: string, difficulty: int)
    returns (r: Option<nat>)
    ensures r == FirstNonce(sha1, seed, target, difficulty)
    ensures r.Some? ==> r.value <= 100 * difficulty && IsNonce(sha1, seed, target, r.value)
    ensures r.Some? ==> forall i: nat :: i < r.value ==> !IsNonce(sha1, seed, target, i)
    ensures r.None? <==> forall i: nat :: i <= 100 * difficulty ==> !IsNonce(sha1, seed, target, i)
  {
    var baseHash := NewSha1(seed);
    var bound := 100 * difficulty + 1;
    var result: nat := 0;
    while result < bound
      invariant result <= bound || result == 0
      invariant forall i: nat :: i < result ==> !IsNonce(sha1, seed, target, i)
      invariant FirstNonce(sha1, seed, target, difficulty) == FirstNonceFrom(sha1, seed, target, result, bound - 1)
    {
      var tempHash := Copy(baseHash);
      tempHash := Update(tempHash, NatToDecimal(result));
      var digest := HexDigest(sha1, tempHash);
      CopyUpdateDigest(sha1, seed, NatToDecimal(result));
      if target == digest {
        return Some(result);
      }
      result := result + 1;
    }
    return None;
  }

  /**
   * A target digest planted at an in-range candidate k is found at k, as long
   * as no earlier candidate's message collides with k's.
   */
  method SolvePlanted(sha1: string -> string, seed: string, difficulty: int, k: nat)
    returns (r: Option<nat>)
    requires k <= 100 * difficulty
    requires forall i: nat :: i < k ==> sha1(seed + NatToDecimal(i)) != sha1(seed + NatToDecimal(k))
    ensures r == Some(k)
  {
    r := CalculateHash(sha1, seed, sha1(seed + NatToDecimal(k)), difficulty);
    FirstNonceAtMost(sha1, seed, sha1(seed + NatToDecimal(k)), difficulty, k);
  }
}
