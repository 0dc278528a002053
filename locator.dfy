/** `fetch_pool`: ask the pool locator for a node, a bounded number of times, then fall back to a fixed node. */
module Locator {
  import opened Wrappers

  const MaxRetries: nat := 5
  const DefaultNodeAddress: string := "server.duinocoin.com"
  const DefaultNodePort: int := 2813

  /** A pool node's address and port. */
  datatype Endpoint = Endpoint(ip: string, port: int)

  const DefaultNode: Endpoint := Endpoint(DefaultNodeAddress, DefaultNodePort)

  /**
   * attempt(k) is how the k-th request to the locator ends: Some(node) when
   * the response says success and names a node, None when it does not or
   * when the request or its decoding raises. Returns the node used and the
   * number of requests made.
   */
  method FetchPool(attempt: nat -> Option<Endpoint>) returns (node: Endpoint, attempts: nat)
    ensures 1 <= attempts <= MaxRetries
    ensures forall k: nat :: k < attempts - 1 ==> attempt(k).None?
    ensures attempt(attempts - 1).Some? ==> node == attempt(attempts - 1).value
    ensures attempt(attempts - 1).None? ==> attempts == MaxRetries && node == DefaultNode
    ensures (forall k: nat :: k < MaxRetries ==> attempt(k).None?) <==> attempt(attempts - 1).None?
  {
    attempts := 0;
    while attempts < MaxRetries
      invariant attempts <= MaxRetries
      invariant forall k: nat :: k < attempts ==> attempt(k).None?
    {
      var response := attempt(attempts);
      attempts := attempts + 1;
      if response.Some? {
        return response.value, attempts;
      }
    }
    return DefaultNode, attempts;
  }
}
