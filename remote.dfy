/**
 * The remote procedure layer (`client.functions.invoke`) as the stores see it.
 * A call is never performed here: its reply is an input of the operation that
 * issues it, and the operation records the call it issued.
 */
module Remote {
  import opened Wrappers

  datatype Verb = GET | POST | PUT | PATCH | DELETE

  /**
   * The reply of a call whose payload the store reads. `Failure` covers both an
   * `error` in the returned envelope and an exception thrown by the transport
   * (every store treats the two alike). `Success(data)` carries what the store
   * finds at `data.data.<field>`, or `None` when that path holds nothing.
   */
  datatype Reply<T> = Failure(message: string) | Success(data: Option<T>)

  /** The reply of a call whose payload the store ignores. */
  datatype Ack = Rejected(message: string) | Accepted

  /** The two empty values of JavaScript, which the stores return in different situations. */
  datatype Nullable<T> = Null | Undefined | Present(value: T)

  /** `x as T` on a possibly missing payload: absent reads as `undefined`. */
  function Defined<T>(o: Option<T>): Nullable<T> {
    if o.Some? then Present(o.value) else Undefined
  }

  /**
   * The cached list after one completed list fetch: kept when the call failed,
   * replaced wholesale by the returned list (by the empty list when the payload
   * has none) when it succeeded. Nothing is merged.
   */
  function Refreshed<T>(cache: seq<T>, reply: Reply<seq<T>>): (r: seq<T>)
    ensures reply.Failure? ==> r == cache
    ensures reply.Success? && reply.data.Some? ==> r == reply.data.value
    ensures reply.Success? && reply.data.None? ==> r == []
  {
    match reply
    case Failure(_) => cache
    case Success(data) => data.GetOr([])
  }

  /** The cached list after several fetches, applied in the order their replies resolved. */
  function RefreshedAll<T>(cache: seq<T>, replies: seq<Reply<seq<T>>>): seq<T>
    decreases |replies|
  {
    if replies == [] then cache else RefreshedAll(Refreshed(cache, replies[0]), replies[1..])
  }

  /** A run of failed fetches never empties (or otherwise changes) the cache. */
  lemma {:induction false} FailedFetchesKeepCache<T>(cache: seq<T>, replies: seq<Reply<seq<T>>>)
    requires forall i :: 0 <= i < |replies| ==> replies[i].Failure?
    ensures RefreshedAll(cache, replies) == cache
    decreases |replies|
  {
    if replies != [] {
      FailedFetchesKeepCache(cache, replies[1..]);
    }
  }

  /**
   * Overlapping fetches: the cache ends up holding the payload of the last
   * successful reply to resolve, whatever the order the calls were issued in.
   */
  lemma {:induction false} LastResolvedWins<T>(cache: seq<T>, replies: seq<Reply<seq<T>>>, k: nat)
    requires k < |replies| && replies[k].Success?
    requires forall j :: k < j < |replies| ==> replies[j].Failure?
    ensures RefreshedAll(cache, replies) == replies[k].data.GetOr([])
    decreases k
  {
    if k == 0 {
      FailedFetchesKeepCache(Refreshed(cache, replies[0]), replies[1..]);
    } else {
      LastResolvedWins(Refreshed(cache, replies[0]), replies[1..], k - 1);
    }
  }
}
