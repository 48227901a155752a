/** The relay's store-and-forward queues: one bounded queue per peer, oldest evicted first. */
module RelayStore {
  type Queues<T> = map<string, seq<T>>

  function QueueOf<T>(qs: Queues<T>, peer: string): seq<T> {
    if peer in qs then qs[peer] else []
  }

  /** Append, then evict the oldest entry if the cap is exceeded. */
  function Push<T>(q: seq<T>, item: T, cap: nat): seq<T> {
    var longer := q + [item];
    if |longer| > cap then longer[1..] else longer
  }

  /** What pushing onto a queue at its cap throws out. */
  function Evicted<T>(q: seq<T>, item: T, cap: nat): seq<T> {
    var longer := q + [item];
    if |longer| > cap then [longer[0]] else []
  }

  function Enqueue<T>(qs: Queues<T>, to: string, item: T, cap: nat): Queues<T> {
    qs[to := Push(QueueOf(qs, to), item, cap)]
  }

  const U32_LIMIT := 0x1_0000_0000

  function AsU32(n: nat): nat { n % U32_LIMIT }

  class MessageStore<T> {
    var queues: Queues<T>
    const maxQueueSize: nat

    constructor (maxQueueSize: nat)
      ensures queues == map[] && this.maxQueueSize == maxQueueSize
    {
      queues := map[];
      this.maxQueueSize := maxQueueSize;
    }

    method EnqueueFor(to: string, item: T) returns (count: nat)
      modifies this
      ensures queues == Enqueue(old(queues), to, item, maxQueueSize)
      ensures count == AsU32(|queues[to]|)
    {
      if to !in queues { queues := queues[to := []]; }
      queues := queues[to := queues[to] + [item]];
      if |queues[to]| > maxQueueSize {
        queues := queues[to := queues[to][1..]];
      }
      count := AsU32(|queues[to]|);
    }

    method Drain(peer: string) returns (items: seq<T>)
      modifies this
      ensures items == QueueOf(old(queues), peer) && queues == old(queues) - {peer}
    {
      items := QueueOf(queues, peer);
      queues := queues - {peer};
    }

    /** The length of a peer's queue, as far as 32 bits tell. */
    method QueueLen(peer: string) returns (count: nat)
      ensures count < U32_LIMIT && exists k: nat :: |QueueOf(queues, peer)| == count + k * U32_LIMIT
      ensures count == |QueueOf(queues, peer)| <==> |QueueOf(queues, peer)| < U32_LIMIT
    {
      var length := |QueueOf(queues, peer)|;
      count := AsU32(length);
      assert length == count + length / U32_LIMIT * U32_LIMIT;
    }
  }

  // ---------- Any history of enqueues and drains ----------

  datatype Op<T> = Enqueued(to: string, item: T) | Drained(peer: string)

  function After<T>(ops: seq<Op<T>>, cap: nat): Queues<T> {
    if ops == [] then map[]
    else
      var qs := After(ops[..|ops| - 1], cap);
      match ops[|ops| - 1]
      case Enqueued(to, item) => Enqueue(qs, to, item, cap)
      case Drained(peer) => qs - {peer}
  }

  /** What has been enqueued for a peer since its queue was last drained. */
  function SinceDrain<T>(ops: seq<Op<T>>, peer: string): seq<T> {
    if ops == [] then []
    else
      var before := SinceDrain(ops[..|ops| - 1], peer);
      match ops[|ops| - 1]
      case Enqueued(to, item) => if to == peer then before + [item] else before
      case Drained(p) => if p == peer then [] else before
  }

  function LastN<T>(s: seq<T>, n: nat): seq<T> {
    if |s| <= n then s else s[|s| - n..]
  }

  lemma PushSlides<T>(all: seq<T>, item: T, cap: nat)
    ensures Push(LastN(all, cap), item, cap) == LastN(all + [item], cap)
  {
  }

  /**
   At every moment a peer's queue is exactly the last `cap` of the items enqueued for it since its last
   drain, in order. A drain therefore returns exactly those, and no operation for another peer matters.
   */
  lemma {:induction false} QueueIsWindow<T>(ops: seq<Op<T>>, cap: nat, peer: string)
    ensures QueueOf(After(ops, cap), peer) == LastN(SinceDrain(ops, peer), cap)
  {
    if ops == [] {
    } else {
      var earlier := ops[..|ops| - 1];
      QueueIsWindow(earlier, cap, peer);
      if ops[|ops| - 1].Enqueued? {
        PushSlides(SinceDrain(earlier, peer), ops[|ops| - 1].item, cap);
      }
    }
  }

  /** The count told to the sender is the queue's length exactly when that fits 32 bits, as a cap below 2^32 ensures. */
  lemma CountIsLengthIff<T>(ops: seq<Op<T>>, cap: nat, peer: string)
    ensures var q := QueueOf(After(ops, cap), peer);
      && (AsU32(|q|) == |q| <==> |q| < U32_LIMIT)
      && (cap < U32_LIMIT ==> AsU32(|q|) == |q|)
      && (cap == 0 ==> |q| == 0)
  {
    QueueIsWindow(ops, cap, peer);
  }
}
