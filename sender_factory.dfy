/**
 * The in-process transport's sender factory (BlockingQueueSenderFactory):
 * one cached sender per destination address, created on first request
 * and reused afterwards; close closes every cached sender and keeps them
 * cached. Each synchronized method of the source is one step here.
 */
module BlockingQueueTransport {

  /** The queue a blocking-queue destination delivers into; only its identity matters. */
  class MessageQueue {
    constructor ()
    {
    }
  }

  /**
   * A NodeAddress as getSender receives it: the blocking-queue transport's
   * own address, which names its queue, or the address of some other
   * transport, kept opaque.
   */
  datatype NodeAddress =
    | BlockingQueueAddress(queue: MessageQueue)
    | ForeignAddress(description: string)

  /** A sender bound to one queue; its sending is not modelled, only whether it was closed. */
  class BlockingQueueSender {
    const queue: MessageQueue
    const blocking: bool
    var closed: bool

    constructor (queue: MessageQueue, blocking: bool)
      ensures this.queue == queue && this.blocking == blocking && !closed
    {
      this.queue := queue;
      this.blocking := blocking;
      closed := false;
    }

    method Close()
      modifies this
      ensures closed
    {
      closed := true;
    }
  }

  /** getSender's outcome: the sender, or the ClassCastException raised for an address of another transport. */
  datatype GetSenderResult =
    | Got(sender: BlockingQueueSender)
    | NotABlockingQueueAddress(destination: NodeAddress)

  /**
   * The cache after a getSender(destination) that succeeds, `created` being
   * the sender constructed if destination was not cached: insert if absent.
   */
  function CacheAfter<A, S>(cache: map<A, S>, destination: A, created: S): (r: map<A, S>)
    ensures destination in r && r.Keys == cache.Keys + {destination}
    // a cached destination keeps its sender, and the cache does not change
    ensures destination in cache ==> r == cache
    // an uncached destination gets the new sender
    ensures destination !in cache ==> r[destination] == created
    // no other entry is touched
    ensures forall a :: a in cache ==> r[a] == cache[a]
  {
    if destination in cache then cache else cache[destination := created]
  }

  /**
   * The cache after getSender is called on each of `destinations` in turn,
   * every call returning a sender (a call that fails the cast caches
   * nothing, see GetSender, and is not a step here),
   * the first of them being call number `n`: a call for an uncached
   * address constructs `make(k)`, k being its call number. Numbering the
   * constructions keeps every constructed sender apart, so a factory that
   * built and stored a new sender on every call would be told apart from
   * one that inserts only if absent (see FirstRequestBuildsSender).
   */
  function Replay<A, S>(cache: map<A, S>, destinations: seq<A>, make: nat -> S, n: nat): (r: map<A, S>)
    decreases |destinations|
  {
    if destinations == [] then cache
    else Replay(CacheAfter(cache, destinations[0], make(n)), destinations[1..], make, n + 1)
  }

  /** The addresses for which those calls construct a sender, in order. */
  function Constructed<A, S>(cache: map<A, S>, destinations: seq<A>, make: nat -> S, n: nat): (r: seq<A>)
    decreases |destinations|
  {
    if destinations == [] then []
    else
      var d := destinations[0];
      (if d in cache then [] else [d]) + Constructed(CacheAfter(cache, d, make(n)), destinations[1..], make, n + 1)
  }

  /** Replaying one call after others is replaying them all. */
  lemma {:induction false} ReplayAppend<A, S>(cache: map<A, S>, destinations: seq<A>, d: A, make: nat -> S, n: nat)
    ensures Replay(cache, destinations + [d], make, n) ==
            CacheAfter(Replay(cache, destinations, make, n), d, make(n + |destinations|))
    decreases |destinations|
  {
    if destinations != [] {
      assert (destinations + [d])[1..] == destinations[1..] + [d];
      ReplayAppend(CacheAfter(cache, destinations[0], make(n)), destinations[1..], d, make, n + 1);
    }
  }

  /**
   * After any run of getSender calls that return a sender: the cached addresses are exactly the
   * ones cached before plus the ones requested, and no sender that was
   * cached is ever replaced.
   */
  lemma {:induction false} ReplayKeepsAndAdds<A, S>(cache: map<A, S>, destinations: seq<A>, make: nat -> S, n: nat)
    ensures Replay(cache, destinations, make, n).Keys == cache.Keys + (set a | a in destinations)
    ensures forall a :: a in cache ==> Replay(cache, destinations, make, n)[a] == cache[a]
    decreases |destinations|
  {
    if destinations != [] {
      var d := destinations[0];
      ReplayKeepsAndAdds(CacheAfter(cache, d, make(n)), destinations[1..], make, n + 1);
      assert destinations == [d] + destinations[1..];
      assert (set a | a in destinations) == {d} + (set a | a in destinations[1..]);
    }
  }

  /**
   * Repeated calls for one address return one sender: the i-th and the
   * j-th calls of a run, when they name the same address, return the
   * same sender, and it is the one cached at the end.
   */
  lemma {:induction false} SameAddressSameSender<A, S>(cache: map<A, S>, destinations: seq<A>, make: nat -> S, n: nat,
                                                       i: nat, j: nat)
    requires i <= j < |destinations| && destinations[i] == destinations[j]
    ensures var a := destinations[i];
            a in Replay(cache, destinations[..i + 1], make, n) && a in Replay(cache, destinations[..j + 1], make, n) &&
            a in Replay(cache, destinations, make, n) &&
            Replay(cache, destinations[..i + 1], make, n)[a] == Replay(cache, destinations[..j + 1], make, n)[a] ==
            Replay(cache, destinations, make, n)[a]
  {
    var a := destinations[i];
    var afterI := Replay(cache, destinations[..i + 1], make, n);
    ReplayAppend(cache, destinations[..i], a, make, n);
    assert destinations[..i] + [a] == destinations[..i + 1];
    assert a in afterI;
    ReplayKeeps(afterI, destinations[i + 1..j + 1], make, n + (i + 1), a);
    ReplayAcross(cache, destinations, make, n, i + 1, j + 1);
    ReplayKeeps(afterI, destinations[i + 1..], make, n + (i + 1), a);
    ReplayAcross(cache, destinations, make, n, i + 1, |destinations|);
    assert destinations[..|destinations|] == destinations;
  }

  /**
   * The sender an address gets is the one constructed by the first call
   * that named it, when it was not cached before: every later call for it
   * returns that sender, not one constructed by the later call.
   */
  lemma {:induction false} FirstRequestBuildsSender<A, S>(cache: map<A, S>, destinations: seq<A>, make: nat -> S, n: nat,
                                                         i: nat, j: nat)
    requires i <= j < |destinations| && destinations[i] == destinations[j]
    requires destinations[i] !in cache && destinations[i] !in destinations[..i]
    ensures destinations[i] in Replay(cache, destinations[..j + 1], make, n)
    ensures Replay(cache, destinations[..j + 1], make, n)[destinations[i]] == make(n + i)
  {
    var a := destinations[i];
    var beforeI := Replay(cache, destinations[..i], make, n);
    var afterI := Replay(cache, destinations[..i + 1], make, n);
    ReplayLeavesOut(cache, destinations[..i], make, n, a);
    ReplayAppend(cache, destinations[..i], a, make, n);
    assert destinations[..i] + [a] == destinations[..i + 1];
    assert a in afterI && afterI[a] == make(n + i);
    ReplayKeeps(afterI, destinations[i + 1..j + 1], make, n + (i + 1), a);
    ReplayAcross(cache, destinations, make, n, i + 1, j + 1);
  }

  /** An address neither cached nor requested is not cached after a run of calls. */
  lemma {:induction false} ReplayLeavesOut<A, S>(cache: map<A, S>, destinations: seq<A>, make: nat -> S, n: nat, a: A)
    requires a !in cache && a !in destinations
    ensures a !in Replay(cache, destinations, make, n)
  {
    ReplayKeepsAndAdds(cache, destinations, make, n);
  }

  /** One cached address keeps its sender through any run of calls. */
  lemma {:induction false} ReplayKeeps<A, S>(cache: map<A, S>, destinations: seq<A>, make: nat -> S, n: nat, a: A)
    requires a in cache
    ensures a in Replay(cache, destinations, make, n) && Replay(cache, destinations, make, n)[a] == cache[a]
  {
    ReplayKeepsAndAdds(cache, destinations, make, n);
  }

  /** Replaying a longer prefix is replaying the rest on top of the shorter one. */
  lemma {:induction false} ReplayAcross<A, S>(cache: map<A, S>, destinations: seq<A>, make: nat -> S, n: nat, k: nat, m: nat)
    requires k <= m <= |destinations|
    ensures Replay(cache, destinations[..m], make, n) ==
            Replay(Replay(cache, destinations[..k], make, n), destinations[k..m], make, n + k)
    decreases |destinations| - k
  {
    if k == m {
      assert destinations[k..m] == [];
    } else {
      ReplayAppend(cache, destinations[..k], destinations[k], make, n);
      assert destinations[..k] + [destinations[k]] == destinations[..k + 1];
      ReplayAcross(cache, destinations, make, n, k + 1, m);
      assert destinations[k..m][1..] == destinations[k + 1..m];
    }
  }

  /**
   * A run of getSender calls that return a sender constructs one sender per address that was
   * not cached, and never two for the same address.
   */
  lemma {:induction false} ConstructedOnce<A, S>(cache: map<A, S>, destinations: seq<A>, make: nat -> S, n: nat)
    ensures var built := Constructed(cache, destinations, make, n);
            (forall k, l :: 0 <= k < l < |built| ==> built[k] != built[l]) &&
            (forall k :: 0 <= k < |built| ==> built[k] !in cache) &&
            (set a | a in built) == Replay(cache, destinations, make, n).Keys - cache.Keys
    decreases |destinations|
  {
    if destinations != [] {
      var d := destinations[0];
      var next := CacheAfter(cache, d, make(n));
      ConstructedOnce(next, destinations[1..], make, n + 1);
      ReplayKeepsAndAdds(next, destinations[1..], make, n + 1);
      var rest := Constructed(next, destinations[1..], make, n + 1);
      var built := Constructed(cache, destinations, make, n);
      assert built == (if d in cache then [] else [d]) + rest;
      assert (set a | a in built) == (if d in cache then {} else {d}) + (set a | a in rest);
    }
  }

  class BlockingQueueSenderFactory {
    var senders: map<NodeAddress, BlockingQueueSender>
    const blocking: bool

    /**
     * Only blocking-queue addresses are cached, each with a sender bound to
     * that address's queue and to this factory's blocking flag.
     */
    ghost predicate Valid()
      reads this
    {
      forall a :: a in senders ==>
        a.BlockingQueueAddress? && senders[a].queue == a.queue && senders[a].blocking == blocking
    }

    constructor (blocking: bool)
      ensures Valid() && senders == map[] && this.blocking == blocking
    {
      senders := map[];
      this.blocking := blocking;
    }

    /** getSender: the cached sender for destination, or a new one, cached first. */
    method GetSender(destination: NodeAddress) returns (r: GetSenderResult)
      requires Valid()
      modifies this
      ensures Valid()
      ensures destination in old(senders) ==> r == Got(old(senders)[destination]) && senders == old(senders)
      ensures destination !in old(senders) && destination.BlockingQueueAddress? ==>
                r.Got? && fresh(r.sender) && !r.sender.closed &&
                r.sender.queue == destination.queue && r.sender.blocking == blocking &&
                senders == CacheAfter(old(senders), destination, r.sender)
      ensures destination !in old(senders) && destination.ForeignAddress? ==>
                r == NotABlockingQueueAddress(destination) && senders == old(senders)
    {
      if destination in senders {
        r := Got(senders[destination]);
      } else if destination.BlockingQueueAddress? {
        var sender := new BlockingQueueSender(destination.queue, blocking);
        senders := senders[destination := sender];
        r := Got(sender);
      } else {
        r := NotABlockingQueueAddress(destination);
      }
    }

    /** close: close every cached sender; the cache itself is kept as it is. */
    method Close()
      requires Valid()
      modifies senders.Values
      ensures Valid() && senders == old(senders)
      ensures forall a :: a in senders ==> senders[a].closed
    {
      var open := senders.Values;
      while open != {}
        invariant open <= senders.Values
        invariant forall s :: s in senders.Values && s !in open ==> s.closed
        decreases open
      {
        var s :| s in open;
        s.Close();
        open := open - {s};
      }
    }
  }

  /**
   * close is not terminal: after it, a known address still gets its old,
   * now closed, sender, and a new address gets a new, open one.
   */
  method CloseKeepsCache() returns (sameSender: bool, oldIsClosed: bool, newIsOpen: bool)
    ensures sameSender && oldIsClosed && newIsOpen
  {
    var q1 := new MessageQueue();
    var q2 := new MessageQueue();
    var known, unknown := BlockingQueueAddress(q1), BlockingQueueAddress(q2);
    var factory := new BlockingQueueSenderFactory(true);
    var first := factory.GetSender(known);
    factory.Close();
    var again := factory.GetSender(known);
    var other := factory.GetSender(unknown);
    sameSender := first == again;
    oldIsClosed := again.Got? && again.sender.closed;
    newIsOpen := other.Got? && !other.sender.closed;
  }
}
