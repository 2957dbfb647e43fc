// The FastCGI request process of the gateway: the deque of accepted requests
// behind the worker queue, and the 64-bit request-id counter.

module RgwProcess {
  import opened Wrappers

  const U64: nat := 0x1_0000_0000_0000_0000

  /** uint64_t. */
  type u64 = x: nat | x < U64

  /** An accepted request, identified by its request id. */
  datatype Request = Request(id: u64)

  /** The id after `i` increments of a uint64_t counter holding `start` (wrapping at 2^64). */
  function IdAfter(start: u64, i: nat): (r: u64)
    ensures start + i < U64 ==> r == start + i
  {
    (start + i) % U64
  }

  /** Without wrap-around, ids handed out one after another strictly increase. */
  lemma IdsStrictlyIncrease(start: u64, i: nat, j: nat)
    requires i < j && start + j < U64
    ensures IdAfter(start, i) < IdAfter(start, j)
  {
  }

  /** The requests the run loop queues after `k` accepted connections, from counter value `start`. */
  function Allocated(start: u64, k: nat): (rs: seq<Request>)
    ensures |rs| == k
    ensures forall i :: 0 <= i < k ==> rs[i].id == IdAfter(start, i + 1)
  {
    seq(k, (i: nat) => Request(IdAfter(start, i + 1)))
  }

  /** One more increment of the counter. */
  lemma IdAfterStep(start: u64, n: nat)
    ensures IdAfter(IdAfter(start, n), 1) == IdAfter(start, n + 1)
  {
  }

  /** Queueing the next request extends the allocated sequence by that request. */
  lemma AllocatedStep(q: seq<Request>, start: u64, n: nat)
    ensures q + Allocated(start, n) + [Request(IdAfter(start, n + 1))] == q + Allocated(start, n + 1)
  {
    assert Allocated(start, n + 1) == Allocated(start, n) + [Request(IdAfter(start, n + 1))];
  }

  /** The queued requests: m_req_queue and max_req_id of RGWProcess. */
  class Process {
    var reqQueue: seq<Request>
    var maxReqId: u64

    constructor ()
      ensures reqQueue == [] && maxReqId == 0
    {
      reqQueue := [];
      maxReqId := 0;
    }

    /** _enqueue: push at the back; always succeeds. */
    method Enqueue(req: Request) returns (ok: bool)
      modifies this
      ensures ok
      ensures reqQueue == old(reqQueue) + [req]
      ensures maxReqId == old(maxReqId)
    {
      reqQueue := reqQueue + [req];
      ok := true;
    }

    /** _dequeue: nothing on an empty queue, otherwise remove and return the front. */
    method Dequeue() returns (req: Option<Request>)
      modifies this
      ensures old(reqQueue) == [] ==> req == None && reqQueue == []
      ensures old(reqQueue) != [] ==> req == Some(old(reqQueue)[0]) && reqQueue == old(reqQueue)[1..]
      ensures maxReqId == old(maxReqId)
    {
      if reqQueue == [] {
        return None;
      }
      req := Some(reqQueue[0]);
      reqQueue := reqQueue[1..];
    }

    /** _empty. */
    method IsEmpty() returns (e: bool)
      ensures e <==> reqQueue == []
    {
      e := reqQueue == [];
    }

    /** `req->id = ++max_req_id`: a new request with the next id. */
    method AllocateRequest() returns (req: Request)
      modifies this
      ensures maxReqId == IdAfter(old(maxReqId), 1) && req.id == maxReqId
      ensures reqQueue == old(reqQueue)
    {
      maxReqId := (maxReqId + 1) % U64;
      req := Request(maxReqId);
    }

    /**
     * The accept loop of run(): `accepted` connections are accepted and queued,
     * then the next accept fails and its freshly numbered request is dropped.
     */
    method RunLoop(accepted: nat)
      modifies this
      ensures reqQueue == old(reqQueue) + Allocated(old(maxReqId), accepted)
      ensures maxReqId == IdAfter(old(maxReqId), accepted + 1)
    {
      ghost var q0, id0 := reqQueue, maxReqId;
      var n := 0;
      while true
        invariant 0 <= n <= accepted
        invariant maxReqId == IdAfter(id0, n)
        invariant reqQueue == q0 + Allocated(id0, n)
        decreases accepted - n
      {
        var req := AllocateRequest();
        IdAfterStep(id0, n);
        if n == accepted {
          break;
        }
        AllocatedStep(q0, id0, n);
        var _ := Enqueue(req);
        n := n + 1;
      }
    }
  }

  /** Two requests queued one after the other come out in the same order, then nothing. */
  method QueueIsFifo(a: Request, b: Request) returns (x: Option<Request>, y: Option<Request>, z: Option<Request>, empty: bool)
    ensures x == Some(a) && y == Some(b) && z == None && empty
  {
    var p := new Process();
    var _ := p.Enqueue(a);
    var _ := p.Enqueue(b);
    x := p.Dequeue();
    y := p.Dequeue();
    z := p.Dequeue();
    empty := p.IsEmpty();
  }
}
