/**
 * `CaptureDomRequest` and `captureDomQueued`: captures wait in a FIFO queue and at most
 * `MAX_TABS` of them run (each with its own tab) at a time. A request joins the tail and
 * the queue is run; a finished capture frees its slot and the queue is run again.
 *
 * `AdmitWaiting` and `Replay` specify the scheduler on values; the class `RequestQueue`
 * holds the class's static state (`#openTabs`, `#waitingQueue`) and is proved against them.
 */
module CaptureQueue {
  import opened Promises
  import Capture

  const MAX_TABS := 3

  function Min(a: int, b: int): int {
    if a <= b then a else b
  }

  /**
   * The scheduler's state: the open-tab count, the waiting requests (head first) and the
   * requests started so far (oldest first).
   */
  datatype Admission<R> = Admission(openTabs: int, waiting: seq<R>, started: seq<R>)

  /** How many waiting requests a run of the queue starts. */
  function Admitted<R>(q: Admission<R>): nat {
    if q.openTabs < MAX_TABS then Min(MAX_TABS - q.openTabs, |q.waiting|) else 0
  }

  /**
   * `#runQueue`: while fewer than `MAX_TABS` tabs are open and a request waits, shift the
   * head and start it. It starts the first `Admitted(q)` waiting requests, in order.
   */
  function AdmitWaiting<R>(q: Admission<R>): (r: Admission<R>)
    ensures var n := Admitted(q);
            r == Admission(q.openTabs + n, q.waiting[n..], q.started + q.waiting[..n])
    decreases |q.waiting|
  {
    if q.openTabs < MAX_TABS && |q.waiting| > 0 then
      var next := Admission(q.openTabs + 1, q.waiting[1..], q.started + [q.waiting[0]]);
      var r := AdmitWaiting(next);
      var n := Admitted(q);
      assert Admitted(next) == n - 1;
      assert next.waiting[n - 1..] == q.waiting[n..];
      assert next.started + next.waiting[..n - 1] == q.started + q.waiting[..n];
      r
    else q
  }

  /** The scheduler's standing promise: the cap holds, and no slot is idle while a request waits. */
  predicate Admissible<R>(q: Admission<R>) {
    0 <= q.openTabs <= MAX_TABS && (q.openTabs < MAX_TABS ==> q.waiting == [])
  }

  /**
   * After a run of the queue, the cap holds and either every slot is taken or nothing
   * waits; no request is lost, reordered or started twice.
   */
  lemma AdmitWaitingExits<R>(q: Admission<R>)
    requires 0 <= q.openTabs <= MAX_TABS
    ensures var r := AdmitWaiting(q);
            && Admissible(r)
            && (r.openTabs == MAX_TABS || r.waiting == [])
            && r.started + r.waiting == q.started + q.waiting
  {
    var n := Admitted(q);
    var r := AdmitWaiting(q);
    var head, tail := q.waiting[..n], q.waiting[n..];
    assert r.openTabs == q.openTabs + n && r.waiting == tail && r.started == q.started + head;
    if r.openTabs < MAX_TABS {
      assert n == |q.waiting|;
    }
    assert head + tail == q.waiting;
    assert r.started + r.waiting == q.started + (head + tail);
  }

  /** What reaches the scheduler: a new request, or the completion of a running capture. */
  datatype QueueEvent<R> = Submit(req: R) | Finish

  /**
   * One event: the constructor pushes to the tail, a completion frees a slot; either way
   * the queue is run. Every completion belongs to a running capture, so with no tab open
   * there is none to deliver and nothing happens.
   */
  function Apply<R>(q: Admission<R>, e: QueueEvent<R>): Admission<R> {
    match e
    case Submit(req) => AdmitWaiting(q.(waiting := q.waiting + [req]))
    case Finish => if q.openTabs > 0 then AdmitWaiting(q.(openTabs := q.openTabs - 1)) else q
  }

  function Replay<R>(q: Admission<R>, events: seq<QueueEvent<R>>): Admission<R>
    decreases |events|
  {
    if events == [] then q else Replay(Apply(q, events[0]), events[1..])
  }

  /** The requests of a trace, in the order they were submitted. */
  function Submitted<R>(events: seq<QueueEvent<R>>): seq<R>
    decreases |events|
  {
    if events == [] then []
    else (if events[0].Submit? then [events[0].req] else []) + Submitted(events[1..])
  }

  lemma ApplyKeepsAdmissible<R>(q: Admission<R>, e: QueueEvent<R>)
    requires Admissible(q)
    ensures Admissible(Apply(q, e))
    ensures Apply(q, e).started + Apply(q, e).waiting
            == q.started + q.waiting + (if e.Submit? then [e.req] else [])
  {
    match e
    case Submit(req) =>
      AdmitWaitingExits(q.(waiting := q.waiting + [req]));
    case Finish =>
      if q.openTabs > 0 {
        AdmitWaitingExits(q.(openTabs := q.openTabs - 1));
      }
  }

  /**
   * Over any trace, the cap holds, no slot idles while a request waits, and the requests
   * start in exactly the order they were submitted (started, then waiting, is the arrival order).
   */
  lemma {:induction false} ReplayKeepsAdmissible<R>(q: Admission<R>, events: seq<QueueEvent<R>>)
    requires Admissible(q)
    ensures Admissible(Replay(q, events))
    ensures Replay(q, events).started + Replay(q, events).waiting == q.started + q.waiting + Submitted(events)
    decreases |events|
  {
    if events != [] {
      var e := events[0];
      ApplyKeepsAdmissible(q, e);
      ReplayKeepsAdmissible(Apply(q, e), events[1..]);
      assert q.started + q.waiting + Submitted(events)
             == q.started + q.waiting + (if e.Submit? then [e.req] else []) + Submitted(events[1..]);
    }
  }

  /** From an idle scheduler, the requests of a trace start in arrival order. */
  lemma FirstInFirstOut<R>(events: seq<QueueEvent<R>>)
    ensures var r := Replay(Admission(0, [], []), events);
            r.started + r.waiting == Submitted(events) && 0 <= r.openTabs <= MAX_TABS
  {
    ReplayKeepsAdmissible(Admission(0, [], []), events);
  }

  /**
   * A finished capture frees its slot, and the head of the queue, if any, takes it at once:
   * the count stays at the cap and the head starts next.
   */
  lemma FinishAdmitsHead<R>(q: Admission<R>)
    requires Admissible(q) && q.openTabs > 0
    ensures var r := Apply(q, Finish);
            if q.waiting == [] then r == q.(openTabs := q.openTabs - 1)
            else r == Admission(q.openTabs, q.waiting[1..], q.started + [q.waiting[0]])
  {
  }

  /** A burst of `n` requests against an idle scheduler starts the first three and queues the rest. */
  lemma BurstAdmission<R>(reqs: seq<R>)
    ensures var m := Min(|reqs|, MAX_TABS);
            AdmitWaiting(Admission(0, reqs, [])) == Admission(m, reqs[m..], reqs[..m])
  {
    var q := Admission(0, reqs, []);
    var r := AdmitWaiting(q);
    assert Admitted(q) == Min(|reqs|, MAX_TABS);
    assert r.started == [] + reqs[..Admitted(q)];
  }

  /** One capture request and the promise `captureDomQueued` hands back. */
  class CaptureDomRequest {
    const url: string
    var result: Settlement<Capture.Document>   // the `ResolvablePromise`

    constructor (url: string)
      ensures this.url == url && result == Pending
    {
      this.url := url;
      result := Pending;
    }

    /** `#promise.resolve(doc)`: the first settlement wins. */
    method Resolve(doc: Capture.Document)
      modifies this
      ensures result == SettleOnce(old(result), Fulfilled(doc))
    {
      if result.Pending? {
        result := Fulfilled(doc);
      }
    }

    /** `#promise.reject(e)`: the first settlement wins. */
    method Reject(why: Failure)
      modifies this
      ensures result == SettleOnce(old(result), Rejected(why))
    {
      if result.Pending? {
        result := Rejected(why);
      }
    }
  }

  /** The static state of `CaptureDomRequest`. */
  class RequestQueue {
    var openTabs: int                              // `#openTabs`
    var waitingQueue: seq<CaptureDomRequest>       // `#waitingQueue`, head first
    ghost var started: seq<CaptureDomRequest>      // the requests `#run` has started, oldest first
    ghost var submitted: seq<CaptureDomRequest>    // every request constructed, in order
    ghost var running: set<CaptureDomRequest>      // started, and their capture not yet settled

    ghost function State(): Admission<CaptureDomRequest>
      reads this
    {
      Admission(openTabs, waitingQueue, started)
    }

    /** What holds between statements: the count is the running captures, order is arrival order. */
    ghost predicate Consistent()
      reads this
    {
      && 0 <= openTabs <= MAX_TABS
      && openTabs == |running|
      && started + waitingQueue == submitted
      && (forall r :: r in running ==> r in started)
      && (forall r :: r in waitingQueue ==> r !in running)
      && (forall i, j :: 0 <= i < j < |waitingQueue| ==> waitingQueue[i] != waitingQueue[j])
    }

    /** What holds whenever no method of the class is running. */
    ghost predicate Valid()
      reads this
    {
      Consistent() && Admissible(State())
    }

    constructor ()
      ensures Valid() && State() == Admission(0, [], []) && running == {}
    {
      openTabs := 0;
      waitingQueue := [];
      started := [];
      submitted := [];
      running := {};
    }

    /** `captureDomQueued(url)`: construct a request, which joins the tail and runs the queue. */
    method CaptureDomQueued(url: string) returns (req: CaptureDomRequest)
      requires Valid()
      modifies this
      ensures fresh(req) && req.url == url && req.result == Pending
      ensures State() == Apply(old(State()), Submit(req))
      ensures submitted == old(submitted) + [req]
      ensures old(running) <= running
      ensures forall r :: r in running ==> r in old(running) || r in old(waitingQueue) || r == req
      ensures Valid()
    {
      req := new CaptureDomRequest(url);
      waitingQueue := waitingQueue + [req];
      submitted := submitted + [req];
      RunQueue();
    }

    /** `#runQueue()` */
    method RunQueue()
      requires Consistent()
      modifies this
      ensures State() == AdmitWaiting(old(State()))
      ensures submitted == old(submitted) && old(running) <= running
      ensures forall r :: r in running ==> r in old(running) || r in old(waitingQueue)
      ensures Valid()
    {
      ghost var k := 0;   // how many requests this run has started
      while openTabs < MAX_TABS && |waitingQueue| > 0
        invariant Consistent()
        invariant 0 <= k <= |old(waitingQueue)| && k <= Admitted(old(State()))
        invariant openTabs == old(openTabs) + k
        invariant waitingQueue == old(waitingQueue)[k..]
        invariant started == old(started) + old(waitingQueue)[..k]
        invariant submitted == old(submitted) && old(running) <= running
        invariant forall r :: r in running ==> r in old(running) || r in old(waitingQueue)[..k]
        decreases |waitingQueue|
      {
        var req := RunHead();
        assert old(waitingQueue)[..k + 1] == old(waitingQueue)[..k] + [req];
        k := k + 1;
      }
      AdmitWaitingExits(State());
    }

    /** One turn of the `#runQueue` loop: shift the head of the queue and `#run` it. */
    method RunHead() returns (req: CaptureDomRequest)
      requires Consistent() && openTabs < MAX_TABS && |waitingQueue| > 0
      modifies this
      ensures req == old(waitingQueue[0]) && waitingQueue == old(waitingQueue[1..])
      ensures openTabs == old(openTabs) + 1 && started == old(started) + [req]
      ensures running == old(running) + {req} && submitted == old(submitted)
      ensures Consistent()
    {
      req := waitingQueue[0];
      waitingQueue := waitingQueue[1..];
      Run(req);
    }

    /** `#run()`: take a slot and start `captureDom(url)` for `req`. */
    method Run(req: CaptureDomRequest)
      requires req !in running && openTabs == |running|
      modifies this
      ensures openTabs == old(openTabs) + 1 && started == old(started) + [req]
      ensures running == old(running) + {req}
      ensures waitingQueue == old(waitingQueue) && submitted == old(submitted)
    {
      openTabs := openTabs + 1;
      started := started + [req];
      running := running + {req};
    }

    /**
     * `captureDom` for `req` settled with `outcome`: settle the request's promise with it,
     * free the slot and run the queue.
     */
    method Complete(req: CaptureDomRequest, outcome: Settlement<Capture.Document>)
      requires Valid() && req in running && !outcome.Pending?
      modifies this, req
      ensures req.result == SettleOnce(old(req.result), outcome)
      ensures State() == Apply(old(State()), Finish)
      ensures req !in running && submitted == old(submitted)
      ensures old(running) - {req} <= running
      ensures forall r :: r in running ==> r in old(running) || r in old(waitingQueue)
      ensures Valid()
    {
      if outcome.Fulfilled? {
        req.Resolve(outcome.value);
      } else {
        req.Reject(outcome.reason);
      }
      running := running - {req};
      openTabs := openTabs - 1;
      RunQueue();
    }
  }
}
