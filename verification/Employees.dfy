/**
 The generic employee service: workers that receive from one bounded queue, mark themselves busy,
 work, and mark themselves idle again. Its bookkeeping is proved once for all three services.
 */
module Employees {
  import opened Collections

  datatype EmployeeStatus<R> = EmployeeStatus(isIdle: bool, currentRequest: R, handledRequests: nat)

  function Working<R>(status: EmployeeStatus<R>, request: R): EmployeeStatus<R> {
    EmployeeStatus(false, request, status.handledRequests + 1)
  }

  function Resting<R>(status: EmployeeStatus<R>, zero: R): EmployeeStatus<R> {
    status.(isIdle := true, currentRequest := zero)
  }

  /**
   Where a worker is: waiting for a request, between receiving and marking, at a point of its work,
   between finishing the work and marking itself idle, or stopped after cancellation.
   */
  datatype Worker<R, L> = Idle | Got(req: R) | Busy(req: R, at: L) | Done(req: R) | Stopped

  /** `sent`, `received` and `finished` are history: what went into the queue, came out of it, and was completed. */
  datatype Pool<R, L> = Pool(
    zero: R, capacity: nat,
    queue: seq<R>, workers: seq<Worker<R, L>>, status: seq<EmployeeStatus<R>>,
    sent: seq<R>, received: seq<R>, finished: seq<R>)

  function Fresh<R, L>(zero: R, capacity: nat, size: nat): Pool<R, L> {
    Pool(zero, capacity, [], seq(size, _ => Idle), seq(size, _ => EmployeeStatus(true, zero, 0)), [], [], [])
  }

  predicate Alike<R, L>(p: Pool<R, L>) {
    |p.status| == |p.workers|
  }

  function Push<R, L>(p: Pool<R, L>, r: R): Pool<R, L> {
    p.(queue := p.queue + [r], sent := p.sent + [r])
  }

  function Receive<R, L>(p: Pool<R, L>, w: nat): Pool<R, L>
    requires w < |p.workers| && p.queue != []
  {
    p.(queue := p.queue[1..], received := p.received + [p.queue[0]], workers := p.workers[w := Got(p.queue[0])])
  }

  function Mark<R, L>(p: Pool<R, L>, w: nat, start: L): Pool<R, L>
    requires w < |p.workers| && p.workers[w].Got? && Alike(p)
  {
    var r := p.workers[w].req;
    p.(workers := p.workers[w := Busy(r, start)], status := p.status[w := Working(p.status[w], r)])
  }

  /** A step of the work itself: on to another place in the code, or out of it. */
  function Advance<R, L>(p: Pool<R, L>, w: nat, at: Option<L>): Pool<R, L>
    requires w < |p.workers| && p.workers[w].Busy?
  {
    var r := p.workers[w].req;
    p.(workers := p.workers[w := if at.Some? then Busy(r, at.value) else Done(r)])
  }

  function Unmark<R, L>(p: Pool<R, L>, w: nat): Pool<R, L>
    requires w < |p.workers| && p.workers[w].Done? && Alike(p)
  {
    p.(workers := p.workers[w := Idle], status := p.status[w := Resting(p.status[w], p.zero)],
       finished := p.finished + [p.workers[w].req])
  }

  function Stop<R, L>(p: Pool<R, L>, w: nat): Pool<R, L>
    requires w < |p.workers|
  {
    p.(workers := p.workers[w := Stopped])
  }

  // ---- what the bookkeeping means

  function Active<R, L>(w: Worker<R, L>): int {
    if w.Busy? || w.Done? then 1 else 0
  }

  function Unmarked<R, L>(w: Worker<R, L>): int {
    if w.Got? then 1 else 0
  }

  function Handled<R>(status: EmployeeStatus<R>): int {
    status.handledRequests
  }

  function IdleFlag<R>(status: EmployeeStatus<R>): int {
    if status.isIdle then 1 else 0
  }

  /** One if the worker has request `r` in its hands. */
  ghost function Holds<R, L>(r: R): Worker<R, L> -> int {
    (w: Worker<R, L>) => if (w.Got? || w.Busy? || w.Done?) && w.req == r then 1 else 0
  }

  /** The record an employee shows agrees with where the worker is. */
  predicate Shows<R(==), L>(zero: R, w: Worker<R, L>, status: EmployeeStatus<R>) {
    if Active(w) == 1 then !status.isIdle && status.currentRequest == w.req
    else status.isIdle && status.currentRequest == zero
  }

  /** Every request received is in exactly one place: finished, or in the hands of a worker. */
  ghost predicate Kept<R, L>(p: Pool<R, L>, r: R) {
    multiset(p.received)[r] == multiset(p.finished)[r] + Sum(p.workers, Holds(r))
  }

  ghost predicate Queued<R, L>(p: Pool<R, L>) {
    && |p.queue| <= p.capacity
    && p.sent == p.received + p.queue
  }

  ghost predicate Recorded<R, L>(p: Pool<R, L>) {
    && Alike(p)
    && (forall w :: 0 <= w < |p.workers| ==> Shows(p.zero, p.workers[w], p.status[w]))
    && Sum(p.status, Handled) == |p.finished| + Sum(p.workers, Active)
    && |p.received| == Sum(p.status, Handled) + Sum(p.workers, Unmarked)
  }

  ghost predicate Sound<R(!new), L>(p: Pool<R, L>) {
    Queued(p) && Recorded(p) && forall r :: Kept(p, r)
  }

  /** Workers that have not started yet weigh the same each. */
  lemma {:induction false} FreshSum<R, L>(n: nat, f: Worker<R, L> -> int)
    ensures Sum(seq<Worker<R, L>>(n, _ => Idle), f) == n * f(Idle)
  {
    if n > 0 {
      FreshSum<R, L>(n - 1, f);
      assert seq<Worker<R, L>>(n, _ => Idle)[..n - 1] == seq<Worker<R, L>>(n - 1, _ => Idle);
    }
  }

  lemma {:induction false} FreshSums<R(!new), L>(zero: R, n: nat)
    ensures Sum(seq(n, _ => EmployeeStatus(true, zero, 0)), Handled) == 0
    ensures Sum(seq<Worker<R, L>>(n, _ => Idle), Active) == 0
    ensures Sum(seq<Worker<R, L>>(n, _ => Idle), Unmarked) == 0
    ensures forall r: R :: Sum(seq<Worker<R, L>>(n, _ => Idle), Holds(r)) == 0
  {
    FreshSum<R, L>(n, Active);
    FreshSum<R, L>(n, Unmarked);
    forall r: R {
      FreshSum<R, L>(n, Holds(r));
    }
    if n > 0 {
      FreshSums<R, L>(zero, n - 1);
      var ss := seq(n, _ => EmployeeStatus(true, zero, 0));
      assert ss[..n - 1] == seq(n - 1, _ => EmployeeStatus(true, zero, 0));
    }
  }

  lemma FreshSound<R(!new), L>(zero: R, capacity: nat, size: nat)
    ensures Sound(Fresh<R, L>(zero, capacity, size))
  {
    FreshSums<R, L>(zero, size);
  }

  lemma PushSound<R(!new), L>(p: Pool<R, L>, r: R)
    requires Sound(p) && |p.queue| < p.capacity
    ensures Sound(Push(p, r))
  {
    assert p.sent + [r] == p.received + (p.queue + [r]);
    assert forall x :: Kept(p, x) ==> Kept(Push(p, r), x);
  }

  /** The workers' part of every step: one worker changes place. */
  lemma WorkerSums<R(!new), L>(p: Pool<R, L>, w: nat, x: Worker<R, L>)
    requires w < |p.workers|
    ensures Sum(p.workers[w := x], Active) == Sum(p.workers, Active) - Active(p.workers[w]) + Active(x)
    ensures Sum(p.workers[w := x], Unmarked) == Sum(p.workers, Unmarked) - Unmarked(p.workers[w]) + Unmarked(x)
    ensures forall r ::
      Sum(p.workers[w := x], Holds(r)) == Sum(p.workers, Holds(r)) - Holds(r)(p.workers[w]) + Holds(r)(x)
  {
    SumUpdate(p.workers, w, x, Active);
    SumUpdate(p.workers, w, x, Unmarked);
    forall r {
      SumUpdate(p.workers, w, x, Holds(r));
    }
  }

  lemma ReceiveSound<R(!new), L>(p: Pool<R, L>, w: nat)
    requires Sound(p) && w < |p.workers| && p.queue != [] && p.workers[w].Idle?
    ensures Sound(Receive(p, w))
  {
    WorkerSums(p, w, Got(p.queue[0]));
    assert p.received + p.queue == (p.received + [p.queue[0]]) + p.queue[1..];
    assert forall r :: Kept(p, r) ==> Kept(Receive(p, w), r);
  }

  lemma MarkSound<R(!new), L>(p: Pool<R, L>, w: nat, start: L)
    requires Sound(p) && w < |p.workers| && p.workers[w].Got?
    ensures Sound(Mark(p, w, start))
  {
    WorkerSums(p, w, Busy(p.workers[w].req, start));
    SumUpdate(p.status, w, Working(p.status[w], p.workers[w].req), Handled);
    assert forall r :: Kept(p, r) ==> Kept(Mark(p, w, start), r);
  }

  lemma AdvanceSound<R(!new), L>(p: Pool<R, L>, w: nat, at: Option<L>)
    requires Sound(p) && w < |p.workers| && p.workers[w].Busy?
    ensures Sound(Advance(p, w, at))
  {
    var r := p.workers[w].req;
    WorkerSums(p, w, if at.Some? then Busy(r, at.value) else Done(r));
    assert forall x :: Kept(p, x) ==> Kept(Advance(p, w, at), x);
  }

  lemma UnmarkSound<R(!new), L>(p: Pool<R, L>, w: nat)
    requires Sound(p) && w < |p.workers| && p.workers[w].Done?
    ensures Sound(Unmark(p, w))
  {
    WorkerSums(p, w, Idle);
    SumUpdate(p.status, w, Resting(p.status[w], p.zero), Handled);
    assert forall r :: Kept(p, r) ==> Kept(Unmark(p, w), r);
  }

  lemma StopSound<R(!new), L>(p: Pool<R, L>, w: nat)
    requires Sound(p) && w < |p.workers| && p.workers[w].Idle?
    ensures Sound(Stop(p, w))
  {
    WorkerSums(p, w, Stopped);
    assert forall r :: Kept(p, r) ==> Kept(Stop(p, w), r);
  }

  lemma {:induction false} IdleComplement<R, L>(zero: R, ws: seq<Worker<R, L>>, ss: seq<EmployeeStatus<R>>)
    requires |ws| == |ss|
    requires forall w :: 0 <= w < |ws| ==> Shows(zero, ws[w], ss[w])
    ensures Sum(ws, Active) == |ws| - Sum(ss, IdleFlag)
    decreases |ws|
  {
    if ws != [] {
      IdleComplement(zero, ws[..|ws| - 1], ss[..|ss| - 1]);
    }
  }

  /** Requests handled = requests finished + employees shown busy; and how many were received but not yet counted. */
  lemma Bookkeeping<R(!new), L>(p: Pool<R, L>)
    requires Sound(p)
    ensures Sum(p.status, Handled) == |p.finished| + (|p.workers| - Sum(p.status, IdleFlag))
    ensures |p.received| - Sum(p.status, Handled) == Sum(p.workers, Unmarked)
    ensures forall w :: 0 <= w < |p.status| && p.status[w].isIdle ==> p.status[w].currentRequest == p.zero
  {
    IdleComplement(p.zero, p.workers, p.status);
  }
}
