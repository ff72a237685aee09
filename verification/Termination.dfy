/** Every run is finite: one number goes down with every step of every process. */
module Termination {
  import opened Collections
  import opened Stock
  import opened Domain
  import opened Employees
  import opened System
  import opened Washing

  // ---- how many steps are still to come, at most

  const WASH_COST: int := 10

  /** A consumption takes at most three steps: try, restock, retry. */
  function TaskCost(t: Task): int {
    match t.op
    case Consume(_, _) => 3
    case Launder(_) => 1 + WASH_COST
    case SetStatus(_) => 1
  }

  ghost function RequestCost(r: CleaningRequest): int {
    5 + Sum(Tasks(r), TaskCost)
  }

  ghost function HkCost(w: Worker<CleaningRequest, HkAt>): int {
    match w
    case Idle => 1
    case Got(r) => RequestCost(r)
    case Busy(r, HkStart) => RequestCost(r) - 1
    case Busy(_, Todo(ts)) => 3 + Sum(ts, TaskCost)
    case Busy(_, Refill(_, _, _, rest)) => 5 + Sum(rest, TaskCost)
    case Busy(_, Retry(_, _, _, rest)) => 4 + Sum(rest, TaskCost)
    case Done(_) => 2
    case Stopped => 0
  }

  function WashCost(r: WashRequest): int {
    WASH_COST
  }

  function LaCost(w: Worker<WashRequest, LaAt>): int {
    match w
    case Idle => 1
    case Got(_) => WASH_COST
    case Busy(_, LaStart) => 9
    case Busy(_, Fill(_)) => 8
    case Busy(_, TopUp(_)) => 7
    case Busy(_, Again(_)) => 6
    case Busy(_, Enter(_)) => 5
    case Busy(_, Waiting(_, _)) => 4
    case Busy(_, Leaving(_, _, _)) => 3
    case Done(_) => 2
    case Stopped => 0
  }

  function RestockCost(r: RestockRequest): int {
    5 + |r.items|
  }

  function StCost(w: Worker<RestockRequest, StAt>): int {
    match w
    case Idle => 1
    case Got(r) => 5 + |r.items|
    case Busy(r, StStart) => 4 + |r.items|
    case Busy(_, Shelving(_, rest)) => 3 + |rest|
    case Done(_) => 2
    case Stopped => 0
  }

  ghost function MgrCost(m: Manager): int {
    match m
    case Booting => 3
    case Ready => 2
    case Dispatching(_, req) => 4 + RequestCost(req)
    case Acking(_) => 3
    case Ordering(items) => 8 + |items|
    case Gone => 0
  }

  ghost function DeliveryCost(d: Delivery): int {
    match Accept(d) case None => 1 case Some(req) => 3 + RequestCost(req)
  }

  function NtCost(nt: Notifier): int {
    match nt
    case Listening => 1
    case Publishing(_, left) => 2 + 2 * |left|
    case PublishingDay(_, toManager) => if toManager then 19 else 2
    case Silent => 0
  }

  ghost function PoolMeasure<R, L>(p: Pool<R, L>, inQueue: R -> int, inHand: Worker<R, L> -> int): int {
    Sum(p.queue, inQueue) + Sum(p.workers, inHand)
  }

  ghost function DeskMeasure(d: Desk): int {
    MgrCost(d.mgr) + if d.taken <= |d.inbox| then Sum(d.inbox[d.taken..], DeliveryCost) else 0
  }

  /** An hour event is sent at most once to each of the `launderers` channels that can be registered. */
  function BellMeasure(b: Bell, launderers: nat): int {
    NtCost(b.nt) + |b.hub.bufs| + (if b.dayBuf.Some? then 16 else 0)
      + (|b.hourIn| - b.hourTaken) * (2 * launderers + 2) + 19 * (|b.dayIn| - b.dayTaken)
  }

  ghost function Measure(s: State): int {
    PoolMeasure(s.hk, RequestCost, HkCost) + PoolMeasure(s.la, WashCost, LaCost)
      + PoolMeasure(s.st, RestockCost, StCost)
      + DeskMeasure(s.desk) + BellMeasure(s.bell, |s.la.workers|) + (if s.cancelled then 0 else 1)
  }

  // ---- pools

  lemma ReceiveCosts<R, L>(p: Pool<R, L>, w: nat, inQueue: R -> int, inHand: Worker<R, L> -> int)
    requires w < |p.workers| && p.queue != []
    ensures PoolMeasure(Receive(p, w), inQueue, inHand) ==
            PoolMeasure(p, inQueue, inHand) - inQueue(p.queue[0]) - inHand(p.workers[w]) + inHand(Got(p.queue[0]))
  {
    SumHead(p.queue, inQueue);
    SumUpdate(p.workers, w, Got(p.queue[0]), inHand);
  }

  lemma WorkerCosts<R, L>(p: Pool<R, L>, p': Pool<R, L>, w: nat, inQueue: R -> int, inHand: Worker<R, L> -> int)
    requires w < |p.workers| == |p'.workers| && p'.workers == p.workers[w := p'.workers[w]] && p'.queue == p.queue
    ensures PoolMeasure(p', inQueue, inHand) ==
            PoolMeasure(p, inQueue, inHand) - inHand(p.workers[w]) + inHand(p'.workers[w])
  {
    SumUpdate(p.workers, w, p'.workers[w], inHand);
  }

  lemma PushCosts<R, L>(p: Pool<R, L>, r: R, inQueue: R -> int, inHand: Worker<R, L> -> int)
    ensures PoolMeasure(Push(p, r), inQueue, inHand) == PoolMeasure(p, inQueue, inHand) + inQueue(r)
  {
    SumSnoc(p.queue, r, inQueue);
  }

  lemma TaskCosts(shop: Shop, full: bool, ok: bool, t: Task, rest: seq<Task>, req: CleaningRequest)
    requires HkTask(shop, full, ok, t, rest).Some?
    ensures var out := HkTask(shop, full, ok, t, rest).value;
      && out.at.Some?
      && HkCost(Busy(req, out.at.value)) + (if |out.done| == 1 && out.done[0].op.Launder? then WASH_COST else 0)
           < 3 + TaskCost(t) + Sum(rest, TaskCost)
  {
    hide Sum;
  }

  /** A housekeeper's decision costs a step, and what it sends to the laundry is paid for by the task it carries out. */
  lemma HkOutCosts(shop: Shop, full: bool, req: CleaningRequest, at: HkAt, ok: bool)
    requires HkDecide(shop, full, req, at, ok).Some?
    ensures var out := HkDecide(shop, full, req, at, ok).value;
      HkCost(if out.at.Some? then Busy(req, out.at.value) else Done(req))
        + (if |out.done| == 1 && out.done[0].op.Launder? then WASH_COST else 0) < HkCost(Busy(req, at))
  {
    SumAtLeast(Tasks(req), TaskCost, 0);
    hide Tasks;
    hide Sum;
    hide HkTask;
    if at.Todo? && at.tasks != [] {
      SumHead(at.tasks, TaskCost);
      TaskCosts(shop, full, ok, at.tasks[0], at.tasks[1..], req);
      hide TaskCost;
    }
  }

  lemma HkMeasure(s: State, w: nat, ok: bool)
    requires HkNext(s, w, ok).Some?
    ensures Measure(HkNext(s, w, ok).value) < Measure(s)
  {
    hide HkDecide;
    hide HkEffect;
    hide PoolMeasure;
    hide DeskMeasure;
    hide BellMeasure;
    hide RequestCost;
    var s' := HkNext(s, w, ok).value;
    match s.hk.workers[w] {
      case Idle => ReceiveCosts(s.hk, w, RequestCost, HkCost);
      case Busy(req, at) =>
        HkOutCosts(s.shop, Full(s.la), req, at, ok);
        hide HkCost;
        var out := HkDecide(s.shop, Full(s.la), req, at, ok).value;
        WorkerCosts(s.hk, s'.hk, w, RequestCost, HkCost);
        if |out.done| == 1 && out.done[0].op.Launder? {
          PushCosts(s.la, WashRequest(out.done[0].room, out.done[0].op.laundry), WashCost, LaCost);
        }
      case _ => WorkerCosts(s.hk, s'.hk, w, RequestCost, HkCost);
    }
  }

  lemma LaOutCosts(shelf: Shelf, r: WashRequest, at: LaAt, ok: bool, now: int)
    requires !InCycle(at)
    ensures var out := LaDecide(shelf, r.item, at, ok, now);
      LaCost(if out.at.Some? then Busy(r, out.at.value) else Done(r)) < LaCost(Busy(r, at))
  {
  }

  /** A cycle step moves the launderer on or empties the buffer it waits on. */
  lemma CycleCosts(b: Bell, w: nat, r: WashRequest, at: LaAt, launderers: nat)
    requires InCycle(at) && CycleStep(b.hub, w, r.item, at).Some?
    ensures var out := CycleStep(b.hub, w, r.item, at).value;
      LaCost(if out.at.Some? then Busy(r, out.at.value) else Done(r)) + BellMeasure(b.(hub := out.hub), launderers)
        < LaCost(Busy(r, at)) + BellMeasure(b, launderers)
  {
    hide Enough;
  }

  lemma LaMeasure(s: State, w: nat, ok: bool, now: int)
    requires LaNext(s, w, ok, now).Some?
    ensures Measure(LaNext(s, w, ok, now).value) < Measure(s)
  {
    hide LaDecide;
    hide LaEffect;
    hide CycleStep;
    hide PoolMeasure;
    hide DeskMeasure;
    hide BellMeasure;
    var s' := LaNext(s, w, ok, now).value;
    match s.la.workers[w] {
      case Idle => ReceiveCosts(s.la, w, WashCost, LaCost);
      case Busy(r, at) =>
        WorkerCosts(s.la, s'.la, w, WashCost, LaCost);
        if InCycle(at) {
          CycleCosts(s.bell, w, r, at, |s.la.workers|);
        } else {
          LaOutCosts(s.shop.shelf, r, at, ok, now);
        }
        hide LaCost;
      case _ => WorkerCosts(s.la, s'.la, w, WashCost, LaCost);
    }
  }

  lemma StMeasure(s: State, w: nat, ok: bool)
    requires StNext(s, w, ok).Some?
    ensures Measure(StNext(s, w, ok).value) < Measure(s)
  {
    hide StEffect;
    hide PoolMeasure;
    hide DeskMeasure;
    hide BellMeasure;
    var s' := StNext(s, w, ok).value;
    if s.st.workers[w].Idle? {
      ReceiveCosts(s.st, w, RestockCost, StCost);
    } else {
      WorkerCosts(s.st, s'.st, w, RestockCost, StCost);
    }
  }

  // ---- manager, notifier, and leaving

  lemma TakeCosts(d: Desk)
    requires d.taken < |d.inbox|
    ensures Sum(d.inbox[d.taken..], DeliveryCost) ==
            DeliveryCost(d.inbox[d.taken]) + Sum(d.inbox[d.taken + 1..], DeliveryCost)
  {
    SumHead(d.inbox[d.taken..], DeliveryCost);
    assert d.inbox[d.taken..][1..] == d.inbox[d.taken + 1..];
  }

  lemma TakeMeasure(s: State)
    requires MgrReceive(s).Some?
    ensures Measure(MgrReceive(s).value) < Measure(s)
  {
    TakeCosts(s.desk);
    hide PoolMeasure;
    hide BellMeasure;
    hide RequestCost;
    hide Sum;
    hide Accept;
  }

  lemma MgrNextMeasure(s: State, pick: seq<Item>)
    requires MgrNext(s, pick).Some?
    ensures Measure(MgrNext(s, pick).value) < Measure(s)
  {
    hide PoolMeasure;
    hide RequestCost;
    hide Sum;
    if s.desk.mgr.Dispatching? {
      PushCosts(s.hk, s.desk.mgr.req, RequestCost, HkCost);
    } else if s.desk.mgr.Ordering? {
      PushCosts(s.st, RestockRequest(s.desk.mgr.items), RestockCost, StCost);
    }
    hide Push;
  }

  lemma MgrLeaveMeasure(s: State)
    requires MgrLeave(s).Some?
    ensures Measure(MgrLeave(s).value) < Measure(s)
  {
    hide PoolMeasure;
    hide Sum;
  }

  lemma OneLess(n: int, k: int)
    ensures (n - 1) * k == n * k - k
  {
  }

  /** An hour event costs its publication: two steps for each registered channel, at most. */
  lemma NtHourMeasure(b: Bell, launderers: nat)
    requires NtHourEvent(b).Some? && |b.hub.subs| <= launderers
    ensures BellMeasure(NtHourEvent(b).value, launderers) < BellMeasure(b, launderers)
  {
    OneLess(|b.hourIn| - b.hourTaken, 2 * launderers + 2);
  }

  ghost function BellRest(b: Bell): int {
    NtCost(b.nt) + |b.hub.bufs| + (if b.dayBuf.Some? then 16 else 0) + 19 * (|b.dayIn| - b.dayTaken)
  }

  lemma SameHours(b: Bell, b': Bell, launderers: nat)
    requires |b'.hourIn| - b'.hourTaken == |b.hourIn| - b.hourTaken && BellRest(b') < BellRest(b)
    ensures BellMeasure(b', launderers) < BellMeasure(b, launderers)
  {
  }

  lemma OfferMeasure(b: Bell, c: nat)
    requires NtOffer(b, c).Some?
    ensures var b' := NtOffer(b, c).value;
      b'.hourIn == b.hourIn && b'.hourTaken == b.hourTaken && BellRest(b') < BellRest(b)
  {
    hide LogOf;
  }

  lemma NtRestMeasure(b: Bell, a: Action, cancelled: bool)
    requires ByNotifier(a) && !a.NtHour? && NtStep(b, a, cancelled).Some?
    ensures var b' := NtStep(b, a, cancelled).value;
      |b'.hourIn| - b'.hourTaken == |b.hourIn| - b.hourTaken && BellRest(b') < BellRest(b)
  {
    if a.NtSend? {
      OfferMeasure(b, a.ch);
      hide BellRest;
    }
    hide NtOffer;
  }

  lemma NtMeasure(b: Bell, a: Action, cancelled: bool, launderers: nat)
    requires ByNotifier(a) && NtStep(b, a, cancelled).Some? && |b.hub.subs| <= launderers
    ensures BellMeasure(NtStep(b, a, cancelled).value, launderers) < BellMeasure(b, launderers)
  {
    hide BellMeasure;
    hide BellRest;
    hide NtHourEvent;
    if a.NtHour? {
      NtHourMeasure(b, launderers);
    } else {
      NtRestMeasure(b, a, cancelled);
      SameHours(b, NtStep(b, a, cancelled).value, launderers);
    }
  }

  lemma QuitMeasure(s: State, a: Action)
    requires (a.HkQuit? || a.LaQuit? || a.StQuit? || a.Cancel?) && Next(s, a).Some?
    ensures Measure(Next(s, a).value) < Measure(s)
  {
    hide PoolMeasure;
    hide DeskMeasure;
    hide BellMeasure;
    var s' := Next(s, a).value;
    match a {
      case HkQuit(w) => WorkerCosts(s.hk, s'.hk, w, RequestCost, HkCost);
      case LaQuit(w) => WorkerCosts(s.la, s'.la, w, WashCost, LaCost);
      case StQuit(w) => WorkerCosts(s.st, s'.st, w, RestockCost, StCost);
      case Cancel =>
    }
  }

  lemma RegistryBound(s: State)
    requires HubSound(s)
    ensures |s.bell.hub.subs| <= |s.la.workers|
  {
    SumAtMost(s.la.workers, Subscribed, 1);
  }

  lemma BellOnly(s: State, b: Bell)
    requires BellMeasure(b, |s.la.workers|) < BellMeasure(s.bell, |s.la.workers|)
    ensures Measure(s.(bell := b)) < Measure(s)
  {
    hide PoolMeasure;
    hide DeskMeasure;
    hide BellMeasure;
  }

  /** Whatever process moves, and whatever clock, database and random source answer, the measure goes down. */
  lemma MeasureStep(s: State, a: Action)
    requires HubSound(s) && Next(s, a).Some?
    ensures Measure(Next(s, a).value) < Measure(s)
  {
    hide Next;
    hide HkNext;
    hide LaNext;
    hide StNext;
    hide MgrReceive;
    hide MgrNext;
    hide MgrLeave;
    hide NtStep;
    hide Measure;
    hide HubSound;
    Routes(s, a);
    match a {
      case HkGo(w, ok) => HkMeasure(s, w, ok);
      case LaGo(w, ok, now) => LaMeasure(s, w, ok, now);
      case StGo(w, ok) => StMeasure(s, w, ok);
      case HkQuit(_) => QuitMeasure(s, a);
      case LaQuit(_) => QuitMeasure(s, a);
      case StQuit(_) => QuitMeasure(s, a);
      case Cancel => QuitMeasure(s, a);
      case MgrTake => TakeMeasure(s);
      case MgrGo(pick) => MgrNextMeasure(s, pick);
      case MgrQuit => MgrLeaveMeasure(s);
      case _ =>
        RegistryBound(s);
        NtMeasure(s.bell, a, s.cancelled, |s.la.workers|);
        BellOnly(s, NtStep(s.bell, a, s.cancelled).value);
    }
  }
}
