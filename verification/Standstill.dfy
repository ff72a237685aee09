/**
 A concrete standstill: with two launderers and a single wash under way, one launderer waits for an
 hour event and the other is simply idle. So at a standstill not every launderer is inside a cycle.
 */
module Standstill {
  import opened Collections
  import opened Stock
  import opened Domain
  import opened Employees
  import opened System
  import opened Progress
  import opened Runs

  /** One daily cleaning for room A, enough of everything. */
  function OneDaily(): Setting {
    Setting(map[CleaningItem := 5, Soap := 10], map[], 1, 2, 1, [Decoded("A", 2)], [], [])
  }

  const REQUEST := CleaningRequest("A", DailyCleaning)

  /** Everything but the housekeeper and the launderers is as it will stay. */
  predicate Settled(s: State) {
    && s.desk.mgr == Ready && s.bell.dayBuf == None && s.bell.nt == Listening && !s.cancelled
    && Alike(s.hk) && Alike(s.la) && Alike(s.st)
    && s.st.workers == [Idle] && s.st.queue == [] && |s.hk.workers| == 1
  }

  /** One more step at the end of a run. */
  lemma Then(s: State, acts: seq<Action>, a: Action)
    requires CanRun(s, acts) && Next(After(s, acts), a).Some?
    ensures CanRun(s, acts + [a]) && After(s, acts + [a]) == Next(After(s, acts), a).value
  {
    hide Next;
    assert [a][1..] == [];
    RunAppend(s, acts, [a]);
  }

  lemma AcceptDaily()
    ensures Accept(Decoded("A", 2)) == Some(REQUEST)
  {
    assert !IsSpace("A"[0]);
  }

  /** Housekeeper and launderers at these places, with these wash requests queued. */
  predicate At(s: State, hk: Worker<CleaningRequest, HkAt>, la: Worker<WashRequest, LaAt>, washes: seq<WashRequest>) {
    && Settled(s) && s.hk.workers == [hk] && s.la.workers == [la, Idle]
    && s.la.queue == washes && s.la.capacity == 32
    && s.hk.queue == (if hk.Idle? && la.Idle? && washes == [] then [REQUEST] else [])
    && Qty(s.shop.shelf, Soap) == (if la.Busy? && InCycle(la.at) then 0 else 10)
    && s.bell.hub.bufs == map[]
  }

  /** The manager with its one delivery on its way, and nobody else has moved. */
  predicate Opening(s: State, mgr: Manager, queue: seq<CleaningRequest>) {
    && s.desk.mgr == mgr && s.desk.inbox == [Decoded("A", 2)] && s.hk.queue == queue && s.hk.capacity == 32
    && s.desk.taken == (if mgr == Booting || (mgr == Ready && queue == []) then 0 else 1)
    && Settled(s.(desk := s.desk.(mgr := Ready)))
    && s.hk.workers == [Idle] && s.la.workers == [Idle, Idle] && s.la.queue == [] && s.la.capacity == 32
    && Qty(s.shop.shelf, Soap) == 10 && s.bell.hub.bufs == map[]
  }

  function MgrAfter(mgr: Manager): Manager {
    match mgr
    case Booting => Ready
    case Ready => Dispatching(0, REQUEST)
    case Dispatching(id, _) => Acking(id)
    case _ => Ready
  }

  lemma MgrStep(s: State, mgr: Manager, queue: seq<CleaningRequest>, a: Action)
    requires Opening(s, mgr, queue)
    requires a == if mgr == Ready then MgrTake else MgrGo([])
    requires mgr == Booting || mgr == Ready || mgr == Dispatching(0, REQUEST) || mgr == Acking(0)
    requires queue == if mgr == Acking(0) then [REQUEST] else []
    ensures var o := Next(s, a);
      o.Some? && Opening(o.value, MgrAfter(mgr), if mgr.Dispatching? then [REQUEST] else queue)
  {
    AcceptDaily();
    hide Accept;
    Routes(s, a);
    hide Next;
  }

  lemma MgrThen(acts: seq<Action>, mgr: Manager, queue: seq<CleaningRequest>) returns (more: seq<Action>)
    requires CanRun(Initial(OneDaily()), acts) && Opening(After(Initial(OneDaily()), acts), mgr, queue)
    requires mgr == Booting || mgr == Ready || mgr == Dispatching(0, REQUEST) || mgr == Acking(0)
    requires queue == if mgr == Acking(0) then [REQUEST] else []
    ensures CanRun(Initial(OneDaily()), more)
    ensures Opening(After(Initial(OneDaily()), more), MgrAfter(mgr), if mgr.Dispatching? then [REQUEST] else queue)
  {
    hide Next;
    hide Initial;
    hide Opening;
    var a := if mgr == Ready then MgrTake else MgrGo([]);
    MgrStep(After(Initial(OneDaily()), acts), mgr, queue, a);
    Then(Initial(OneDaily()), acts, a);
    more := acts + [a];
  }

  lemma OpeningAt(s: State)
    requires Opening(s, Ready, [REQUEST])
    ensures At(s, Idle, Idle, [])
  {
    assert s.desk.(mgr := Ready) == s.desk;
  }

  lemma InitialOpening()
    ensures Opening(Initial(OneDaily()), Booting, [])
  {
  }

  lemma ByManager() returns (acts: seq<Action>)
    ensures CanRun(Initial(OneDaily()), acts) && At(After(Initial(OneDaily()), acts), Idle, Idle, [])
  {
    hide Next;
    hide Initial;
    hide Opening;
    hide At;
    InitialOpening();
    acts := MgrThen([], Booting, []);
    acts := MgrThen(acts, Ready, []);
    acts := MgrThen(acts, Dispatching(0, REQUEST), []);
    acts := MgrThen(acts, Acking(0), [REQUEST]);
    OpeningAt(After(Initial(OneDaily()), acts));
  }

  /** The housekeeper's next place. */
  function HkAfter(hk: Worker<CleaningRequest, HkAt>): Worker<CleaningRequest, HkAt> {
    match hk
    case Idle => Got(REQUEST)
    case Got(r) => Busy(r, HkStart)
    case Busy(r, HkStart) => Busy(r, Todo(Tasks(r)))
    case Busy(r, Todo(ts)) => if ts == [] then Done(r) else Busy(r, Todo(ts[1..]))
    case _ => Idle
  }

  function Sent(hk: Worker<CleaningRequest, HkAt>): seq<WashRequest> {
    if hk.Busy? && hk.at.Todo? && hk.at.tasks != [] && hk.at.tasks[0].op.Launder? then
      [WashRequest(hk.at.tasks[0].room, hk.at.tasks[0].op.laundry)]
    else []
  }

  lemma HkStarts(s: State, washes: seq<WashRequest>)
    requires At(s, Busy(REQUEST, HkStart), Idle, washes)
    ensures var o := Next(s, HkGo(0, true));
      o.Some? && At(o.value, HkAfter(Busy(REQUEST, HkStart)), Idle, washes)
  {
    hide Next;
    hide Tasks;
    Routes(s, HkGo(0, true));
  }

  /** One step of the housekeeper; its consumptions fail at the database and are given up. */
  lemma HkStep(s: State, hk: Worker<CleaningRequest, HkAt>, washes: seq<WashRequest>)
    requires At(s, hk, Idle, washes) && |washes| <= 1 && !hk.Stopped?
    requires hk.Idle? ==> washes == []
    requires hk.Busy? ==> hk.at.Todo?
    requires hk.Done? ==> washes != []
    ensures var o := Next(s, HkGo(0, false));
      o.Some? && At(o.value, HkAfter(hk), Idle, washes + Sent(hk))
  {
    hide Next;
    hide Tasks;
    Routes(s, HkGo(0, false));
  }

  const TOWELS := WashRequest("A", "towels")

  /** A run extended by the housekeeper's next step. */
  lemma HkThen(acts: seq<Action>, hk: Worker<CleaningRequest, HkAt>, washes: seq<WashRequest>)
    returns (more: seq<Action>)
    requires CanRun(Initial(OneDaily()), acts) && At(After(Initial(OneDaily()), acts), hk, Idle, washes)
    requires |washes| <= 1 && !hk.Stopped?
    requires hk.Idle? ==> washes == []
    requires hk.Busy? ==> hk.at.Todo? || (hk.at.HkStart? && hk.req == REQUEST)
    requires hk.Done? ==> washes != []
    ensures CanRun(Initial(OneDaily()), more)
    ensures At(After(Initial(OneDaily()), more), HkAfter(hk), Idle, washes + Sent(hk))
  {
    hide Next;
    hide Initial;
    hide At;
    var s := After(Initial(OneDaily()), acts);
    var a := HkGo(0, hk == Busy(REQUEST, HkStart));
    if hk.Busy? && hk.at.HkStart? {
      HkStarts(s, washes);
      assert washes + [] == washes;
    } else {
      HkStep(s, hk, washes);
    }
    Then(Initial(OneDaily()), acts, a);
    more := acts + [a];
  }

  /** The housekeeper gives up the cleaning items, sends the towels, and is done. */
  lemma ByHousekeeper() returns (acts: seq<Action>)
    ensures CanRun(Initial(OneDaily()), acts) && At(After(Initial(OneDaily()), acts), Idle, Idle, [TOWELS])
  {
    hide Next;
    hide Initial;
    hide At;
    var ts := [Task("A", Consume(CleaningItem, 5)), Task("A", Launder("towels")), Task("A", SetStatus(DailyCleaned))];
    assert Tasks(REQUEST) == ts;
    hide Tasks;
    assert ts[1..] == [ts[1], ts[2]] && ts[1..][1..] == [ts[2]] && ts[1..][1..][1..] == [];
    var none: seq<WashRequest> := [];
    assert none + none == none;
    acts := ByManager();
    acts := HkThen(acts, Idle, []);
    acts := HkThen(acts, Got(REQUEST), []);
    acts := HkThen(acts, Busy(REQUEST, HkStart), []);
    acts := HkThen(acts, Busy(REQUEST, Todo(ts)), []);
    acts := HkThen(acts, Busy(REQUEST, Todo(ts[1..])), []);
    assert [] + [TOWELS] == [TOWELS] + [] == [TOWELS];
    acts := HkThen(acts, Busy(REQUEST, Todo(ts[1..][1..])), [TOWELS]);
    acts := HkThen(acts, Busy(REQUEST, Todo([])), [TOWELS]);
    acts := HkThen(acts, Done(REQUEST), [TOWELS]);
  }

  /** The first launderer's next place, up to its registration. */
  function LaAfter(la: Worker<WashRequest, LaAt>): Worker<WashRequest, LaAt> {
    match la
    case Idle => Got(TOWELS)
    case Got(r) => Busy(r, LaStart)
    case Busy(r, LaStart) => Busy(r, Fill(0))
    case _ => Busy(TOWELS, Enter(0))
  }

  lemma LaThen(acts: seq<Action>, la: Worker<WashRequest, LaAt>, washes: seq<WashRequest>) returns (more: seq<Action>)
    requires CanRun(Initial(OneDaily()), acts) && At(After(Initial(OneDaily()), acts), Idle, la, washes)
    requires washes == if la.Idle? then [TOWELS] else []
    requires la == Idle || la == Got(TOWELS) || la == Busy(TOWELS, LaStart) || la == Busy(TOWELS, Fill(0))
    ensures CanRun(Initial(OneDaily()), more) && At(After(Initial(OneDaily()), more), Idle, LaAfter(la), [])
  {
    hide Next;
    hide Initial;
    var s := After(Initial(OneDaily()), acts);
    Routes(s, LaGo(0, true, 0));
    Then(Initial(OneDaily()), acts, LaGo(0, true, 0));
    more := acts + [LaGo(0, true, 0)];
  }

  /** One launderer waits for an hour event, the other has nothing to do, and everything else rests. */
  predicate OneWaits(s: State) {
    && Settled(s) && s.hk.workers == [Idle] && s.hk.queue == [] && s.la.queue == [] && s.bell.hub.bufs == map[]
    && s.bell.hub.next > 0 && s.la.workers == [Busy(TOWELS, Waiting(0, s.bell.hub.next - 1)), Idle]
  }

  lemma ByLaunderer() returns (acts: seq<Action>)
    ensures CanRun(Initial(OneDaily()), acts) && OneWaits(After(Initial(OneDaily()), acts))
  {
    hide Next;
    hide Initial;
    acts := ByHousekeeper();
    acts := LaThen(acts, Idle, [TOWELS]);
    acts := LaThen(acts, Got(TOWELS), []);
    acts := LaThen(acts, Busy(TOWELS, LaStart), []);
    acts := LaThen(acts, Busy(TOWELS, Fill(0)), []);
    var s := After(Initial(OneDaily()), acts);
    Routes(s, LaGo(0, true, 0));
    Then(Initial(OneDaily()), acts, LaGo(0, true, 0));
    acts := acts + [LaGo(0, true, 0)];
  }

  lemma OneWaitsIsStuck(s: State)
    requires OneWaits(s)
    ensures Stuck(s)
  {
    hide Next;
    forall a | Internal(a) ensures Next(s, a).None? {
      Routes(s, a);
    }
  }

  lemma SumPair<T>(xs: seq<T>, f: T -> int)
    requires |xs| == 2
    ensures Sum(xs, f) == f(xs[0]) + f(xs[1])
  {
    assert xs == ([] + [xs[0]]) + [xs[1]];
    SumSnoc([xs[0]], xs[1], f);
    SumSnoc([], xs[0], f);
  }

  lemma OneWash(s: State)
    requires OneWaits(s) && Queued(s.la) && Recorded(s.la)
    ensures |s.la.sent| - |s.la.finished| == 1
  {
    assert s.la.sent == s.la.received;
    SumPair(s.la.workers, Active);
    SumPair(s.la.workers, Unmarked);
    hide Sum;
  }

  /** A standstill with one wash under way and two launderers, one waiting and one idle. */
  ghost predicate OneIdles(s: State) {
    && !s.cancelled && Stuck(s) && |s.la.sent| - |s.la.finished| == 1
    && |s.la.workers| == 2 && WaitsForHour(s, 0) && s.la.workers[1].Idle?
  }

  /**
   A reachable standstill, before cancellation and with a wash under way, in which one launderer waits
   for an hour event and another is idle: not every launderer is inside a washing cycle.
   */
  lemma OneWaitsOneIdles()
    ensures exists acts, s :: Reached(OneDaily(), acts, s) && OneIdles(s)
  {
    hide Next;
    hide Initial;
    var acts := ByLaunderer();
    var s := After(Initial(OneDaily()), acts);
    assert OneIdles(s) by {
      OneWaitsIsStuck(s);
      hide Stuck;
      assert Reached(OneDaily(), acts, s);
      ReachedInv(OneDaily(), acts, s);
      hide Reached;
      assert Queued(s.la) && Recorded(s.la);
      hide Inv;
      OneWash(s);
    }
    assert Reached(OneDaily(), acts, s);
    hide Reached;
    hide OneIdles;
  }
}
