/** What holds in every run of the staff simulator, whatever the interleaving and the failures. */
module Guarantees {
  import opened Collections
  import opened Stock
  import opened Domain
  import opened Employees
  import opened System
  import opened Accounting
  import opened Restocking
  import opened Intake
  import opened Washing
  import opened Termination
  import opened Progress
  import opened Runs
  import opened Timing

  // ---- termination

  /** The number of steps that a setting allows. */
  ghost function StepBound(c: Setting): int {
    5 + c.housekeepers + c.launderers + c.stockers
      + Sum(c.inbox, DeliveryCost) + |c.hourIn| * (2 * c.launderers + 2) + 19 * |c.dayIn|
  }

  lemma InitialMeasure(c: Setting)
    ensures Measure(Initial(c)) == StepBound(c)
  {
    FreshSum(c.housekeepers, HkCost);
    FreshSum(c.launderers, LaCost);
    FreshSum(c.stockers, StCost);
    assert c.inbox[0..] == c.inbox;
    hide HkCost;
    hide LaCost;
    hide StCost;
    hide DeliveryCost;
  }

  lemma RequestCostPositive(r: CleaningRequest)
    ensures 0 <= RequestCost(r) - 1
  {
    SumAtLeast(Tasks(r), TaskCost, 0);
  }

  lemma HkCostPositive(w: Worker<CleaningRequest, HkAt>)
    ensures 0 <= HkCost(w)
  {
    hide RequestCost;
    match w {
      case Got(r) => RequestCostPositive(r);
      case Busy(r, at) =>
        RequestCostPositive(r);
        if at.Todo? {
          SumAtLeast(at.tasks, TaskCost, 0);
        } else if at.Refill? || at.Retry? {
          SumAtLeast(at.rest, TaskCost, 0);
        }
      case _ =>
    }
  }

  lemma PoolPositive<R, L>(p: Pool<R, L>, inQueue: R -> int, inHand: Worker<R, L> -> int)
    requires forall r :: r in p.queue ==> 0 <= inQueue(r)
    requires forall w :: w in p.workers ==> 0 <= inHand(w)
    ensures 0 <= PoolMeasure(p, inQueue, inHand)
  {
    SumAtLeast(p.queue, inQueue, 0);
    SumAtLeast(p.workers, inHand, 0);
  }

  lemma DeskPositive(d: Desk)
    ensures 0 <= DeskMeasure(d)
  {
    hide RequestCost;
    hide Accept;
    if d.mgr.Dispatching? {
      RequestCostPositive(d.mgr.req);
    }
    if d.taken <= |d.inbox| {
      forall x | x in d.inbox[d.taken..] ensures 0 <= DeliveryCost(x) {
        if Accept(x).Some? {
          RequestCostPositive(Accept(x).value);
        }
      }
      SumAtLeast(d.inbox[d.taken..], DeliveryCost, 0);
    }
  }

  lemma BellPositive(b: Bell, launderers: nat)
    requires b.hourTaken <= |b.hourIn| && b.dayTaken <= |b.dayIn|
    ensures 0 <= BellMeasure(b, launderers)
  {
    var n, k: nat := |b.hourIn| - b.hourTaken, 2 * launderers + 2;
    assert 0 <= n * k;
  }

  lemma MeasurePositive(s: State)
    requires s.bell.hourTaken <= |s.bell.hourIn| && s.bell.dayTaken <= |s.bell.dayIn|
    ensures 0 <= Measure(s)
  {
    forall r | r in s.hk.queue ensures 0 <= RequestCost(r) {
      RequestCostPositive(r);
    }
    forall w | w in s.hk.workers ensures 0 <= HkCost(w) {
      HkCostPositive(w);
    }
    hide RequestCost;
    hide HkCost;
    PoolPositive(s.hk, RequestCost, HkCost);
    PoolPositive(s.la, WashCost, LaCost);
    PoolPositive(s.st, RestockCost, StCost);
    DeskPositive(s.desk);
    BellPositive(s.bell, |s.la.workers|);
    hide PoolMeasure;
    hide DeskMeasure;
    hide BellMeasure;
  }

  lemma {:induction false} MeasureAlong(c: Setting, s: State, acts: seq<Action>)
    requires Inv(c, s) && CanRun(s, acts)
    ensures |acts| <= Measure(s) - Measure(After(s, acts))
    decreases |acts|
  {
    hide Next;
    hide Measure;
    hide Inv;
    if acts != [] {
      InvEvents(c, s);
      hide HubSound;
      MeasureStep(s, acts[0]);
      InvStep(c, s, acts[0]);
      MeasureAlong(c, Next(s, acts[0]).value, acts[1..]);
    }
  }

  /** No run has more steps than its messages and staff allow: every interleaving terminates. */
  lemma RunsAreFinite(c: Setting, acts: seq<Action>)
    requires Plausible(c) && CanRun(Initial(c), acts)
    ensures |acts| <= StepBound(c)
  {
    hide Next;
    hide Initial;
    hide Measure;
    hide StepBound;
    InitialMeasure(c);
    InitialInv(c);
    hide Inv;
    MeasureAlong(c, Initial(c), acts);
    InvAlong(c, Initial(c), acts);
    var s := After(Initial(c), acts);
    InvEvents(c, s);
    MeasurePositive(s);
  }

  // ---- stock

  /** The ledger: on the shelf is what there was, plus 50 per restock, minus what was taken; never below zero. */
  lemma Ledger(c: Setting, acts: seq<Action>, s: State, i: Item)
    requires Reached(c, acts, s)
    ensures Qty(s.shop.shelf, i) == Qty(c.shelf, i) + 50 * s.shop.added[i] - Used(s.shop, i)
    ensures 0 <= Qty(s.shop.shelf, i)
  {
    ReachedInv(c, acts, s);
    hide Reached;
    InvItem(c, s, i);
    hide Inv;
  }

  /** Even with all restocks still to come from workers that decided on one, an item stays below its ceiling. */
  lemma NeverOvershoots(c: Setting, acts: seq<Action>, s: State, i: Item)
    requires Reached(c, acts, s)
    ensures
      var others := if i == Soap then c.launderers else if InRecipes(i) then c.housekeepers else 0;
      var restockers := c.stockers + others;
      var ceiling := (if i == Soap then 19 else 9) + 50 * restockers;
      Qty(s.shop.shelf, i) + 50 * Committed(s, i) <= if Qty(c.shelf, i) > ceiling then Qty(c.shelf, i) else ceiling
  {
    ReachedInv(c, acts, s);
    hide Reached;
    InvItem(c, s, i);
    hide Inv;
    hide Committed;
    hide Tidy;
  }

  // ---- requests

  /**
   Cleaning deliveries are settled once each, in order; the requests dispatched are exactly the
   acceptable deliveries, in order; they come out of the queue in that order; and each one received
   is finished or in one worker's hands.
   */
  lemma CleaningConservation(c: Setting, acts: seq<Action>, s: State)
    requires Reached(c, acts, s)
    ensures forall k :: 0 <= k < |s.desk.settled| ==>
      k < |c.inbox| && s.desk.settled[k] == Settlement(k, Accept(c.inbox[k]).Some?)
    ensures var dispatched := |s.desk.settled| + (if s.desk.mgr.Acking? then 1 else 0);
      dispatched <= |c.inbox| && s.hk.sent == Accepted(c.inbox[..dispatched])
    ensures s.hk.sent == s.hk.received + s.hk.queue && |s.hk.queue| <= 32
    ensures forall r :: multiset(s.hk.received)[r] == multiset(s.hk.finished)[r] + Sum(s.hk.workers, Holds(r))
  {
    hide Inv;
    ReachedInv(c, acts, s);
    hide Reached;
    InvDesk(c, s);
    InvPools(c, s);
    InvStaff(c, s);
    hide Accept;
    hide Accepted;
    hide Sum;
    forall r ensures multiset(s.hk.received)[r] == multiset(s.hk.finished)[r] + Sum(s.hk.workers, Holds(r)) {
      assert Kept(s.hk, r);
    }
  }

  /** The books of one pool. */
  ghost predicate BooksBalance<R, L>(p: Pool<R, L>) {
    && Sum(p.status, Handled) == |p.finished| + (|p.workers| - Sum(p.status, IdleFlag))
    && |p.received| - Sum(p.status, Handled) == Sum(p.workers, Unmarked)
    && forall w :: 0 <= w < |p.status| && p.status[w].isIdle ==> p.status[w].currentRequest == p.zero
  }

  lemma PoolBooks<R(!new), L>(p: Pool<R, L>)
    requires Sound(p)
    ensures BooksBalance(p)
  {
    Bookkeeping(p);
    hide Sound;
  }

  /** In all three services the handled counters, the idle flags and the request histories agree. */
  lemma EmployeeBooks(c: Setting, acts: seq<Action>, s: State)
    requires Reached(c, acts, s)
    ensures BooksBalance(s.hk) && BooksBalance(s.la) && BooksBalance(s.st)
  {
    ReachedInv(c, acts, s);
    hide Reached;
    hide Inv;
    InvPools(c, s);
    hide Sound;
    hide BooksBalance;
    PoolBooks(s.hk);
    PoolBooks(s.la);
    PoolBooks(s.st);
  }

  /**
   Each task of the dispatched requests was carried out, was given up, is still to come, or belongs to
   a request skipped as a whole; none is repeated.
   */
  lemma TaskConservation(c: Setting, acts: seq<Action>, s: State, t: Task)
    requires Reached(c, acts, s)
    ensures multiset(s.shop.done)[t] + multiset(s.shop.lost)[t] + Sum(s.shop.skipped, Cost(Is(t)))
              + Sum(s.hk.queue, Cost(Is(t))) + Sum(s.hk.workers, Pending(Is(t)))
            == Sum(s.hk.sent, Cost(Is(t)))
  {
    InitialTasks(c, Is(t));
    TasksAlong(Initial(c), acts, Is(t));
    SumCounts(s.shop.done, t);
    SumCounts(s.shop.lost, t);
    hide Sum;
    hide Next;
    hide Initial;
  }

  /**
   Every wash request sent is one laundry task carried out; requests are received in that order, each
   is finished once or in one launderer's hands, and no unsupported item is ever among them.
   */
  lemma LaundryConservation(c: Setting, acts: seq<Action>, s: State, r: WashRequest)
    requires Reached(c, acts, s)
    ensures multiset(s.la.sent)[r] == multiset(s.shop.done)[Laundry(r)]
    ensures s.la.sent == s.la.received + s.la.queue && |s.la.queue| <= 32
    ensures multiset(s.la.received)[r] == multiset(s.la.finished)[r] + Sum(s.la.workers, Holds(r))
    ensures forall x :: x in s.la.queue ==> Supported(x)
    ensures forall w :: 0 <= w < |s.la.workers| && s.la.workers[w].Busy? ==> Supported(s.la.workers[w].req)
  {
    InitialWashes(c, Is(r));
    WashesAlong(Initial(c), acts, Is(r));
    ReachedInv(c, acts, s);
    CountsLaundry(s.shop.done, r);
    SumCounts(s.la.sent, r);
    hide Sum;
    hide Next;
    hide Initial;
    hide Supported;
    assert LaundrySent(s.la, s.shop, Is(r));
    assert Kept(s.la, r);
    assert LasTidy(s.la);
    assert Queued(s.la);
    forall w | 0 <= w < |s.la.workers| && s.la.workers[w].Busy? ensures Supported(s.la.workers[w].req) {
      assert LaTidy(s.la.workers[w]);
    }
  }

  /** Cottages show the status of the last update carried out. */
  lemma CottageStatuses(c: Setting, acts: seq<Action>, s: State, room: string)
    requires Reached(c, acts, s)
    ensures room in s.shop.cottages <==> room in c.cottages
    ensures room in c.cottages ==> s.shop.cottages[room] == Latest(s.shop.done, room, c.cottages[room])
  {
    StatusAlong(c.cottages, Initial(c), acts, room);
    hide Next;
  }

  // ---- day events

  /**
   Valid day events are accounted for one by one; each one the manager received is one restock
   request, sent or in its hands, for a non-empty duplicate-free selection of managed items.
   */
  lemma DayEvents(c: Setting, acts: seq<Action>, s: State)
    requires Reached(c, acts, s)
    ensures s.bell.dayTaken <= |c.dayIn|
    ensures Sum(c.dayIn[..s.bell.dayTaken], Valid) ==
      s.bell.dayMissed + s.bell.daySkipped + (if s.bell.dayBuf.Some? then 1 else 0) + InFlight(s.bell.nt)
        + |s.st.sent| + (if s.desk.mgr.Ordering? then 1 else 0)
    ensures forall r :: r in s.st.sent ==> Selectable(r.items)
    ensures s.st.sent == s.st.received + s.st.queue && |s.st.queue| <= 16
  {
    ReachedInv(c, acts, s);
    hide Reached;
    hide Selectable;
    hide Sum;
    assert DaysSound(s.desk, s.bell, s.st.sent);
    assert Queued(s.st);
  }

  // ---- hour events and washing cycles

  /** The hour registry is exactly the channels of launderers inside the cycle; retired channels never return. */
  lemma SubscriptionHygiene(c: Setting, acts: seq<Action>, s: State)
    requires Reached(c, acts, s)
    ensures forall ch: nat :: ch in s.bell.hub.subs <==>
      exists w :: 0 <= w < |s.la.workers| && ChanOf(s.la.workers[w]) == Some(ch)
    ensures OwnChannels(s.la)
    ensures |s.bell.hub.subs| <= c.launderers
    ensures forall k, w :: 0 <= k < |s.bell.hub.cycles| && 0 <= w < |s.la.workers| ==>
      ChanOf(s.la.workers[w]) != Some(s.bell.hub.cycles[k].ch)
    ensures forall j, k :: 0 <= j < k < |s.bell.hub.cycles| ==> s.bell.hub.cycles[j].ch != s.bell.hub.cycles[k].ch
  {
    ReachedInv(c, acts, s);
    hide Reached;
    assert HubSound(s) && |s.la.workers| == c.launderers;
    hide Inv;
    RegistryBound(s);
    RegistryOwns(s.la, s.bell.hub);
    hide CyclesOk;
    hide Issued;
    hide CutShort;
  }

  /**
   A cycle that ended has as finish time the first event its channel accepted that was late enough,
   unless cancellation cut it short; and its channel accepted at most one event after that. Late enough
   means one hour after the start for towels and two for linens, in nanoseconds; nothing else is washed.
   */
  lemma CycleEndsWithFirst(c: Setting, acts: seq<Action>, s: State, k: nat)
    requires Reached(c, acts, s) && k < |s.bell.hub.cycles|
    ensures var y := s.bell.hub.cycles[k];
      var log := LogOf(s.bell.hub, y.ch);
      && (y.item == "towels" || y.item == "linens")
      && (y.finish.None? ==> s.cancelled)
      && (y.finish.Some? ==>
            exists n: nat :: n < |log| <= n + 2 && log[n] == y.finish.value
              && (y.item == "towels" ==> FirstAfter(log, y.start, 3_600_000_000_000, n))
              && (y.item == "linens" ==> FirstAfter(log, y.start, 7_200_000_000_000, n)))
  {
    ReachedInv(c, acts, s);
    StartsAreReadings(c, acts, s);
    hide Reached;
    InvHub(c, s);
    hide Inv;
    hide WasRead;
    hide WasReadBySome;
    EndedCycle(s, k);
    hide HubSound;
    hide FirstAfter;
  }

  lemma EndedCycle(s: State, k: nat)
    requires HubSound(s) && k < |s.bell.hub.cycles|
    ensures var y := s.bell.hub.cycles[k];
      var log := LogOf(s.bell.hub, y.ch);
      var n := First(log, y.start, y.item);
      && (y.finish.None? ==> s.cancelled)
      && (y.finish.Some? ==>
            && n < |log| <= n + 2 && log[n] == y.finish.value
            && (y.item == "towels" ==> FirstAfter(log, y.start, 3_600_000_000_000, n))
            && (y.item == "linens" ==> FirstAfter(log, y.start, 7_200_000_000_000, n)))
  {
    var y := s.bell.hub.cycles[k];
    assert CycleOk(s.bell.hub, y);
    hide Issued;
    hide Registry;
    hide Retired;
    var log := LogOf(s.bell.hub, y.ch);
    if First(log, y.start, y.item) < |log| {
      FirstIsAfter(log, y.start, y.item);
    }
    hide FirstAfter;
  }

  /** Event times never go back. */
  predicate Ordered(events: seq<Option<int>>) {
    forall j, k :: 0 <= j <= k < |events| && events[j].Some? && events[k].Some? ==> events[j].value <= events[k].value
  }

  lemma {:induction false} LateAlong(s: State, acts: seq<Action>, ch: nat, n: nat, t: int)
    requires NotBefore(s.bell, t) && LateTail(s.bell.hub, ch, n, t) && CanRun(s, acts)
    ensures LateTail(After(s, acts).bell.hub, ch, n, t)
    decreases |acts|
  {
    hide NotBefore;
    hide LateTail;
    hide Next;
    if acts != [] {
      LateStep(s, acts[0], ch, n, t);
      LateAlong(Next(s, acts[0]).value, acts[1..], ch, n, t);
    }
  }

  /** The situation of a loss: the event on the air is late enough for launderer `w`, whose buffer is full. */
  predicate Loses(s: State, w: nat) {
    && w < |s.la.workers| && s.la.workers[w].Busy? && s.la.workers[w].at.Waiting?
    && s.bell.nt.Publishing? && s.la.workers[w].at.ch in s.bell.hub.bufs
    && Enough(s.la.workers[w].at.start, s.la.workers[w].req.item, s.bell.nt.time)
  }

  lemma LateNow(c: Setting, s: State, w: nat)
    requires Inv(c, s) && Ordered(c.hourIn) && Loses(s, w)
    ensures var ch := s.la.workers[w].at.ch;
      NotBefore(s.bell, s.bell.nt.time) && LateTail(s.bell.hub, ch, |LogOf(s.bell.hub, ch)|, s.bell.nt.time)
  {
    assert OnAir(s.bell) && Issued(s.bell) && Registry(s.la, s.bell.hub) && s.bell.hourIn == c.hourIn;
    assert ChanOf(s.la.workers[w]) == Some(s.la.workers[w].at.ch);
  }

  /**
   When event times never go back, a lost event costs little: as long as the launderer is still
   waiting on that channel, at most one event was accepted since, it is unread, and it ends the cycle.
   */
  lemma LossIsHarmless(c: Setting, before: seq<Action>, s: State, w: nat, later: seq<Action>)
    requires Reached(c, before, s) && Ordered(c.hourIn) && Loses(s, w) && CanRun(s, later)
    requires w < |After(s, later).la.workers| && After(s, later).la.workers[w] == s.la.workers[w]
    ensures var ch := s.la.workers[w].at.ch;
      var n, hub := |LogOf(s.bell.hub, ch)|, After(s, later).bell.hub;
      && n <= |LogOf(hub, ch)| <= n + 1
      && (|LogOf(hub, ch)| == n + 1 ==>
            ch in hub.bufs && Enough(s.la.workers[w].at.start, s.la.workers[w].req.item, hub.bufs[ch]))
  {
    hide Next;
    ReachedInv(c, before, s);
    hide Reached;
    InvAlong(c, s, later);
    LateNow(c, s, w);
    var ch, t, s' := s.la.workers[w].at.ch, s.bell.nt.time, After(s, later);
    LateAlong(s, later, ch, |LogOf(s.bell.hub, ch)|, t);
    InvHub(c, s');
    hide Inv;
    hide HubSound;
    hide NotBefore;
    hide LogOf;
    StillWaiting(s', w, |LogOf(s.bell.hub, ch)|, t);
  }

  lemma StillWaiting(s: State, w: nat, n: nat, t: int)
    requires HubSound(s) && w < |s.la.workers| && s.la.workers[w].Busy? && s.la.workers[w].at.Waiting?
    requires LateTail(s.bell.hub, s.la.workers[w].at.ch, n, t)
    requires Enough(s.la.workers[w].at.start, s.la.workers[w].req.item, t)
    ensures var ch := s.la.workers[w].at.ch;
      var log := LogOf(s.bell.hub, ch);
      && n <= |log| <= n + 1
      && (|log| == n + 1 ==>
            ch in s.bell.hub.bufs && Enough(s.la.workers[w].at.start, s.la.workers[w].req.item, s.bell.hub.bufs[ch]))
  {
    assert PlaceOk(s.bell.hub, s.la.workers[w]);
    hide HubSound;
    var at, item, hub := s.la.workers[w].at, s.la.workers[w].req.item, s.bell.hub;
    hide WaitOk;
    hide Enough;
    WaitingTail(LogOf(hub, at.ch), BufOf(hub, at.ch), at.start, item, n, t);
  }

  /** A waiting launderer has at most one event that is late enough, and has not read it. */
  lemma WaitingTail(log: seq<int>, buf: Option<int>, start: int, item: string, n: nat, t: int)
    requires WaitOk(log, buf, start, item) && Enough(start, item, t)
    requires n <= |log| && forall k :: n <= k < |log| ==> t <= log[k]
    ensures |log| <= n + 1
    ensures |log| == n + 1 ==> buf.Some? && Enough(start, item, buf.value)
  {
    if buf.None? {
      FirstMeans(log, start, item);
      assert n < |log| ==> Enough(start, item, log[n]);
    } else {
      FirstMeans(log[..|log| - 1], start, item);
      assert n + 1 < |log| ==> Enough(start, item, log[..|log| - 1][n]);
    }
  }

  // ---- progress

  predicate Employed(c: Setting) {
    c.housekeepers > 0 && c.launderers > 0 && c.stockers > 0
  }

  /**
   Before cancellation the only way to stand still is to wait for the outside: the notifier is free,
   stockers are idle, every launderer is idle with nothing queued or waits for an hour event, and as
   long as a request waits anywhere, all launderers are inside their washing cycles.
   */
  lemma StandstillIsWaiting(c: Setting, acts: seq<Action>, s: State)
    requires Reached(c, acts, s) && Employed(c) && !s.cancelled && Stuck(s)
    ensures s.bell.nt.Listening? && s.st.queue == []
    ensures forall w :: 0 <= w < |s.la.workers| ==> (s.la.workers[w].Idle? && s.la.queue == []) || WaitsForHour(s, w)
    ensures WorkWaits(s) ==> forall w :: 0 <= w < |s.la.workers| ==> WaitsForHour(s, w)
    ensures !WorkWaits(s) ==> s.hk.queue == [] && forall w :: 0 <= w < |s.hk.workers| ==> s.hk.workers[w].Idle?
  {
    ReachedInv(c, acts, s);
    hide Reached;
    hide Stuck;
    InvStaff(c, s);
    InvPools(c, s);
    hide Inv;
    assert Staffed(s);
    hide PoolsSound;
    AtRest(s);
  }

  lemma ActiveOrNot<R, L>(ws: seq<Worker<R, L>>)
    ensures 0 <= Sum(ws, Active) <= |ws|
    ensures (forall w :: 0 <= w < |ws| ==> Active(ws[w]) == 1) <==> Sum(ws, Active) == |ws|
    decreases |ws|
  {
    if ws != [] {
      ActiveOrNot(ws[..|ws| - 1]);
    }
  }

  lemma NoneUnmarked<R, L>(ws: seq<Worker<R, L>>)
    requires forall w :: 0 <= w < |ws| ==> !ws[w].Got?
    ensures Sum(ws, Unmarked) == 0
    decreases |ws|
  {
    if ws != [] {
      NoneUnmarked(ws[..|ws| - 1]);
    }
  }

  /** Where launderers wait or are idle with nothing queued, the unfinished washes tell whether any is idle. */
  lemma UnfinishedWashes(s: State)
    requires Sound(s.la)
    requires forall w :: 0 <= w < |s.la.workers| ==> (s.la.workers[w].Idle? && s.la.queue == []) || WaitsForHour(s, w)
    ensures (forall w :: 0 <= w < |s.la.workers| ==> WaitsForHour(s, w)) <==>
      |s.la.sent| - |s.la.finished| >= |s.la.workers|
  {
    ActiveOrNot(s.la.workers);
    NoneUnmarked(s.la.workers);
    hide Sum;
    forall w | 0 <= w < |s.la.workers| ensures Active(s.la.workers[w]) == 1 <==> WaitsForHour(s, w) {
    }
    assert |s.la.sent| - |s.la.finished| == Sum(s.la.workers, Active) + |s.la.queue|;
    if s.la.queue != [] {
      assert forall w :: 0 <= w < |s.la.workers| ==> WaitsForHour(s, w);
    }
  }

  /**
   Which standstills keep every launderer inside a cycle: exactly those with at least as many wash
   requests sent and not finished as there are launderers.
   */
  lemma AllWaitWhen(c: Setting, acts: seq<Action>, s: State)
    requires Reached(c, acts, s) && Employed(c) && !s.cancelled && Stuck(s)
    ensures (forall w :: 0 <= w < |s.la.workers| ==> WaitsForHour(s, w)) <==>
      |s.la.sent| - |s.la.finished| >= c.launderers
  {
    ReachedInv(c, acts, s);
    StandstillIsWaiting(c, acts, s);
    hide Reached;
    hide Stuck;
    InvStaff(c, s);
    InvPools(c, s);
    hide Inv;
    hide WorkWaits;
    assert Sound(s.la);
    hide PoolsSound;
    hide Sound;
    UnfinishedWashes(s);
    hide WaitsForHour;
  }

  /** A run of internal steps to a standstill. */
  ghost predicate Settles(s: State, acts: seq<Action>) {
    CanRun(s, acts) && Stuck(After(s, acts)) && forall k :: 0 <= k < |acts| ==> Internal(acts[k])
  }

  lemma Settling(c: Setting, s: State) returns (acts: seq<Action>)
    requires Inv(c, s)
    ensures Settles(s, acts)
    decreases Measure(s)
  {
    hide Measure;
    hide Next;
    hide Inv;
    if a: Action :| Internal(a) && Next(s, a).Some? {
      var s' := Next(s, a).value;
      InvEvents(c, s);
      hide HubSound;
      MeasureStep(s, a);
      InvStep(c, s, a);
      InvEvents(c, s');
      MeasurePositive(s');
      var rest := Settling(c, s');
      acts := [a] + rest;
      assert acts[1..] == rest;
    } else {
      acts := [];
    }
  }

  /** From every reachable state the system can settle by its own steps; there is no endless internal activity. */
  lemma CanSettle(c: Setting, before: seq<Action>, s: State)
    requires Reached(c, before, s)
    ensures exists acts :: Settles(s, acts)
  {
    ReachedInv(c, before, s);
    hide Settles;
    var acts := Settling(c, s);
  }
}
