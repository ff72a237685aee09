/** The quantities left at the end do not depend on the schedule, up to whole restocks. */
module Schedules {
  import opened Collections
  import opened Stock
  import opened Domain
  import opened Employees
  import opened System
  import opened Accounting
  import opened Intake
  import opened Restocking
  import opened Runs

  ghost predicate Away<R, L>(p: Pool<R, L>) {
    p.queue == [] && forall w :: w in p.workers ==> w.Idle? || w.Stopped?
  }

  /** All deliveries are settled and no cleaning or wash request is queued or in hand. */
  ghost predicate AllServed(s: State) {
    s.desk.taken == |s.desk.inbox| && !s.desk.mgr.Dispatching? && !s.desk.mgr.Acking? && Away(s.hk) && Away(s.la)
  }

  /** What a list of requests asks of an item: directly, and as soap for its laundry. */
  ghost function Demand(reqs: seq<CleaningRequest>, i: Item): int {
    Sum(reqs, Cost(TaskUse(i))) + Sum(reqs, Cost(AsWash(WashUse(i))))
  }

  /**
   In numbers, what one request asks for: what its recipe takes, and 10 soap for towels and 20 for linens.
   */
  lemma DemandIs(r: CleaningRequest)
    ensures Demand([r], CleaningItem) ==
            (if r.kind == DailyCleaning then 5 else if r.kind == FullCleaning then 10 else 0)
    ensures Demand([r], Soap) == (if r.kind == DailyCleaning then 10 else if r.kind == FullCleaning then 30 else 0)
    ensures Demand([r], WineBottle) == (if r.kind == PrepareForGuest then 1 else 0)
    ensures Demand([r], AromaCandle) == (if r.kind == PrepareForGuest || r.kind == PrepareForSleep then 1 else 0)
    ensures Demand([r], TeaBags) == (if r.kind == PrepareForSleep then 1 else 0)
    ensures forall i :: i in {BathroomAmenities, WaterBottle, Sweets, Chips} ==> Demand([r], i) == 0
  {
    forall i: Item {
      DemandOf(r, i);
    }
  }

  lemma DemandOf(r: CleaningRequest, i: Item)
    ensures Demand([r], i) ==
      match r.kind
      case PrepareForGuest => if i == WineBottle || i == AromaCandle then 1 else 0
      case DailyCleaning => if i == CleaningItem then 5 else if i == Soap then 10 else 0
      case FullCleaning => if i == CleaningItem then 10 else if i == Soap then 30 else 0
      case PrepareForSleep => if i == TeaBags || i == AromaCandle then 1 else 0
      case Unlisted(_) => 0
  {
    SingleSum([r], Cost(TaskUse(i)));
    SingleSum([r], Cost(AsWash(WashUse(i))));
    RecipeSum(r, TaskUse(i));
    RecipeSum(r, AsWash(WashUse(i)));
    hide Tasks;
    hide Sum;
  }

  /** A recipe's weight is that of its tasks, one by one. */
  lemma RecipeSum(r: CleaningRequest, f: Task -> int)
    ensures Sum(Tasks(r), f) ==
      match r.kind
      case PrepareForGuest =>
        f(Task(r.room, Consume(WineBottle, 1))) + f(Task(r.room, Consume(AromaCandle, 1)))
          + f(Task(r.room, SetStatus(PreparedForGuest)))
      case DailyCleaning =>
        f(Task(r.room, Consume(CleaningItem, 5))) + f(Task(r.room, Launder("towels")))
          + f(Task(r.room, SetStatus(DailyCleaned)))
      case FullCleaning =>
        f(Task(r.room, Launder("towels"))) + f(Task(r.room, Launder("linens")))
          + f(Task(r.room, Consume(CleaningItem, 10))) + f(Task(r.room, SetStatus(FullyCleaned)))
      case PrepareForSleep =>
        f(Task(r.room, Consume(TeaBags, 1))) + f(Task(r.room, Consume(AromaCandle, 1)))
          + f(Task(r.room, SetStatus(PreparedForSleep)))
      case Unlisted(_) => 0
  {
    TasksAre(r);
    hide Tasks;
    NoSum(f);
    match r.kind {
      case FullCleaning => SumFour(Tasks(r), f);
      case Unlisted(_) =>
      case _ => SumThree(Tasks(r), f);
    }
    hide Sum;
  }

  lemma SumThree<T>(xs: seq<T>, f: T -> int)
    requires |xs| == 3
    ensures Sum(xs, f) == f(xs[0]) + f(xs[1]) + f(xs[2])
  {
    assert xs == [xs[0]] + [xs[1], xs[2]] && [xs[1], xs[2]] == [xs[1]] + [xs[2]];
    SingleSum([xs[0]], f);
    SumSnoc([xs[0]], xs[1], f);
    SumSnoc([xs[0]] + [xs[1]], xs[2], f);
    assert xs == [xs[0]] + [xs[1]] + [xs[2]];
  }

  lemma SumFour<T>(xs: seq<T>, f: T -> int)
    requires |xs| == 4
    ensures Sum(xs, f) == f(xs[0]) + f(xs[1]) + f(xs[2]) + f(xs[3])
  {
    SumThree(xs[..3], f);
    SumSnoc(xs[..3], xs[3], f);
    assert xs == xs[..3] + [xs[3]];
  }

  /** What was asked of an item and never taken: requests skipped, tasks given up, and washes that got no soap. */
  ghost function Forgone(shop: Shop, i: Item): int {
    Demand(shop.skipped, i)
      + Sum(shop.lost, TaskUse(i)) + Sum(shop.lost, AsWash(WashUse(i))) + Sum(shop.unpaid, WashUse(i))
  }

  lemma NothingPending(s: State, f: Task -> int, g: WashRequest -> int)
    requires Away(s.hk) && Away(s.la)
    ensures Sum(s.hk.queue, Cost(f)) == 0 && Sum(s.hk.workers, Pending(f)) == 0
    ensures Sum(s.la.queue, g) == 0 && Sum(s.la.workers, Due(g)) == 0
  {
    SumAtMost(s.hk.workers, Pending(f), 0);
    SumAtLeast(s.hk.workers, Pending(f), 0);
    SumAtMost(s.la.workers, Due(g), 0);
    SumAtLeast(s.la.workers, Due(g), 0);
  }

  /** When all is served, what was taken is what was asked for, less what was forgone. */
  lemma UsedIsDemanded(c: Setting, acts: seq<Action>, s: State, i: Item)
    requires Reached(c, acts, s) && AllServed(s)
    ensures Used(s.shop, i) == Demand(s.hk.sent, i) - Forgone(s.shop, i)
  {
    var f, g := TaskUse(i), WashUse(i);
    InitialTasks(c, f);
    InitialTasks(c, AsWash(g));
    InitialWashes(c, g);
    TasksAlong(Initial(c), acts, f);
    TasksAlong(Initial(c), acts, AsWash(g));
    WashesAlong(Initial(c), acts, g);
    NothingPending(s, f, g);
    NothingPending(s, AsWash(g), g);
    hide Next;
    hide Initial;
    hide Sum;
  }

  lemma AllDispatched(c: Setting, acts: seq<Action>, s: State)
    requires Reached(c, acts, s) && AllServed(s)
    ensures s.hk.sent == Accepted(c.inbox)
  {
    hide Inv;
    ReachedInv(c, acts, s);
    hide Reached;
    InvDesk(c, s);
    hide Accept;
    hide Accepted;
    hide Away;
    assert c.inbox[..|c.inbox|] == c.inbox;
  }

  /** The exact quantity left when all is served, in terms of the deliveries alone. */
  lemma QuantityLeft(c: Setting, acts: seq<Action>, s: State, i: Item)
    requires Reached(c, acts, s) && AllServed(s)
    ensures Qty(s.shop.shelf, i) ==
      Qty(c.shelf, i) + 50 * s.shop.added[i] - Demand(Accepted(c.inbox), i) + Forgone(s.shop, i)
  {
    hide Reached;
    hide Inv;
    hide AllServed;
    hide Demand;
    hide Forgone;
    hide Used;
    hide Accepted;
    hide Tidy;
    hide Contained;
    ReachedInv(c, acts, s);
    InvItem(c, s, i);
    UsedIsDemanded(c, acts, s, i);
    AllDispatched(c, acts, s);
  }

  lemma Mod50(a: int, b: int, k: int)
    requires a == b + 50 * k
    ensures a % 50 == b % 50
  {
  }

  lemma LeftModulo(c: Setting, acts: seq<Action>, s: State, i: Item)
    requires Reached(c, acts, s) && AllServed(s) && Forgone(s.shop, i) == 0
    ensures Qty(s.shop.shelf, i) % 50 == (Qty(c.shelf, i) - Demand(Accepted(c.inbox), i)) % 50
  {
    hide Reached;
    hide AllServed;
    hide Demand;
    hide Forgone;
    hide Accepted;
    QuantityLeft(c, acts, s, i);
    Mod50(Qty(s.shop.shelf, i), Qty(c.shelf, i) - Demand(Accepted(c.inbox), i), s.shop.added[i]);
  }

  lemma DemandPermuted(xs: seq<CleaningRequest>, ys: seq<CleaningRequest>, i: Item)
    requires multiset(xs) == multiset(ys)
    ensures Demand(xs, i) == Demand(ys, i)
  {
    SumPermuted(xs, ys, Cost(TaskUse(i)));
    SumPermuted(xs, ys, Cost(AsWash(WashUse(i))));
  }

  /**
   Schedule independence: two runs, from the same opening quantity and for the same acceptable
   requests in any order, that serve everything and forgo nothing, leave quantities that differ by
   whole restocks only.
   */
  lemma SchedulesAgree(c: Setting, acts: seq<Action>, s: State, c': Setting, acts': seq<Action>, s': State, i: Item)
    requires Reached(c, acts, s) && AllServed(s) && Forgone(s.shop, i) == 0
    requires Reached(c', acts', s') && AllServed(s') && Forgone(s'.shop, i) == 0
    requires Qty(c.shelf, i) == Qty(c'.shelf, i)
    requires multiset(Accepted(c.inbox)) == multiset(Accepted(c'.inbox))
    ensures Qty(s.shop.shelf, i) % 50 == (Qty(c.shelf, i) - Demand(Accepted(c.inbox), i)) % 50
    ensures Qty(s.shop.shelf, i) % 50 == Qty(s'.shop.shelf, i) % 50
  {
    hide Reached;
    hide AllServed;
    hide Demand;
    hide Forgone;
    hide Accepted;
    LeftModulo(c, acts, s, i);
    LeftModulo(c', acts', s', i);
    DemandPermuted(Accepted(c.inbox), Accepted(c'.inbox), i);
  }

  // ---- when nothing is forgone

  /** A worker's step that meets no failing call, and whose retry, if it is one, finds enough. */
  predicate Smooth(s: State, a: Action) {
    match a
    case HkGo(w, ok) =>
      ok && (w < |s.hk.workers| && s.hk.workers[w].Busy? && s.hk.workers[w].at.Retry? ==>
               Qty(s.shop.shelf, s.hk.workers[w].at.item) >= s.hk.workers[w].at.qty)
    case LaGo(w, ok, _) =>
      ok && (w < |s.la.workers| && s.la.workers[w].Busy? && s.la.workers[w].at.Again? ==>
               Qty(s.shop.shelf, Soap) >= SoapFor(s.la.workers[w].req.item))
    case _ => true
  }

  /** No clock or database call of a housekeeper or launderer fails, and every consumption succeeds in the end. */
  predicate SmoothRun(s: State, acts: seq<Action>)
    requires CanRun(s, acts)
    decreases |acts|
  {
    acts == [] || (Smooth(s, acts[0]) && SmoothRun(Next(s, acts[0]).value, acts[1..]))
  }

  /** No request skipped, no consumption or laundry given up, and no wash without its soap. */
  predicate Clear(shop: Shop) {
    && shop.skipped == [] && (forall t :: t in shop.lost ==> t.op.SetStatus?)
    && forall r :: r in shop.unpaid ==> WashTable(r.item).None?
  }

  lemma HkClear(shop: Shop, full: bool, req: CleaningRequest, at: HkAt)
    requires HkDecide(shop, full, req, at, true).Some?
    requires at.Retry? ==> Qty(shop.shelf, at.item) >= at.qty
    ensures var out := HkDecide(shop, full, req, at, true).value;
      out.skipped == [] && forall t :: t in out.lost ==> t.op.SetStatus?
  {
    hide Tasks;
  }

  lemma LaClear(shelf: Shelf, item: string, at: LaAt, now: int)
    requires !InCycle(at) && (at.Again? ==> Qty(shelf, Soap) >= SoapFor(item))
    ensures LaDecide(shelf, item, at, true, now).unpaid ==> WashTable(item).None?
  {
  }

  lemma ClearStep(s: State, a: Action)
    requires Clear(s.shop) && Smooth(s, a) && Next(s, a).Some?
    ensures Clear(Next(s, a).value.shop)
  {
    hide Next;
    hide HkDecide;
    hide LaDecide;
    hide CycleStep;
    hide SoapFor;
    hide WashTable;
    Routes(s, a);
    match a {
      case HkGo(w, _) =>
        if s.hk.workers[w].Busy? {
          HkClear(s.shop, Full(s.la), s.hk.workers[w].req, s.hk.workers[w].at);
        }
      case LaGo(w, _, now) =>
        if s.la.workers[w].Busy? && !InCycle(s.la.workers[w].at) {
          LaClear(s.shop.shelf, s.la.workers[w].req.item, s.la.workers[w].at, now);
        }
      case StGo(_, _) =>
      case _ => OthersKeepShop(s, a);
    }
  }

  lemma {:induction false} ClearAlong(s: State, acts: seq<Action>)
    requires Clear(s.shop) && CanRun(s, acts) && SmoothRun(s, acts)
    ensures Clear(After(s, acts).shop)
    decreases |acts|
  {
    hide Next;
    hide Clear;
    hide Smooth;
    if acts != [] {
      ClearStep(s, acts[0]);
      ClearAlong(Next(s, acts[0]).value, acts[1..]);
    }
  }

  lemma ClearForgoesNothing(shop: Shop, i: Item)
    requires Clear(shop)
    ensures Forgone(shop, i) == 0
  {
    SumAtMost(shop.lost, TaskUse(i), 0);
    SumAtLeast(shop.lost, TaskUse(i), 0);
    SumAtMost(shop.lost, AsWash(WashUse(i)), 0);
    SumAtLeast(shop.lost, AsWash(WashUse(i)), 0);
    SumAtMost(shop.unpaid, WashUse(i), 0);
    SumAtLeast(shop.unpaid, WashUse(i), 0);
  }

  /** A run in which no call fails and every consumption succeeds in the end forgoes nothing. */
  lemma SmoothForgoesNothing(c: Setting, acts: seq<Action>, s: State, i: Item)
    requires Reached(c, acts, s) && SmoothRun(Initial(c), acts)
    ensures Forgone(s.shop, i) == 0
  {
    ClearAlong(Initial(c), acts);
    hide Next;
    hide Forgone;
    ClearForgoesNothing(s.shop, i);
  }

  /** Without failures and up to whole restocks, the deliveries alone decide what is left. */
  lemma SmoothSchedulesAgree(c: Setting, acts: seq<Action>, s: State,
                             c': Setting, acts': seq<Action>, s': State, i: Item)
    requires Reached(c, acts, s) && AllServed(s) && SmoothRun(Initial(c), acts)
    requires Reached(c', acts', s') && AllServed(s') && SmoothRun(Initial(c'), acts')
    requires Qty(c.shelf, i) == Qty(c'.shelf, i)
    requires multiset(Accepted(c.inbox)) == multiset(Accepted(c'.inbox))
    ensures Qty(s.shop.shelf, i) % 50 == (Qty(c.shelf, i) - Demand(Accepted(c.inbox), i)) % 50
    ensures Qty(s.shop.shelf, i) % 50 == Qty(s'.shop.shelf, i) % 50
  {
    hide AllServed;
    hide Demand;
    hide Forgone;
    hide Accepted;
    SmoothForgoesNothing(c, acts, s, i);
    SmoothForgoesNothing(c', acts', s', i);
    hide Reached;
    hide SmoothRun;
    SchedulesAgree(c, acts, s, c', acts', s', i);
  }
}
