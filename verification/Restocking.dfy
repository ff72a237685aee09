/** What travels through the queues, and why concurrent restocking never overshoots. */
module Restocking {
  import opened Collections
  import opened Stock
  import opened Domain
  import opened Employees
  import opened System

  // ---- what the queues carry

  predicate Supported(r: WashRequest) {
    WashTable(r.item).Some?
  }

  predicate HkTidy(w: Worker<CleaningRequest, HkAt>) {
    w.Busy? ==> match w.at
      case HkStart => true
      case Todo(ts) => AllModest(ts)
      case Refill(room, i, q, rest) => Modest(Task(room, Consume(i, q))) && AllModest(rest)
      case Retry(room, i, q, rest) => Modest(Task(room, Consume(i, q))) && AllModest(rest)
  }

  predicate LaTidy(w: Worker<WashRequest, LaAt>) {
    w.Got? || w.Busy? || w.Done? ==> Supported(w.req)
  }

  predicate StTidy(w: Worker<RestockRequest, StAt>) {
    && (w.Got? || w.Busy? || w.Done? ==> Selectable(w.req.items))
    && (w.Busy? && w.at.Shelving? ==> Distinct(w.at.rest))
  }

  predicate HksTidy(hk: Pool<CleaningRequest, HkAt>) {
    forall w :: 0 <= w < |hk.workers| ==> HkTidy(hk.workers[w])
  }

  predicate LasTidy(la: Pool<WashRequest, LaAt>) {
    && (forall r :: r in la.queue ==> Supported(r))
    && (forall w :: 0 <= w < |la.workers| ==> LaTidy(la.workers[w]))
  }

  predicate StsTidy(st: Pool<RestockRequest, StAt>) {
    && (forall r :: r in st.queue ==> Selectable(r.items))
    && (forall w :: 0 <= w < |st.workers| ==> StTidy(st.workers[w]))
  }

  /** Recipes stay modest, only supported laundry is sent, and every restock list is duplicate-free. */
  predicate Tidy(s: State) {
    && HksTidy(s.hk) && LasTidy(s.la) && StsTidy(s.st)
    && (s.desk.mgr.Ordering? ==> Selectable(s.desk.mgr.items))
  }

  /** A housekeeper's decision keeps its own list modest, and sends only laundry the wash table knows. */
  lemma HkOutTidy(shop: Shop, full: bool, req: CleaningRequest, at: HkAt, ok: bool)
    requires HkTidy(Busy(req, at)) && HkDecide(shop, full, req, at, ok).Some?
    ensures var out := HkDecide(shop, full, req, at, ok).value;
      && (out.at.Some? ==> HkTidy(Busy(req, out.at.value)))
      && AllModest(out.done)
  {
    RecipesAreModest(req);
    hide Tasks;
    if at.Todo? && at.tasks != [] {
      assert at.tasks[0] in at.tasks;
    }
  }

  lemma HkTidyStep(s: State, w: nat, ok: bool)
    requires HksTidy(s.hk) && LasTidy(s.la) && HkNext(s, w, ok).Some?
    ensures var s' := HkNext(s, w, ok).value; HksTidy(s'.hk) && LasTidy(s'.la)
  {
    hide HkDecide;
    if s.hk.workers[w].Busy? {
      HkOutTidy(s.shop, Full(s.la), s.hk.workers[w].req, s.hk.workers[w].at, ok);
      hide HkTidy;
      var done := HkDecide(s.shop, Full(s.la), s.hk.workers[w].req, s.hk.workers[w].at, ok).value.done;
      assert |done| == 1 ==> done[0] in done;
    }
  }

  lemma LaTidyStep(s: State, w: nat, ok: bool, now: int)
    requires LasTidy(s.la) && LaNext(s, w, ok, now).Some?
    ensures LasTidy(LaNext(s, w, ok, now).value.la)
  {
    hide LaDecide;
    hide CycleStep;
    hide Supported;
  }

  lemma StTidyStep(s: State, w: nat, ok: bool)
    requires StsTidy(s.st) && StNext(s, w, ok).Some?
    ensures StsTidy(StNext(s, w, ok).value.st)
  {
    if s.st.workers[w].Busy? && s.st.workers[w].at.Shelving? && s.st.workers[w].at.rest != [] {
      DistinctTail(s.st.workers[w].at.rest);
    }
  }

  lemma TidyStep(s: State, a: Action)
    requires Tidy(s) && Next(s, a).Some?
    ensures Tidy(Next(s, a).value)
  {
    hide Next;
    hide HkNext;
    hide LaNext;
    hide StNext;
    hide NtStep;
    Routes(s, a);
    match a {
      case HkGo(w, ok) => HkTidyStep(s, w, ok); WorkersKeepDesk(s, a);
      case LaGo(w, ok, now) => LaTidyStep(s, w, ok, now); WorkersKeepDesk(s, a);
      case StGo(w, ok) => StTidyStep(s, w, ok); WorkersKeepDesk(s, a);
      case _ =>
    }
  }

  lemma WorkersKeepDesk(s: State, a: Action)
    requires ByWorker(a) && Next(s, a).Some?
    ensures var s' := Next(s, a).value;
      && s'.desk == s.desk
      && (!a.HkGo? ==> s'.hk == s.hk)
      && (!a.StGo? ==> s'.st == s.st)
      && (a.StGo? ==> s'.la == s.la)
  {
    hide Next;
    hide HkDecide;
    hide LaDecide;
    hide StDecide;
    hide CycleStep;
    Routes(s, a);
  }

  // ---- commitments to restock

  function HkBound(i: Item): Worker<CleaningRequest, HkAt> -> int {
    (w: Worker<CleaningRequest, HkAt>) => if w.Busy? && w.at.Refill? && w.at.item == i then 1 else 0
  }

  function LaBound(i: Item): Worker<WashRequest, LaAt> -> int {
    (w: Worker<WashRequest, LaAt>) => if w.Busy? && w.at.TopUp? && i == Soap then 1 else 0
  }

  function StBound(i: Item): Worker<RestockRequest, StAt> -> int {
    (w: Worker<RestockRequest, StAt>) =>
      if w.Busy? && w.at.Shelving? && i in w.at.rest && Qty(w.at.snapshot, i) < MINIMUM then 1 else 0
  }

  /** How many workers are going to restock the item and have not done it yet. */
  ghost function Committed(s: State, i: Item): int {
    Sum(s.hk.workers, HkBound(i)) + Sum(s.la.workers, LaBound(i)) + Sum(s.st.workers, StBound(i))
  }

  predicate InRecipes(i: Item) {
    i == CleaningItem || i == WineBottle || i == AromaCandle || i == TeaBags
  }

  /** How many workers may ever be committed to the item. */
  function Restockers(s: State, i: Item): int {
    |s.st.workers| + (if i == Soap then |s.la.workers| else if InRecipes(i) then |s.hk.workers| else 0)
  }

  /** The largest quantity at which some worker still decides to restock. */
  function Trigger(i: Item): int {
    if i == Soap then 19 else 9
  }

  function Ceiling(opening: Shelf, s: State, i: Item): int {
    var c := Trigger(i) + REPLENISHMENT * Restockers(s, i);
    if Qty(opening, i) > c then Qty(opening, i) else c
  }

  /** Even when all committed restocks arrive, the item stays below its ceiling. */
  ghost predicate Contained(opening: Shelf, s: State, i: Item) {
    Qty(s.shop.shelf, i) + REPLENISHMENT * Committed(s, i) <= Ceiling(opening, s, i)
  }

  lemma HkAtMost(s: State, i: Item)
    requires HksTidy(s.hk)
    ensures Sum(s.hk.workers, HkBound(i)) <= if InRecipes(i) then |s.hk.workers| else 0
  {
    forall w | w in s.hk.workers
      ensures HkBound(i)(w) <= if InRecipes(i) then 1 else 0
    {
      assert HkTidy(w);
    }
    SumAtMost(s.hk.workers, HkBound(i), if InRecipes(i) then 1 else 0);
  }

  lemma LaAtMost(s: State, i: Item)
    ensures Sum(s.la.workers, LaBound(i)) <= if i == Soap then |s.la.workers| else 0
    ensures Sum(s.st.workers, StBound(i)) <= |s.st.workers|
  {
    SumAtMost(s.la.workers, LaBound(i), if i == Soap then 1 else 0);
    SumAtMost(s.st.workers, StBound(i), 1);
  }

  lemma CommittedAtMost(s: State, i: Item)
    requires Tidy(s)
    ensures Committed(s, i) <= Restockers(s, i)
  {
    hide HksTidy;
    hide LasTidy;
    hide StsTidy;
    HkAtMost(s, i);
    LaAtMost(s, i);
    hide Sum;
    hide HkBound;
    hide LaBound;
    hide StBound;
  }

  /** A worker of one kind that changes its place changes the commitments by its own. */
  lemma HkShift(s: State, s': State, w: nat, i: Item)
    requires s'.la.workers == s.la.workers && s'.st.workers == s.st.workers
    requires w < |s.hk.workers| == |s'.hk.workers| && s'.hk.workers == s.hk.workers[w := s'.hk.workers[w]]
    ensures Restockers(s', i) == Restockers(s, i)
    ensures Committed(s', i) == Committed(s, i) - HkBound(i)(s.hk.workers[w]) + HkBound(i)(s'.hk.workers[w])
  {
    hide Sum;
    hide HkBound;
    SumUpdate(s.hk.workers, w, s'.hk.workers[w], HkBound(i));
  }

  lemma LaShift(s: State, s': State, w: nat, i: Item)
    requires s'.hk.workers == s.hk.workers && s'.st.workers == s.st.workers
    requires w < |s.la.workers| == |s'.la.workers| && s'.la.workers == s.la.workers[w := s'.la.workers[w]]
    ensures Restockers(s', i) == Restockers(s, i)
    ensures Committed(s', i) == Committed(s, i) - LaBound(i)(s.la.workers[w]) + LaBound(i)(s'.la.workers[w])
  {
    hide Sum;
    hide LaBound;
    SumUpdate(s.la.workers, w, s'.la.workers[w], LaBound(i));
  }

  lemma StShift(s: State, s': State, w: nat, i: Item)
    requires s'.hk.workers == s.hk.workers && s'.la.workers == s.la.workers
    requires w < |s.st.workers| == |s'.st.workers| && s'.st.workers == s.st.workers[w := s'.st.workers[w]]
    ensures Restockers(s', i) == Restockers(s, i)
    ensures Committed(s', i) == Committed(s, i) - StBound(i)(s.st.workers[w]) + StBound(i)(s'.st.workers[w])
  {
    hide Sum;
    hide StBound;
    SumUpdate(s.st.workers, w, s'.st.workers[w], StBound(i));
  }

  lemma TaskBound(shop: Shop, full: bool, ok: bool, t: Task, rest: seq<Task>, req: CleaningRequest, i: Item)
    requires Modest(t) && HkTask(shop, full, ok, t, rest).Some?
    ensures var out := HkTask(shop, full, ok, t, rest).value;
      && out.at.Some?
      && (|| Qty(Moved(shop.shelf, out.move), i) + REPLENISHMENT * HkBound(i)(Busy(req, out.at.value))
               <= Qty(shop.shelf, i)
          || Qty(Moved(shop.shelf, out.move), i) <= Trigger(i))
  {
  }

  /** A worker that becomes committed saw at most the trigger; any other step adds no more than it releases. */
  lemma HkOutBound(shop: Shop, full: bool, req: CleaningRequest, at: HkAt, ok: bool, i: Item)
    requires HkTidy(Busy(req, at)) && HkDecide(shop, full, req, at, ok).Some?
    ensures var out := HkDecide(shop, full, req, at, ok).value;
      var w' := if out.at.Some? then Busy(req, out.at.value) else Done(req);
      || Qty(Moved(shop.shelf, out.move), i) + REPLENISHMENT * HkBound(i)(w')
           <= Qty(shop.shelf, i) + REPLENISHMENT * HkBound(i)(Busy(req, at))
      || Qty(Moved(shop.shelf, out.move), i) <= Trigger(i)
  {
    hide Tasks;
    hide HkTask;
    if at.Todo? && at.tasks != [] {
      assert at.tasks[0] in at.tasks;
      TaskBound(shop, full, ok, at.tasks[0], at.tasks[1..], req, i);
      hide Modest;
    }
  }

  /** The two ways a step keeps an item contained. */
  lemma Settle(opening: Shelf, s: State, s': State, i: Item)
    requires Contained(opening, s, i) && Tidy(s')
    requires Restockers(s', i) == Restockers(s, i)
    requires
      || Qty(s'.shop.shelf, i) + REPLENISHMENT * Committed(s', i)
           <= Qty(s.shop.shelf, i) + REPLENISHMENT * Committed(s, i)
      || Qty(s'.shop.shelf, i) <= Trigger(i)
    ensures Contained(opening, s', i)
  {
    hide Tidy;
    hide Committed;
    hide Restockers;
    CommittedAtMost(s', i);
  }

  /** A housekeeper's step changes the commitments by its own. */
  lemma HkDelta(s: State, w: nat, ok: bool, i: Item)
    requires HkNext(s, w, ok).Some?
    ensures var s' := HkNext(s, w, ok).value;
      && Restockers(s', i) == Restockers(s, i)
      && Committed(s', i) == Committed(s, i) - HkBound(i)(s.hk.workers[w]) + HkBound(i)(s'.hk.workers[w])
  {
    hide HkDecide;
    hide HkEffect;
    hide Committed;
    hide Restockers;
    hide HkBound;
    HkShift(s, HkNext(s, w, ok).value, w, i);
  }

  lemma HkContained(opening: Shelf, s: State, w: nat, ok: bool, i: Item)
    requires Contained(opening, s, i) && Tidy(s) && HkNext(s, w, ok).Some? && Tidy(HkNext(s, w, ok).value)
    ensures Contained(opening, HkNext(s, w, ok).value, i)
  {
    hide HkDecide;
    hide Committed;
    hide Restockers;
    hide Contained;
    hide Trigger;
    hide Moved;
    hide Tidy;
    HkDelta(s, w, ok, i);
    if s.hk.workers[w].Busy? {
      WorkerTidy(s, w);
      HkOutBound(s.shop, Full(s.la), s.hk.workers[w].req, s.hk.workers[w].at, ok, i);
    }
    Settle(opening, s, HkNext(s, w, ok).value, i);
  }

  lemma WorkerTidy(s: State, w: nat)
    requires Tidy(s) && w < |s.hk.workers|
    ensures HkTidy(s.hk.workers[w])
  {
  }

  lemma LaOutBound(shelf: Shelf, req: WashRequest, at: LaAt, ok: bool, now: int, i: Item)
    requires !InCycle(at)
    ensures var out := LaDecide(shelf, req.item, at, ok, now);
      var w' := if out.at.Some? then Busy(req, out.at.value) else Done(req);
      || Qty(Moved(shelf, out.move), i) + REPLENISHMENT * LaBound(i)(w')
           <= Qty(shelf, i) + REPLENISHMENT * LaBound(i)(Busy(req, at))
      || Qty(Moved(shelf, out.move), i) <= Trigger(i)
  {
  }

  lemma CycleUnbound(hub: Hub, w: nat, item: string, at: LaAt)
    requires InCycle(at) && CycleStep(hub, w, item, at).Some?
    ensures var out := CycleStep(hub, w, item, at).value; !at.TopUp? && (out.at.Some? ==> !out.at.value.TopUp?)
  {
  }

  lemma LaDelta(s: State, w: nat, ok: bool, now: int, i: Item)
    requires LaNext(s, w, ok, now).Some?
    ensures var s' := LaNext(s, w, ok, now).value;
      && Restockers(s', i) == Restockers(s, i)
      && Committed(s', i) == Committed(s, i) - LaBound(i)(s.la.workers[w]) + LaBound(i)(s'.la.workers[w])
  {
    hide LaDecide;
    hide LaEffect;
    hide CycleStep;
    hide Committed;
    hide Restockers;
    hide LaBound;
    LaShift(s, LaNext(s, w, ok, now).value, w, i);
  }

  lemma LaContained(opening: Shelf, s: State, w: nat, ok: bool, now: int, i: Item)
    requires Contained(opening, s, i) && LaNext(s, w, ok, now).Some? && Tidy(LaNext(s, w, ok, now).value)
    ensures Contained(opening, LaNext(s, w, ok, now).value, i)
  {
    hide LaDecide;
    hide CycleStep;
    hide Committed;
    hide Restockers;
    hide Contained;
    hide Trigger;
    hide Moved;
    hide Tidy;
    LaDelta(s, w, ok, now, i);
    if s.la.workers[w].Busy? {
      var req, at := s.la.workers[w].req, s.la.workers[w].at;
      if InCycle(at) {
        CycleUnbound(s.bell.hub, w, req.item, at);
      } else {
        LaOutBound(s.shop.shelf, req, at, ok, now, i);
      }
    }
    Settle(opening, s, LaNext(s, w, ok, now).value, i);
  }

  lemma StOutBound(shelf: Shelf, req: RestockRequest, at: StAt, ok: bool, i: Item)
    requires at.Shelving? ==> Distinct(at.rest)
    ensures var out := StDecide(shelf, req.items, at, ok);
      var w' := if out.at.Some? then Busy(req, out.at.value) else Done(req);
      || Qty(Moved(shelf, out.move), i) + REPLENISHMENT * StBound(i)(w')
           <= Qty(shelf, i) + REPLENISHMENT * StBound(i)(Busy(req, at))
      || Qty(Moved(shelf, out.move), i) <= Trigger(i)
  {
    if at.Shelving? && at.rest != [] {
      DistinctTail(at.rest);
      assert at.rest == [at.rest[0]] + at.rest[1..];
    }
  }

  lemma StDelta(s: State, w: nat, ok: bool, i: Item)
    requires StNext(s, w, ok).Some?
    ensures var s' := StNext(s, w, ok).value;
      && Restockers(s', i) == Restockers(s, i)
      && Committed(s', i) == Committed(s, i) - StBound(i)(s.st.workers[w]) + StBound(i)(s'.st.workers[w])
  {
    hide StDecide;
    hide StEffect;
    hide Committed;
    hide Restockers;
    hide StBound;
    StShift(s, StNext(s, w, ok).value, w, i);
  }

  lemma StContained(opening: Shelf, s: State, w: nat, ok: bool, i: Item)
    requires Contained(opening, s, i) && Tidy(s) && StNext(s, w, ok).Some? && Tidy(StNext(s, w, ok).value)
    ensures Contained(opening, StNext(s, w, ok).value, i)
  {
    hide StDecide;
    hide Committed;
    hide Restockers;
    hide Contained;
    hide Trigger;
    hide Moved;
    hide HksTidy;
    hide LasTidy;
    hide Selectable;
    StDelta(s, w, ok, i);
    if s.st.workers[w].Busy? {
      assert StTidy(s.st.workers[w]);
      StOutBound(s.shop.shelf, s.st.workers[w].req, s.st.workers[w].at, ok, i);
    }
    Settle(opening, s, StNext(s, w, ok).value, i);
  }

  /** A worker that leaves, or is cut short, was not committed and does not become so. */
  lemma LeaversShift(s: State, a: Action, i: Item)
    requires (a.HkQuit? || a.LaQuit? || a.StQuit?) && Next(s, a).Some?
    ensures var s' := Next(s, a).value; Committed(s', i) == Committed(s, i) && Restockers(s', i) == Restockers(s, i)
  {
    hide Committed;
    hide Restockers;
    Routes(s, a);
    var s' := Next(s, a).value;
    hide Next;
    match a {
      case HkQuit(w) => HkShift(s, s', w, i);
      case LaQuit(w) => LaShift(s, s', w, i);
      case StQuit(w) => StShift(s, s', w, i);
    }
  }

  lemma SameWorkers(s: State, s': State, i: Item)
    requires s'.hk.workers == s.hk.workers && s'.la.workers == s.la.workers && s'.st.workers == s.st.workers
    ensures Committed(s', i) == Committed(s, i) && Restockers(s', i) == Restockers(s, i)
  {
    hide Sum;
  }

  /** Manager, notifier and cancellation move no worker. */
  lemma NoWorkerMoves(s: State, a: Action)
    requires !ByWorker(a) && !a.HkQuit? && !a.LaQuit? && !a.StQuit? && Next(s, a).Some?
    ensures var s' := Next(s, a).value;
      s'.hk.workers == s.hk.workers && s'.la.workers == s.la.workers && s'.st.workers == s.st.workers
  {
    hide Next;
    hide NtStep;
    hide Accept;
    hide Selectable;
    Routes(s, a);
  }

  /** No other process commits itself to a restock. */
  lemma OthersContained(opening: Shelf, s: State, a: Action, i: Item)
    requires Contained(opening, s, i) && !ByWorker(a) && Next(s, a).Some?
    ensures Contained(opening, Next(s, a).value, i)
  {
    OthersKeepShop(s, a);
    if a.HkQuit? || a.LaQuit? || a.StQuit? {
      LeaversShift(s, a, i);
    } else {
      NoWorkerMoves(s, a);
      SameWorkers(s, Next(s, a).value, i);
    }
    hide Next;
    hide Committed;
    hide Restockers;
  }

  lemma ContainedStep(opening: Shelf, s: State, a: Action, i: Item)
    requires Contained(opening, s, i) && Tidy(s) && Next(s, a).Some?
    ensures Contained(opening, Next(s, a).value, i)
  {
    hide Next;
    hide Contained;
    hide Tidy;
    hide HkNext;
    hide LaNext;
    hide StNext;
    TidyStep(s, a);
    Routes(s, a);
    match a {
      case HkGo(w, ok) => HkContained(opening, s, w, ok, i);
      case LaGo(w, ok, now) => LaContained(opening, s, w, ok, now, i);
      case StGo(w, ok) => StContained(opening, s, w, ok, i);
      case _ => OthersContained(opening, s, a, i);
    }
  }
}
