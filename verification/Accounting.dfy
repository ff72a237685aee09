/**
 Conservation over every run: employees' requests, the stock ledger, the tasks of the recipes and
 the soap of the washes.
 */
module Accounting {
  import opened Collections
  import opened Stock
  import opened Domain
  import opened Employees
  import opened System

  // ---- every pool keeps its books

  ghost predicate PoolsSound(s: State) {
    Sound(s.hk) && Sound(s.la) && Sound(s.st)
  }

  lemma HkSound(s: State, w: nat, ok: bool)
    requires PoolsSound(s) && HkNext(s, w, ok).Some?
    ensures PoolsSound(HkNext(s, w, ok).value)
  {
    hide Sound;
    hide Advance;
    hide Push;
    match s.hk.workers[w] {
      case Idle => ReceiveSound(s.hk, w);
      case Got(_) => MarkSound(s.hk, w, HkStart);
      case Busy(req, at) =>
        var out := HkDecide(s.shop, Full(s.la), req, at, ok).value;
        AdvanceSound(s.hk, w, out.at);
        if |out.done| == 1 && out.done[0].op.Launder? {
          PushSound(s.la, WashRequest(out.done[0].room, out.done[0].op.laundry));
        }
      case Done(_) => UnmarkSound(s.hk, w);
    }
  }

  lemma LaSound(s: State, w: nat, ok: bool, now: int)
    requires PoolsSound(s) && LaNext(s, w, ok, now).Some?
    ensures PoolsSound(LaNext(s, w, ok, now).value)
  {
    hide Sound;
    hide Advance;
    hide LaDecide;
    match s.la.workers[w] {
      case Idle => ReceiveSound(s.la, w);
      case Got(_) => MarkSound(s.la, w, LaStart);
      case Busy(req, at) =>
        if InCycle(at) {
          AdvanceSound(s.la, w, CycleStep(s.bell.hub, w, req.item, at).value.at);
        } else {
          AdvanceSound(s.la, w, LaDecide(s.shop.shelf, req.item, at, ok, now).at);
        }
      case Done(_) => UnmarkSound(s.la, w);
    }
  }

  lemma StSound(s: State, w: nat, ok: bool)
    requires PoolsSound(s) && StNext(s, w, ok).Some?
    ensures PoolsSound(StNext(s, w, ok).value)
  {
    hide Sound;
    hide Advance;
    hide StDecide;
    match s.st.workers[w] {
      case Idle => ReceiveSound(s.st, w);
      case Got(_) => MarkSound(s.st, w, StStart);
      case Busy(req, at) => AdvanceSound(s.st, w, StDecide(s.shop.shelf, req.items, at, ok).at);
      case Done(_) => UnmarkSound(s.st, w);
    }
  }

  lemma PoolsStep(s: State, a: Action)
    requires PoolsSound(s) && Next(s, a).Some?
    ensures PoolsSound(Next(s, a).value)
  {
    hide Sound;
    hide HkNext;
    hide LaNext;
    hide StNext;
    hide Push;
    match a {
      case HkGo(w, ok) => HkSound(s, w, ok);
      case HkQuit(w) => StopSound(s.hk, w);
      case LaGo(w, ok, now) => LaSound(s, w, ok, now);
      case LaQuit(w) =>
        if s.la.workers[w].Idle? {
          StopSound(s.la, w);
        } else {
          AdvanceSound(s.la, w, Some(Leaving(s.la.workers[w].at.start, s.la.workers[w].at.ch, None)));
        }
      case StGo(w, ok) => StSound(s, w, ok);
      case StQuit(w) => StopSound(s.st, w);
      case MgrGo(pick) =>
        if s.desk.mgr.Dispatching? {
          PushSound(s.hk, s.desk.mgr.req);
        } else if s.desk.mgr.Ordering? {
          PushSound(s.st, RestockRequest(s.desk.mgr.items));
        }
      case _ =>
    }
  }

  // ---- the stock ledger

  function TaskUse(i: Item): Task -> int {
    (t: Task) => if t.op.Consume? && t.op.item == i then t.op.qty else 0
  }

  function SoapFor(item: string): int {
    match WashTable(item) case None => 0 case Some(c) => c.soap
  }

  function WashUse(i: Item): WashRequest -> int {
    (r: WashRequest) => if i == Soap then SoapFor(r.item) else 0
  }

  /** Everything ever taken of an item, by housekeepers and launderers. */
  ghost function Used(shop: Shop, i: Item): int {
    Sum(shop.done, TaskUse(i)) + Sum(shop.paid, WashUse(i))
  }

  /** The quantity on the shelf is the opening quantity, plus 50 for each restock, minus what was taken. */
  ghost predicate Balanced(opening: Shelf, shop: Shop, i: Item) {
    && Qty(shop.shelf, i) == Qty(opening, i) + REPLENISHMENT * shop.added[i] - Used(shop, i)
    && 0 <= Qty(shop.shelf, i)
  }

  lemma MovedQty(shelf: Shelf, m: StockMove, added: multiset<Item>, i: Item)
    ensures Qty(Moved(shelf, m), i) - REPLENISHMENT * Counted(added, m)[i] ==
            Qty(shelf, i) - REPLENISHMENT * added[i] - (if m.Took? && m.item == i then m.qty else 0)
    ensures (m.Took? ==> Qty(shelf, m.item) >= m.qty) && 0 <= Qty(shelf, i) ==> 0 <= Qty(Moved(shelf, m), i)
  {
  }

  /** What a housekeeper's step takes from the shelf is what its carried-out tasks use. */
  lemma HkOutUse(shop: Shop, full: bool, req: CleaningRequest, at: HkAt, ok: bool, i: Item)
    requires HkDecide(shop, full, req, at, ok).Some?
    ensures var out := HkDecide(shop, full, req, at, ok).value;
      && Sum(out.done, TaskUse(i)) == (if out.move.Took? && out.move.item == i then out.move.qty else 0)
      && (out.move.Took? ==> Qty(shop.shelf, out.move.item) >= out.move.qty)
  {
    var out := HkDecide(shop, full, req, at, ok).value;
    if |out.done| == 1 {
      SumHead(out.done, TaskUse(i));
    }
  }

  lemma HkEffectBalanced(opening: Shelf, shop: Shop, full: bool, req: CleaningRequest, at: HkAt, ok: bool, i: Item)
    requires Balanced(opening, shop, i) && HkDecide(shop, full, req, at, ok).Some?
    ensures Balanced(opening, HkEffect(shop, HkDecide(shop, full, req, at, ok).value), i)
  {
    hide Sum;
    hide Moved;
    hide Counted;
    hide Updated;
    HkOutUse(shop, full, req, at, ok, i);
    hide HkDecide;
    var out := HkDecide(shop, full, req, at, ok).value;
    MovedQty(shop.shelf, out.move, shop.added, i);
    SumAppend(shop.done, out.done, TaskUse(i));
  }

  lemma HkLedger(opening: Shelf, s: State, w: nat, ok: bool, i: Item)
    requires Balanced(opening, s.shop, i) && HkNext(s, w, ok).Some?
    ensures Balanced(opening, HkNext(s, w, ok).value.shop, i)
  {
    hide HkDecide;
    hide HkEffect;
    hide Balanced;
    if s.hk.workers[w].Busy? {
      HkEffectBalanced(opening, s.shop, Full(s.la), s.hk.workers[w].req, s.hk.workers[w].at, ok, i);
    }
  }

  lemma LaOutUse(shelf: Shelf, item: string, at: LaAt, ok: bool, now: int)
    requires !InCycle(at)
    ensures var out := LaDecide(shelf, item, at, ok, now);
      && (out.move.Took? <==> out.paid)
      && (out.move.Took? ==> out.move.item == Soap && out.move.qty == SoapFor(item) <= Qty(shelf, Soap))
  {
  }

  lemma LaLedger(opening: Shelf, s: State, w: nat, ok: bool, now: int, i: Item)
    requires Balanced(opening, s.shop, i) && LaNext(s, w, ok, now).Some?
    ensures Balanced(opening, LaNext(s, w, ok, now).value.shop, i)
  {
    hide LaDecide;
    hide Sum;
    hide Moved;
    hide CycleStep;
    if s.la.workers[w].Busy? && !InCycle(s.la.workers[w].at) {
      var req, at := s.la.workers[w].req, s.la.workers[w].at;
      var out := LaDecide(s.shop.shelf, req.item, at, ok, now);
      LaOutUse(s.shop.shelf, req.item, at, ok, now);
      MovedQty(s.shop.shelf, out.move, s.shop.added, i);
      SumSnoc(s.shop.paid, req, WashUse(i));
      assert s.shop.paid + [] == s.shop.paid;
    }
  }

  lemma StLedger(opening: Shelf, s: State, w: nat, ok: bool, i: Item)
    requires Balanced(opening, s.shop, i) && StNext(s, w, ok).Some?
    ensures Balanced(opening, StNext(s, w, ok).value.shop, i)
  {
    hide Sum;
    hide Moved;
    if s.st.workers[w].Busy? {
      var out := StDecide(s.shop.shelf, s.st.workers[w].req.items, s.st.workers[w].at, ok);
      MovedQty(s.shop.shelf, out.move, s.shop.added, i);
    }
  }

  lemma LedgerStep(opening: Shelf, s: State, a: Action, i: Item)
    requires Balanced(opening, s.shop, i) && Next(s, a).Some?
    ensures Balanced(opening, Next(s, a).value.shop, i)
  {
    hide Next;
    hide Balanced;
    hide HkNext;
    hide LaNext;
    hide StNext;
    Routes(s, a);
    match a {
      case HkGo(w, ok) => HkLedger(opening, s, w, ok, i);
      case LaGo(w, ok, now) => LaLedger(opening, s, w, ok, now, i);
      case StGo(w, ok) => StLedger(opening, s, w, ok, i);
      case _ => OthersKeepShop(s, a);
    }
  }

  // ---- every task of every dispatched request is carried out, given up, or still to come

  ghost function Cost(f: Task -> int): CleaningRequest -> int {
    (r: CleaningRequest) => Sum(Tasks(r), f)
  }

  ghost function PendingAt(f: Task -> int, req: CleaningRequest, at: HkAt): int {
    match at
    case HkStart => Sum(Tasks(req), f)
    case Todo(ts) => Sum(ts, f)
    case Refill(room, i, q, rest) => f(Task(room, Consume(i, q))) + Sum(rest, f)
    case Retry(room, i, q, rest) => f(Task(room, Consume(i, q))) + Sum(rest, f)
  }

  ghost function Pending(f: Task -> int): Worker<CleaningRequest, HkAt> -> int {
    (w: Worker<CleaningRequest, HkAt>) =>
      match w
      case Got(r) => Sum(Tasks(r), f)
      case Busy(r, at) => PendingAt(f, r, at)
      case _ => 0
  }

  /** For any way `f` of weighing tasks. With `f` counting one task, this is equality of multisets of tasks. */
  ghost predicate TasksKept(hk: Pool<CleaningRequest, HkAt>, shop: Shop, f: Task -> int) {
    Sum(shop.done, f) + Sum(shop.lost, f) + Sum(shop.skipped, Cost(f))
      + Sum(hk.queue, Cost(f)) + Sum(hk.workers, Pending(f)) == Sum(hk.sent, Cost(f))
  }

  lemma HkOutTasks(shop: Shop, full: bool, req: CleaningRequest, at: HkAt, ok: bool, f: Task -> int)
    requires HkDecide(shop, full, req, at, ok).Some?
    ensures var out := HkDecide(shop, full, req, at, ok).value;
      Sum(out.done, f) + Sum(out.lost, f) + Sum(out.skipped, Cost(f))
        + (if out.at.Some? then PendingAt(f, req, out.at.value) else 0) == PendingAt(f, req, at)
  {
    hide Tasks;
    hide Sum;
    var out := HkDecide(shop, full, req, at, ok).value;
    NoSum(f);
    NoSum(Cost(f));
    if |out.done| == 1 {
      SingleSum(out.done, f);
    } else if |out.lost| == 1 {
      SingleSum(out.lost, f);
    } else if at.HkStart? {
      SingleSum([req], Cost(f));
    }
    if at.Todo? && at.tasks != [] {
      SumHead(at.tasks, f);
    }
  }

  lemma HkTasks(s: State, w: nat, ok: bool, f: Task -> int)
    requires TasksKept(s.hk, s.shop, f) && HkNext(s, w, ok).Some?
    ensures var s' := HkNext(s, w, ok).value; TasksKept(s'.hk, s'.shop, f)
  {
    hide HkDecide;
    hide Sum;
    hide PendingAt;
    var s' := HkNext(s, w, ok).value;
    SumUpdate(s.hk.workers, w, s'.hk.workers[w], Pending(f));
    match s.hk.workers[w] {
      case Idle => SumHead(s.hk.queue, Cost(f));
      case Got(r) => assert PendingAt(f, r, HkStart) == Sum(Tasks(r), f) by { AtStart(f, r); }
      case Busy(r, at) =>
        var out := HkDecide(s.shop, Full(s.la), r, at, ok).value;
        HkOutTasks(s.shop, Full(s.la), r, at, ok, f);
        SumAppend(s.shop.done, out.done, f);
        SumAppend(s.shop.lost, out.lost, f);
        SumAppend(s.shop.skipped, out.skipped, Cost(f));
      case Done(_) =>
    }
  }

  lemma AtStart(f: Task -> int, r: CleaningRequest)
    ensures PendingAt(f, r, HkStart) == Sum(Tasks(r), f)
  {
  }

  lemma TasksStep(s: State, a: Action, f: Task -> int)
    requires TasksKept(s.hk, s.shop, f) && Next(s, a).Some?
    ensures var s' := Next(s, a).value; TasksKept(s'.hk, s'.shop, f)
  {
    hide Next;
    hide Sum;
    hide HkNext;
    Routes(s, a);
    if a.HkGo? {
      HkTasks(s, a.w, a.ok, f);
    } else if a.HkQuit? {
      SumUpdate(s.hk.workers, a.w, Stopped, Pending(f));
    } else if a.MgrGo? && s.desk.mgr.Dispatching? {
      SumSnoc(s.hk.queue, s.desk.mgr.req, Cost(f));
      SumSnoc(s.hk.sent, s.desk.mgr.req, Cost(f));
    } else {
      OthersKeepHk(s, a);
      SameTasks(s, a);
    }
  }

  /** The other workers change the shelf and the soap books, not the housekeepers' tasks. */
  lemma SameTasks(s: State, a: Action)
    requires !a.HkGo? && Next(s, a).Some?
    ensures var h, h' := s.shop, Next(s, a).value.shop;
      h'.done == h.done && h'.lost == h.lost && h'.served == h.served && h'.skipped == h.skipped
  {
    hide Next;
    Routes(s, a);
    if !ByWorker(a) {
      OthersKeepShop(s, a);
    }
  }

  // ---- every wash request is settled once: its soap is taken, or it never gets any, or it is still due

  ghost function Due(g: WashRequest -> int): Worker<WashRequest, LaAt> -> int {
    (w: Worker<WashRequest, LaAt>) => if w.Got? || (w.Busy? && !InCycle(w.at)) then g(w.req) else 0
  }

  ghost predicate WashesKept(la: Pool<WashRequest, LaAt>, shop: Shop, g: WashRequest -> int) {
    Sum(shop.paid, g) + Sum(shop.unpaid, g) + Sum(la.queue, g) + Sum(la.workers, Due(g)) == Sum(la.sent, g)
  }

  /** A laundry task, seen as the wash request it sends. */
  ghost function AsWash(g: WashRequest -> int): Task -> int {
    (t: Task) => if t.op.Launder? then g(WashRequest(t.room, t.op.laundry)) else 0
  }

  /** The wash requests sent are exactly the laundry tasks carried out. */
  ghost predicate LaundrySent(la: Pool<WashRequest, LaAt>, shop: Shop, g: WashRequest -> int) {
    Sum(la.sent, g) == Sum(shop.done, AsWash(g))
  }

  /** The laundry task that sends a wash request. */
  function Laundry(r: WashRequest): Task {
    Task(r.room, Launder(r.item))
  }

  lemma CountsLaundry(done: seq<Task>, r: WashRequest)
    ensures Sum(done, AsWash(Is(r))) == multiset(done)[Laundry(r)]
  {
    forall t | t in done ensures AsWash(Is(r))(t) == Is(Laundry(r))(t) {
      if t.op.Launder? {
        assert t == Task(t.room, Launder(t.op.laundry));
        assert r == WashRequest(r.room, r.item);
      }
    }
    SumSame(done, AsWash(Is(r)), Is(Laundry(r)));
    SumCounts(done, Laundry(r));
  }

  lemma LaOutPays(shelf: Shelf, item: string, at: LaAt, ok: bool, now: int)
    requires !InCycle(at)
    ensures var out := LaDecide(shelf, item, at, ok, now);
      && !(out.paid && out.unpaid)
      && (out.paid || out.unpaid <==> out.at.None? || InCycle(out.at.value))
  {
  }

  lemma CycleStays(hub: Hub, w: nat, item: string, at: LaAt)
    requires InCycle(at) && CycleStep(hub, w, item, at).Some?
    ensures var out := CycleStep(hub, w, item, at).value; out.at.Some? ==> InCycle(out.at.value)
  {
  }

  lemma LaWashes(s: State, w: nat, ok: bool, now: int, g: WashRequest -> int)
    requires WashesKept(s.la, s.shop, g) && LaNext(s, w, ok, now).Some?
    ensures var s' := LaNext(s, w, ok, now).value; WashesKept(s'.la, s'.shop, g)
  {
    hide LaDecide;
    hide CycleStep;
    hide Sum;
    hide InCycle;
    var s' := LaNext(s, w, ok, now).value;
    SumUpdate(s.la.workers, w, s'.la.workers[w], Due(g));
    match s.la.workers[w] {
      case Idle => SumHead(s.la.queue, g);
      case Got(_) => StartIsOutside();
      case Busy(r, at) =>
        if InCycle(at) {
          CycleStays(s.bell.hub, w, r.item, at);
        } else {
          LaOutPays(s.shop.shelf, r.item, at, ok, now);
          SumSnoc(s.shop.paid, r, g);
          SumSnoc(s.shop.unpaid, r, g);
          assert s.shop.paid + [] == s.shop.paid && s.shop.unpaid + [] == s.shop.unpaid;
        }
      case Done(_) =>
    }
  }

  lemma StartIsOutside()
    ensures !InCycle(LaStart)
  {
  }

  /** A housekeeper's step keeps both laundry books. */
  lemma HkWashes(s: State, w: nat, ok: bool, g: WashRequest -> int)
    requires WashesKept(s.la, s.shop, g) && LaundrySent(s.la, s.shop, g) && HkNext(s, w, ok).Some?
    ensures var s' := HkNext(s, w, ok).value; WashesKept(s'.la, s'.shop, g) && LaundrySent(s'.la, s'.shop, g)
  {
    hide HkDecide;
    hide Sum;
    if s.hk.workers[w].Busy? {
      var out := HkDecide(s.shop, Full(s.la), s.hk.workers[w].req, s.hk.workers[w].at, ok).value;
      AtMostOneDone(s.shop, Full(s.la), s.hk.workers[w].req, s.hk.workers[w].at, ok);
      SumAppend(s.shop.done, out.done, AsWash(g));
      if |out.done| == 1 {
        SingleSum(out.done, AsWash(g));
        if out.done[0].op.Launder? {
          var r := WashRequest(out.done[0].room, out.done[0].op.laundry);
          SumSnoc(s.la.queue, r, g);
          SumSnoc(s.la.sent, r, g);
        }
      } else {
        NoSum(AsWash(g));
      }
    }
  }

  lemma AtMostOneDone(shop: Shop, full: bool, req: CleaningRequest, at: HkAt, ok: bool)
    requires HkDecide(shop, full, req, at, ok).Some?
    ensures var done := HkDecide(shop, full, req, at, ok).value.done; |done| == 1 || done == []
  {
  }

  lemma NoSum<T>(f: T -> int)
    ensures Sum([], f) == 0
  {
  }

  lemma SingleSum<T>(xs: seq<T>, f: T -> int)
    requires |xs| == 1
    ensures Sum(xs, f) == f(xs[0])
  {
    assert xs[..0] == [];
  }

  lemma WashesStep(s: State, a: Action, g: WashRequest -> int)
    requires WashesKept(s.la, s.shop, g) && LaundrySent(s.la, s.shop, g) && Next(s, a).Some?
    ensures var s' := Next(s, a).value; WashesKept(s'.la, s'.shop, g) && LaundrySent(s'.la, s'.shop, g)
  {
    hide Next;
    hide Sum;
    hide HkNext;
    hide LaNext;
    hide InCycle;
    Routes(s, a);
    if a.HkGo? {
      HkWashes(s, a.w, a.ok, g);
    } else if a.LaGo? {
      LaWashes(s, a.w, a.ok, a.now, g);
      LaSends(s, a.w, a.ok, a.now);
    } else if a.LaQuit? {
      SumUpdate(s.la.workers, a.w, LaLeave(s, a.w).value.la.workers[a.w], Due(g));
      CyclePlaces();
    } else {
      OthersKeepLa(s, a);
      SameBooks(s, a);
    }
  }

  lemma CyclePlaces()
    ensures forall t, c :: InCycle(Waiting(t, c))
    ensures forall t, c, f :: InCycle(Leaving(t, c, f))
  {
  }

  lemma LaSends(s: State, w: nat, ok: bool, now: int)
    requires LaNext(s, w, ok, now).Some?
    ensures var s' := LaNext(s, w, ok, now).value; s'.la.sent == s.la.sent && s'.shop.done == s.shop.done
  {
    hide LaDecide;
    hide CycleStep;
  }

  lemma SameBooks(s: State, a: Action)
    requires !a.HkGo? && !a.LaGo? && Next(s, a).Some?
    ensures var s' := Next(s, a).value;
      s'.shop.paid == s.shop.paid && s'.shop.unpaid == s.shop.unpaid && s'.shop.done == s.shop.done
  {
    hide Next;
    Routes(s, a);
    if !ByWorker(a) {
      OthersKeepShop(s, a);
    }
  }

  // ---- cottage statuses

  /** The status the last carried-out update of a cottage set, or the opening one. */
  function Latest(done: seq<Task>, room: string, opening: CleaningStatus): CleaningStatus {
    if done == [] then opening
    else
      var t := done[|done| - 1];
      if t.room == room && t.op.SetStatus? then t.op.status else Latest(done[..|done| - 1], room, opening)
  }

  /** No cottage appears or disappears, and each shows the latest update. */
  ghost predicate StatusKept(opening: map<string, CleaningStatus>, shop: Shop, room: string) {
    && (room in shop.cottages <==> room in opening)
    && (room in opening ==> shop.cottages[room] == Latest(shop.done, room, opening[room]))
  }

  lemma HkOutStatus(opening: map<string, CleaningStatus>, shop: Shop, full: bool,
                    req: CleaningRequest, at: HkAt, ok: bool, room: string)
    requires StatusKept(opening, shop, room) && HkDecide(shop, full, req, at, ok).Some?
    ensures StatusKept(opening, HkEffect(shop, HkDecide(shop, full, req, at, ok).value), room)
  {
    hide Tasks;
    hide Moved;
    var done := HkDecide(shop, full, req, at, ok).value.done;
    assert done == [] ==> shop.done + done == shop.done;
    assert |done| == 1 ==> (shop.done + done)[..|shop.done|] == shop.done;
  }

  lemma StatusStep(opening: map<string, CleaningStatus>, s: State, a: Action, room: string)
    requires StatusKept(opening, s.shop, room) && Next(s, a).Some?
    ensures StatusKept(opening, Next(s, a).value.shop, room)
  {
    hide Next;
    hide HkDecide;
    hide HkEffect;
    hide LaDecide;
    hide StDecide;
    hide CycleStep;
    Routes(s, a);
    if a.HkGo? {
      if s.hk.workers[a.w].Busy? {
        HkOutStatus(opening, s.shop, Full(s.la), s.hk.workers[a.w].req, s.hk.workers[a.w].at, a.ok, room);
      }
    } else if !ByWorker(a) {
      OthersKeepShop(s, a);
    }
  }
}
