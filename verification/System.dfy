/**
 The staff simulator as one concurrent step system. A worker's place in its code decides what its
 next step is; an action names the process that moves and what the clock, the database or the
 random source answers. Every stock repository call, channel operation, registration and
 subscriber snapshot is one atomic step.
 */
module System {
  import opened Collections
  import opened Stock
  import opened Domain
  import opened Employees

  /** A housekeeper at work, with the tasks of its recipe that are still to come. */
  datatype HkAt =
    | HkStart
    | Todo(tasks: seq<Task>)
    | Refill(room: string, item: Item, qty: int, rest: seq<Task>)
    | Retry(room: string, item: Item, qty: int, rest: seq<Task>)

  /** A launderer at work. The last three places are inside the washing cycle. */
  datatype LaAt =
    | LaStart
    | Fill(start: int)
    | TopUp(start: int)
    | Again(start: int)
    | Enter(start: int)
    | Waiting(start: int, ch: nat)
    | Leaving(start: int, ch: nat, finish: Option<int>)

  /** A stocker at work, with its snapshot and the items still to visit. */
  datatype StAt = StStart | Shelving(snapshot: Shelf, rest: seq<Item>)

  datatype Manager =
    | Booting | Ready
    | Dispatching(id: nat, req: CleaningRequest) | Acking(id: nat)
    | Ordering(items: seq<Item>)
    | Gone

  datatype Notifier =
    | Listening
    | Publishing(time: int, left: set<nat>)
    | PublishingDay(time: int, toManager: bool)
    | Silent

  /** A completed washing cycle; no finish time means it was cut short by cancellation. */
  datatype Cycle = Cycle(ch: nat, start: int, item: string, finish: Option<int>)

  /**
   The hour-change side of the notification service. A channel is a number never used before;
   `bufs` holds the one event of each full buffer. `owner`, `log` and `cycles` are history: who
   made a channel, the events it accepted, and the cycles that ended.
   */
  datatype Hub = Hub(
    subs: set<nat>, bufs: map<nat, int>, next: nat,
    owner: map<nat, nat>, log: map<nat, seq<int>>, cycles: seq<Cycle>)

  datatype Settlement = Settlement(id: nat, acked: bool)

  /**
   The database, with the history of effects on it: housekeeping tasks carried out and given up,
   cleaning requests whose recipe was gone through and those skipped because the clock failed, wash
   requests whose soap was taken and those that never got any, and successful restocks by item.
   */
  datatype Shop = Shop(
    shelf: Shelf, cottages: map<string, CleaningStatus>,
    done: seq<Task>, lost: seq<Task>,
    served: seq<CleaningRequest>, skipped: seq<CleaningRequest>,
    paid: seq<WashRequest>, unpaid: seq<WashRequest>,
    added: multiset<Item>)

  /** The manager, its cleaning deliveries (`taken` of them so far), and how it settled them. */
  datatype Desk = Desk(mgr: Manager, inbox: seq<Delivery>, taken: nat, settled: seq<Settlement>)

  /**
   The time-event notifier with its hour and day messages, the hour-change hub, and the manager's
   day channel: whether it is registered, its buffer, and what became of the day events.
   */
  datatype Bell = Bell(
    nt: Notifier, hub: Hub,
    hourIn: seq<Option<int>>, hourTaken: nat,
    dayIn: seq<Option<int>>, dayTaken: nat,
    dayOn: bool, dayBuf: Option<int>,
    dayMissed: nat, daySkipped: nat, dayGot: nat)

  datatype State = State(
    shop: Shop,
    hk: Pool<CleaningRequest, HkAt>,
    la: Pool<WashRequest, LaAt>,
    st: Pool<RestockRequest, StAt>,
    desk: Desk, bell: Bell,
    cancelled: bool)

  datatype Action =
    | HkGo(w: nat, ok: bool) | HkQuit(w: nat)
    | LaGo(w: nat, ok: bool, now: int) | LaQuit(w: nat)
    | StGo(w: nat, ok: bool) | StQuit(w: nat)
    | MgrTake | MgrGo(pick: seq<Item>) | MgrQuit
    | NtHour | NtDay | NtSend(ch: nat) | NtGo | NtQuit
    | Cancel

  /** What is given from outside: the initial database, the staff, and all messages that will ever arrive. */
  datatype Setting = Setting(
    shelf: Shelf, cottages: map<string, CleaningStatus>,
    housekeepers: nat, launderers: nat, stockers: nat,
    inbox: seq<Delivery>, hourIn: seq<Option<int>>, dayIn: seq<Option<int>>)

  function Initial(c: Setting): State {
    State(
      Shop(c.shelf, c.cottages, [], [], [], [], [], [], multiset{}),
      Fresh(CleaningRequest("", Unlisted(0)), 32, c.housekeepers),
      Fresh(WashRequest("", ""), 32, c.launderers),
      Fresh(RestockRequest([]), 16, c.stockers),
      Desk(Booting, c.inbox, 0, []),
      Bell(Listening, Hub({}, map[], 0, map[], map[], []), c.hourIn, 0, c.dayIn, 0, false, None, 0, 0, 0),
      false)
  }

  /** What one step does to the shelf. */
  datatype StockMove = Untouched | Took(item: Item, qty: int) | Added(item: Item)

  function Moved(shelf: Shelf, m: StockMove): Shelf {
    match m
    case Untouched => shelf
    case Took(i, q) => Take(shelf, i, q)
    case Added(i) => Replenish(shelf, i)
  }

  function Counted(added: multiset<Item>, m: StockMove): multiset<Item> {
    if m.Added? then added + multiset{m.item} else added
  }

  // ---- housekeepers

  /**
   What one step of a housekeeper's work decides: where it goes (`None`: the work is over), what it
   does to the shelf, the tasks it carries out and gives up, and the request it has gone through or skips.
   */
  datatype HkOut = HkOut(
    at: Option<HkAt>, move: StockMove, done: seq<Task>, lost: seq<Task>,
    served: seq<CleaningRequest>, skipped: seq<CleaningRequest>)

  function Onward(at: HkAt, move: StockMove): HkOut {
    HkOut(Some(at), move, [], [], [], [])
  }

  function Carried(t: Task, rest: seq<Task>, move: StockMove): HkOut {
    Onward(Todo(rest), move).(done := [t])
  }

  function GivenUp(t: Task, rest: seq<Task>): HkOut {
    Onward(Todo(rest), Untouched).(lost := [t])
  }

  function HkTask(shop: Shop, full: bool, ok: bool, t: Task, rest: seq<Task>): Option<HkOut> {
    match t.op
    case Consume(i, q) =>
      if !ok then Some(GivenUp(t, rest))
      else if Qty(shop.shelf, i) >= q then Some(Carried(t, rest, Took(i, q)))
      else Some(Onward(Refill(t.room, i, q, rest), Untouched))
    case Launder(_) =>
      if full then None else Some(Carried(t, rest, Untouched))
    case SetStatus(_) =>
      if ok && t.room in shop.cottages then Some(Carried(t, rest, Untouched)) else Some(GivenUp(t, rest))
  }

  /** `full` says that the laundry queue has no room. */
  function HkDecide(shop: Shop, full: bool, req: CleaningRequest, at: HkAt, ok: bool): Option<HkOut> {
    match at
    case HkStart =>
      if ok then Some(Onward(Todo(Tasks(req)), Untouched))
      else Some(HkOut(None, Untouched, [], [], [], [req]))
    case Todo(ts) =>
      if ts == [] then Some(HkOut(None, Untouched, [], [], [req], [])) else HkTask(shop, full, ok, ts[0], ts[1..])
    case Refill(room, i, q, rest) =>
      if ok then Some(Onward(Retry(room, i, q, rest), Added(i)))
      else Some(GivenUp(Task(room, Consume(i, q)), rest))
    case Retry(room, i, q, rest) =>
      var t := Task(room, Consume(i, q));
      if ok && Qty(shop.shelf, i) >= q then Some(Carried(t, rest, Took(i, q))) else Some(GivenUp(t, rest))
  }

  /** A carried-out laundry task is a send on the laundry queue. */
  function Laundered(la: Pool<WashRequest, LaAt>, done: seq<Task>): Pool<WashRequest, LaAt> {
    if |done| == 1 && done[0].op.Launder? then Push(la, WashRequest(done[0].room, done[0].op.laundry)) else la
  }

  /** A carried-out status task is an update of the cottage. */
  function Updated(cottages: map<string, CleaningStatus>, done: seq<Task>): map<string, CleaningStatus> {
    if |done| == 1 && done[0].op.SetStatus? then cottages[done[0].room := done[0].op.status] else cottages
  }

  function HkEffect(shop: Shop, out: HkOut): Shop {
    shop.(shelf := Moved(shop.shelf, out.move),
          cottages := Updated(shop.cottages, out.done),
          done := shop.done + out.done, lost := shop.lost + out.lost,
          served := shop.served + out.served, skipped := shop.skipped + out.skipped,
          added := Counted(shop.added, out.move))
  }

  predicate Full<R, L>(p: Pool<R, L>) {
    |p.queue| >= p.capacity
  }

  function HkNext(s: State, w: nat, ok: bool): Option<State> {
    if w >= |s.hk.workers| || !Alike(s.hk) then None
    else match s.hk.workers[w]
      case Idle => if s.hk.queue == [] then None else Some(s.(hk := Receive(s.hk, w)))
      case Got(_) => Some(s.(hk := Mark(s.hk, w, HkStart)))
      case Busy(req, at) =>
        (match HkDecide(s.shop, Full(s.la), req, at, ok)
         case None => None
         case Some(out) =>
           Some(s.(shop := HkEffect(s.shop, out), hk := Advance(s.hk, w, out.at), la := Laundered(s.la, out.done))))
      case Done(_) => Some(s.(hk := Unmark(s.hk, w)))
      case Stopped => None
  }

  function HkLeave(s: State, w: nat): Option<State> {
    if w < |s.hk.workers| && s.hk.workers[w].Idle? && s.cancelled then Some(s.(hk := Stop(s.hk, w))) else None
  }

  // ---- launderers

  function Duration(item: string): int {
    match WashTable(item) case None => 0 case Some(c) => c.duration
  }

  /** Has the cycle that started at `start` run its time when the clock shows `time`? */
  predicate Enough(start: int, item: string, time: int) {
    time - start >= Duration(item)
  }

  /** What one step outside the washing cycle decides; `paid` and `unpaid` say whether the soap was settled. */
  datatype LaOut = LaOut(at: Option<LaAt>, move: StockMove, paid: bool, unpaid: bool)

  const UNWASHED := LaOut(None, Untouched, false, true)

  /** One call of `wash` up to the soap: `again` is the call after the restock. */
  function LaSoap(shelf: Shelf, item: string, start: int, ok: bool, again: bool): LaOut {
    match WashTable(item)
    case None => UNWASHED
    case Some(c) =>
      if !ok then UNWASHED
      else if Qty(shelf, Soap) >= c.soap then LaOut(Some(Enter(start)), Took(Soap, c.soap), true, false)
      else if again then UNWASHED
      else LaOut(Some(TopUp(start)), Untouched, false, false)
  }

  predicate InCycle(at: LaAt) {
    at.Enter? || at.Waiting? || at.Leaving?
  }

  function LaDecide(shelf: Shelf, item: string, at: LaAt, ok: bool, now: int): LaOut
    requires !InCycle(at)
  {
    match at
    case LaStart => if ok then LaOut(Some(Fill(now)), Untouched, false, false) else UNWASHED
    case Fill(t) => LaSoap(shelf, item, t, ok, false)
    case TopUp(t) => if ok then LaOut(Some(Again(t)), Added(Soap), false, false) else UNWASHED
    case Again(t) => LaSoap(shelf, item, t, ok, true)
  }

  function LaEffect(shop: Shop, req: WashRequest, out: LaOut): Shop {
    shop.(shelf := Moved(shop.shelf, out.move),
          paid := shop.paid + if out.paid then [req] else [],
          unpaid := shop.unpaid + if out.unpaid then [req] else [],
          added := Counted(shop.added, out.move))
  }

  /** What one step of the washing cycle decides: the launderer's place and the hub. */
  datatype CycleOut = CycleOut(at: Option<LaAt>, hub: Hub)

  function CycleStep(hub: Hub, w: nat, item: string, at: LaAt): Option<CycleOut>
    requires InCycle(at)
  {
    match at
    case Enter(t) =>
      var c := hub.next;
      Some(CycleOut(Some(Waiting(t, c)),
                    hub.(subs := hub.subs + {c}, next := c + 1, owner := hub.owner[c := w], log := hub.log[c := []])))
    case Waiting(t, c) =>
      if c !in hub.bufs then None
      else
        var read := hub.(bufs := hub.bufs - {c});
        if Enough(t, item, hub.bufs[c]) then Some(CycleOut(Some(Leaving(t, c, Some(hub.bufs[c]))), read))
        else Some(CycleOut(Some(at), read))
    case Leaving(t, c, finish) =>
      Some(CycleOut(None, hub.(subs := hub.subs - {c}, cycles := hub.cycles + [Cycle(c, t, item, finish)])))
  }

  function LaNext(s: State, w: nat, ok: bool, now: int): Option<State> {
    if w >= |s.la.workers| || !Alike(s.la) then None
    else match s.la.workers[w]
      case Idle => if s.la.queue == [] then None else Some(s.(la := Receive(s.la, w)))
      case Got(_) => Some(s.(la := Mark(s.la, w, LaStart)))
      case Busy(req, at) =>
        if !InCycle(at) then
          var out := LaDecide(s.shop.shelf, req.item, at, ok, now);
          Some(s.(shop := LaEffect(s.shop, req, out), la := Advance(s.la, w, out.at)))
        else
          (match CycleStep(s.bell.hub, w, req.item, at)
           case None => None
           case Some(out) => Some(s.(la := Advance(s.la, w, out.at), bell := s.bell.(hub := out.hub))))
      case Done(_) => Some(s.(la := Unmark(s.la, w)))
      case Stopped => None
  }

  function LaLeave(s: State, w: nat): Option<State> {
    if w >= |s.la.workers| || !s.cancelled then None
    else match s.la.workers[w]
      case Idle => Some(s.(la := Stop(s.la, w)))
      case Busy(_, Waiting(t, c)) => Some(s.(la := Advance(s.la, w, Some(Leaving(t, c, None)))))
      case _ => None
  }

  // ---- stockers

  datatype StOut = StOut(at: Option<StAt>, move: StockMove)

  function StDecide(shelf: Shelf, items: seq<Item>, at: StAt, ok: bool): StOut {
    match at
    case StStart =>
      if items == [] || !ok then StOut(None, Untouched) else StOut(Some(Shelving(shelf, items)), Untouched)
    case Shelving(snapshot, rest) =>
      if rest == [] then StOut(None, Untouched)
      else StOut(Some(Shelving(snapshot, rest[1..])),
                 if Qty(snapshot, rest[0]) >= MINIMUM || !ok then Untouched else Added(rest[0]))
  }

  function StEffect(shop: Shop, out: StOut): Shop {
    shop.(shelf := Moved(shop.shelf, out.move), added := Counted(shop.added, out.move))
  }

  function StNext(s: State, w: nat, ok: bool): Option<State> {
    if w >= |s.st.workers| || !Alike(s.st) then None
    else match s.st.workers[w]
      case Idle => if s.st.queue == [] then None else Some(s.(st := Receive(s.st, w)))
      case Got(_) => Some(s.(st := Mark(s.st, w, StStart)))
      case Busy(req, at) =>
        var out := StDecide(s.shop.shelf, req.items, at, ok);
        Some(s.(shop := StEffect(s.shop, out), st := Advance(s.st, w, out.at)))
      case Done(_) => Some(s.(st := Unmark(s.st, w)))
      case Stopped => None
  }

  function StLeave(s: State, w: nat): Option<State> {
    if w < |s.st.workers| && s.st.workers[w].Idle? && s.cancelled then Some(s.(st := Stop(s.st, w))) else None
  }

  // ---- manager

  /** What the random selection may return. */
  predicate Selectable(items: seq<Item>) {
    1 <= |items| <= |MANAGED| && Distinct(items)
  }

  function MgrReceive(s: State): Option<State> {
    var d := s.desk;
    if !d.mgr.Ready? || d.taken >= |d.inbox| then None
    else
      var d' := match Accept(d.inbox[d.taken])
        case None => d.(taken := d.taken + 1, settled := d.settled + [Settlement(d.taken, false)])
        case Some(req) => d.(taken := d.taken + 1, mgr := Dispatching(d.taken, req));
      Some(s.(desk := d'))
  }

  function MgrNext(s: State, pick: seq<Item>): Option<State> {
    match s.desk.mgr
    case Booting => Some(s.(desk := s.desk.(mgr := Ready), bell := s.bell.(dayOn := true)))
    case Ready =>
      if s.bell.dayBuf.None? || !Selectable(pick) then None
      else Some(s.(desk := s.desk.(mgr := Ordering(pick)),
                   bell := s.bell.(dayBuf := None, dayGot := s.bell.dayGot + 1)))
    case Dispatching(id, req) =>
      if Full(s.hk) then None else Some(s.(desk := s.desk.(mgr := Acking(id)), hk := Push(s.hk, req)))
    case Acking(id) =>
      Some(s.(desk := s.desk.(mgr := Ready, settled := s.desk.settled + [Settlement(id, true)])))
    case Ordering(items) =>
      if Full(s.st) then None
      else Some(s.(desk := s.desk.(mgr := Ready), st := Push(s.st, RestockRequest(items))))
    case Gone => None
  }

  function MgrLeave(s: State): Option<State> {
    if s.desk.mgr.Ready? && s.cancelled then
      Some(s.(desk := s.desk.(mgr := Gone), bell := s.bell.(dayOn := false)))
    else None
  }

  // ---- time-event notifier

  function NtHourEvent(b: Bell): Option<Bell> {
    if !b.nt.Listening? || b.hourTaken >= |b.hourIn| then None
    else
      match b.hourIn[b.hourTaken]
      case None => Some(b.(hourTaken := b.hourTaken + 1))
      case Some(t) => Some(b.(hourTaken := b.hourTaken + 1, nt := Publishing(t, b.hub.subs)))
  }

  function NtDayEvent(b: Bell): Option<Bell> {
    if !b.nt.Listening? || b.dayTaken >= |b.dayIn| then None
    else
      match b.dayIn[b.dayTaken]
      case None => Some(b.(dayTaken := b.dayTaken + 1))
      case Some(t) =>
        Some(b.(dayTaken := b.dayTaken + 1, nt := PublishingDay(t, b.dayOn),
                dayMissed := b.dayMissed + if b.dayOn then 0 else 1))
  }

  function LogOf(hub: Hub, c: nat): seq<int> {
    if c in hub.log then hub.log[c] else []
  }

  /** A non-blocking send of an hour event to one channel of the snapshot. */
  function NtOffer(b: Bell, c: nat): Option<Bell> {
    if !b.nt.Publishing? || c !in b.nt.left then None
    else
      var b' := b.(nt := Publishing(b.nt.time, b.nt.left - {c}));
      if c in b.hub.bufs then Some(b')
      else Some(b'.(hub := b.hub.(bufs := b.hub.bufs[c := b.nt.time],
                                  log := b.hub.log[c := LogOf(b.hub, c) + [b.nt.time]])))
  }

  function NtNext(b: Bell): Option<Bell> {
    match b.nt
    case Publishing(_, left) => if left == {} then Some(b.(nt := Listening)) else None
    case PublishingDay(t, true) =>
      if b.dayBuf.None? then Some(b.(nt := PublishingDay(t, false), dayBuf := Some(t)))
      else Some(b.(nt := PublishingDay(t, false), daySkipped := b.daySkipped + 1))
    case PublishingDay(_, false) => Some(b.(nt := Listening))
    case _ => None
  }

  predicate ByNotifier(a: Action) {
    a.NtHour? || a.NtDay? || a.NtSend? || a.NtGo? || a.NtQuit?
  }

  function NtStep(b: Bell, a: Action, cancelled: bool): Option<Bell>
    requires ByNotifier(a)
  {
    match a
    case NtHour => NtHourEvent(b)
    case NtDay => NtDayEvent(b)
    case NtSend(c) => NtOffer(b, c)
    case NtGo => NtNext(b)
    case NtQuit => if b.nt.Listening? && cancelled then Some(b.(nt := Silent)) else None
  }

  // ---- the whole system

  function Next(s: State, a: Action): Option<State> {
    match a
    case HkGo(w, ok) => HkNext(s, w, ok)
    case HkQuit(w) => HkLeave(s, w)
    case LaGo(w, ok, now) => LaNext(s, w, ok, now)
    case LaQuit(w) => LaLeave(s, w)
    case StGo(w, ok) => StNext(s, w, ok)
    case StQuit(w) => StLeave(s, w)
    case MgrTake => MgrReceive(s)
    case MgrGo(pick) => MgrNext(s, pick)
    case MgrQuit => MgrLeave(s)
    case Cancel => if s.cancelled then None else Some(s.(cancelled := true))
    case _ => (match NtStep(s.bell, a, s.cancelled) case None => None case Some(b) => Some(s.(bell := b)))
  }

  /** Which function a step is, for proofs that need nothing else about `Next`. */
  lemma Routes(s: State, a: Action)
    ensures match a
      case HkGo(w, ok) => Next(s, a) == HkNext(s, w, ok)
      case HkQuit(w) => Next(s, a) == HkLeave(s, w)
      case LaGo(w, ok, now) => Next(s, a) == LaNext(s, w, ok, now)
      case LaQuit(w) => Next(s, a) == LaLeave(s, w)
      case StGo(w, ok) => Next(s, a) == StNext(s, w, ok)
      case StQuit(w) => Next(s, a) == StLeave(s, w)
      case MgrTake => Next(s, a) == MgrReceive(s)
      case MgrGo(pick) => Next(s, a) == MgrNext(s, pick)
      case MgrQuit => Next(s, a) == MgrLeave(s)
      case Cancel => Next(s, a) == if s.cancelled then None else Some(s.(cancelled := true))
      case _ =>
        Next(s, a) == (match NtStep(s.bell, a, s.cancelled) case None => None case Some(b) => Some(s.(bell := b)))
  {
  }

  predicate ByWorker(a: Action) {
    a.HkGo? || a.LaGo? || a.StGo?
  }

  /** Only the three kinds of worker touch the database. */
  lemma OthersKeepShop(s: State, a: Action)
    requires !ByWorker(a) && Next(s, a).Some?
    ensures Next(s, a).value.shop == s.shop
  {
    hide Next;
    hide NtStep;
    Routes(s, a);
  }

  /** Who touches the housekeepers. */
  lemma OthersKeepHk(s: State, a: Action)
    requires Next(s, a).Some?
    requires !a.HkGo? && !a.HkQuit? && !(a.MgrGo? && s.desk.mgr.Dispatching?)
    ensures Next(s, a).value.hk == s.hk
  {
    hide Next;
    hide NtStep;
    Routes(s, a);
  }

  /** Who touches the launderers. */
  lemma OthersKeepLa(s: State, a: Action)
    requires !a.HkGo? && !a.LaGo? && !a.LaQuit? && Next(s, a).Some?
    ensures Next(s, a).value.la == s.la
  {
    hide Next;
    hide NtStep;
    Routes(s, a);
  }

  /** Can the system take these actions one after the other? */
  predicate CanRun(s: State, acts: seq<Action>)
    decreases |acts|
  {
    acts == [] || (Next(s, acts[0]).Some? && CanRun(Next(s, acts[0]).value, acts[1..]))
  }

  /** The state after them. */
  function After(s: State, acts: seq<Action>): State
    requires CanRun(s, acts)
    decreases |acts|
  {
    if acts == [] then s else After(Next(s, acts[0]).value, acts[1..])
  }

  lemma {:induction false} RunAppend(s: State, xs: seq<Action>, ys: seq<Action>)
    requires CanRun(s, xs) && CanRun(After(s, xs), ys)
    ensures CanRun(s, xs + ys) && After(s, xs + ys) == After(After(s, xs), ys)
    decreases |xs|
  {
    hide Next;
    if xs == [] {
      assert xs + ys == ys;
    } else {
      RunAppend(Next(s, xs[0]).value, xs[1..], ys);
      assert (xs + ys)[1..] == xs[1..] + ys;
    }
  }

  /** Any beginning of a run is a run, and the rest goes on from there. */
  lemma {:induction false} RunSplit(s: State, acts: seq<Action>, n: nat)
    requires CanRun(s, acts) && n <= |acts|
    ensures CanRun(s, acts[..n]) && CanRun(After(s, acts[..n]), acts[n..])
    ensures After(After(s, acts[..n]), acts[n..]) == After(s, acts)
    decreases n
  {
    hide Next;
    if n == 0 {
      assert acts[..0] == [] && acts[0..] == acts;
    } else {
      RunSplit(Next(s, acts[0]).value, acts[1..], n - 1);
      assert acts[..n][1..] == acts[1..][..n - 1] && acts[1..][n - 1..] == acts[n..];
    }
  }

  /** A run and its last step. */
  lemma RunLast(s: State, acts: seq<Action>)
    requires CanRun(s, acts) && acts != []
    ensures var n := |acts| - 1;
      && CanRun(s, acts[..n]) && Next(After(s, acts[..n]), acts[n]).Some?
      && After(s, acts) == Next(After(s, acts[..n]), acts[n]).value
  {
    hide Next;
    var n := |acts| - 1;
    RunSplit(s, acts, n);
    assert acts[n..] == [acts[n]] && acts[n..][1..] == [];
  }
}
