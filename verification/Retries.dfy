/** How a consumption can still fail after its restock: only if enough was taken in between. */
module Retries {
  import opened Collections
  import opened Stock
  import opened Domain
  import opened Employees
  import opened System
  import opened Accounting
  import opened Restocking
  import opened Runs

  // ---- counting the takers

  function Hits(i: Item): Task -> int {
    (t: Task) => if t.op.Consume? && t.op.item == i then 1 else 0
  }

  function WashHits(i: Item): WashRequest -> int {
    (r: WashRequest) => if i == Soap && Supported(r) then 1 else 0
  }

  /** How many times the item was taken. */
  ghost function Takes(shop: Shop, i: Item): int {
    Sum(shop.done, Hits(i)) + Sum(shop.paid, WashHits(i))
  }

  /** The most that one task or wash takes. */
  function LargestTake(i: Item): int {
    if i == CleaningItem then 10 else if i == Soap then 20 else 1
  }

  /** The most that the takes between `h` and `h'` amount to. */
  ghost function MostTaken(h: Shop, h': Shop, i: Item): int {
    LargestTake(i) * (Takes(h', i) - Takes(h, i))
  }

  /** From `h` to `h'`, nothing is put back, restocks are not undone, and each take is at most the largest. */
  ghost predicate Drawn(h: Shop, h': Shop, i: Item) {
    && h.added[i] <= h'.added[i]
    && 0 <= Used(h', i) - Used(h, i) <= MostTaken(h, h', i)
  }

  lemma TaskTakes(ts: seq<Task>, i: Item)
    requires |ts| <= 1 && AllModest(ts)
    ensures 0 <= Sum(ts, TaskUse(i)) <= LargestTake(i) * Sum(ts, Hits(i))
    ensures Sum(ts, TaskUse(Soap)) == 0
  {
    if |ts| == 1 {
      assert Modest(ts[0]);
      SingleSum(ts, TaskUse(i));
      SingleSum(ts, TaskUse(Soap));
      SingleSum(ts, Hits(i));
    }
  }

  lemma WashTakes(rs: seq<WashRequest>, i: Item)
    requires |rs| <= 1 && forall r :: r in rs ==> Supported(r)
    ensures 0 <= Sum(rs, WashUse(i)) <= LargestTake(i) * Sum(rs, WashHits(i))
  {
    if |rs| == 1 {
      assert Supported(rs[0]);
      SingleSum(rs, WashUse(i));
      SingleSum(rs, WashHits(i));
    }
  }

  lemma DrawnBy(h: Shop, h': Shop, ts: seq<Task>, rs: seq<WashRequest>, i: Item)
    requires h'.done == h.done + ts && h'.paid == h.paid + rs && h.added[i] <= h'.added[i]
    requires |ts| <= 1 && AllModest(ts) && |rs| <= 1 && forall r :: r in rs ==> Supported(r)
    ensures Drawn(h, h', i)
    ensures rs == [] ==> Used(h', Soap) == Used(h, Soap)
  {
    TaskTakes(ts, i);
    WashTakes(rs, i);
    hide LargestTake;
    hide MostTaken;
    hide Sum;
    hide Supported;
    hide AllModest;
    hide TaskUse;
    hide WashUse;
    hide Hits;
    hide WashHits;
    SumAppend(h.done, ts, TaskUse(i));
    SumAppend(h.done, ts, TaskUse(Soap));
    SumAppend(h.done, ts, Hits(i));
    SumAppend(h.paid, rs, WashUse(i));
    SumAppend(h.paid, rs, WashHits(i));
    MostIs(h, h', i, Sum(ts, Hits(i)), Sum(rs, WashHits(i)));
    if rs == [] {
      assert h'.paid == h.paid;
    }
  }

  lemma MostIs(h: Shop, h': Shop, i: Item, m: int, n: int)
    requires Takes(h', i) - Takes(h, i) == m + n
    ensures MostTaken(h, h', i) == LargestTake(i) * m + LargestTake(i) * n
  {
    hide Takes;
    hide LargestTake;
  }

  lemma HkOutDrawn(shop: Shop, full: bool, req: CleaningRequest, at: HkAt, ok: bool, i: Item)
    requires HkTidy(Busy(req, at)) && HkDecide(shop, full, req, at, ok).Some?
    ensures Drawn(shop, HkEffect(shop, HkDecide(shop, full, req, at, ok).value), i)
    ensures Used(HkEffect(shop, HkDecide(shop, full, req, at, ok).value), Soap) == Used(shop, Soap)
  {
    HkOutTidy(shop, full, req, at, ok);
    AtMostOneDone(shop, full, req, at, ok);
    hide HkDecide;
    hide HkTidy;
    hide Drawn;
    hide Used;
    hide AllModest;
    var out := HkDecide(shop, full, req, at, ok).value;
    assert shop.paid + [] == shop.paid;
    DrawnBy(shop, HkEffect(shop, out), out.done, [], i);
  }

  lemma PaidIsSupported(shelf: Shelf, item: string, at: LaAt, ok: bool, now: int)
    requires !InCycle(at)
    ensures LaDecide(shelf, item, at, ok, now).paid ==> WashTable(item).Some?
  {
  }

  lemma LaOutDrawn(shop: Shop, r: WashRequest, at: LaAt, ok: bool, now: int, i: Item)
    requires !InCycle(at)
    ensures Drawn(shop, LaEffect(shop, r, LaDecide(shop.shelf, r.item, at, ok, now)), i)
  {
    PaidIsSupported(shop.shelf, r.item, at, ok, now);
    hide LaDecide;
    hide Drawn;
    hide Used;
    var out := LaDecide(shop.shelf, r.item, at, ok, now);
    assert shop.done + [] == shop.done;
    DrawnBy(shop, LaEffect(shop, r, out), [], if out.paid then [r] else [], i);
  }

  lemma DrawnSame(h: Shop, h': Shop, i: Item)
    requires h'.done == h.done && h'.paid == h.paid && h.added[i] <= h'.added[i]
    ensures Drawn(h, h', i) && Used(h', Soap) == Used(h, Soap)
  {
  }

  lemma HkDrawn(s: State, w: nat, ok: bool, i: Item)
    requires HksTidy(s.hk) && HkNext(s, w, ok).Some?
    ensures var h := HkNext(s, w, ok).value.shop; Drawn(s.shop, h, i) && Used(h, Soap) == Used(s.shop, Soap)
  {
    hide Drawn;
    hide Used;
    hide HkDecide;
    hide HkEffect;
    DrawnSame(s.shop, s.shop, i);
    if s.hk.workers[w].Busy? {
      assert HkTidy(s.hk.workers[w]);
      hide HkTidy;
      HkOutDrawn(s.shop, Full(s.la), s.hk.workers[w].req, s.hk.workers[w].at, ok, i);
    }
  }

  lemma LaDrawn(s: State, w: nat, ok: bool, now: int, i: Item)
    requires LaNext(s, w, ok, now).Some?
    ensures Drawn(s.shop, LaNext(s, w, ok, now).value.shop, i)
  {
    hide Drawn;
    hide LaDecide;
    hide LaEffect;
    hide CycleStep;
    DrawnSame(s.shop, s.shop, i);
    if s.la.workers[w].Busy? && !InCycle(s.la.workers[w].at) {
      LaOutDrawn(s.shop, s.la.workers[w].req, s.la.workers[w].at, ok, now, i);
    }
  }

  lemma StDrawn(s: State, w: nat, ok: bool, i: Item)
    requires StNext(s, w, ok).Some?
    ensures var h := StNext(s, w, ok).value.shop; Drawn(s.shop, h, i) && Used(h, Soap) == Used(s.shop, Soap)
  {
    DrawnSame(s.shop, StNext(s, w, ok).value.shop, i);
    hide Drawn;
    hide Used;
    hide StDecide;
  }

  lemma DrawnStep(s: State, a: Action, i: Item)
    requires Tidy(s) && Next(s, a).Some?
    ensures Drawn(s.shop, Next(s, a).value.shop, i)
    ensures !a.LaGo? ==> Used(Next(s, a).value.shop, Soap) == Used(s.shop, Soap)
  {
    hide Next;
    hide Drawn;
    hide Used;
    hide HkNext;
    hide LaNext;
    hide StNext;
    hide HksTidy;
    hide LasTidy;
    hide StsTidy;
    Routes(s, a);
    match a {
      case HkGo(w, ok) => HkDrawn(s, w, ok, i);
      case LaGo(w, ok, now) => LaDrawn(s, w, ok, now, i);
      case StGo(w, ok) => StDrawn(s, w, ok, i);
      case _ =>
        OthersKeepShop(s, a);
        DrawnSame(s.shop, s.shop, i);
    }
  }

  lemma DrawnTrans(h: Shop, h': Shop, h'': Shop, i: Item)
    requires Drawn(h, h', i) && Drawn(h', h'', i)
    ensures Drawn(h, h'', i)
  {
  }

  lemma {:induction false} DrawnAlong(c: Setting, s: State, acts: seq<Action>, i: Item)
    requires Inv(c, s) && CanRun(s, acts)
    ensures Drawn(s.shop, After(s, acts).shop, i)
    decreases |acts|
  {
    hide Next;
    if acts == [] {
      DrawnSame(s.shop, s.shop, i);
    } else {
      var s' := Next(s, acts[0]).value;
      hide Drawn;
      DrawnStep(s, acts[0], i);
      InvStep(c, s, acts[0]);
      hide Inv;
      DrawnAlong(c, s', acts[1..], i);
      DrawnTrans(s.shop, s'.shop, After(s', acts[1..]).shop, i);
    }
  }

  // ---- after a restock

  /**
   Any state from which an item stood at 50 or more: later, whatever the others did in between, less
   than `q` can be left only if more than 50 - q of it was taken in between, in enough takes.
   */
  lemma LeftAfterRestock(c: Setting, s: State, acts: seq<Action>, i: Item)
    requires Inv(c, s) && CanRun(s, acts) && REPLENISHMENT <= Qty(s.shop.shelf, i)
    ensures var s' := After(s, acts);
      && REPLENISHMENT - Qty(s'.shop.shelf, i) <= Used(s'.shop, i) - Used(s.shop, i)
      && REPLENISHMENT - Qty(s'.shop.shelf, i) <= MostTaken(s.shop, s'.shop, i)
  {
    hide Inv;
    DrawnAlong(c, s, acts, i);
    InvAlong(c, s, acts);
    InvItem(c, s, i);
    InvItem(c, After(s, acts), i);
    hide Used;
    hide MostTaken;
    hide Next;
    hide Tidy;
    hide Contained;
  }

  predicate NotBy(acts: seq<Action>, who: Action -> bool) {
    forall k :: 0 <= k < |acts| ==> !who(acts[k])
  }

  function HkMoves(w: nat): Action -> bool {
    (a: Action) => a.HkGo? && a.w == w
  }

  function LaMoves(w: nat): Action -> bool {
    (a: Action) => a.LaGo? && a.w == w
  }

  lemma HkStays(s: State, a: Action, w: nat)
    requires Next(s, a).Some? && !HkMoves(w)(a) && w < |s.hk.workers| && s.hk.workers[w].Busy?
    ensures var ws' := Next(s, a).value.hk.workers; |ws'| == |s.hk.workers| && ws'[w] == s.hk.workers[w]
  {
    hide Next;
    hide HkDecide;
    Routes(s, a);
    if !a.HkGo? && !a.HkQuit? && !(a.MgrGo? && s.desk.mgr.Dispatching?) {
      OthersKeepHk(s, a);
    }
  }

  lemma LaStays(s: State, a: Action, w: nat)
    requires Next(s, a).Some? && !LaMoves(w)(a)
    requires w < |s.la.workers| && s.la.workers[w].Busy? && !InCycle(s.la.workers[w].at)
    ensures var ws' := Next(s, a).value.la.workers; |ws'| == |s.la.workers| && ws'[w] == s.la.workers[w]
  {
    hide Next;
    hide HkDecide;
    hide LaDecide;
    hide CycleStep;
    Routes(s, a);
    if !a.HkGo? && !a.LaGo? && !a.LaQuit? {
      OthersKeepLa(s, a);
    }
  }

  lemma {:induction false} HkStaysAlong(s: State, acts: seq<Action>, w: nat)
    requires CanRun(s, acts) && NotBy(acts, HkMoves(w)) && w < |s.hk.workers| && s.hk.workers[w].Busy?
    ensures var ws' := After(s, acts).hk.workers; |ws'| == |s.hk.workers| && ws'[w] == s.hk.workers[w]
    decreases |acts|
  {
    hide Next;
    if acts != [] {
      HkStays(s, acts[0], w);
      HkStaysAlong(Next(s, acts[0]).value, acts[1..], w);
    }
  }

  lemma {:induction false} LaStaysAlong(s: State, acts: seq<Action>, w: nat)
    requires CanRun(s, acts) && NotBy(acts, LaMoves(w))
    requires w < |s.la.workers| && s.la.workers[w].Busy? && !InCycle(s.la.workers[w].at)
    ensures var ws' := After(s, acts).la.workers; |ws'| == |s.la.workers| && ws'[w] == s.la.workers[w]
    decreases |acts|
  {
    hide Next;
    hide InCycle;
    if acts != [] {
      LaStays(s, acts[0], w);
      LaStaysAlong(Next(s, acts[0]).value, acts[1..], w);
    }
  }

  /** With a single launderer, soap is not touched while that launderer does not move. */
  lemma {:induction false} SoapUntouched(c: Setting, s: State, acts: seq<Action>)
    requires Inv(c, s) && CanRun(s, acts) && NotBy(acts, LaMoves(0)) && c.launderers == 1
    ensures Used(After(s, acts).shop, Soap) == Used(s.shop, Soap)
    decreases |acts|
  {
    hide Next;
    hide Used;
    hide Inv;
    if acts != [] {
      InvItem(c, s, Soap);
      hide Tidy;
      hide Balanced;
      hide Contained;
      OnlyLaunderer(s, acts[0]);
      DrawnStep(s, acts[0], Soap);
      InvStep(c, s, acts[0]);
      SoapUntouched(c, Next(s, acts[0]).value, acts[1..]);
    }
  }

  lemma OnlyLaunderer(s: State, a: Action)
    requires Next(s, a).Some? && |s.la.workers| == 1
    ensures a.LaGo? ==> LaMoves(0)(a)
  {
    hide Next;
    Routes(s, a);
  }

  // ---- the retry bound

  lemma HkRestocks(c: Setting, s: State, w: nat)
    requires Inv(c, s) && w < |s.hk.workers| && s.hk.workers[w].Busy? && s.hk.workers[w].at.Refill?
    requires Next(s, HkGo(w, true)).Some?
    ensures var s1, at := Next(s, HkGo(w, true)).value, s.hk.workers[w].at;
      && Inv(c, s1) && w < |s1.hk.workers|
      && s1.hk.workers[w] == Busy(s.hk.workers[w].req, Retry(at.room, at.item, at.qty, at.rest))
      && REPLENISHMENT <= Qty(s1.shop.shelf, at.item)
      && Modest(Task(at.room, Consume(at.item, at.qty)))
  {
    hide Inv;
    hide Balanced;
    hide Contained;
    hide Tidy;
    Routes(s, HkGo(w, true));
    InvStep(c, s, HkGo(w, true));
    InvItem(c, s, s.hk.workers[w].at.item);
    WorkerTidy(s, w);
    hide Next;
  }

  /**
   A housekeeper restocks an item and is about to retry after the others did `between`. The retry
   finds too little only if they took more than 50 - q of the item.
   */
  lemma HkRetryBound(c: Setting, before: seq<Action>, s: State, w: nat, between: seq<Action>)
    requires Reached(c, before, s) && w < |s.hk.workers| && s.hk.workers[w].Busy? && s.hk.workers[w].at.Refill?
    requires Next(s, HkGo(w, true)).Some?
    requires CanRun(Next(s, HkGo(w, true)).value, between) && NotBy(between, HkMoves(w))
    ensures var s1 := Next(s, HkGo(w, true)).value;
      var s2 := After(s1, between);
      var at := s.hk.workers[w].at;
      var taken := Used(s2.shop, at.item) - Used(s1.shop, at.item);
      var takes := Takes(s2.shop, at.item) - Takes(s1.shop, at.item);
      && w < |s2.hk.workers| && s2.hk.workers[w] == Busy(s.hk.workers[w].req, Retry(at.room, at.item, at.qty, at.rest))
      && (Qty(s2.shop.shelf, at.item) < at.qty ==>
            && taken > REPLENISHMENT - at.qty
            && takes >= (if at.item == CleaningItem then 5 else 50))
  {
    hide Next;
    hide Inv;
    hide Used;
    hide Takes;
    hide NotBy;
    ReachedInv(c, before, s);
    hide Reached;
    HkRestocks(c, s, w);
    var s1 := Next(s, HkGo(w, true)).value;
    HkStaysAlong(s1, between, w);
    LeftAfterRestock(c, s1, between, s.hk.workers[w].at.item);
  }

  lemma LaRestocks(c: Setting, s: State, w: nat, now: int)
    requires Inv(c, s) && w < |s.la.workers| && s.la.workers[w].Busy? && s.la.workers[w].at.TopUp?
    requires Next(s, LaGo(w, true, now)).Some?
    ensures var s1 := Next(s, LaGo(w, true, now)).value;
      && Inv(c, s1) && w < |s1.la.workers|
      && s1.la.workers[w] == Busy(s.la.workers[w].req, Again(s.la.workers[w].at.start))
      && REPLENISHMENT <= Qty(s1.shop.shelf, Soap)
      && (c.launderers == 1 ==> w == 0)
  {
    hide Inv;
    hide Balanced;
    hide Contained;
    hide Tidy;
    Routes(s, LaGo(w, true, now));
    InvStep(c, s, LaGo(w, true, now));
    InvItem(c, s, Soap);
    hide Next;
  }

  lemma SoapAtMost20(item: string)
    ensures SoapFor(item) <= 20
  {
  }

  /**
   The same for a launderer and its soap: at least two other washes took soap in between. With one
   launderer the retry always finds enough.
   */
  lemma LaRetryBound(c: Setting, before: seq<Action>, s: State, w: nat, now: int, between: seq<Action>)
    requires Reached(c, before, s) && w < |s.la.workers| && s.la.workers[w].Busy? && s.la.workers[w].at.TopUp?
    requires Next(s, LaGo(w, true, now)).Some?
    requires CanRun(Next(s, LaGo(w, true, now)).value, between) && NotBy(between, LaMoves(w))
    ensures var s1 := Next(s, LaGo(w, true, now)).value;
      var s2 := After(s1, between);
      var r := s.la.workers[w].req;
      var taken := Used(s2.shop, Soap) - Used(s1.shop, Soap);
      var takes := Takes(s2.shop, Soap) - Takes(s1.shop, Soap);
      && w < |s2.la.workers| && s2.la.workers[w] == Busy(r, Again(s.la.workers[w].at.start))
      && (Qty(s2.shop.shelf, Soap) < SoapFor(r.item) ==> taken > REPLENISHMENT - SoapFor(r.item) && takes >= 2)
      && (c.launderers == 1 ==> Qty(s2.shop.shelf, Soap) >= SoapFor(r.item))
  {
    hide Next;
    hide Inv;
    hide Used;
    hide Takes;
    hide SoapFor;
    hide NotBy;
    ReachedInv(c, before, s);
    hide Reached;
    SoapAtMost20(s.la.workers[w].req.item);
    LaRestocks(c, s, w, now);
    var s1 := Next(s, LaGo(w, true, now)).value;
    LaStaysAlong(s1, between, w);
    LeftAfterRestock(c, s1, between, Soap);
    if c.launderers == 1 {
      SoapUntouched(c, s1, between);
    }
  }
}
