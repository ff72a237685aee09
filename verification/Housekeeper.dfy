/**
 A housekeeper's work as the sequential code does it, and the proof that a housekeeper of the step
 system, moving alone, has the same effects.
 */
module Housekeeper {
  import opened Collections
  import opened Stock
  import opened StockRepo
  import opened Domain
  import opened Employees
  import System

  /** Which of the database calls of one action fail: the first call, the restock, the retry. */
  datatype Faults = Faults(first: bool, restock: bool, retry: bool)

  /** A consumption with one restock and one retry: the stock afterwards. */
  function Retried(view: StockView, name: string, quantity: int, f: Faults): StockView {
    if f.first || name !in view then view
    else if Covers(view, name, quantity) then Changed(view, name, -quantity)
    else if f.restock then view
    else
      var more := Changed(view, name, REPLENISHMENT);
      if !f.retry && Covers(more, name, quantity) then Changed(more, name, -quantity) else more
  }

  /** Without failures and interference, a request of at most 50 always succeeds, with at most one restock. */
  lemma RetriedSucceeds(view: StockView, name: string, quantity: int)
    requires name in view && 0 <= view[name].quantity && 1 <= quantity <= REPLENISHMENT
    ensures var q, q' := view[name].quantity, Retried(view, name, quantity, Faults(false, false, false))[name].quantity;
      0 <= q' && q' == if q >= quantity then q - quantity else q + REPLENISHMENT - quantity
  {
  }

  /** The database and the laundry sent, as one housekeeper changes them. */
  datatype Scene = Scene(view: StockView, cottages: map<string, CleaningStatus>, laundry: seq<WashRequest>)

  function Perform(c: Scene, t: Task, f: Faults): Scene {
    match t.op
    case Consume(i, q) => c.(view := Retried(c.view, NameOf(i), q, f))
    case Launder(item) => c.(laundry := c.laundry + [WashRequest(t.room, item)])
    case SetStatus(status) =>
      if !f.first && t.room in c.cottages then c.(cottages := c.cottages[t.room := status]) else c
  }

  function PerformAll(c: Scene, tasks: seq<Task>, fs: seq<Faults>): Scene
    requires |tasks| <= |fs|
    decreases |tasks|
  {
    if tasks == [] then c else PerformAll(Perform(c, tasks[0], fs[0]), tasks[1..], fs[1..])
  }

  lemma RepoRetry(view: StockView, i: Item, quantity: int, f: Faults)
    requires 0 < quantity && NameOf(i) in view
    ensures var name := NameOf(i);
      var one := Consumed(Some(view), name, quantity, f.first, false);
      var two := Restocked(one.view, name, REPLENISHMENT, f.restock);
      var three := Consumed(two.view, name, quantity, f.retry, false);
      Some(Retried(view, name, quantity, f)) ==
        if one.reply == Failed(Insufficient(name, quantity)) then
          if two.reply.Fine? then three.view else two.view
        else one.view
  {
    assert Known(NameOf(i));
    assert !Blank(NameOf(i)) by {
      assert !IsSpace(NameOf(i)[0]);
    }
    hide NameOf;
    hide Known;
    hide Blank;
  }

  lemma PerformFirst(c: Scene, t: Task, rest: seq<Task>, fs: seq<Faults>)
    requires |rest| < |fs|
    ensures PerformAll(c, [t] + rest, fs) == PerformAll(Perform(c, t, fs[0]), rest, fs[1..])
  {
    assert ([t] + rest)[1..] == rest;
  }

  lemma PerformThree(c: Scene, t0: Task, t1: Task, t2: Task, fs: seq<Faults>)
    requires |fs| >= 3
    ensures PerformAll(c, [t0, t1, t2], fs) == Perform(Perform(Perform(c, t0, fs[0]), t1, fs[1]), t2, fs[2])
  {
    hide Perform;
    assert [t0, t1, t2] == [t0] + [t1, t2] && [t1, t2] == [t1] + [t2];
    PerformFirst(c, t0, [t1, t2], fs);
    PerformFirst(Perform(c, t0, fs[0]), t1, [t2], fs[1..]);
  }

  lemma PerformFour(c: Scene, t0: Task, t1: Task, t2: Task, t3: Task, fs: seq<Faults>)
    requires |fs| >= 4
    ensures PerformAll(c, [t0, t1, t2, t3], fs) ==
            Perform(Perform(Perform(Perform(c, t0, fs[0]), t1, fs[1]), t2, fs[2]), t3, fs[3])
  {
    hide Perform;
    assert [t0, t1, t2, t3] == [t0] + [t1, t2, t3];
    PerformFirst(c, t0, [t1, t2, t3], fs);
    PerformThree(Perform(c, t0, fs[0]), t1, t2, t3, fs[1..]);
  }

  /** The quantities a repository shows: none at all without a stock document. */
  function Seen(stored: Option<Document>): StockView {
    match stored case None => map[] case Some(doc) => View(doc)
  }

  lemma ItemsStored(doc: Document, i: Item)
    ensures NameOf(i) in View(doc)
  {
    NamesDiffer(i, i);
    FieldsCoverView(doc, NameOf(i));
  }

  function SeenIn(view: Option<StockView>): StockView {
    match view case None => map[] case Some(v) => v
  }

  lemma SeenView(stored: Option<Document>)
    ensures Seen(stored) == SeenIn(ViewOf(stored)) && (stored.None? <==> ViewOf(stored).None?)
    ensures stored.Some? ==> ViewOf(stored) == Some(View(stored.value))
  {
  }

  lemma NothingSeen(name: string, quantity: int, f: Faults)
    ensures Retried(map[], name, quantity, f) == map[]
    ensures var one := Consumed(None, name, quantity, f.first, false);
      one.view == None && one.reply != Fine && one.reply != Failed(Insufficient(name, quantity))
  {
  }

  /**
   The repository's calls in a row amount to the retry, as far as the stock can be seen. Without a
   document the first call is refused before any quantity is looked at, and there is no restock.
   */
  lemma RetrySteps(stored: Option<Document>, i: Item, quantity: int, f: Faults)
    requires 0 < quantity
    ensures var name := NameOf(i);
      var one := Consumed(ViewOf(stored), name, quantity, f.first, false);
      var two := Restocked(one.view, name, REPLENISHMENT, f.restock);
      var three := Consumed(two.view, name, quantity, f.retry, false);
      Retried(Seen(stored), name, quantity, f) == SeenIn(
        if one.reply == Failed(Insufficient(name, quantity)) then
          if two.reply.Fine? then three.view else two.view
        else one.view)
  {
    SeenView(stored);
    hide Seen;
    hide ViewOf;
    if stored.Some? {
      ItemsStored(stored.value, i);
      hide View;
      hide NameOf;
      hide Consumed;
      hide Restocked;
      hide Retried;
      RepoRetry(View(stored.value), i, quantity, f);
    } else {
      hide NameOf;
      hide Consumed;
      hide Restocked;
      hide Retried;
      NothingSeen(NameOf(i), quantity, f);
    }
  }

  class Worker {
    const repo: Repo
    var cottages: map<string, CleaningStatus>
    var laundry: seq<WashRequest>

    constructor (repo: Repo, cottages: map<string, CleaningStatus>)
      ensures this.repo == repo && this.cottages == cottages && laundry == []
    {
      this.repo := repo;
      this.cottages := cottages;
      laundry := [];
    }

    ghost function Now(): Scene
      reads this, repo
    {
      Scene(Seen(repo.stored), cottages, laundry)
    }

    /** Consume; if there is too little, restock and consume once more. */
    method ConsumeRetry(room: string, i: Item, quantity: int, f: Faults)
      requires 0 < quantity
      modifies repo
      ensures Now() == Perform(old(Now()), Task(room, Consume(i, quantity)), f)
    {
      RetrySteps(repo.stored, i, quantity, f);
      hide ViewOf;
      hide Seen;
      hide Consumed;
      hide Restocked;
      hide Retried;
      hide NameOf;
      var reply := repo.ConsumeItem(NameOf(i), quantity, f.first, false);
      SeenView(repo.stored);
      if reply != Failed(Insufficient(NameOf(i), quantity)) {
        return;
      }
      reply := repo.RestockItem(NameOf(i), REPLENISHMENT, f.restock);
      SeenView(repo.stored);
      if reply.Failed? {
        return;
      }
      reply := repo.ConsumeItem(NameOf(i), quantity, f.retry, false);
      SeenView(repo.stored);
    }

    method Laundry(room: string, item: string, f: Faults)
      modifies this
      ensures Now() == Perform(old(Now()), Task(room, Launder(item)), f)
    {
      laundry := laundry + [WashRequest(room, item)];
    }

    method UpdateCleaningStatus(room: string, status: CleaningStatus, f: Faults)
      modifies this
      ensures Now() == Perform(old(Now()), Task(room, SetStatus(status)), f)
    {
      if !f.first && room in cottages {
        cottages := cottages[room := status];
      }
    }

    /** The recipe switch, action by action; a failing clock at the start ends the work at once. */
    method Work(request: CleaningRequest, clockFails: bool, fs: seq<Faults>)
      requires |fs| == 4
      modifies this, repo
      ensures Now() == if clockFails then old(Now()) else PerformAll(old(Now()), Tasks(request), fs)
    {
      if clockFails {
        return;
      }
      ghost var c := Now();
      TasksAre(request);
      hide Perform;
      hide Tasks;
      hide PerformAll;
      hide Now;
      var room := request.room;
      match request.kind {
        case PrepareForGuest =>
          PerformThree(c, Tasks(request)[0], Tasks(request)[1], Tasks(request)[2], fs);
          ConsumeRetry(room, WineBottle, 1, fs[0]);
          ConsumeRetry(room, AromaCandle, 1, fs[1]);
          UpdateCleaningStatus(room, PreparedForGuest, fs[2]);
        case DailyCleaning =>
          PerformThree(c, Tasks(request)[0], Tasks(request)[1], Tasks(request)[2], fs);
          ConsumeRetry(room, CleaningItem, 5, fs[0]);
          Laundry(room, "towels", fs[1]);
          UpdateCleaningStatus(room, DailyCleaned, fs[2]);
        case FullCleaning =>
          PerformFour(c, Tasks(request)[0], Tasks(request)[1], Tasks(request)[2], Tasks(request)[3], fs);
          Laundry(room, "towels", fs[0]);
          Laundry(room, "linens", fs[1]);
          ConsumeRetry(room, CleaningItem, 10, fs[2]);
          UpdateCleaningStatus(room, FullyCleaned, fs[3]);
        case PrepareForSleep =>
          PerformThree(c, Tasks(request)[0], Tasks(request)[1], Tasks(request)[2], fs);
          ConsumeRetry(room, TeaBags, 1, fs[0]);
          ConsumeRetry(room, AromaCandle, 1, fs[1]);
          UpdateCleaningStatus(room, PreparedForSleep, fs[2]);
        case Unlisted(_) => PerformNone(c, fs);
      }
    }
  }

  lemma PerformNone(c: Scene, fs: seq<Faults>)
    ensures PerformAll(c, [], fs) == c
  {
  }

  // ---- what a recipe takes, by the keys of the stock

  /** The change of one quantity by a request for `n`, if no call fails: one restock if there is too little. */
  function Taken(q: int, n: int): int {
    if q >= n then q - n else q + 50 - n
  }

  /** What a request of each kind takes of the item under a key. */
  function Share(kind: RequestType, key: string): int {
    match kind
    case PrepareForGuest => if key == "wineBottle" || key == "aromaCandle" then 1 else 0
    case DailyCleaning => if key == "cleaningItem" then 5 else 0
    case FullCleaning => if key == "cleaningItem" then 10 else 0
    case PrepareForSleep => if key == "teaBags" || key == "aromaCandle" then 1 else 0
    case Unlisted(_) => 0
  }

  /** One task: it changes the quantity under its item's key only, and that as a request should if no call fails. */
  lemma TaskTakes(c: Scene, t: Task, f: Faults, key: string)
    requires key in c.view && 0 <= c.view[key].quantity && (t.op.Consume? ==> 0 < t.op.qty <= 50)
    ensures var v := Perform(c, t, f).view;
      && key in v && v[key].name == c.view[key].name && 0 <= v[key].quantity
      && (!(t.op.Consume? && NameOf(t.op.item) == key) ==> v[key] == c.view[key])
      && (t.op.Consume? && NameOf(t.op.item) == key && f == Faults(false, false, false) ==>
            v[key].quantity == Taken(c.view[key].quantity, t.op.qty))
  {
  }

  /**
   Whatever fails, a request changes only the quantities of its own recipe; and if nothing fails, each
   of those by what it asks for.
   */
  lemma RecipeTakes(c: Scene, req: CleaningRequest, fs: seq<Faults>, key: string)
    requires |fs| == 4 && key in c.view && 0 <= c.view[key].quantity
    ensures |Tasks(req)| <= 4
    ensures var v := PerformAll(c, Tasks(req), fs).view;
      && key in v && v[key].name == c.view[key].name
      && (Share(req.kind, key) == 0 ==> v[key] == c.view[key])
      && ((forall k :: 0 <= k < 4 ==> fs[k] == Faults(false, false, false)) && Share(req.kind, key) > 0 ==>
            v[key].quantity == Taken(c.view[key].quantity, Share(req.kind, key)))
  {
    TasksAre(req);
    var ts := Tasks(req);
    hide Tasks;
    match req.kind {
      case FullCleaning =>
        PerformFour(c, ts[0], ts[1], ts[2], ts[3], fs);
        var c1 := Perform(c, ts[0], fs[0]);
        var c2 := Perform(c1, ts[1], fs[1]);
        var c3 := Perform(c2, ts[2], fs[2]);
        hide PerformAll;
        TaskTakes(c, ts[0], fs[0], key);
        TaskTakes(c1, ts[1], fs[1], key);
        TaskTakes(c2, ts[2], fs[2], key);
        TaskTakes(c3, ts[3], fs[3], key);
        hide Perform;
      case Unlisted(_) => PerformNone(c, fs);
      case _ =>
        PerformThree(c, ts[0], ts[1], ts[2], fs);
        var c1 := Perform(c, ts[0], fs[0]);
        var c2 := Perform(c1, ts[1], fs[1]);
        hide PerformAll;
        TaskTakes(c, ts[0], fs[0], key);
        TaskTakes(c1, ts[1], fs[1], key);
        TaskTakes(c2, ts[2], fs[2], key);
        hide Perform;
    }
  }

  /** The laundry that a request sends, in order, and the status it sets, if the update does not fail. */
  lemma RecipeSends(c: Scene, req: CleaningRequest, fs: seq<Faults>)
    requires |fs| == 4
    ensures |Tasks(req)| <= 4
    ensures PerformAll(c, Tasks(req), fs).laundry == c.laundry +
      match req.kind
      case DailyCleaning => [WashRequest(req.room, "towels")]
      case FullCleaning => [WashRequest(req.room, "towels"), WashRequest(req.room, "linens")]
      case _ => []
    ensures var shown := PerformAll(c, Tasks(req), fs).cottages;
      match req.kind
      case PrepareForGuest => shown == Shows(c.cottages, req.room, PreparedForGuest, fs[2].first)
      case DailyCleaning => shown == Shows(c.cottages, req.room, DailyCleaned, fs[2].first)
      case FullCleaning => shown == Shows(c.cottages, req.room, FullyCleaned, fs[3].first)
      case PrepareForSleep => shown == Shows(c.cottages, req.room, PreparedForSleep, fs[2].first)
      case Unlisted(_) => shown == c.cottages
  {
    TasksAre(req);
    var ts := Tasks(req);
    hide Tasks;
    match req.kind {
      case FullCleaning =>
        PerformFour(c, ts[0], ts[1], ts[2], ts[3], fs);
        hide PerformAll;
        hide Retried;
        var towels, linens := WashRequest(req.room, "towels"), WashRequest(req.room, "linens");
        assert (c.laundry + [towels]) + [linens] == c.laundry + [towels, linens];
      case Unlisted(_) =>
        PerformNone(c, fs);
        assert c.laundry + [] == c.laundry;
      case _ =>
        PerformThree(c, ts[0], ts[1], ts[2], fs);
        hide PerformAll;
        hide Retried;
        assert c.laundry + [] == c.laundry;
    }
  }

  /** Only a known cottage gets a status, and only if the update does not fail. */
  function Shows(cottages: map<string, CleaningStatus>, room: string, status: CleaningStatus, fails: bool):
    map<string, CleaningStatus>
  {
    if room in cottages && !fails then cottages[room := status] else cottages
  }

  // ---- a housekeeper of the step system, left alone

  /** The scene shows the state, as far as housekeepers can see it; `sent` went to the laundry before. */
  ghost predicate Pictures(s: System.State, sent: seq<WashRequest>, c: Scene) {
    && (forall i :: NameOf(i) in c.view && Qty(s.shop.shelf, i) == c.view[NameOf(i)].quantity)
    && s.shop.cottages == c.cottages
    && s.la.sent == sent + c.laundry
  }

  predicate About(s: System.State, w: nat, at: System.HkAt) {
    Alike(s.hk) && w < |s.hk.workers| && s.hk.workers[w].Busy? && s.hk.workers[w].at == at
  }

  /** Room in the laundry queue for `n` more requests. */
  predicate RoomFor(s: System.State, n: nat) {
    |s.la.queue| + n <= s.la.capacity
  }

  lemma ChangedPictures(s: System.State, s': System.State, sent: seq<WashRequest>, c: Scene, i: Item, delta: int)
    requires Pictures(s, sent, c)
    requires s'.shop.shelf == s.shop.shelf[i := Qty(s.shop.shelf, i) + delta]
    requires s'.shop.cottages == s.shop.cottages && s'.la.sent == s.la.sent
    ensures NameOf(i) in c.view && Pictures(s', sent, c.(view := Changed(c.view, NameOf(i), delta)))
  {
    hide NameOf;
    forall j: Item ensures NameOf(j) == NameOf(i) ==> j == i {
      NamesDiffer(j, i);
    }
  }

  /** One step of a housekeeper, on the parts that the scene shows. */
  lemma HkTurn(s: System.State, w: nat, ok: bool, at: System.HkAt, out: System.HkOut)
    requires About(s, w, at)
    requires System.HkDecide(s.shop, System.Full(s.la), s.hk.workers[w].req, at, ok) == Some(out)
    requires out.at.Some?
    ensures var o := System.Next(s, System.HkGo(w, ok));
      && o.Some? && About(o.value, w, out.at.value) && o.value.hk.workers[w].req == s.hk.workers[w].req
      && o.value.shop == System.HkEffect(s.shop, out) && o.value.la == System.Laundered(s.la, out.done)
  {
    System.Routes(s, System.HkGo(w, ok));
    hide System.Next;
    hide System.HkDecide;
  }

  lemma OneMore(s: System.State, a: System.Action, rest: seq<System.Action>)
    requires System.Next(s, a).Some? && System.CanRun(System.Next(s, a).value, rest)
    ensures System.CanRun(s, [a] + rest)
    ensures System.After(s, [a] + rest) == System.After(System.Next(s, a).value, rest)
  {
    hide System.Next;
    assert ([a] + rest)[1..] == rest;
  }

  ghost predicate Only(acts: seq<System.Action>, w: nat) {
    forall k :: 0 <= k < |acts| ==> acts[k].HkGo? && acts[k].w == w
  }

  /** What a run of the housekeeper from `s` to `s'` has to reach. */
  ghost predicate Reaches(s: System.State, w: nat, acts: seq<System.Action>, rest: seq<Task>,
                          sent: seq<WashRequest>, c: Scene, growth: nat) {
    && System.CanRun(s, acts) && Only(acts, w)
    && var s' := System.After(s, acts);
       && About(s', w, System.Todo(rest)) && Pictures(s', sent, c)
       && w < |s.hk.workers| && s.hk.workers[w].Busy? && s'.hk.workers[w].req == s.hk.workers[w].req
       && s'.la.capacity == s.la.capacity && |s'.la.queue| <= |s.la.queue| + growth
  }

  lemma ArrivesNow(s: System.State, w: nat, ok: bool, rest: seq<Task>, sent: seq<WashRequest>, c: Scene, growth: nat)
    requires var o := System.Next(s, System.HkGo(w, ok));
      && o.Some? && About(o.value, w, System.Todo(rest)) && Pictures(o.value, sent, c)
      && w < |s.hk.workers| && s.hk.workers[w].Busy? && o.value.hk.workers[w].req == s.hk.workers[w].req
      && o.value.la.capacity == s.la.capacity && |o.value.la.queue| <= |s.la.queue| + growth
    ensures Reaches(s, w, [System.HkGo(w, ok)], rest, sent, c, growth)
  {
    hide System.Next;
    hide Pictures;
    hide About;
    OneMore(s, System.HkGo(w, ok), []);
    assert [System.HkGo(w, ok)] + [] == [System.HkGo(w, ok)];
  }

  lemma ArrivesLater(s: System.State, w: nat, ok: bool, more: seq<System.Action>, rest: seq<Task>,
                     sent: seq<WashRequest>, c: Scene)
    requires var o := System.Next(s, System.HkGo(w, ok));
      && o.Some? && o.value.la == s.la && Reaches(o.value, w, more, rest, sent, c, 0)
      && w < |s.hk.workers| && s.hk.workers[w].Busy? && w < |o.value.hk.workers| && o.value.hk.workers[w].Busy?
      && o.value.hk.workers[w].req == s.hk.workers[w].req
    ensures Reaches(s, w, [System.HkGo(w, ok)] + more, rest, sent, c, 0)
  {
    hide System.Next;
    hide Pictures;
    hide About;
    OneMore(s, System.HkGo(w, ok), more);
  }

  lemma SamePictures(s: System.State, s': System.State, sent: seq<WashRequest>, c: Scene)
    requires Pictures(s, sent, c)
    requires s'.shop.shelf == s.shop.shelf && s'.shop.cottages == s.shop.cottages && s'.la.sent == s.la.sent
    ensures Pictures(s', sent, c)
  {
    hide NameOf;
  }

  lemma Shown(s: System.State, sent: seq<WashRequest>, c: Scene, i: Item)
    requires Pictures(s, sent, c)
    ensures NameOf(i) in c.view && Qty(s.shop.shelf, i) == c.view[NameOf(i)].quantity
  {
    hide NameOf;
  }

  lemma RetryAlone(s: System.State, w: nat, room: string, i: Item, q: int, rest: seq<Task>,
                   sent: seq<WashRequest>, c: Scene, ok: bool)
    returns (acts: seq<System.Action>)
    requires About(s, w, System.Retry(room, i, q, rest)) && Pictures(s, sent, c)
    ensures NameOf(i) in c.view
    ensures Reaches(s, w, acts, rest, sent,
                    if ok && Covers(c.view, NameOf(i), q) then c.(view := Changed(c.view, NameOf(i), -q)) else c, 0)
  {
    Shown(s, sent, c, i);
    var req := s.hk.workers[w].req;
    hide NameOf;
    hide Pictures;
    hide About;
    hide Reaches;
    hide System.HkTask;
    var at := System.Retry(room, i, q, rest);
    var out := System.HkDecide(s.shop, System.Full(s.la), req, at, ok).value;
    HkTurn(s, w, ok, at, out);
    hide System.Next;
    var s1 := System.Next(s, System.HkGo(w, ok)).value;
    if ok && Qty(s.shop.shelf, i) >= q {
      ChangedPictures(s, s1, sent, c, i, -q);
      ArrivesNow(s, w, ok, rest, sent, c.(view := Changed(c.view, NameOf(i), -q)), 0);
    } else {
      SamePictures(s, s1, sent, c);
      ArrivesNow(s, w, ok, rest, sent, c, 0);
    }
    acts := [System.HkGo(w, ok)];
  }

  /** After a refused consumption: restocked and tried again, or given up. */
  lemma RefillAlone(s: System.State, w: nat, room: string, i: Item, q: int, rest: seq<Task>,
                    sent: seq<WashRequest>, c: Scene, f: Faults)
    returns (acts: seq<System.Action>)
    requires About(s, w, System.Refill(room, i, q, rest)) && Pictures(s, sent, c)
    requires NameOf(i) in c.view && !Covers(c.view, NameOf(i), q) && !f.first
    ensures Reaches(s, w, acts, rest, sent, c.(view := Retried(c.view, NameOf(i), q, f)), 0)
  {
    var req := s.hk.workers[w].req;
    hide NameOf;
    hide Pictures;
    hide About;
    hide Reaches;
    hide System.HkTask;
    var at, ok := System.Refill(room, i, q, rest), !f.restock;
    var out := System.HkDecide(s.shop, System.Full(s.la), req, at, ok).value;
    HkTurn(s, w, ok, at, out);
    hide System.Next;
    var s1 := System.Next(s, System.HkGo(w, ok)).value;
    if ok {
      ChangedPictures(s, s1, sent, c, i, REPLENISHMENT);
      var c1 := c.(view := Changed(c.view, NameOf(i), REPLENISHMENT));
      var more := RetryAlone(s1, w, room, i, q, rest, sent, c1, !f.retry);
      ArrivesLater(s, w, ok, more, rest, sent, c.(view := Retried(c.view, NameOf(i), q, f)));
      acts := [System.HkGo(w, ok)] + more;
    } else {
      SamePictures(s, s1, sent, c);
      ArrivesNow(s, w, ok, rest, sent, c, 0);
      acts := [System.HkGo(w, ok)];
    }
  }

  /** The first step on a task: consumption that may go on to a restock, or a step that settles it. */
  lemma ConsumeAlone(s: System.State, w: nat, t: Task, rest: seq<Task>, sent: seq<WashRequest>, c: Scene, f: Faults)
    returns (acts: seq<System.Action>)
    requires t.op.Consume? && About(s, w, System.Todo([t] + rest)) && Pictures(s, sent, c)
    ensures Reaches(s, w, acts, rest, sent, Perform(c, t, f), 0)
  {
    var req := s.hk.workers[w].req;
    var i, q, at, ok := t.op.item, t.op.qty, System.Todo([t] + rest), !f.first;
    Shown(s, sent, c, i);
    hide NameOf;
    hide Pictures;
    hide About;
    hide Reaches;
    assert ([t] + rest)[0] == t && ([t] + rest)[1..] == rest;
    var out := System.HkDecide(s.shop, System.Full(s.la), req, at, ok).value;
    HkTurn(s, w, ok, at, out);
    hide System.Next;
    var s1 := System.Next(s, System.HkGo(w, ok)).value;
    if !ok {
      SamePictures(s, s1, sent, c);
      ArrivesNow(s, w, ok, rest, sent, c, 0);
      acts := [System.HkGo(w, ok)];
    } else if Qty(s.shop.shelf, i) >= q {
      ChangedPictures(s, s1, sent, c, i, -q);
      ArrivesNow(s, w, ok, rest, sent, c.(view := Changed(c.view, NameOf(i), -q)), 0);
      acts := [System.HkGo(w, ok)];
    } else {
      SamePictures(s, s1, sent, c);
      var more := RefillAlone(s1, w, t.room, i, q, rest, sent, c, f);
      ArrivesLater(s, w, ok, more, rest, sent, Perform(c, t, f));
      acts := [System.HkGo(w, ok)] + more;
    }
  }

  lemma StatusPictures(s: System.State, s': System.State, sent: seq<WashRequest>, c: Scene,
                       cottages: map<string, CleaningStatus>)
    requires Pictures(s, sent, c)
    requires s'.shop.shelf == s.shop.shelf && s'.shop.cottages == cottages && s'.la.sent == s.la.sent
    ensures Pictures(s', sent, c.(cottages := cottages))
  {
    hide NameOf;
  }

  lemma LaundryPictures(s: System.State, s': System.State, sent: seq<WashRequest>, c: Scene, r: WashRequest)
    requires Pictures(s, sent, c)
    requires s'.shop.shelf == s.shop.shelf && s'.shop.cottages == s.shop.cottages && s'.la.sent == s.la.sent + [r]
    ensures Pictures(s', sent, c.(laundry := c.laundry + [r]))
  {
    hide NameOf;
    assert (sent + c.laundry) + [r] == sent + (c.laundry + [r]);
  }

  lemma CottagesShown(s: System.State, sent: seq<WashRequest>, c: Scene)
    requires Pictures(s, sent, c)
    ensures s.shop.cottages == c.cottages
  {
  }

  lemma OtherAlone(s: System.State, w: nat, t: Task, rest: seq<Task>, sent: seq<WashRequest>, c: Scene, f: Faults)
    requires !t.op.Consume? && About(s, w, System.Todo([t] + rest)) && Pictures(s, sent, c) && RoomFor(s, 1)
    ensures Reaches(s, w, [System.HkGo(w, !f.first)], rest, sent, Perform(c, t, f), 1)
  {
    var req := s.hk.workers[w].req;
    CottagesShown(s, sent, c);
    hide About;
    hide Reaches;
    hide Pictures;
    assert ([t] + rest)[0] == t && ([t] + rest)[1..] == rest;
    var at, ok := System.Todo([t] + rest), !f.first;
    var out := System.HkDecide(s.shop, System.Full(s.la), req, at, ok).value;
    HkTurn(s, w, ok, at, out);
    hide System.Next;
    var s1 := System.Next(s, System.HkGo(w, ok)).value;
    if t.op.Launder? {
      LaundryPictures(s, s1, sent, c, WashRequest(t.room, t.op.laundry));
    } else {
      StatusPictures(s, s1, sent, c, Perform(c, t, f).cottages);
    }
    ArrivesNow(s, w, ok, rest, sent, Perform(c, t, f), 1);
  }

  /** Performing one task takes at most three steps of the housekeeper, and has the same effect. */
  lemma TaskAlone(s: System.State, w: nat, t: Task, rest: seq<Task>, sent: seq<WashRequest>, c: Scene, f: Faults)
    returns (acts: seq<System.Action>)
    requires About(s, w, System.Todo([t] + rest)) && Pictures(s, sent, c) && RoomFor(s, 1)
    ensures Reaches(s, w, acts, rest, sent, Perform(c, t, f), 1)
  {
    hide About;
    hide Pictures;
    hide Perform;
    if t.op.Consume? {
      acts := ConsumeAlone(s, w, t, rest, sent, c, f);
    } else {
      OtherAlone(s, w, t, rest, sent, c, f);
      acts := [System.HkGo(w, !f.first)];
    }
  }

  /**
   The step system and the sequential code agree: a housekeeper with its task list, moving alone while
   the laundry queue has room, leaves the scene that performing the list leaves.
   */
  lemma {:induction false} AloneAgrees(s: System.State, w: nat, tasks: seq<Task>,
                                       sent: seq<WashRequest>, c: Scene, fs: seq<Faults>)
    returns (acts: seq<System.Action>)
    requires About(s, w, System.Todo(tasks)) && Pictures(s, sent, c) && RoomFor(s, |tasks|) && |tasks| <= |fs|
    ensures Reaches(s, w, acts, [], sent, PerformAll(c, tasks, fs), |tasks|)
    decreases |tasks|
  {
    hide System.Next;
    hide Perform;
    hide Pictures;
    if tasks == [] {
      acts := [];
    } else {
      assert tasks == [tasks[0]] + tasks[1..];
      var first := TaskAlone(s, w, tasks[0], tasks[1..], sent, c, fs[0]);
      var s1 := System.After(s, first);
      var more := AloneAgrees(s1, w, tasks[1..], sent, Perform(c, tasks[0], fs[0]), fs[1..]);
      acts := first + more;
      System.RunAppend(s, first, more);
    }
  }

  /** The work from start to end: nothing if the clock fails, and otherwise the recipe. */
  lemma WorkAgrees(s: System.State, w: nat, sent: seq<WashRequest>, c: Scene, clockFails: bool, fs: seq<Faults>)
    returns (acts: seq<System.Action>)
    requires About(s, w, System.HkStart) && Pictures(s, sent, c) && RoomFor(s, 4) && |fs| == 4
    ensures System.CanRun(s, acts) && Only(acts, w)
    ensures var req, s' := s.hk.workers[w].req, System.After(s, acts);
      && w < |s'.hk.workers| && s'.hk.workers[w] == Done(req) && |Tasks(req)| <= 4
      && Pictures(s', sent, if clockFails then c else PerformAll(c, Tasks(req), fs))
  {
    var req := s.hk.workers[w].req;
    TasksAre(req);
    Begins(s, w, sent, c, !clockFails);
    hide System.Next;
    hide Pictures;
    hide Tasks;
    hide PerformAll;
    var s1 := System.Next(s, System.HkGo(w, !clockFails)).value;
    if clockFails {
      OneMore(s, System.HkGo(w, false), []);
      acts := [System.HkGo(w, false)] + [];
    } else {
      var more := AloneAgrees(s1, w, Tasks(req), sent, c, fs);
      var s2 := System.After(s1, more);
      Finishes(s2, w, sent, PerformAll(c, Tasks(req), fs));
      OneMore(s2, System.HkGo(w, true), []);
      System.RunAppend(s1, more, [System.HkGo(w, true)] + []);
      OneMore(s, System.HkGo(w, true), more + ([System.HkGo(w, true)] + []));
      acts := [System.HkGo(w, true)] + (more + ([System.HkGo(w, true)] + []));
    }
  }

  /** The first step: the clock is read, and the recipe begins. */
  lemma Begins(s: System.State, w: nat, sent: seq<WashRequest>, c: Scene, ok: bool)
    requires About(s, w, System.HkStart) && Pictures(s, sent, c)
    ensures var o, req := System.Next(s, System.HkGo(w, ok)), s.hk.workers[w].req;
      && o.Some? && Pictures(o.value, sent, c) && w < |o.value.hk.workers|
      && o.value.la == s.la
      && (ok ==> About(o.value, w, System.Todo(Tasks(req))) && o.value.hk.workers[w].req == req)
      && (!ok ==> o.value.hk.workers[w] == Done(req))
  {
    hide NameOf;
    hide Tasks;
    System.Routes(s, System.HkGo(w, ok));
    hide System.Next;
    SamePictures(s, System.Next(s, System.HkGo(w, ok)).value, sent, c);
    hide Pictures;
  }

  /** The last step: with no task left the work is over. */
  lemma Finishes(s: System.State, w: nat, sent: seq<WashRequest>, c: Scene)
    requires About(s, w, System.Todo([])) && Pictures(s, sent, c)
    ensures var o := System.Next(s, System.HkGo(w, true));
      && o.Some? && Pictures(o.value, sent, c)
      && w < |o.value.hk.workers| && o.value.hk.workers[w] == Done(s.hk.workers[w].req)
  {
    hide NameOf;
    hide Tasks;
    System.Routes(s, System.HkGo(w, true));
    hide System.Next;
    SamePictures(s, System.Next(s, System.HkGo(w, true)).value, sent, c);
    hide Pictures;
  }
}
