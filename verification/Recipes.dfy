/** Where a housekeeper is in its recipe: its tasks are settled one by one, in the recipe's order. */
module Recipes {
  import opened Collections
  import opened Domain
  import opened Employees
  import opened System
  import opened Accounting

  // ---- the place in the recipe

  /** The tasks still to come, with the one whose restock or retry is under way. */
  function Left(req: CleaningRequest, at: HkAt): seq<Task> {
    match at
    case HkStart => Tasks(req)
    case Todo(ts) => ts
    case Refill(room, i, q, rest) => [Task(room, Consume(i, q))] + rest
    case Retry(room, i, q, rest) => [Task(room, Consume(i, q))] + rest
  }

  /** What is left is an end of the recipe. */
  predicate OnCourse(w: Worker<CleaningRequest, HkAt>) {
    w.Busy? ==>
      var all, left := Tasks(w.req), Left(w.req, w.at);
      |left| <= |all| && all[|all| - |left|..] == left
  }

  /** The tasks of its request that a housekeeper has settled, in order. */
  function Behind(w: Worker<CleaningRequest, HkAt>): (ts: seq<Task>)
    ensures w.Busy? && OnCourse(w) ==> ts + Left(w.req, w.at) == Tasks(w.req)
  {
    if w.Busy? && OnCourse(w) then Tasks(w.req)[..|Tasks(w.req)| - |Left(w.req, w.at)|] else []
  }

  predicate AllOnCourse(hk: Pool<CleaningRequest, HkAt>) {
    forall w :: 0 <= w < |hk.workers| ==> OnCourse(hk.workers[w])
  }

  /** A laundry task cannot fail: it is never among the tasks given up. */
  predicate NoLaundry(ts: seq<Task>) {
    forall t :: t in ts ==> !t.op.Launder?
  }

  predicate RecipesKept(s: State) {
    AllOnCourse(s.hk) && NoLaundry(s.shop.lost)
  }

  lemma TaskSettled(shop: Shop, full: bool, ok: bool, t: Task, rest: seq<Task>, req: CleaningRequest)
    requires HkTask(shop, full, ok, t, rest).Some?
    ensures var out := HkTask(shop, full, ok, t, rest).value;
      && out.at.Some? && (out.done + out.lost) + Left(req, out.at.value) == [t] + rest
      && out.served == out.skipped == [] && |out.done + out.lost| <= 1 && NoLaundry(out.lost)
  {
    hide Tasks;
  }

  /** A restock settles nothing if it works; a failing one, and the retry, settle the task. */
  lemma AgainSettled(shop: Shop, full: bool, req: CleaningRequest, at: HkAt, ok: bool)
    requires (at.Refill? || at.Retry?) && HkDecide(shop, full, req, at, ok).Some?
    ensures var out := HkDecide(shop, full, req, at, ok).value;
      && out.at.Some? && (out.done + out.lost) + Left(req, out.at.value) == Left(req, at)
      && out.served == out.skipped == []
  {
    hide Tasks;
    hide HkTask;
  }

  /** A decision settles the next task or none; a request is over when no task is left, or skipped at the start. */
  lemma OutLeft(shop: Shop, full: bool, req: CleaningRequest, at: HkAt, ok: bool)
    requires HkDecide(shop, full, req, at, ok).Some?
    ensures var out := HkDecide(shop, full, req, at, ok).value;
      match out.at
      case Some(at') => (out.done + out.lost) + Left(req, at') == Left(req, at) && out.served == out.skipped == []
      case None =>
        && out.done == out.lost == []
        && if at == HkStart then out.served == [] && out.skipped == [req]
           else Left(req, at) == [] && out.served == [req] && out.skipped == []
  {
    hide Tasks;
    hide HkTask;
    if at.Todo? && at.tasks != [] {
      TaskSettled(shop, full, ok, at.tasks[0], at.tasks[1..], req);
      assert at.tasks == [at.tasks[0]] + at.tasks[1..];
    } else if at.Refill? || at.Retry? {
      AgainSettled(shop, full, req, at, ok);
      hide HkDecide;
    }
  }

  lemma OutSettles(shop: Shop, full: bool, req: CleaningRequest, at: HkAt, ok: bool)
    requires HkDecide(shop, full, req, at, ok).Some?
    ensures var out := HkDecide(shop, full, req, at, ok).value; |out.done + out.lost| <= 1 && NoLaundry(out.lost)
  {
    hide Tasks;
    hide HkTask;
    if at.Todo? && at.tasks != [] {
      TaskSettled(shop, full, ok, at.tasks[0], at.tasks[1..], req);
    }
  }

  lemma EndOfEnd<T>(all: seq<T>, settled: seq<T>, left: seq<T>)
    requires var more := settled + left; |more| <= |all| && all[|all| - |more|..] == more
    ensures |left| <= |all| && all[|all| - |left|..] == left
  {
    assert (settled + left)[|settled|..] == left;
  }

  lemma OutOnCourse(shop: Shop, full: bool, req: CleaningRequest, at: HkAt, ok: bool)
    requires OnCourse(Busy(req, at)) && HkDecide(shop, full, req, at, ok).Some?
    ensures var out := HkDecide(shop, full, req, at, ok).value; out.at.Some? ==> OnCourse(Busy(req, out.at.value))
  {
    OutLeft(shop, full, req, at, ok);
    var out := HkDecide(shop, full, req, at, ok).value;
    hide HkDecide;
    hide Tasks;
    hide Left;
    if out.at.Some? {
      EndOfEnd(Tasks(req), out.done + out.lost, Left(req, out.at.value));
    }
  }

  lemma StartLeft(req: CleaningRequest)
    ensures Left(req, HkStart) == Tasks(req)
  {
  }

  lemma Grows<T>(all: seq<T>, gone: seq<T>, left: seq<T>, settled: seq<T>, gone': seq<T>, left': seq<T>)
    requires gone + left == all == gone' + left' && settled + left' == left
    ensures gone' == gone + settled
  {
    assert (gone + settled) + left' == gone' + left';
    assert gone + settled == ((gone + settled) + left')[..|gone| + |settled|];
    assert gone' == (gone' + left')[..|gone'|];
  }

  /** The same, in terms of what is gone. */
  lemma BehindNext(shop: Shop, full: bool, req: CleaningRequest, at: HkAt, ok: bool)
    requires OnCourse(Busy(req, at)) && HkDecide(shop, full, req, at, ok).Some?
    ensures var out := HkDecide(shop, full, req, at, ok).value;
      var gone := Behind(Busy(req, at));
      match out.at
      case Some(at') => Behind(Busy(req, at')) == gone + (out.done + out.lost)
      case None => gone == if at == HkStart then [] else Tasks(req)
  {
    OutLeft(shop, full, req, at, ok);
    OutOnCourse(shop, full, req, at, ok);
    StartLeft(req);
    hide HkDecide;
    hide Tasks;
    hide OnCourse;
    hide Left;
    var out := HkDecide(shop, full, req, at, ok).value;
    var gone, left := Behind(Busy(req, at)), Left(req, at);
    hide Behind;
    match out.at {
      case Some(at') =>
        Grows(Tasks(req), gone, left, out.done + out.lost, Behind(Busy(req, at')), Left(req, at'));
      case None =>
        assert at != HkStart ==> gone + [] == gone;
        assert at == HkStart ==> |gone| == 0;
    }
  }

  lemma FreeOnCourse(w: Worker<CleaningRequest, HkAt>)
    requires !w.Busy? || w.at.HkStart?
    ensures OnCourse(w)
  {
  }

  lemma HkOnCourse(s: State, w: nat, ok: bool)
    requires RecipesKept(s) && HkNext(s, w, ok).Some?
    ensures RecipesKept(HkNext(s, w, ok).value)
  {
    hide HkDecide;
    hide Tasks;
    hide Left;
    var s' := HkNext(s, w, ok).value;
    assert OnCourse(s.hk.workers[w]);
    hide OnCourse;
    if !s'.hk.workers[w].Busy? || s'.hk.workers[w].at.HkStart? {
      FreeOnCourse(s'.hk.workers[w]);
    }
    if s.hk.workers[w].Busy? {
      OutOnCourse(s.shop, Full(s.la), s.hk.workers[w].req, s.hk.workers[w].at, ok);
      OutSettles(s.shop, Full(s.la), s.hk.workers[w].req, s.hk.workers[w].at, ok);
    }
  }

  lemma CourseStep(s: State, a: Action)
    requires RecipesKept(s) && Next(s, a).Some?
    ensures RecipesKept(Next(s, a).value)
  {
    hide Next;
    hide HkNext;
    hide Left;
    Routes(s, a);
    if a.HkGo? {
      HkOnCourse(s, a.w, a.ok);
    } else {
      SameTasks(s, a);
      HkElsewhere(s, a);
    }
  }

  /** Any other step leaves each housekeeper in its place, or stops an idle one. */
  lemma HkElsewhere(s: State, a: Action)
    requires !a.HkGo? && Next(s, a).Some?
    ensures var ws, ws' := s.hk.workers, Next(s, a).value.hk.workers;
      && |ws'| == |ws|
      && forall w :: 0 <= w < |ws| ==> ws'[w] == ws[w] || (ws[w].Idle? && ws'[w] == Stopped)
    ensures Next(s, a).value.hk.finished == s.hk.finished
  {
    hide Next;
    Routes(s, a);
    if !a.HkQuit? && !(a.MgrGo? && s.desk.mgr.Dispatching?) {
      OthersKeepHk(s, a);
    }
  }

  // ---- settled tasks, request by request

  ghost function BehindBy(f: Task -> int): Worker<CleaningRequest, HkAt> -> int {
    (w: Worker<CleaningRequest, HkAt>) => Sum(Behind(w), f)
  }

  /**
   For any way `f` of weighing tasks: the tasks settled are those of the requests gone through, and
   those that the housekeepers at work have behind them.
   */
  ghost predicate SettledKept(hk: Pool<CleaningRequest, HkAt>, shop: Shop, f: Task -> int) {
    Sum(shop.done, f) + Sum(shop.lost, f) == Sum(shop.served, Cost(f)) + Sum(hk.workers, BehindBy(f))
  }

  /** One if the housekeeper is done with request `r`, finished or skipped, and not yet marked idle. */
  ghost function DoneWith(r: CleaningRequest): Worker<CleaningRequest, HkAt> -> int {
    (w: Worker<CleaningRequest, HkAt>) => if w == Done(r) then 1 else 0
  }

  /** Every request that ended was gone through or skipped, and counts once. */
  ghost predicate EndingsKept(hk: Pool<CleaningRequest, HkAt>, shop: Shop, r: CleaningRequest) {
    Sum(hk.finished, Is(r)) + Sum(hk.workers, DoneWith(r)) == Sum(shop.served, Is(r)) + Sum(shop.skipped, Is(r))
  }

  lemma OutSettled(shop: Shop, full: bool, req: CleaningRequest, at: HkAt, ok: bool, f: Task -> int)
    requires OnCourse(Busy(req, at)) && HkDecide(shop, full, req, at, ok).Some?
    ensures var out := HkDecide(shop, full, req, at, ok).value;
      var w' := if out.at.Some? then Busy(req, out.at.value) else Done(req);
      Sum(out.done, f) + Sum(out.lost, f) == Sum(out.served, Cost(f)) - BehindBy(f)(Busy(req, at)) + BehindBy(f)(w')
  {
    OutLeft(shop, full, req, at, ok);
    BehindNext(shop, full, req, at, ok);
    var out := HkDecide(shop, full, req, at, ok).value;
    hide HkDecide;
    hide Tasks;
    hide OnCourse;
    hide Behind;
    SumAppend(out.done, out.lost, f);
    SumAppend(Behind(Busy(req, at)), out.done + out.lost, f);
    NoSum(f);
    NoSum(Cost(f));
    assert Behind(Done(req)) == [] by { NothingBehind(Done(req)); }
    if out.served == [req] {
      SingleSum(out.served, Cost(f));
    }
    hide Sum;
  }

  lemma NothingBehind(w: Worker<CleaningRequest, HkAt>)
    requires !w.Busy? || w.at.HkStart?
    ensures Behind(w) == []
  {
  }

  lemma OutEnds(shop: Shop, full: bool, req: CleaningRequest, at: HkAt, ok: bool, r: CleaningRequest)
    requires OnCourse(Busy(req, at)) && HkDecide(shop, full, req, at, ok).Some?
    ensures var out := HkDecide(shop, full, req, at, ok).value;
      Sum(out.served, Is(r)) + Sum(out.skipped, Is(r)) == if out.at.None? && req == r then 1 else 0
  {
    OutLeft(shop, full, req, at, ok);
    hide HkDecide;
    hide OnCourse;
    hide Tasks;
    SingleSum([req], Is(r));
  }

  lemma HkSettled(s: State, w: nat, ok: bool, f: Task -> int)
    requires AllOnCourse(s.hk) && SettledKept(s.hk, s.shop, f) && HkNext(s, w, ok).Some?
    ensures var s' := HkNext(s, w, ok).value; SettledKept(s'.hk, s'.shop, f)
  {
    hide HkDecide;
    hide OnCourse;
    hide Behind;
    hide Sum;
    var s' := HkNext(s, w, ok).value;
    SumUpdate(s.hk.workers, w, s'.hk.workers[w], BehindBy(f));
    if s.hk.workers[w].Busy? {
      var req, at := s.hk.workers[w].req, s.hk.workers[w].at;
      var out := HkDecide(s.shop, Full(s.la), req, at, ok).value;
      OutSettled(s.shop, Full(s.la), req, at, ok, f);
      SumAppend(s.shop.done, out.done, f);
      SumAppend(s.shop.lost, out.lost, f);
      SumAppend(s.shop.served, out.served, Cost(f));
    } else {
      NothingBehind(s.hk.workers[w]);
      NothingBehind(s'.hk.workers[w]);
    }
  }

  lemma SettledStep(s: State, a: Action, f: Task -> int)
    requires AllOnCourse(s.hk) && SettledKept(s.hk, s.shop, f) && Next(s, a).Some?
    ensures var s' := Next(s, a).value; SettledKept(s'.hk, s'.shop, f)
  {
    hide Next;
    hide Sum;
    hide HkNext;
    hide Behind;
    hide AllOnCourse;
    Routes(s, a);
    if a.HkGo? {
      HkSettled(s, a.w, a.ok, f);
    } else {
      SameTasks(s, a);
      if a.HkQuit? {
        SumUpdate(s.hk.workers, a.w, Stopped, BehindBy(f));
        NothingBehind(s.hk.workers[a.w]);
        NothingBehind(Stopped);
      } else if !(a.MgrGo? && s.desk.mgr.Dispatching?) {
        OthersKeepHk(s, a);
      }
    }
  }

  lemma HkEndings(s: State, w: nat, ok: bool, r: CleaningRequest)
    requires AllOnCourse(s.hk) && EndingsKept(s.hk, s.shop, r) && HkNext(s, w, ok).Some?
    ensures var s' := HkNext(s, w, ok).value; EndingsKept(s'.hk, s'.shop, r)
  {
    hide HkDecide;
    hide OnCourse;
    hide Sum;
    var s' := HkNext(s, w, ok).value;
    SumUpdate(s.hk.workers, w, s'.hk.workers[w], DoneWith(r));
    match s.hk.workers[w] {
      case Busy(req, at) =>
        var out := HkDecide(s.shop, Full(s.la), req, at, ok).value;
        OutEnds(s.shop, Full(s.la), req, at, ok, r);
        SumAppend(s.shop.served, out.served, Is(r));
        SumAppend(s.shop.skipped, out.skipped, Is(r));
      case Done(req) => SumSnoc(s.hk.finished, req, Is(r));
      case _ =>
    }
  }

  lemma EndingsStep(s: State, a: Action, r: CleaningRequest)
    requires AllOnCourse(s.hk) && EndingsKept(s.hk, s.shop, r) && Next(s, a).Some?
    ensures var s' := Next(s, a).value; EndingsKept(s'.hk, s'.shop, r)
  {
    hide Next;
    hide Sum;
    hide HkNext;
    hide AllOnCourse;
    Routes(s, a);
    if a.HkGo? {
      HkEndings(s, a.w, a.ok, r);
    } else {
      SameTasks(s, a);
      HkElsewhere(s, a);
      if a.HkQuit? {
        SumUpdate(s.hk.workers, a.w, Stopped, DoneWith(r));
      } else if !(a.MgrGo? && s.desk.mgr.Dispatching?) {
        OthersKeepHk(s, a);
      }
    }
  }
}
