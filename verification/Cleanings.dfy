/** What housekeepers do of each recipe, in which order, and the laundry that comes of it, in every run. */
module Cleanings {
  import opened Collections
  import opened Domain
  import opened Employees
  import opened System
  import opened Accounting
  import opened Recipes
  import opened Runs

  // ---- order

  /** The tasks that a step adds to those carried out or given up. */
  function NewlySettled(h: Shop, h': Shop): seq<Task> {
    (if h.done <= h'.done then h'.done[|h.done|..] else []) + if h.lost <= h'.lost then h'.lost[|h.lost|..] else []
  }

  predicate Moves(a: Action, w: nat) {
    a.HkGo? && a.w == w
  }

  /** The tasks that housekeeper `w` settles in a run, in the order in which it settles them. */
  function Trail(s: State, acts: seq<Action>, w: nat): seq<Task>
    requires CanRun(s, acts)
    decreases |acts|
  {
    if acts == [] then []
    else
      var s' := Next(s, acts[0]).value;
      (if Moves(acts[0], w) then NewlySettled(s.shop, s'.shop) else []) + Trail(s', acts[1..], w)
  }

  /** Is housekeeper `w` at work before and after each step of a run? */
  predicate AtWork(s: State, acts: seq<Action>, w: nat)
    requires CanRun(s, acts)
    decreases |acts|
  {
    && w < |s.hk.workers| && s.hk.workers[w].Busy?
    && (acts != [] ==> AtWork(Next(s, acts[0]).value, acts[1..], w))
  }

  lemma KeptOnCourse(s: State, w: nat)
    requires RecipesKept(s) && w < |s.hk.workers|
    ensures OnCourse(s.hk.workers[w])
  {
  }

  lemma EffectSettles(shop: Shop, out: HkOut)
    ensures NewlySettled(shop, HkEffect(shop, out)) == out.done + out.lost
  {
    hide Moved;
    hide Updated;
    hide Counted;
  }

  /** A step of a housekeeper at work is what it decides. */
  lemma WorkStep(s: State, w: nat, ok: bool)
    requires w < |s.hk.workers| && s.hk.workers[w].Busy? && Next(s, HkGo(w, ok)).Some?
    ensures var req, at, s' := s.hk.workers[w].req, s.hk.workers[w].at, Next(s, HkGo(w, ok)).value;
      && HkDecide(s.shop, Full(s.la), req, at, ok).Some?
      && var out := HkDecide(s.shop, Full(s.la), req, at, ok).value;
         && s'.shop == HkEffect(s.shop, out)
         && |s'.hk.workers| == |s.hk.workers|
         && s'.hk.workers[w] == if out.at.Some? then Busy(req, out.at.value) else Done(req)
  {
    Routes(s, HkGo(w, ok));
    hide Next;
    hide HkDecide;
    hide HkEffect;
  }

  /** What one step of a housekeeper at work settles, and where it is then. */
  lemma OwnStep(s: State, w: nat, ok: bool)
    requires RecipesKept(s) && w < |s.hk.workers| && s.hk.workers[w].Busy? && Next(s, HkGo(w, ok)).Some?
    ensures var s' := Next(s, HkGo(w, ok)).value;
      var added := NewlySettled(s.shop, s'.shop);
      && |added| <= 1 && w < |s'.hk.workers|
      && (s'.hk.workers[w].Busy? ==>
            && s'.hk.workers[w].req == s.hk.workers[w].req
            && Behind(s'.hk.workers[w]) == Behind(s.hk.workers[w]) + added)
      && (!s'.hk.workers[w].Busy? ==> added == [])
  {
    WorkStep(s, w, ok);
    hide Next;
    KeptOnCourse(s, w);
    hide RecipesKept;
    var req, at := s.hk.workers[w].req, s.hk.workers[w].at;
    hide Behind;
    hide OnCourse;
    OutLeft(s.shop, Full(s.la), req, at, ok);
    OutSettles(s.shop, Full(s.la), req, at, ok);
    BehindNext(s.shop, Full(s.la), req, at, ok);
    hide Left;
    EffectSettles(s.shop, HkDecide(s.shop, Full(s.la), req, at, ok).value);
    hide HkDecide;
    hide HkEffect;
    hide NewlySettled;
  }

  /** A step of any other process leaves a housekeeper at work where it is. */
  lemma OtherStep(s: State, a: Action, w: nat)
    requires !Moves(a, w) && w < |s.hk.workers| && s.hk.workers[w].Busy? && Next(s, a).Some?
    ensures var ws' := Next(s, a).value.hk.workers; w < |ws'| && ws'[w] == s.hk.workers[w]
  {
    hide Next;
    hide HkDecide;
    Routes(s, a);
    if !a.HkGo? {
      HkElsewhere(s, a);
    }
  }

  lemma {:induction false} TrailGrows(s: State, acts: seq<Action>, w: nat)
    requires RecipesKept(s) && CanRun(s, acts) && AtWork(s, acts, w)
    ensures var s' := After(s, acts);
      && w < |s'.hk.workers| && s'.hk.workers[w].Busy? && s'.hk.workers[w].req == s.hk.workers[w].req
      && Behind(s'.hk.workers[w]) == Behind(s.hk.workers[w]) + Trail(s, acts, w)
    decreases |acts|
  {
    hide Next;
    hide Behind;
    hide NewlySettled;
    hide RecipesKept;
    if acts == [] {
      assert Behind(s.hk.workers[w]) + [] == Behind(s.hk.workers[w]);
    } else {
      var s1 := Next(s, acts[0]).value;
      CourseStep(s, acts[0]);
      TrailGrows(s1, acts[1..], w);
      if Moves(acts[0], w) {
        OwnStep(s, w, acts[0].ok);
      } else {
        OtherStep(s, acts[0], w);
      }
    }
  }

  /**
   Recipes are followed in order, task by task: from the start of its work on a request, what a
   housekeeper has settled, followed by what it still has to do, is the recipe of that request.
   */
  lemma RecipeInOrder(c: Setting, before: seq<Action>, s: State, w: nat, acts: seq<Action>)
    requires Reached(c, before, s) && CanRun(s, acts) && AtWork(s, acts, w) && s.hk.workers[w].at == HkStart
    ensures var s' := After(s, acts);
      && w < |s'.hk.workers| && s'.hk.workers[w].Busy? && s'.hk.workers[w].req == s.hk.workers[w].req
      && Trail(s, acts, w) + Left(s'.hk.workers[w].req, s'.hk.workers[w].at) == Tasks(s.hk.workers[w].req)
  {
    ReachedInv(c, before, s);
    InvAlong(c, s, acts);
    hide Reached;
    InvCourse(c, s);
    InvCourse(c, After(s, acts));
    hide Inv;
    hide Next;
    TrailGrows(s, acts, w);
    NothingBehind(s.hk.workers[w]);
    assert OnCourse(After(s, acts).hk.workers[w]);
    hide OnCourse;
    hide Behind;
    assert [] + Trail(s, acts, w) == Trail(s, acts, w);
  }

  lemma StatusIsLast(r: CleaningRequest, k: nat)
    requires k < |Tasks(r)| && Tasks(r)[k].op.SetStatus?
    ensures k + 1 == |Tasks(r)|
  {
    TasksAre(r);
    hide Tasks;
  }

  /** Steps other than those of housekeepers at work touch no cottage. */
  lemma CottagesElsewhere(s: State, a: Action)
    requires Next(s, a).Some? && !(a.HkGo? && a.w < |s.hk.workers| && s.hk.workers[a.w].Busy?)
    ensures Next(s, a).value.shop.cottages == s.shop.cottages
  {
    Routes(s, a);
    hide Next;
    hide HkDecide;
    hide LaDecide;
    hide StDecide;
    hide CycleStep;
    hide Moved;
    if !ByWorker(a) {
      OthersKeepShop(s, a);
    }
  }

  lemma OutStatus(shop: Shop, full: bool, req: CleaningRequest, at: HkAt, ok: bool)
    requires HkDecide(shop, full, req, at, ok).Some?
    requires var out := HkDecide(shop, full, req, at, ok).value; HkEffect(shop, out).cottages != shop.cottages
    ensures var out := HkDecide(shop, full, req, at, ok).value;
      out.at.Some? && |out.done| == 1 && out.lost == [] && out.done[0].op.SetStatus?
  {
    hide Tasks;
    hide Moved;
    hide Counted;
  }

  lemma StatusStepIs(s: State, a: Action)
    requires Next(s, a).Some? && Next(s, a).value.shop.cottages != s.shop.cottages
    ensures a.HkGo? && a.w < |s.hk.workers| && s.hk.workers[a.w].Busy?
    ensures var s' := Next(s, a).value;
      && a.w < |s'.hk.workers| && s'.hk.workers[a.w].Busy?
      && |NewlySettled(s.shop, s'.shop)| == 1 && NewlySettled(s.shop, s'.shop)[0].op.SetStatus?
  {
    if a.HkGo? && a.w < |s.hk.workers| && s.hk.workers[a.w].Busy? {
      WorkStep(s, a.w, a.ok);
      hide Next;
      hide NewlySettled;
      var req, at := s.hk.workers[a.w].req, s.hk.workers[a.w].at;
      OutStatus(s.shop, Full(s.la), req, at, a.ok);
      EffectSettles(s.shop, HkDecide(s.shop, Full(s.la), req, at, a.ok).value);
      hide HkDecide;
      hide HkEffect;
    } else {
      CottagesElsewhere(s, a);
    }
  }

  lemma LastOfRecipe(w: Worker<CleaningRequest, HkAt>, behind: seq<Task>, t: Task)
    requires w.Busy? && OnCourse(w) && Behind(w) == behind + [t] && t.op.SetStatus?
    ensures behind + [t] == Tasks(w.req)
  {
    var left := Left(w.req, w.at);
    hide Left;
    hide OnCourse;
    assert ((behind + [t]) + left)[|behind|] == t;
    StatusIsLast(w.req, |behind|);
    hide Behind;
    hide Tasks;
    assert (behind + [t]) + left == behind + [t];
  }

  lemma StatusOnCourse(s: State, a: Action)
    requires RecipesKept(s) && Next(s, a).Some? && Next(s, a).value.shop.cottages != s.shop.cottages
    ensures a.HkGo? && a.w < |s.hk.workers| && s.hk.workers[a.w].Busy?
    ensures var w, added := s.hk.workers[a.w], NewlySettled(s.shop, Next(s, a).value.shop);
      |added| == 1 && added[0].op.SetStatus? && Behind(w) + added == Tasks(w.req)
  {
    StatusStepIs(s, a);
    OwnStep(s, a.w, a.ok);
    CourseStep(s, a);
    var s' := Next(s, a).value;
    hide Next;
    KeptOnCourse(s', a.w);
    hide RecipesKept;
    var added := NewlySettled(s.shop, s'.shop);
    hide NewlySettled;
    hide OnCourse;
    assert added == [added[0]];
    LastOfRecipe(s'.hk.workers[a.w], Behind(s.hk.workers[a.w]), added[0]);
  }

  /** A cottage changes its status only by the last task of a recipe, when all others are settled. */
  lemma StatusComesLast(c: Setting, before: seq<Action>, s: State, a: Action)
    requires Reached(c, before, s) && Next(s, a).Some? && Next(s, a).value.shop.cottages != s.shop.cottages
    ensures a.HkGo? && a.w < |s.hk.workers| && s.hk.workers[a.w].Busy?
    ensures var w, added := s.hk.workers[a.w], NewlySettled(s.shop, Next(s, a).value.shop);
      |added| == 1 && added[0].op.SetStatus? && Behind(w) + added == Tasks(w.req)
  {
    ReachedInv(c, before, s);
    hide Reached;
    InvCourse(c, s);
    hide Inv;
    hide Next;
    hide RecipesKept;
    StatusOnCourse(s, a);
  }

  // ---- laundry

  /** One if the recipe of `q` sends the wash request `r`: towels once for daily and full cleaning, linens for full. */
  function Washes(r: WashRequest): CleaningRequest -> int {
    (q: CleaningRequest) =>
      if q.room == r.room
         && ((r.item == "towels" && (q.kind == DailyCleaning || q.kind == FullCleaning))
             || (r.item == "linens" && q.kind == FullCleaning))
      then 1 else 0
  }

  /** One if the housekeeper has the laundry task for `r` behind it. */
  function Past(r: WashRequest): Worker<CleaningRequest, HkAt> -> int {
    (w: Worker<CleaningRequest, HkAt>) => if Laundry(r) in Behind(w) then 1 else 0
  }

  lemma TasksDistinct(q: CleaningRequest)
    ensures Distinct(Tasks(q))
  {
    TasksAre(q);
    hide Tasks;
  }

  lemma WashesOnce(ts: seq<Task>, r: WashRequest)
    requires Distinct(ts)
    ensures Sum(ts, AsWash(Is(r))) == if Laundry(r) in ts then 1 else 0
  {
    CountsLaundry(ts, r);
    DistinctCount(ts, Laundry(r));
  }

  lemma RecipeWashes(q: CleaningRequest, r: WashRequest)
    ensures Cost(AsWash(Is(r)))(q) == Washes(r)(q)
  {
    TasksDistinct(q);
    WashesOnce(Tasks(q), r);
    TasksAre(q);
    hide Tasks;
    hide Sum;
    assert r == WashRequest(r.room, r.item);
  }

  lemma BehindWashes(w: Worker<CleaningRequest, HkAt>, r: WashRequest)
    ensures BehindBy(AsWash(Is(r)))(w) == Past(r)(w)
  {
    if w.Busy? && OnCourse(w) {
      TasksDistinct(w.req);
      assert Behind(w) <= Tasks(w.req);
    }
    hide Tasks;
    hide OnCourse;
    WashesOnce(Behind(w), r);
  }

  lemma NoLaundryWashes(ts: seq<Task>, g: WashRequest -> int)
    requires NoLaundry(ts)
    ensures Sum(ts, AsWash(g)) == 0
  {
    SumAtMost(ts, AsWash(g), 0);
    SumAtLeast(ts, AsWash(g), 0);
  }

  /**
   The laundry sent matches the recipes, request by request: one wash for each request that was gone
   through and asks for it, and one for each request in hand whose laundry task is past. No laundry
   task is ever given up on its own.
   */
  lemma LaundryByRecipe(c: Setting, acts: seq<Action>, s: State, r: WashRequest)
    requires Reached(c, acts, s)
    ensures multiset(s.la.sent)[r] == Sum(s.shop.served, Washes(r)) + Sum(s.hk.workers, Past(r))
    ensures NoLaundry(s.shop.lost)
  {
    var f := AsWash(Is(r));
    InitialWashes(c, Is(r));
    InitialSettled(c, f);
    WashesAlong(Initial(c), acts, Is(r));
    InitialInv(c);
    SettledAlong(Initial(c), acts, f);
    ReachedInv(c, acts, s);
    hide Reached;
    InvCourse(c, s);
    hide Inv;
    hide Next;
    hide Initial;
    SumCounts(s.la.sent, r);
    NoLaundryWashes(s.shop.lost, Is(r));
    forall q | q in s.shop.served ensures Cost(f)(q) == Washes(r)(q) {
      RecipeWashes(q, r);
    }
    forall w | w in s.hk.workers ensures BehindBy(f)(w) == Past(r)(w) {
      BehindWashes(w, r);
    }
    SumSame(s.shop.served, Cost(f), Washes(r));
    SumSame(s.hk.workers, BehindBy(f), Past(r));
    hide Sum;
  }

  /** Every request that ended, counted once, was gone through or was skipped as a whole. */
  lemma EndedRequests(c: Setting, acts: seq<Action>, s: State, q: CleaningRequest)
    requires Reached(c, acts, s)
    ensures multiset(s.hk.finished)[q] + Sum(s.hk.workers, DoneWith(q)) ==
            multiset(s.shop.served)[q] + multiset(s.shop.skipped)[q]
  {
    InitialEndings(c, q);
    InitialInv(c);
    EndingsAlong(Initial(c), acts, q);
    SumCounts(s.hk.finished, q);
    SumCounts(s.shop.served, q);
    SumCounts(s.shop.skipped, q);
    hide Sum;
    hide Next;
    hide Initial;
  }

  /** With no request in hand: one wash for each finished request that asks for it and was not skipped. */
  lemma LaundryOfFinished(c: Setting, acts: seq<Action>, s: State, r: WashRequest)
    requires Reached(c, acts, s) && forall w :: w in s.hk.workers ==> !w.Busy? && !w.Done?
    ensures multiset(s.hk.finished) == multiset(s.shop.served) + multiset(s.shop.skipped)
    ensures multiset(s.la.sent)[r] == Sum(s.shop.served, Washes(r))
  {
    LaundryByRecipe(c, acts, s, r);
    var ended := multiset(s.shop.served) + multiset(s.shop.skipped);
    forall q ensures multiset(s.hk.finished)[q] == ended[q] {
      EndedRequests(c, acts, s, q);
      SumAtMost(s.hk.workers, DoneWith(q), 0);
      SumAtLeast(s.hk.workers, DoneWith(q), 0);
    }
    hide Reached;
    forall w | w in s.hk.workers ensures Past(r)(w) == 0 {
      NothingBehind(w);
    }
    SumAtMost(s.hk.workers, Past(r), 0);
    SumAtLeast(s.hk.workers, Past(r), 0);
  }
}
