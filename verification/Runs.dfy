/** The invariant of the whole system, along every run from an initial state. */
module Runs {
  import opened Collections
  import opened Stock
  import opened Domain
  import opened Employees
  import opened System
  import opened Accounting
  import opened Restocking
  import opened Intake
  import opened Washing
  import opened Progress
  import opened Recipes

  /** The opening quantities are not negative. */
  ghost predicate Plausible(c: Setting) {
    forall i: Item :: 0 <= Qty(c.shelf, i)
  }

  /** Queue capacities, staff and messages are those of the setting. */
  predicate Fits(c: Setting, s: State) {
    && |s.hk.workers| == c.housekeepers && s.hk.capacity == 32
    && |s.la.workers| == c.launderers && s.la.capacity == 32
    && |s.st.workers| == c.stockers && s.st.capacity == 16
    && s.desk.inbox == c.inbox && s.bell.hourIn == c.hourIn && s.bell.dayIn == c.dayIn
  }

  ghost predicate Inv(c: Setting, s: State) {
    && Fits(c, s) && Present(s) && PoolsSound(s) && Tidy(s) && RecipesKept(s)
    && DeskSound(s.desk, s.hk.sent) && DaysSound(s.desk, s.bell, s.st.sent)
    && HubSound(s) && OnAir(s.bell)
    && (forall i :: Balanced(c.shelf, s.shop, i))
    && (forall i :: Contained(c.shelf, s, i))
  }

  lemma InitialStock(c: Setting, i: Item)
    requires Plausible(c)
    ensures Balanced(c.shelf, Initial(c).shop, i) && Contained(c.shelf, Initial(c), i)
  {
    FreshSum(c.housekeepers, HkBound(i));
    FreshSum(c.launderers, LaBound(i));
    FreshSum(c.stockers, StBound(i));
  }

  lemma InitialPools(c: Setting)
    ensures PoolsSound(Initial(c)) && Tidy(Initial(c)) && Present(Initial(c)) && Fits(c, Initial(c))
    ensures RecipesKept(Initial(c))
  {
    FreshSound<CleaningRequest, HkAt>(CleaningRequest("", Unlisted(0)), 32, c.housekeepers);
    FreshSound<WashRequest, LaAt>(WashRequest("", ""), 32, c.launderers);
    FreshSound<RestockRequest, StAt>(RestockRequest([]), 16, c.stockers);
    hide Sound;
  }

  lemma InitialHub(c: Setting)
    ensures HubSound(Initial(c)) && OnAir(Initial(c).bell)
  {
    FreshSum(c.launderers, Subscribed);
    hide WaitOk;
    hide EndOk;
  }

  lemma InitialIntake(c: Setting)
    ensures var s := Initial(c); DeskSound(s.desk, s.hk.sent) && DaysSound(s.desk, s.bell, s.st.sent)
  {
    hide Accept;
  }

  lemma InitialInv(c: Setting)
    requires Plausible(c)
    ensures Inv(c, Initial(c))
  {
    hide Initial;
    hide Fits;
    hide Present;
    hide PoolsSound;
    hide Tidy;
    hide RecipesKept;
    hide DeskSound;
    hide DaysSound;
    hide HubSound;
    hide OnAir;
    hide Balanced;
    hide Contained;
    InitialPools(c);
    InitialHub(c);
    InitialIntake(c);
    forall i: Item ensures Balanced(c.shelf, Initial(c).shop, i) && Contained(c.shelf, Initial(c), i) {
      InitialStock(c, i);
    }
  }

  lemma FitsStep(c: Setting, s: State, a: Action)
    requires Fits(c, s) && Next(s, a).Some?
    ensures Fits(c, Next(s, a).value)
  {
    hide Next;
    hide HkNext;
    hide LaNext;
    hide StNext;
    hide NtStep;
    hide Accept;
    hide Selectable;
    Routes(s, a);
    if ByWorker(a) {
      WorkersFit(s, a);
    } else if ByNotifier(a) {
      NotifierFits(s.bell, a, s.cancelled);
    }
  }

  lemma NotifierFits(b: Bell, a: Action, cancelled: bool)
    requires ByNotifier(a) && NtStep(b, a, cancelled).Some?
    ensures var b' := NtStep(b, a, cancelled).value; b'.hourIn == b.hourIn && b'.dayIn == b.dayIn
  {
    hide LogOf;
  }

  /** What a worker's step leaves as it is, or at its size. */
  predicate SameStaff(s: State, s': State) {
    && |s'.hk.workers| == |s.hk.workers| && s'.hk.capacity == s.hk.capacity
    && |s'.la.workers| == |s.la.workers| && s'.la.capacity == s.la.capacity
    && |s'.st.workers| == |s.st.workers| && s'.st.capacity == s.st.capacity
    && s'.desk == s.desk && s'.bell == s.bell.(hub := s'.bell.hub)
  }

  lemma HkFits(s: State, w: nat, ok: bool)
    requires HkNext(s, w, ok).Some?
    ensures SameStaff(s, HkNext(s, w, ok).value)
  {
    hide HkDecide;
    hide HkEffect;
  }

  lemma LaFits(s: State, w: nat, ok: bool, now: int)
    requires LaNext(s, w, ok, now).Some?
    ensures SameStaff(s, LaNext(s, w, ok, now).value)
  {
    hide LaDecide;
    hide LaEffect;
    hide CycleStep;
  }

  lemma StFits(s: State, w: nat, ok: bool)
    requires StNext(s, w, ok).Some?
    ensures SameStaff(s, StNext(s, w, ok).value)
  {
    hide StDecide;
    hide StEffect;
  }

  lemma WorkersFit(s: State, a: Action)
    requires ByWorker(a) && Next(s, a).Some?
    ensures SameStaff(s, Next(s, a).value)
  {
    hide Next;
    hide HkNext;
    hide LaNext;
    hide StNext;
    Routes(s, a);
    match a {
      case HkGo(w, ok) => HkFits(s, w, ok);
      case LaGo(w, ok, now) => LaFits(s, w, ok, now);
      case StGo(w, ok) => StFits(s, w, ok);
      case _ =>
    }
    hide SameStaff;
  }

  /** Every step of every process keeps the invariant. */
  lemma InvStep(c: Setting, s: State, a: Action)
    requires Inv(c, s) && Next(s, a).Some?
    ensures Inv(c, Next(s, a).value)
  {
    hide Next;
    hide Fits;
    hide Present;
    hide PoolsSound;
    hide Tidy;
    hide RecipesKept;
    hide DeskSound;
    hide DaysSound;
    hide HubSound;
    hide OnAir;
    hide Balanced;
    hide Contained;
    FitsStep(c, s, a);
    PresentStep(s, a);
    PoolsStep(s, a);
    TidyStep(s, a);
    CourseStep(s, a);
    DeskStep(s, a);
    DaysStep(s, a);
    HubStep(s, a);
    OnAirStep(s, a);
    var s' := Next(s, a).value;
    forall i: Item ensures Balanced(c.shelf, s'.shop, i) && Contained(c.shelf, s', i) {
      LedgerStep(c.shelf, s, a, i);
      ContainedStep(c.shelf, s, a, i);
    }
  }

  /** The parts of the invariant that speak about one item. */
  lemma InvItem(c: Setting, s: State, i: Item)
    requires Inv(c, s)
    ensures Fits(c, s) && Tidy(s) && Balanced(c.shelf, s.shop, i) && Contained(c.shelf, s, i)
    ensures 0 <= Qty(s.shop.shelf, i)
  {
  }

  /** The part of the invariant that the termination measure needs. */
  lemma InvEvents(c: Setting, s: State)
    requires Inv(c, s)
    ensures HubSound(s) && s.bell.hourTaken <= |s.bell.hourIn| && s.bell.dayTaken <= |s.bell.dayIn|
  {
  }

  /** The remaining parts, one by one. */
  lemma InvStaff(c: Setting, s: State)
    requires Inv(c, s)
    ensures Fits(c, s) && Present(s)
  {
  }

  lemma InvPools(c: Setting, s: State)
    requires Inv(c, s)
    ensures PoolsSound(s)
  {
    hide PoolsSound;
  }

  lemma InvCourse(c: Setting, s: State)
    requires Inv(c, s)
    ensures RecipesKept(s)
  {
    hide RecipesKept;
  }

  lemma InvDesk(c: Setting, s: State)
    requires Inv(c, s)
    ensures DeskSound(s.desk, s.hk.sent) && s.desk.inbox == c.inbox
  {
    hide DeskSound;
  }

  lemma InvDays(c: Setting, s: State)
    requires Inv(c, s)
    ensures DaysSound(s.desk, s.bell, s.st.sent)
  {
    hide DaysSound;
  }

  lemma InvHub(c: Setting, s: State)
    requires Inv(c, s)
    ensures HubSound(s) && OnAir(s.bell)
  {
    hide HubSound;
    hide OnAir;
  }

  lemma {:induction false} InvAlong(c: Setting, s: State, acts: seq<Action>)
    requires Inv(c, s) && CanRun(s, acts)
    ensures Inv(c, After(s, acts))
    decreases |acts|
  {
    hide Inv;
    hide Next;
    if acts != [] {
      InvStep(c, s, acts[0]);
      InvAlong(c, Next(s, acts[0]).value, acts[1..]);
    }
  }

  /** A state that some run of the system reaches. */
  ghost predicate Reached(c: Setting, acts: seq<Action>, s: State) {
    Plausible(c) && CanRun(Initial(c), acts) && s == After(Initial(c), acts)
  }

  lemma ReachedInv(c: Setting, acts: seq<Action>, s: State)
    requires Reached(c, acts, s)
    ensures Inv(c, s)
  {
    hide Inv;
    InitialInv(c);
    InvAlong(c, Initial(c), acts);
  }

  // ---- the books that hold for any way of weighing tasks and wash requests

  lemma InitialTasks(c: Setting, f: Task -> int)
    ensures TasksKept(Initial(c).hk, Initial(c).shop, f)
  {
    FreshSum(c.housekeepers, Pending(f));
  }

  lemma InitialWashes(c: Setting, g: WashRequest -> int)
    ensures WashesKept(Initial(c).la, Initial(c).shop, g) && LaundrySent(Initial(c).la, Initial(c).shop, g)
  {
    FreshSum(c.launderers, Due(g));
  }

  lemma {:induction false} TasksAlong(s: State, acts: seq<Action>, f: Task -> int)
    requires TasksKept(s.hk, s.shop, f) && CanRun(s, acts)
    ensures TasksKept(After(s, acts).hk, After(s, acts).shop, f)
    decreases |acts|
  {
    hide TasksKept;
    hide Next;
    if acts != [] {
      TasksStep(s, acts[0], f);
      TasksAlong(Next(s, acts[0]).value, acts[1..], f);
    }
  }

  lemma {:induction false} WashesAlong(s: State, acts: seq<Action>, g: WashRequest -> int)
    requires WashesKept(s.la, s.shop, g) && LaundrySent(s.la, s.shop, g) && CanRun(s, acts)
    ensures var s' := After(s, acts); WashesKept(s'.la, s'.shop, g) && LaundrySent(s'.la, s'.shop, g)
    decreases |acts|
  {
    hide WashesKept;
    hide LaundrySent;
    hide Next;
    if acts != [] {
      WashesStep(s, acts[0], g);
      WashesAlong(Next(s, acts[0]).value, acts[1..], g);
    }
  }

  lemma InitialSettled(c: Setting, f: Task -> int)
    ensures SettledKept(Initial(c).hk, Initial(c).shop, f)
  {
    FreshSum(c.housekeepers, BehindBy(f));
  }

  lemma InitialEndings(c: Setting, r: CleaningRequest)
    ensures EndingsKept(Initial(c).hk, Initial(c).shop, r)
  {
    FreshSum(c.housekeepers, DoneWith(r));
  }

  lemma {:induction false} SettledAlong(s: State, acts: seq<Action>, f: Task -> int)
    requires RecipesKept(s) && SettledKept(s.hk, s.shop, f) && CanRun(s, acts)
    ensures SettledKept(After(s, acts).hk, After(s, acts).shop, f)
    decreases |acts|
  {
    hide SettledKept;
    hide AllOnCourse;
    hide Next;
    if acts != [] {
      CourseStep(s, acts[0]);
      SettledStep(s, acts[0], f);
      SettledAlong(Next(s, acts[0]).value, acts[1..], f);
    }
  }

  lemma {:induction false} EndingsAlong(s: State, acts: seq<Action>, r: CleaningRequest)
    requires RecipesKept(s) && EndingsKept(s.hk, s.shop, r) && CanRun(s, acts)
    ensures EndingsKept(After(s, acts).hk, After(s, acts).shop, r)
    decreases |acts|
  {
    hide EndingsKept;
    hide AllOnCourse;
    hide Next;
    if acts != [] {
      CourseStep(s, acts[0]);
      EndingsStep(s, acts[0], r);
      EndingsAlong(Next(s, acts[0]).value, acts[1..], r);
    }
  }

  lemma {:induction false} StatusAlong(opening: map<string, CleaningStatus>, s: State, acts: seq<Action>, room: string)
    requires StatusKept(opening, s.shop, room) && CanRun(s, acts)
    ensures StatusKept(opening, After(s, acts).shop, room)
    decreases |acts|
  {
    hide StatusKept;
    hide Next;
    if acts != [] {
      StatusStep(opening, s, acts[0], room);
      StatusAlong(opening, Next(s, acts[0]).value, acts[1..], room);
    }
  }
}
