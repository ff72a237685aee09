/** How long washes take: the start of a cycle is a clock reading, and only known laundry is washed. */
module Timing {
  import opened Collections
  import opened Domain
  import opened Employees
  import opened System
  import opened Restocking
  import opened Washing
  import opened Runs

  // ---- only known laundry is washed

  predicate KnownWashes(hub: Hub) {
    forall k :: 0 <= k < |hub.cycles| ==> hub.cycles[k].item == "towels" || hub.cycles[k].item == "linens"
  }

  /** A step ends at most one cycle, that of the launderer that takes it. */
  lemma CycleEnds(s: State, w: nat, ok: bool, now: int)
    requires LaNext(s, w, ok, now).Some?
    ensures w < |s.la.workers|
    ensures var cycles, cycles' := s.bell.hub.cycles, LaNext(s, w, ok, now).value.bell.hub.cycles;
      || cycles' == cycles
      || (&& s.la.workers[w].Busy? && s.la.workers[w].at.Leaving?
          && cycles' == cycles + [Cycle(s.la.workers[w].at.ch, s.la.workers[w].at.start, s.la.workers[w].req.item,
                                        s.la.workers[w].at.finish)])
  {
    hide LaDecide;
    hide Enough;
  }

  /** All other steps end none. */
  lemma CyclesElsewhere(s: State, a: Action)
    requires !a.LaGo? && Next(s, a).Some?
    ensures Next(s, a).value.bell.hub.cycles == s.bell.hub.cycles
  {
    hide Next;
    hide NtStep;
    Routes(s, a);
    if ByNotifier(a) {
      NtKeeps(s.bell, a, s.cancelled);
    } else {
      BellKept(s, a);
    }
  }

  lemma OnlyTwo(r: WashRequest)
    requires Supported(r)
    ensures r.item == "towels" || r.item == "linens"
  {
  }

  lemma KnownWashesStep(s: State, a: Action)
    requires KnownWashes(s.bell.hub) && LasTidy(s.la) && Next(s, a).Some?
    ensures KnownWashes(Next(s, a).value.bell.hub)
  {
    hide Next;
    hide LaNext;
    Routes(s, a);
    if a.LaGo? {
      CycleEnds(s, a.w, a.ok, a.now);
      if a.w < |s.la.workers| && s.la.workers[a.w].Busy? {
        assert LaTidy(s.la.workers[a.w]);
        OnlyTwo(s.la.workers[a.w].req);
      }
      hide LasTidy;
      hide LaTidy;
    } else {
      CyclesElsewhere(s, a);
    }
  }

  lemma {:induction false} KnownWashesAlong(c: Setting, s: State, acts: seq<Action>)
    requires Inv(c, s) && KnownWashes(s.bell.hub) && CanRun(s, acts)
    ensures KnownWashes(After(s, acts).bell.hub)
    decreases |acts|
  {
    hide Inv;
    hide Next;
    hide KnownWashes;
    if acts != [] {
      InvItem(c, s, Stock.Soap);
      assert LasTidy(s.la);
      KnownWashesStep(s, acts[0]);
      InvStep(c, s, acts[0]);
      KnownWashesAlong(c, Next(s, acts[0]).value, acts[1..]);
    }
  }

  // ---- starts are clock readings

  function StartOf(w: Worker<WashRequest, LaAt>): Option<int> {
    if w.Busy? && !w.at.LaStart? then Some(w.at.start) else None
  }

  /** In the run, the step at `k` is launderer `w`, at the start of its work, reading `t` from the clock. */
  ghost predicate ReadsClock(s: State, acts: seq<Action>, k: int, w: nat, t: int) {
    && 0 <= k < |acts| && acts[k] == LaGo(w, true, t) && CanRun(s, acts[..k])
    && w < |After(s, acts[..k]).la.workers|
    && After(s, acts[..k]).la.workers[w].Busy? && After(s, acts[..k]).la.workers[w].at == LaStart
  }

  ghost predicate WasRead(s: State, acts: seq<Action>, w: nat, t: int) {
    exists k :: ReadsClock(s, acts, k, w, t)
  }

  ghost predicate WasReadBySome(s: State, acts: seq<Action>, t: int) {
    exists w: nat :: WasRead(s, acts, w, t)
  }

  lemma ReadBefore(s: State, acts: seq<Action>, w: nat, t: int)
    requires acts != [] && WasRead(s, acts[..|acts| - 1], w, t)
    ensures WasRead(s, acts, w, t)
  {
    var n := |acts| - 1;
    var k :| ReadsClock(s, acts[..n], k, w, t);
    assert acts[..n][..k] == acts[..k];
    assert ReadsClock(s, acts, k, w, t);
  }

  lemma ReadLast(s: State, acts: seq<Action>, w: nat, t: int)
    requires acts != [] && ReadsClock(s, acts, |acts| - 1, w, t)
    ensures WasRead(s, acts, w, t)
  {
  }

  /** A launderer's start time comes from its own step at the start of its work, and stays. */
  lemma StartStep(s: State, a: Action, w: nat)
    requires Next(s, a).Some? && w < |Next(s, a).value.la.workers|
    ensures var x' := Next(s, a).value.la.workers[w];
      StartOf(x').Some? ==>
        && w < |s.la.workers|
        && (StartOf(s.la.workers[w]) == StartOf(x')
            || (&& a == LaGo(w, true, StartOf(x').value)
                && s.la.workers[w].Busy? && s.la.workers[w].at == LaStart))
  {
    hide Next;
    hide LaNext;
    Routes(s, a);
    if a.LaGo? {
      LaStarts(s, a.w, a.ok, a.now, w);
    } else if a.HkGo? {
      hide HkDecide;
      hide HkEffect;
    } else if !a.LaQuit? {
      OthersKeepLa(s, a);
    }
  }

  lemma LaStarts(s: State, v: nat, ok: bool, now: int, w: nat)
    requires LaNext(s, v, ok, now).Some? && w < |LaNext(s, v, ok, now).value.la.workers|
    ensures var x' := LaNext(s, v, ok, now).value.la.workers[w];
      StartOf(x').Some? ==>
        && w < |s.la.workers|
        && (StartOf(s.la.workers[w]) == StartOf(x')
            || (&& v == w && ok && now == StartOf(x').value
                && s.la.workers[w].Busy? && s.la.workers[w].at == LaStart))
  {
    hide Enough;
    hide LaEffect;
    hide WashTable;
  }

  /** All start times, of launderers at work and of ended cycles, were read from the clock. */
  ghost predicate Timed(s: State, acts: seq<Action>, s': State) {
    && (forall w: nat :: w < |s'.la.workers| && StartOf(s'.la.workers[w]).Some? ==>
          WasRead(s, acts, w, StartOf(s'.la.workers[w]).value))
    && (forall k :: 0 <= k < |s'.bell.hub.cycles| ==> WasReadBySome(s, acts, s'.bell.hub.cycles[k].start))
  }

  lemma TimedWorkers(s: State, acts: seq<Action>, s1: State, w: nat)
    requires acts != [] && CanRun(s, acts[..|acts| - 1]) && s1 == After(s, acts[..|acts| - 1])
    requires Timed(s, acts[..|acts| - 1], s1) && Next(s1, acts[|acts| - 1]).Some?
    ensures var s' := Next(s1, acts[|acts| - 1]).value;
      w < |s'.la.workers| && StartOf(s'.la.workers[w]).Some? ==>
        WasRead(s, acts, w, StartOf(s'.la.workers[w]).value)
  {
    var n := |acts| - 1;
    var s' := Next(s1, acts[n]).value;
    if w < |s'.la.workers| && StartOf(s'.la.workers[w]).Some? {
      StartStep(s1, acts[n], w);
      hide Next;
      if StartOf(s1.la.workers[w]) == StartOf(s'.la.workers[w]) {
        hide WasRead;
        ReadBefore(s, acts, w, StartOf(s'.la.workers[w]).value);
      } else {
        ReadLast(s, acts, w, StartOf(s'.la.workers[w]).value);
      }
    }
  }

  lemma TimedCycles(s: State, acts: seq<Action>, s1: State, k: nat)
    requires acts != [] && CanRun(s, acts[..|acts| - 1]) && s1 == After(s, acts[..|acts| - 1])
    requires Timed(s, acts[..|acts| - 1], s1) && Next(s1, acts[|acts| - 1]).Some?
    ensures var hub' := Next(s1, acts[|acts| - 1]).value.bell.hub;
      k < |hub'.cycles| ==> WasReadBySome(s, acts, hub'.cycles[k].start)
  {
    var n := |acts| - 1;
    var a := acts[n];
    var hub' := Next(s1, a).value.bell.hub;
    Routes(s1, a);
    if a.LaGo? {
      CycleEnds(s1, a.w, a.ok, a.now);
    } else {
      CyclesElsewhere(s1, a);
    }
    hide Next;
    hide LaNext;
    if k < |s1.bell.hub.cycles| {
      var w: nat :| WasRead(s, acts[..n], w, hub'.cycles[k].start);
      hide WasRead;
      ReadBefore(s, acts, w, hub'.cycles[k].start);
    } else if k < |hub'.cycles| {
      assert StartOf(s1.la.workers[a.w]) == Some(hub'.cycles[k].start);
      hide WasRead;
      ReadBefore(s, acts, a.w, hub'.cycles[k].start);
    }
  }

  lemma {:induction false} TimedAlong(s: State, acts: seq<Action>)
    requires CanRun(s, acts)
    requires s.bell.hub.cycles == [] && forall w: nat :: w < |s.la.workers| ==> StartOf(s.la.workers[w]).None?
    ensures Timed(s, acts, After(s, acts))
    decreases |acts|
  {
    if acts != [] {
      var n := |acts| - 1;
      RunLast(s, acts);
      TimedAlong(s, acts[..n]);
      var s1 := After(s, acts[..n]);
      var s' := After(s, acts);
      forall w: nat | w < |s'.la.workers| && StartOf(s'.la.workers[w]).Some?
        ensures WasRead(s, acts, w, StartOf(s'.la.workers[w]).value)
      {
        TimedWorkers(s, acts, s1, w);
      }
      forall k: nat | k < |s'.bell.hub.cycles| ensures WasReadBySome(s, acts, s'.bell.hub.cycles[k].start) {
        TimedCycles(s, acts, s1, k);
      }
      hide Next;
      hide WasRead;
      hide WasReadBySome;
      hide StartOf;
    }
  }

  /**
   Whatever a launderer washes, its start time is what the clock showed at the first step of its work on
   that request, and every ended cycle started at such a reading, with towels or linens.
   */
  lemma StartsAreReadings(c: Setting, acts: seq<Action>, s: State)
    requires Reached(c, acts, s)
    ensures forall w: nat :: w < |s.la.workers| && StartOf(s.la.workers[w]).Some? ==>
      WasRead(Initial(c), acts, w, StartOf(s.la.workers[w]).value)
    ensures forall k :: 0 <= k < |s.bell.hub.cycles| ==>
      WasReadBySome(Initial(c), acts, s.bell.hub.cycles[k].start)
    ensures KnownWashes(s.bell.hub)
  {
    TimedAlong(Initial(c), acts);
    InitialInv(c);
    KnownWashesAlong(c, Initial(c), acts);
    hide Inv;
    hide Next;
    hide WasRead;
    hide WasReadBySome;
  }
}
