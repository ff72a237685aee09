/** When the system can only wait for the outside, what it waits for, and that one hour event is enough. */
module Progress {
  import opened Collections
  import opened Domain
  import opened Employees
  import opened System
  import opened Washing

  /** A step that needs nothing from outside: no new message and no cancellation. */
  predicate Internal(a: Action) {
    !a.MgrTake? && !a.NtHour? && !a.NtDay? && !a.Cancel?
  }

  ghost predicate Stuck(s: State) {
    forall a :: Internal(a) ==> Next(s, a).None?
  }

  // ---- nobody has left

  predicate AllHere<R, L>(p: Pool<R, L>) {
    forall w :: 0 <= w < |p.workers| ==> !p.workers[w].Stopped?
  }

  /** Before cancellation every process is still there. */
  predicate Present(s: State) {
    !s.cancelled ==> AllHere(s.hk) && AllHere(s.la) && AllHere(s.st) && !s.desk.mgr.Gone? && !s.bell.nt.Silent?
  }

  lemma HkStays(s: State, w: nat, ok: bool)
    requires HkNext(s, w, ok).Some? && Present(s)
    ensures Present(HkNext(s, w, ok).value)
  {
    hide HkDecide;
    hide HkEffect;
  }

  lemma LaStays(s: State, w: nat, ok: bool, now: int)
    requires LaNext(s, w, ok, now).Some? && Present(s)
    ensures Present(LaNext(s, w, ok, now).value)
  {
    hide LaDecide;
    hide LaEffect;
    hide CycleStep;
  }

  lemma StStays(s: State, w: nat, ok: bool)
    requires StNext(s, w, ok).Some? && Present(s)
    ensures Present(StNext(s, w, ok).value)
  {
    hide StDecide;
    hide StEffect;
  }

  lemma PresentStep(s: State, a: Action)
    requires Present(s) && Next(s, a).Some?
    ensures Present(Next(s, a).value)
  {
    hide Next;
    hide HkNext;
    hide LaNext;
    hide StNext;
    hide Accept;
    hide Selectable;
    hide LogOf;
    Routes(s, a);
    match a {
      case HkGo(w, ok) => HkStays(s, w, ok);
      case LaGo(w, ok, now) => LaStays(s, w, ok, now);
      case StGo(w, ok) => StStays(s, w, ok);
      case _ =>
    }
  }

  // ---- a system at rest

  predicate Staffed(s: State) {
    && Alike(s.hk) && Alike(s.la) && Alike(s.st)
    && |s.hk.workers| > 0 && |s.la.workers| > 0 && |s.st.workers| > 0
    && s.hk.capacity > 0 && s.la.capacity > 0 && s.st.capacity > 0
  }

  /** A launderer whose cycle has no event to read. */
  predicate WaitsForHour(s: State, w: nat)
    requires w < |s.la.workers|
  {
    s.la.workers[w].Busy? && s.la.workers[w].at.Waiting? && s.la.workers[w].at.ch !in s.bell.hub.bufs
  }

  predicate Blocked(s: State, w: nat)
    requires w < |s.hk.workers|
  {
    && Full(s.la) && s.hk.workers[w].Busy? && s.hk.workers[w].at.Todo?
    && s.hk.workers[w].at.tasks != [] && s.hk.workers[w].at.tasks[0].op.Launder?
  }

  /** Is there a cleaning or wash request between the manager and its completion, other than in a running wash? */
  predicate WorkWaits(s: State) {
    || s.desk.mgr.Dispatching? || s.hk.queue != [] || s.la.queue != []
    || exists w :: 0 <= w < |s.hk.workers| && !s.hk.workers[w].Idle?
  }

  lemma StuckHk(s: State, w: nat)
    requires Stuck(s) && Alike(s.hk) && w < |s.hk.workers| && !s.hk.workers[w].Stopped?
    ensures (s.hk.workers[w].Idle? && s.hk.queue == []) || Blocked(s, w)
  {
    hide Next;
    Routes(s, HkGo(w, true));
  }

  lemma StuckLa(s: State, w: nat)
    requires Stuck(s) && Alike(s.la) && w < |s.la.workers| && !s.la.workers[w].Stopped?
    ensures (s.la.workers[w].Idle? && s.la.queue == []) || WaitsForHour(s, w)
  {
    hide Next;
    hide Enough;
    Routes(s, LaGo(w, true, 0));
  }

  lemma StuckSt(s: State, w: nat)
    requires Stuck(s) && Alike(s.st) && w < |s.st.workers| && !s.st.workers[w].Stopped?
    ensures s.st.workers[w].Idle? && s.st.queue == []
  {
    hide Next;
    Routes(s, StGo(w, true));
  }

  /** The notifier is free to take the next event, and the manager too unless the cleaning queue is full. */
  lemma StuckDesk(s: State)
    requires Stuck(s) && Present(s) && !s.cancelled && Staffed(s)
    ensures s.bell.nt.Listening?
    ensures (s.desk.mgr.Ready? && s.bell.dayBuf.None?) || (s.desk.mgr.Dispatching? && Full(s.hk))
  {
    hide Next;
    hide Accept;
    var one := [Stock.Soap];
    assert Selectable(one);
    hide Selectable;
    StuckSt(s, 0);
    Routes(s, MgrGo(one));
    Routes(s, NtGo);
    if s.bell.nt.Publishing? && s.bell.nt.left != {} {
      var c :| c in s.bell.nt.left;
      Routes(s, NtSend(c));
    }
  }

  /**
   The exact shape of a system at rest. Every launderer is idle with an empty queue or waits for an
   hour event; and while any cleaning or wash request waits, every launderer is inside its cycle.
   */
  lemma AtRest(s: State)
    requires Stuck(s) && Present(s) && !s.cancelled && Staffed(s)
    ensures s.bell.nt.Listening?
    ensures forall w :: 0 <= w < |s.hk.workers| ==> (s.hk.workers[w].Idle? && s.hk.queue == []) || Blocked(s, w)
    ensures forall w :: 0 <= w < |s.la.workers| ==> (s.la.workers[w].Idle? && s.la.queue == []) || WaitsForHour(s, w)
    ensures s.st.queue == [] && forall w :: 0 <= w < |s.st.workers| ==> s.st.workers[w].Idle?
    ensures WorkWaits(s) ==> forall w :: 0 <= w < |s.la.workers| ==> WaitsForHour(s, w)
  {
    StuckDesk(s);
    hide Stuck;
    forall w | 0 <= w < |s.hk.workers| {
      StuckHk(s, w);
    }
    forall w | 0 <= w < |s.la.workers| {
      StuckLa(s, w);
    }
    forall w | 0 <= w < |s.st.workers| {
      StuckSt(s, w);
    }
    assert s.st.workers[0].Idle?;
    assert s.hk.queue != [] ==> Blocked(s, 0);
  }

  ghost predicate OwnChannels(la: Pool<WashRequest, LaAt>) {
    forall v, w :: 0 <= v < w < |la.workers| && ChanOf(la.workers[v]).Some? ==>
      ChanOf(la.workers[v]) != ChanOf(la.workers[w])
  }

  lemma RegistryOwns(la: Pool<WashRequest, LaAt>, hub: Hub)
    requires Registry(la, hub)
    ensures OwnChannels(la)
  {
  }
}
