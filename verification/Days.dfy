/** Day events: when one is lost, how it reaches the manager, and that each received one is one restock request. */
module Days {
  import opened Collections
  import opened Stock
  import opened Domain
  import opened Employees
  import opened System
  import opened Accounting
  import opened Intake
  import opened Progress
  import opened Runs
  import opened Guarantees

  // ---- when an event is lost

  lemma NtLoses(b: Bell, a: Action, cancelled: bool)
    requires ByNotifier(a) && NtStep(b, a, cancelled).Some?
    ensures var b' := NtStep(b, a, cancelled).value;
      && b'.daySkipped == b.daySkipped +
           (if a.NtGo? && b.nt.PublishingDay? && b.nt.toManager && b.dayBuf.Some? then 1 else 0)
      && b'.dayMissed == b.dayMissed +
           (if a.NtDay? && b.dayIn[b.dayTaken].Some? && !b.dayOn then 1 else 0)
      && (b.dayBuf.Some? ==> b'.dayBuf == b.dayBuf)
  {
    hide LogOf;
  }

  lemma OthersLoseNothing(s: State, a: Action)
    requires !ByNotifier(a) && Next(s, a).Some?
    ensures var b, b' := s.bell, Next(s, a).value.bell; b'.daySkipped == b.daySkipped && b'.dayMissed == b.dayMissed
    ensures var b, b' := s.bell, Next(s, a).value.bell;
      && b'.dayTaken == b.dayTaken && b'.nt == b.nt
      && (b'.dayBuf != b.dayBuf ==> a.MgrGo? && b'.dayBuf.None? && b'.dayGot == b.dayGot + 1)
  {
    hide Next;
    hide HkNext;
    hide LaNext;
    hide StNext;
    hide Accept;
    hide Selectable;
    Routes(s, a);
    if ByWorker(a) {
      WorkersKeepDays(s, a);
    }
  }

  /**
   A day event is lost in two ways only: it finds the manager's buffer full, or it is published while
   the manager is not registered, that is, before it has started or after it has left. An event in the
   buffer stays there, as it is, until the manager receives it.
   */
  lemma DayLosses(c: Setting, acts: seq<Action>, s: State, a: Action)
    requires Reached(c, acts, s) && Next(s, a).Some?
    ensures var b, b' := s.bell, Next(s, a).value.bell;
      && b.daySkipped <= b'.daySkipped && b.dayMissed <= b'.dayMissed
      && (b.daySkipped < b'.daySkipped ==> b.dayBuf.Some? && b.nt.PublishingDay? && b.nt.toManager)
      && (b.dayMissed < b'.dayMissed ==> a == NtDay && (s.desk.mgr.Booting? || s.desk.mgr.Gone?))
      && (b.dayBuf.Some? && b'.dayBuf != b.dayBuf ==> a.MgrGo? && b'.dayBuf.None? && b'.dayGot == b.dayGot + 1)
  {
    ReachedInv(c, acts, s);
    hide Reached;
    InvDays(c, s);
    hide Inv;
    Routes(s, a);
    hide Next;
    if ByNotifier(a) {
      NtLoses(s.bell, a, s.cancelled);
    } else {
      OthersLoseNothing(s, a);
    }
    hide NtStep;
  }

  // ---- how an event reaches the manager

  /** Published while the manager is registered, and sent while its buffer is empty: the event is in the buffer. */
  lemma DayArrives(s: State, t: int)
    ensures s.bell.nt.Listening? && s.bell.dayTaken < |s.bell.dayIn| && s.bell.dayIn[s.bell.dayTaken] == Some(t) ==>
      Next(s, NtDay).Some? && Next(s, NtDay).value.bell.nt == PublishingDay(t, s.bell.dayOn)
    ensures s.bell.nt == PublishingDay(t, true) && s.bell.dayBuf.None? ==>
      Next(s, NtGo).Some? && Next(s, NtGo).value.bell.dayBuf == Some(t)
  {
    Routes(s, NtDay);
    Routes(s, NtGo);
    hide Next;
  }

  /** No event was lost since, and none will be: nothing is on its way to a full buffer. */
  predicate Coming(b: Bell, skipped: nat, missed: nat, taken: nat) {
    && b.daySkipped == skipped && b.dayMissed == missed && b.dayTaken == taken
    && (b.nt.PublishingDay? && b.nt.toManager ==> b.dayBuf.None?)
  }

  predicate Attentive(mgr: Manager) {
    mgr.Ready? || mgr.Ordering?
  }

  lemma NtComing(b: Bell, a: Action, cancelled: bool, skipped: nat, missed: nat, taken: nat)
    requires Coming(b, skipped, missed, taken) && ByNotifier(a) && Internal(a) && NtStep(b, a, cancelled).Some?
    ensures Coming(NtStep(b, a, cancelled).value, skipped, missed, taken)
  {
    hide LogOf;
  }

  lemma ComingStep(s: State, a: Action, skipped: nat, missed: nat, taken: nat)
    requires Coming(s.bell, skipped, missed, taken) && Attentive(s.desk.mgr) && !s.cancelled
    requires Internal(a) && Next(s, a).Some?
    ensures var s' := Next(s, a).value;
      Coming(s'.bell, skipped, missed, taken) && Attentive(s'.desk.mgr) && !s'.cancelled
  {
    hide Next;
    hide HkNext;
    hide LaNext;
    hide StNext;
    hide NtStep;
    hide Selectable;
    Routes(s, a);
    if ByNotifier(a) {
      NtComing(s.bell, a, s.cancelled, skipped, missed, taken);
      hide Coming;
    } else if ByWorker(a) {
      WorkersKeepDays(s, a);
      WorkersKeepCancelled(s, a);
    }
  }

  lemma WorkersKeepCancelled(s: State, a: Action)
    requires ByWorker(a) && Next(s, a).Some?
    ensures Next(s, a).value.cancelled == s.cancelled
  {
    hide Next;
    hide HkDecide;
    hide LaDecide;
    hide StDecide;
    hide CycleStep;
    hide HkEffect;
    hide LaEffect;
    hide StEffect;
    Routes(s, a);
  }

  lemma {:induction false} ComingAlong(s: State, acts: seq<Action>, skipped: nat, missed: nat, taken: nat)
    requires Coming(s.bell, skipped, missed, taken) && Attentive(s.desk.mgr) && !s.cancelled
    requires CanRun(s, acts) && forall k :: 0 <= k < |acts| ==> Internal(acts[k])
    ensures var s' := After(s, acts);
      Coming(s'.bell, skipped, missed, taken) && Attentive(s'.desk.mgr) && !s'.cancelled
    decreases |acts|
  {
    hide Next;
    hide Coming;
    hide Attentive;
    if acts != [] {
      ComingStep(s, acts[0], skipped, missed, taken);
      ComingAlong(Next(s, acts[0]).value, acts[1..], skipped, missed, taken);
    }
  }

  /** At a standstill with an attentive manager, every restock request received is finished. */
  lemma AllRestocked(s: State)
    requires Stuck(s) && Present(s) && !s.cancelled && Staffed(s) && PoolsSound(s) && Attentive(s.desk.mgr)
    ensures s.desk.mgr.Ready? && s.bell.dayBuf.None? && s.bell.nt.Listening? && |s.st.sent| == |s.st.finished|
  {
    StuckDesk(s);
    AtRest(s);
    hide Stuck;
    hide Present;
    hide Staffed;
    assert Sound(s.st);
    hide PoolsSound;
    forall x | x in s.st.workers ensures Active(x) == 0 && Unmarked(x) == 0 {
      assert x.Idle?;
    }
    SumAtMost(s.st.workers, Active, 0);
    SumAtLeast(s.st.workers, Active, 0);
    SumAtMost(s.st.workers, Unmarked, 0);
    SumAtLeast(s.st.workers, Unmarked, 0);
    hide Sum;
  }

  /** Where nothing is in flight, the day events sent on are the valid ones taken, less those lost. */
  lemma DaysAtRest(s: State)
    requires DaysSound(s.desk, s.bell, s.st.sent) && s.desk.mgr.Ready? && s.bell.dayBuf.None? && s.bell.nt.Listening?
    ensures |s.st.sent| == Sum(s.bell.dayIn[..s.bell.dayTaken], Valid) - s.bell.dayMissed - s.bell.daySkipped
    ensures s.bell.dayOn && s.bell.dayTaken <= |s.bell.dayIn|
  {
    hide Sum;
    hide Selectable;
  }

  /** From the event on: nothing is lost up to the next standstill. */
  lemma DayRuns(c: Setting, s: State, t: int, later: seq<Action>)
    requires Inv(c, s) && Employed(c) && !s.cancelled && Stuck(s) && s.desk.mgr.Ready?
    requires s.bell.dayTaken < |c.dayIn| && c.dayIn[s.bell.dayTaken] == Some(t)
    requires CanRun(s, [NtDay] + later) && (forall k :: 0 <= k < |later| ==> Internal(later[k]))
    ensures var s' := After(s, [NtDay] + later);
      && Inv(c, s') && Attentive(s'.desk.mgr) && !s'.cancelled
      && Coming(s'.bell, s.bell.daySkipped, s.bell.dayMissed, s.bell.dayTaken + 1)
  {
    hide Inv;
    hide Stuck;
    hide Next;
    assert ([NtDay] + later)[1..] == later;
    DayStarts(c, s, t);
    hide Coming;
    hide Attentive;
    InvAlong(c, s, [NtDay] + later);
    ComingAlong(Next(s, NtDay).value, later, s.bell.daySkipped, s.bell.dayMissed, s.bell.dayTaken + 1);
  }

  /**
   From a standstill with the manager ready, the next day event is served on every schedule: by the next
   standstill there is exactly one more restock request, and it is finished.
   */
  lemma DayServed(c: Setting, before: seq<Action>, s: State, t: int, later: seq<Action>)
    requires Reached(c, before, s) && Employed(c) && !s.cancelled && Stuck(s) && s.desk.mgr.Ready?
    requires s.bell.dayTaken < |c.dayIn| && c.dayIn[s.bell.dayTaken] == Some(t)
    requires CanRun(s, [NtDay] + later) && (forall k :: 0 <= k < |later| ==> Internal(later[k]))
    requires Stuck(After(s, [NtDay] + later))
    ensures var s' := After(s, [NtDay] + later);
      |s'.st.sent| == |s.st.sent| + 1 && |s'.st.finished| == |s.st.finished| + 1
  {
    hide Inv;
    hide Stuck;
    hide CanRun;
    hide After;
    ReachedInv(c, before, s);
    hide Reached;
    DayRuns(c, s, t, later);
    var s' := After(s, [NtDay] + later);
    ServedAtRest(c, s);
    ServedAtRest(c, s');
    SameDays(c, s);
    SameDays(c, s');
    OneMoreValid(c.dayIn, s.bell.dayTaken);
    hide Sum;
  }

  lemma SameDays(c: Setting, s: State)
    requires Inv(c, s)
    ensures s.bell.dayIn == c.dayIn
  {
    hide Inv;
    InvStaff(c, s);
  }

  lemma OneMoreValid(events: seq<Option<int>>, n: nat)
    requires n < |events| && events[n].Some?
    ensures Sum(events[..n + 1], Valid) == Sum(events[..n], Valid) + 1
  {
    assert events[..n + 1] == events[..n] + [events[n]];
    SumSnoc(events[..n], events[n], Valid);
  }

  lemma DayStarts(c: Setting, s: State, t: int)
    requires Inv(c, s) && Employed(c) && !s.cancelled && Stuck(s) && s.desk.mgr.Ready? && Next(s, NtDay).Some?
    requires s.bell.dayTaken < |c.dayIn| && c.dayIn[s.bell.dayTaken] == Some(t)
    ensures var s1 := Next(s, NtDay).value;
      && Coming(s1.bell, s.bell.daySkipped, s.bell.dayMissed, s.bell.dayTaken + 1)
      && Attentive(s1.desk.mgr) && !s1.cancelled
  {
    hide Inv;
    hide Stuck;
    ServedAtRest(c, s);
    InvStaff(c, s);
    Routes(s, NtDay);
    hide Next;
  }

  lemma ServedAtRest(c: Setting, s: State)
    requires Inv(c, s) && Employed(c) && !s.cancelled && Stuck(s) && Attentive(s.desk.mgr)
    ensures s.desk.mgr.Ready? && s.bell.dayBuf.None? && s.bell.dayOn && |s.st.sent| == |s.st.finished|
    ensures s.bell.dayTaken <= |s.bell.dayIn|
    ensures |s.st.sent| == Sum(s.bell.dayIn[..s.bell.dayTaken], Valid) - s.bell.dayMissed - s.bell.daySkipped
  {
    hide Stuck;
    InvStaff(c, s);
    InvPools(c, s);
    InvDays(c, s);
    hide Inv;
    assert Staffed(s);
    hide PoolsSound;
    hide Staffed;
    hide Present;
    hide Sum;
    hide DaysSound;
    AllRestocked(s);
    DaysAtRest(s);
  }

  // ---- each request is for the items drawn

  /** The selections drawn in a run: one for each day event that the manager received. */
  function Picks(s: State, acts: seq<Action>): seq<seq<Item>>
    requires CanRun(s, acts)
    decreases |acts|
  {
    if acts == [] then []
    else
      RunLast(s, acts);
      var n := |acts| - 1;
      var s1 := After(s, acts[..n]);
      var got := acts[n].MgrGo? && Next(s1, acts[n]).value.bell.dayGot > s1.bell.dayGot;
      Picks(s, acts[..n]) + if got then [acts[n].pick] else []
  }

  function ListsOf(sent: seq<RestockRequest>): seq<seq<Item>> {
    seq(|sent|, k requires 0 <= k < |sent| => sent[k].items)
  }

  /** The lists of the requests sent, and of the one in the manager's hands. */
  function Ordered(s: State): seq<seq<Item>> {
    ListsOf(s.st.sent) + if s.desk.mgr.Ordering? then [s.desk.mgr.items] else []
  }

  lemma OrderStep(s: State, a: Action)
    requires Next(s, a).Some?
    ensures var s' := Next(s, a).value;
      Ordered(s') == Ordered(s) + if a.MgrGo? && s'.bell.dayGot > s.bell.dayGot then [a.pick] else []
  {
    var s' := Next(s, a).value;
    Routes(s, a);
    hide Next;
    if a.MgrGo? {
      hide Selectable;
      if s.desk.mgr.Ordering? {
        assert ListsOf(s'.st.sent) == ListsOf(s.st.sent) + [s.desk.mgr.items];
      }
    } else {
      NoOrder(s, a);
    }
  }

  lemma NoOrder(s: State, a: Action)
    requires !a.MgrGo? && Next(s, a).Some?
    ensures Ordered(Next(s, a).value) == Ordered(s)
  {
    Routes(s, a);
    hide Next;
    hide HkNext;
    hide LaNext;
    hide StNext;
    hide NtStep;
    hide Accept;
    hide ListsOf;
    if ByWorker(a) {
      WorkersKeepDays(s, a);
    }
  }

  /** Each day event that the manager received became the restock request for the items then drawn, in order. */
  lemma {:induction false} OrdersArePicks(c: Setting, acts: seq<Action>)
    requires CanRun(Initial(c), acts)
    ensures Ordered(After(Initial(c), acts)) == Picks(Initial(c), acts)
    decreases |acts|
  {
    if acts != [] {
      RunLast(Initial(c), acts);
      OrdersArePicks(c, acts[..|acts| - 1]);
      OrderStep(After(Initial(c), acts[..|acts| - 1]), acts[|acts| - 1]);
      hide Next;
      hide Initial;
      hide Ordered;
    }
  }
}
