/** What the manager does with cleaning deliveries and day events. */
module Intake {
  import Stock
  import opened Collections
  import opened Domain
  import opened Employees
  import opened System

  // ---- cleaning deliveries

  /** Every delivery is settled once, in order of arrival: acked if it is acceptable, nacked if not. */
  predicate SettledInOrder(desk: Desk) {
    && |desk.settled| <= |desk.inbox|
    && forall k :: 0 <= k < |desk.settled| ==>
         desk.settled[k] == Settlement(k, Accept(desk.inbox[k]).Some?)
  }

  /**
   The requests dispatched are the acceptable deliveries taken so far, in order; only the one in the
   manager's hands may be ahead of or behind its settlement, and it is acked only once it is queued.
   */
  predicate Dispatched(desk: Desk, sent: seq<CleaningRequest>) {
    var n := |desk.settled|;
    match desk.mgr
    case Dispatching(id, req) =>
      && id == n < |desk.inbox| && desk.taken == n + 1
      && Accept(desk.inbox[n]) == Some(req) && sent == Accepted(desk.inbox[..n])
    case Acking(id) =>
      && id == n < |desk.inbox| && desk.taken == n + 1
      && Accept(desk.inbox[n]).Some? && sent == Accepted(desk.inbox[..n + 1])
    case _ => desk.taken == n <= |desk.inbox| && sent == Accepted(desk.inbox[..n])
  }

  predicate DeskSound(desk: Desk, sent: seq<CleaningRequest>) {
    SettledInOrder(desk) && Dispatched(desk, sent)
  }

  lemma ReceiveDesk(s: State)
    requires DeskSound(s.desk, s.hk.sent) && MgrReceive(s).Some?
    ensures var s' := MgrReceive(s).value; DeskSound(s'.desk, s'.hk.sent)
  {
    AcceptedNext(s.desk.inbox, s.desk.taken);
    hide Accept;
    hide Accepted;
    assert s.hk.sent + [] == s.hk.sent;
  }

  lemma MgrDesk(s: State, pick: seq<Stock.Item>)
    requires DeskSound(s.desk, s.hk.sent) && MgrNext(s, pick).Some?
    ensures var s' := MgrNext(s, pick).value; DeskSound(s'.desk, s'.hk.sent)
  {
    if s.desk.mgr.Dispatching? {
      AcceptedNext(s.desk.inbox, s.desk.mgr.id);
    }
    hide Accept;
    hide Accepted;
    hide Selectable;
  }

  lemma OthersKeepDesk(s: State, a: Action)
    requires !a.MgrTake? && !a.MgrGo? && !a.MgrQuit? && Next(s, a).Some?
    ensures var s' := Next(s, a).value; s'.desk == s.desk && s'.hk.sent == s.hk.sent
  {
    hide Next;
    hide NtStep;
    hide HkDecide;
    hide LaDecide;
    hide StDecide;
    hide CycleStep;
    Routes(s, a);
  }

  lemma DeskStep(s: State, a: Action)
    requires DeskSound(s.desk, s.hk.sent) && Next(s, a).Some?
    ensures var s' := Next(s, a).value; DeskSound(s'.desk, s'.hk.sent)
  {
    hide Next;
    hide MgrReceive;
    hide MgrNext;
    hide Accept;
    hide Accepted;
    Routes(s, a);
    match a {
      case MgrTake => ReceiveDesk(s);
      case MgrGo(pick) => MgrDesk(s, pick);
      case MgrQuit =>
      case _ => OthersKeepDesk(s, a);
    }
  }

  // ---- day events

  function Valid(e: Option<int>): int {
    if e.Some? then 1 else 0
  }

  function InFlight(nt: Notifier): int {
    if nt.PublishingDay? && nt.toManager then 1 else 0
  }

  predicate Registered(mgr: Manager) {
    !mgr.Booting? && !mgr.Gone?
  }

  /**
   Every valid day event was published before registration or after the manager left, was skipped
   because the buffer was full, is on its way or in the buffer, or was received; and each received
   event made one restock request, for a non-empty duplicate-free selection of the managed items.
   */
  ghost predicate DaysSound(desk: Desk, bell: Bell, sent: seq<RestockRequest>) {
    && bell.dayTaken <= |bell.dayIn| && bell.hourTaken <= |bell.hourIn|
    && Sum(bell.dayIn[..bell.dayTaken], Valid) ==
       bell.dayMissed + bell.daySkipped + bell.dayGot + (if bell.dayBuf.Some? then 1 else 0) + InFlight(bell.nt)
    && bell.dayOn == Registered(desk.mgr)
    && bell.dayGot == |sent| + (if desk.mgr.Ordering? then 1 else 0)
    && (forall r :: r in sent ==> Selectable(r.items))
    && (desk.mgr.Ordering? ==> Selectable(desk.mgr.items))
  }

  lemma NtDays(s: State, a: Action)
    requires DaysSound(s.desk, s.bell, s.st.sent) && ByNotifier(a) && NtStep(s.bell, a, s.cancelled).Some?
    ensures DaysSound(s.desk, NtStep(s.bell, a, s.cancelled).value, s.st.sent)
  {
    hide Selectable;
    hide LogOf;
    hide Sum;
    if a.NtDay? {
      assert s.bell.dayIn[..s.bell.dayTaken + 1] == s.bell.dayIn[..s.bell.dayTaken] + [s.bell.dayIn[s.bell.dayTaken]];
      SumSnoc(s.bell.dayIn[..s.bell.dayTaken], s.bell.dayIn[s.bell.dayTaken], Valid);
    }
  }

  lemma MgrDays(s: State, pick: seq<Stock.Item>)
    requires DaysSound(s.desk, s.bell, s.st.sent) && MgrNext(s, pick).Some?
    ensures var s' := MgrNext(s, pick).value; DaysSound(s'.desk, s'.bell, s'.st.sent)
  {
    hide Selectable;
    hide Sum;
  }

  /** What a worker's step leaves alone of the bell and the restock queue's history. */
  lemma WorkersKeepDays(s: State, a: Action)
    requires ByWorker(a) && Next(s, a).Some?
    ensures var s' := Next(s, a).value;
      && s'.desk == s.desk && s'.st.sent == s.st.sent
      && s'.bell == s.bell.(hub := s'.bell.hub)
  {
    hide Next;
    hide HkDecide;
    hide LaDecide;
    hide StDecide;
    hide CycleStep;
    Routes(s, a);
  }

  lemma DaysStep(s: State, a: Action)
    requires DaysSound(s.desk, s.bell, s.st.sent) && Next(s, a).Some?
    ensures var s' := Next(s, a).value; DaysSound(s'.desk, s'.bell, s'.st.sent)
  {
    hide Next;
    hide HkNext;
    hide LaNext;
    hide StNext;
    hide MgrNext;
    hide NtStep;
    hide Selectable;
    hide Sum;
    hide Accept;
    Routes(s, a);
    if ByWorker(a) {
      WorkersKeepDays(s, a);
    } else if ByNotifier(a) {
      NtDays(s, a);
    } else if a.MgrGo? {
      MgrDays(s, a.pick);
    }
  }
}
