/**
 One late enough hour event is enough. From a standstill, whatever happens after the event short of
 cancellation, by the next standstill every launderer that waited has ended its cycle with that event.
 */
module Wakeup {
  import opened Collections
  import opened Domain
  import opened Employees
  import opened System
  import opened Accounting
  import opened Washing
  import opened Progress
  import opened Runs
  import opened Guarantees

  /** Is the time late enough for every cycle that is waiting? */
  predicate LateEnough(la: Pool<WashRequest, LaAt>, t: int) {
    forall w :: 0 <= w < |la.workers| && la.workers[w].Busy? && la.workers[w].at.Waiting? ==>
      Enough(la.workers[w].at.start, la.workers[w].req.item, t)
  }

  // ---- the event reaches the channel

  /** The event at `t` is the one that channel `ch` accepted after `log`, or is on its way to the empty buffer. */
  predicate OnTheWay(b: Bell, ch: nat, log: seq<int>, t: int) {
    && ch < b.hub.next
    && (log + [t] <= LogOf(b.hub, ch)
        || (LogOf(b.hub, ch) == log && ch !in b.hub.bufs
            && b.nt.Publishing? && b.nt.time == t && ch in b.nt.left))
  }

  lemma OfferOnTheWay(b: Bell, c: nat, ch: nat, log: seq<int>, t: int)
    requires OnTheWay(b, ch, log, t) && NtOffer(b, c).Some?
    ensures OnTheWay(NtOffer(b, c).value, ch, log, t)
  {
  }

  lemma NtOnTheWay(b: Bell, a: Action, cancelled: bool, ch: nat, log: seq<int>, t: int)
    requires OnTheWay(b, ch, log, t) && ByNotifier(a) && NtStep(b, a, cancelled).Some?
    ensures OnTheWay(NtStep(b, a, cancelled).value, ch, log, t)
  {
    if a.NtSend? {
      OfferOnTheWay(b, a.ch, ch, log, t);
    }
    hide NtOffer;
    hide LogOf;
  }

  /** A launderer reads its own buffer only, and sends nothing. */
  lemma LaEmpties(s: State, w: nat, ok: bool, now: int, ch: nat)
    requires LaNext(s, w, ok, now).Some? && ch !in s.bell.hub.bufs
    ensures ch !in LaNext(s, w, ok, now).value.bell.hub.bufs
  {
    hide LaDecide;
    hide Enough;
  }

  lemma OnTheWayStep(s: State, a: Action, ch: nat, log: seq<int>, t: int)
    requires OnTheWay(s.bell, ch, log, t) && Next(s, a).Some?
    ensures OnTheWay(Next(s, a).value.bell, ch, log, t)
  {
    hide Next;
    hide LaNext;
    hide NtStep;
    hide LogOf;
    Routes(s, a);
    if a.LaGo? {
      LaKeepsAir(s, a.w, a.ok, a.now);
      LaKeepsLog(s, a.w, a.ok, a.now, ch);
      if ch !in s.bell.hub.bufs {
        LaEmpties(s, a.w, a.ok, a.now, ch);
      }
    } else if ByNotifier(a) {
      NtOnTheWay(s.bell, a, s.cancelled, ch, log, t);
    } else {
      BellKept(s, a);
    }
  }

  // ---- the launderer and its cycle

  ghost predicate Ended(hub: Hub, start: int, item: string, ch: nat) {
    exists k :: 0 <= k < |hub.cycles| && hub.cycles[k].(finish := None) == Cycle(ch, start, item, None)
  }

  /** Launderer `w` is still inside the cycle on channel `ch`, or that cycle has ended. */
  ghost predicate Follows(s: State, w: nat, r: WashRequest, start: int, ch: nat) {
    || (w < |s.la.workers| && s.la.workers[w] == Busy(r, Waiting(start, ch)))
    || (exists finish :: w < |s.la.workers| && s.la.workers[w] == Busy(r, Leaving(start, ch, finish)))
    || Ended(s.bell.hub, start, r.item, ch)
  }

  lemma EndedStays(hub: Hub, hub': Hub, start: int, item: string, ch: nat)
    requires Ended(hub, start, item, ch) && hub.cycles <= hub'.cycles
    ensures Ended(hub', start, item, ch)
  {
    var k :| 0 <= k < |hub.cycles| && hub.cycles[k].(finish := None) == Cycle(ch, start, item, None);
    assert hub'.cycles[k] == hub.cycles[k];
  }

  lemma LaCyclesGrow(s: State, w: nat, ok: bool, now: int)
    requires LaNext(s, w, ok, now).Some?
    ensures s.bell.hub.cycles <= LaNext(s, w, ok, now).value.bell.hub.cycles
  {
    hide LaDecide;
    hide Enough;
  }

  lemma CyclesGrow(s: State, a: Action)
    requires Next(s, a).Some?
    ensures s.bell.hub.cycles <= Next(s, a).value.bell.hub.cycles
  {
    hide Next;
    hide LaNext;
    hide NtStep;
    Routes(s, a);
    if a.LaGo? {
      LaCyclesGrow(s, a.w, a.ok, a.now);
    } else if ByNotifier(a) {
      NtKeeps(s.bell, a, s.cancelled);
    } else {
      BellKept(s, a);
    }
  }

  lemma LaFollows(s: State, w: nat, ok: bool, now: int, r: WashRequest, start: int, ch: nat)
    requires LaNext(s, w, ok, now).Some? && !Ended(s.bell.hub, start, r.item, ch)
    requires Follows(s, w, r, start, ch)
    ensures Follows(LaNext(s, w, ok, now).value, w, r, start, ch)
  {
    hide Enough;
    hide LaDecide;
    hide Ended;
    var s' := LaNext(s, w, ok, now).value;
    if s.la.workers[w].at.Leaving? {
      var k := |s.bell.hub.cycles|;
      assert s'.bell.hub.cycles[k].(finish := None) == Cycle(ch, start, r.item, None);
      NowEnded(s'.bell.hub, k, start, r.item, ch);
    }
  }

  lemma NowEnded(hub: Hub, k: nat, start: int, item: string, ch: nat)
    requires k < |hub.cycles| && hub.cycles[k].(finish := None) == Cycle(ch, start, item, None)
    ensures Ended(hub, start, item, ch)
  {
  }

  /** A launderer inside its cycle is moved by its own steps and by cancellation only. */
  lemma LaElsewhere(s: State, a: Action, w: nat)
    requires Next(s, a).Some? && w < |s.la.workers| && s.la.workers[w].Busy?
    requires !(a.LaGo? && a.w == w) && !(a.LaQuit? && a.w == w)
    ensures w < |Next(s, a).value.la.workers| && Next(s, a).value.la.workers[w] == s.la.workers[w]
  {
    hide Next;
    hide HkDecide;
    hide LaDecide;
    hide CycleStep;
    Routes(s, a);
    if !a.HkGo? && !a.LaGo? && !a.LaQuit? {
      OthersKeepLa(s, a);
    }
  }

  lemma FollowsStep(s: State, a: Action, w: nat, r: WashRequest, start: int, ch: nat)
    requires Follows(s, w, r, start, ch) && Next(s, a).Some? && !s.cancelled
    ensures Follows(Next(s, a).value, w, r, start, ch)
  {
    CyclesGrow(s, a);
    var s' := Next(s, a).value;
    Routes(s, a);
    hide Next;
    hide LaNext;
    if Ended(s.bell.hub, start, r.item, ch) {
      EndedStays(s.bell.hub, s'.bell.hub, start, r.item, ch);
    } else if a.LaGo? && a.w == w {
      LaFollows(s, w, a.ok, a.now, r, start, ch);
    } else {
      LaElsewhere(s, a, w);
    }
  }

  // ---- along a run

  predicate Uncancelled(acts: seq<Action>) {
    forall k :: 0 <= k < |acts| ==> !acts[k].Cancel?
  }

  lemma StaysUncancelled(s: State, a: Action)
    requires !s.cancelled && !a.Cancel? && Next(s, a).Some?
    ensures !Next(s, a).value.cancelled
  {
    hide Next;
    hide HkDecide;
    hide LaDecide;
    hide StDecide;
    hide CycleStep;
    hide Accept;
    Routes(s, a);
  }

  lemma {:induction false} WakeAlong(s: State, acts: seq<Action>, w: nat, r: WashRequest, start: int, ch: nat,
                                     log: seq<int>, t: int)
    requires CanRun(s, acts) && Uncancelled(acts) && !s.cancelled
    requires Follows(s, w, r, start, ch) && OnTheWay(s.bell, ch, log, t)
    ensures var s' := After(s, acts);
      !s'.cancelled && Follows(s', w, r, start, ch) && OnTheWay(s'.bell, ch, log, t)
    decreases |acts|
  {
    hide Next;
    hide Follows;
    hide OnTheWay;
    if acts != [] {
      StaysUncancelled(s, acts[0]);
      FollowsStep(s, acts[0], w, r, start, ch);
      OnTheWayStep(s, acts[0], ch, log, t);
      WakeAlong(Next(s, acts[0]).value, acts[1..], w, r, start, ch, log, t);
    }
  }

  // ---- from standstill to standstill

  /** The log in which the event came after `log`, none of which was late enough: the event is the first that is. */
  lemma FirstIs(log: seq<int>, t: int, all: seq<int>, start: int, item: string)
    requires First(log, start, item) == |log| && Enough(start, item, t) && log + [t] <= all
    ensures First(all, start, item) == |log| && all[|log|] == t
  {
    hide Enough;
    assert all[..|log| + 1] == log + [t];
    FirstSnoc(log, t, start, item);
    FirstExtends(all, |log| + 1, start, item);
  }

  /** A launderer that waits although a late enough event was accepted has it unread. */
  lemma UnreadIfLate(s: State, w: nat, r: WashRequest, start: int, ch: nat)
    requires HubSound(s) && First(LogOf(s.bell.hub, ch), start, r.item) < |LogOf(s.bell.hub, ch)|
    ensures w < |s.la.workers| && s.la.workers[w] == Busy(r, Waiting(start, ch)) ==> ch in s.bell.hub.bufs
  {
    if w < |s.la.workers| && s.la.workers[w] == Busy(r, Waiting(start, ch)) {
      assert PlaceOk(s.bell.hub, s.la.workers[w]);
    }
  }

  /** An ended cycle whose channel accepted the event first of all late enough ones ended with it. */
  lemma EndedWith(s: State, start: int, item: string, ch: nat, log: seq<int>, t: int)
    requires HubSound(s) && !s.cancelled && Ended(s.bell.hub, start, item, ch)
    requires First(LogOf(s.bell.hub, ch), start, item) == |log| < |LogOf(s.bell.hub, ch)|
    requires LogOf(s.bell.hub, ch)[|log|] == t
    ensures Cycle(ch, start, item, Some(t)) in s.bell.hub.cycles
  {
    var k :| 0 <= k < |s.bell.hub.cycles| &&
      s.bell.hub.cycles[k].(finish := None) == Cycle(ch, start, item, None);
    assert CycleOk(s.bell.hub, s.bell.hub.cycles[k]);
    hide Issued;
    hide Registry;
    hide Retired;
    hide LogOf;
  }

  /** At the next standstill the event was accepted, and the cycle that got it is over. */
  lemma OverAtRest(s: State, w: nat, r: WashRequest, start: int, ch: nat, log: seq<int>, t: int)
    requires Stuck(s) && Present(s) && Staffed(s) && !s.cancelled && HubSound(s)
    requires Follows(s, w, r, start, ch) && OnTheWay(s.bell, ch, log, t)
    requires First(log, start, r.item) == |log| && Enough(start, r.item, t)
    ensures Cycle(ch, start, r.item, Some(t)) in s.bell.hub.cycles
  {
    AtRest(s);
    hide Stuck;
    hide Present;
    hide Staffed;
    hide HubSound;
    hide Enough;
    hide LogOf;
    hide Ended;
    hide First;
    FirstIs(log, t, LogOf(s.bell.hub, ch), start, r.item);
    UnreadIfLate(s, w, r, start, ch);
    assert w < |s.la.workers| && s.la.workers[w].Busy? ==> WaitsForHour(s, w);
    assert Ended(s.bell.hub, start, r.item, ch);
    EndedWith(s, start, r.item, ch, log, t);
  }

  /** What a launderer that waits at a standstill has read so far, and the publication that reaches it. */
  lemma EventStarts(s: State, w: nat, t: int)
    requires Stuck(s) && Present(s) && Staffed(s) && !s.cancelled && HubSound(s)
    requires s.bell.hourTaken < |s.bell.hourIn| && s.bell.hourIn[s.bell.hourTaken] == Some(t)
    requires w < |s.la.workers| && s.la.workers[w].Busy? && s.la.workers[w].at.Waiting?
    ensures var o := Next(s, NtHour);
      var at, r := s.la.workers[w].at, s.la.workers[w].req;
      && o.Some? && !o.value.cancelled && Follows(o.value, w, r, at.start, at.ch)
      && OnTheWay(o.value.bell, at.ch, LogOf(s.bell.hub, at.ch), t)
      && First(LogOf(s.bell.hub, at.ch), at.start, r.item) == |LogOf(s.bell.hub, at.ch)|
  {
    AtRest(s);
    hide Stuck;
    hide Present;
    hide Staffed;
    hide Enough;
    assert WaitsForHour(s, w) && PlaceOk(s.bell.hub, s.la.workers[w]);
    assert ChanOf(s.la.workers[w]) == Some(s.la.workers[w].at.ch);
    hide CyclesOk;
    hide CutShort;
    hide Retired;
    hide LogOf;
    Routes(s, NtHour);
    hide Next;
  }

  /**
   From a standstill, take an hour event that is late enough for all that wait, and then any steps at
   all except cancellation, up to a standstill: every launderer that waited has ended that cycle, with
   exactly this event, and nobody waits on its channel any more.
   */
  lemma EveryScheduleFrees(c: Setting, before: seq<Action>, s: State, t: int, later: seq<Action>, w: nat)
    requires Reached(c, before, s) && Employed(c) && !s.cancelled && Stuck(s)
    requires s.bell.hourTaken < |c.hourIn| && c.hourIn[s.bell.hourTaken] == Some(t) && LateEnough(s.la, t)
    requires CanRun(s, [NtHour] + later) && Uncancelled(later) && Stuck(After(s, [NtHour] + later))
    requires w < |s.la.workers| && s.la.workers[w].Busy? && s.la.workers[w].at.Waiting?
    ensures var hub := After(s, [NtHour] + later).bell.hub;
      Cycle(s.la.workers[w].at.ch, s.la.workers[w].at.start, s.la.workers[w].req.item, Some(t)) in hub.cycles
    ensures forall v :: v in After(s, [NtHour] + later).la.workers ==> ChanOf(v) != Some(s.la.workers[w].at.ch)
  {
    var at, r := s.la.workers[w].at, s.la.workers[w].req;
    var s' := After(s, [NtHour] + later);
    ReachedInv(c, before, s);
    hide Reached;
    InvAlong(c, s, [NtHour] + later);
    InvStaff(c, s);
    InvHub(c, s);
    InvStaff(c, s');
    InvHub(c, s');
    InvPools(c, s);
    InvPools(c, s');
    hide Inv;
    hide Stuck;
    hide HubSound;
    hide Present;
    assert Staffed(s) && Staffed(s');
    hide PoolsSound;
    hide Staffed;
    hide Follows;
    hide OnTheWay;
    hide Enough;
    EventStarts(s, w, t);
    assert ([NtHour] + later)[1..] == later;
    hide Next;
    WakeAlong(Next(s, NtHour).value, later, w, r, at.start, at.ch, LogOf(s.bell.hub, at.ch), t);
    OverAtRest(s', w, r, at.start, at.ch, LogOf(s.bell.hub, at.ch), t);
    NobodyOn(s', Cycle(at.ch, at.start, r.item, Some(t)));
  }

  lemma NobodyOn(s: State, y: Cycle)
    requires HubSound(s) && y in s.bell.hub.cycles
    ensures forall v :: v in s.la.workers ==> ChanOf(v) != Some(y.ch)
  {
    hide CyclesOk;
    hide Issued;
    hide CutShort;
  }

  /** After the event and these internal steps, all that waited have ended their cycles with it. */
  ghost predicate Frees(s: State, later: seq<Action>, t: int) {
    && CanRun(s, [NtHour] + later) && Stuck(After(s, [NtHour] + later))
    && (forall k :: 0 <= k < |later| ==> Internal(later[k]))
    && forall w :: 0 <= w < |s.la.workers| && s.la.workers[w].Busy? && s.la.workers[w].at.Waiting? ==>
         Cycle(s.la.workers[w].at.ch, s.la.workers[w].at.start, s.la.workers[w].req.item, Some(t))
         in After(s, [NtHour] + later).bell.hub.cycles
  }

  lemma HourComes(c: Setting, s: State)
    requires Inv(c, s) && Employed(c) && !s.cancelled && Stuck(s) && s.bell.hourTaken < |c.hourIn|
    ensures Next(s, NtHour).Some?
  {
    hide Inv;
    hide Stuck;
    InvStaff(c, s);
    InvPools(c, s);
    assert Staffed(s);
    hide PoolsSound;
    AtRest(s);
    hide Present;
    Routes(s, NtHour);
    hide Next;
  }

  /** Any internal schedule to a standstill frees them all. */
  lemma ScheduleFrees(c: Setting, before: seq<Action>, s: State, t: int, later: seq<Action>)
    requires Reached(c, before, s) && Employed(c) && !s.cancelled && Stuck(s)
    requires s.bell.hourTaken < |c.hourIn| && c.hourIn[s.bell.hourTaken] == Some(t) && LateEnough(s.la, t)
    requires CanRun(s, [NtHour] + later) && Stuck(After(s, [NtHour] + later))
    requires forall k :: 0 <= k < |later| ==> Internal(later[k])
    ensures Frees(s, later, t)
  {
    hide Stuck;
    hide CanRun;
    hide Reached;
    hide Employed;
    hide LateEnough;
    assert Uncancelled(later);
    forall w | 0 <= w < |s.la.workers| && s.la.workers[w].Busy? && s.la.workers[w].at.Waiting?
      ensures Cycle(s.la.workers[w].at.ch, s.la.workers[w].at.start, s.la.workers[w].req.item, Some(t))
              in After(s, [NtHour] + later).bell.hub.cycles
    {
      EveryScheduleFrees(c, before, s, t, later, w);
    }
    hide After;
  }

  /** Such a schedule exists: after the event, internal steps alone lead to a standstill with all cycles ended. */
  lemma OneEventFreesAll(c: Setting, before: seq<Action>, s: State, t: int)
    requires Reached(c, before, s) && Employed(c) && !s.cancelled && Stuck(s)
    requires s.bell.hourTaken < |c.hourIn| && c.hourIn[s.bell.hourTaken] == Some(t) && LateEnough(s.la, t)
    ensures exists later :: Frees(s, later, t)
  {
    hide Inv;
    hide Next;
    hide Reached;
    hide Stuck;
    hide LateEnough;
    hide Frees;
    ReachedInv(c, before, s);
    HourComes(c, s);
    InvStep(c, s, NtHour);
    var later := Settling(c, Next(s, NtHour).value);
    assert ([NtHour] + later)[1..] == later;
    ScheduleFrees(c, before, s, t, later);
  }
}
