/** Subscriptions to hour changes, and the washing cycles that wait on them over a lossy channel. */
module Washing {
  import opened Collections
  import Stock
  import opened Domain
  import opened Employees
  import opened System

  /** The position of the first event that ends a cycle, or the length of the log if there is none. */
  function First(log: seq<int>, start: int, item: string): nat
    ensures First(log, start, item) <= |log|
  {
    if log == [] then 0
    else
      var last := |log| - 1;
      var k := First(log[..last], start, item);
      if k < last || Enough(start, item, log[last]) then k else |log|
  }

  lemma {:induction false} FirstMeans(log: seq<int>, start: int, item: string)
    ensures var k := First(log, start, item);
      && (forall j :: 0 <= j < k ==> !Enough(start, item, log[j]))
      && (k < |log| ==> Enough(start, item, log[k]))
    decreases |log|
  {
    if log != [] {
      FirstMeans(log[..|log| - 1], start, item);
    }
  }

  /** When an event ends a wash: an hour after the start for towels, two hours for linens, in nanoseconds. */
  lemma EnoughIs(start: int, t: int)
    ensures Enough(start, "towels", t) <==> t - start >= 3_600_000_000_000
    ensures Enough(start, "linens", t) <==> t - start >= 7_200_000_000_000
  {
  }

  /** The event at `n` is the first that comes `length` or more after the start. */
  predicate FirstAfter(log: seq<int>, start: int, length: int, n: nat) {
    && n < |log| && log[n] - start >= length
    && forall j :: 0 <= j < n ==> log[j] - start < length
  }

  lemma FirstIsAfter(log: seq<int>, start: int, item: string)
    requires First(log, start, item) < |log|
    ensures item == "towels" ==> FirstAfter(log, start, 3_600_000_000_000, First(log, start, item))
    ensures item == "linens" ==> FirstAfter(log, start, 7_200_000_000_000, First(log, start, item))
  {
    FirstMeans(log, start, item);
    forall j | 0 <= j < |log| {
      EnoughIs(start, log[j]);
    }
    hide Enough;
  }

  lemma FirstSnoc(log: seq<int>, t: int, start: int, item: string)
    ensures var k := First(log, start, item);
      First(log + [t], start, item) == if k < |log| || Enough(start, item, t) then k else |log| + 1
  {
    assert (log + [t])[..|log|] == log;
  }

  /** Later events do not matter once one was late enough. */
  lemma {:induction false} FirstExtends(events: seq<int>, k: nat, start: int, item: string)
    requires k <= |events|
    requires k == |events| || First(events[..k], start, item) < k
    ensures First(events, start, item) == First(events[..k], start, item)
    decreases |events| - k
  {
    if k == |events| {
      assert events[..k] == events;
    } else {
      assert events[..k + 1] == events[..k] + [events[k]];
      FirstSnoc(events[..k], events[k], start, item);
      FirstExtends(events, k + 1, start, item);
    }
  }

  function ChanOf(w: Worker<WashRequest, LaAt>): Option<nat> {
    if w.Busy? && w.at.Waiting? then Some(w.at.ch)
    else if w.Busy? && w.at.Leaving? then Some(w.at.ch)
    else None
  }

  function Subscribed(w: Worker<WashRequest, LaAt>): int {
    if ChanOf(w).Some? then 1 else 0
  }

  function BufOf(hub: Hub, c: nat): Option<int> {
    if c in hub.bufs then Some(hub.bufs[c]) else None
  }

  // ---- subscription hygiene

  /** Every channel in use was handed out before. */
  ghost predicate Issued(bell: Bell) {
    var hub := bell.hub;
    && (forall c: nat :: c in hub.log <==> c < hub.next)
    && (forall c :: c in hub.subs ==> c < hub.next)
    && (forall c :: c in hub.bufs ==> c < hub.next)
    && (forall k :: 0 <= k < |hub.cycles| ==> hub.cycles[k].ch < hub.next)
    && (bell.nt.Publishing? ==> forall c :: c in bell.nt.left ==> c < hub.next)
  }

  /** Every launderer inside the washing cycle has its channel registered, as its own. */
  ghost predicate Owns(la: Pool<WashRequest, LaAt>, hub: Hub) {
    forall w :: 0 <= w < |la.workers| && ChanOf(la.workers[w]).Some? ==>
      var c := ChanOf(la.workers[w]).value; c in hub.subs && c in hub.owner && hub.owner[c] == w
  }

  /** Every registered channel is that of a launderer inside the washing cycle. */
  ghost predicate Owned(la: Pool<WashRequest, LaAt>, hub: Hub) {
    forall c :: c in hub.subs ==>
      c in hub.owner && hub.owner[c] < |la.workers| && ChanOf(la.workers[hub.owner[c]]) == Some(c)
  }

  /** The registry is exactly the set of channels of the launderers inside the washing cycle, one each. */
  ghost predicate Registry(la: Pool<WashRequest, LaAt>, hub: Hub) {
    Owns(la, hub) && Owned(la, hub) && |hub.subs| == Sum(la.workers, Subscribed)
  }

  /** A finished cycle's channel is not registered, and belongs to that cycle only. */
  ghost predicate Retired(hub: Hub) {
    && (forall k :: 0 <= k < |hub.cycles| ==> hub.cycles[k].ch !in hub.subs)
    && (forall j, k :: 0 <= j < k < |hub.cycles| ==> hub.cycles[j].ch != hub.cycles[k].ch)
  }

  // ---- what a cycle has seen

  /** A waiting launderer has read no event that would end the cycle; the buffer holds the last one accepted. */
  predicate WaitOk(log: seq<int>, buf: Option<int>, start: int, item: string) {
    match buf
    case None => First(log, start, item) == |log|
    case Some(t) =>
      && log != [] && log[|log| - 1] == t
      && First(log[..|log| - 1], start, item) == |log| - 1
  }

  /** A cycle ends with the first event accepted that is late enough; at most one more is accepted after it. */
  predicate EndOk(log: seq<int>, buf: Option<int>, start: int, item: string, finish: int) {
    var k := First(log, start, item);
    && k < |log| && log[k] == finish
    && |log| == k + 1 + (if buf.Some? then 1 else 0)
  }

  predicate PlaceOk(hub: Hub, w: Worker<WashRequest, LaAt>) {
    w.Busy? ==> match w.at
      case Waiting(t, c) => WaitOk(LogOf(hub, c), BufOf(hub, c), t, w.req.item)
      case Leaving(t, c, Some(finish)) => EndOk(LogOf(hub, c), BufOf(hub, c), t, w.req.item, finish)
      case _ => true
  }

  predicate CycleOk(hub: Hub, y: Cycle) {
    y.finish.Some? ==> EndOk(LogOf(hub, y.ch), BufOf(hub, y.ch), y.start, y.item, y.finish.value)
  }

  predicate LeavesEarly(w: Worker<WashRequest, LaAt>) {
    w.Busy? && w.at.Leaving? && w.at.finish.None?
  }

  /** A cycle without a finish time is one that cancellation cut short. */
  ghost predicate CutShort(la: Pool<WashRequest, LaAt>, hub: Hub, cancelled: bool) {
    && (forall w :: 0 <= w < |la.workers| ==> (LeavesEarly(la.workers[w]) ==> cancelled))
    && (forall k :: 0 <= k < |hub.cycles| && hub.cycles[k].finish.None? ==> cancelled)
  }

  ghost predicate CyclesOk(la: Pool<WashRequest, LaAt>, hub: Hub) {
    && (forall w :: 0 <= w < |la.workers| ==> PlaceOk(hub, la.workers[w]))
    && (forall k :: 0 <= k < |hub.cycles| ==> CycleOk(hub, hub.cycles[k]))
  }

  ghost predicate HubSound(s: State) {
    && Issued(s.bell) && Registry(s.la, s.bell.hub) && Retired(s.bell.hub)
    && CyclesOk(s.la, s.bell.hub) && CutShort(s.la, s.bell.hub, s.cancelled)
  }

  // ---- the notifier's sends

  /** Accepting an event into an empty buffer keeps what the cycle on that channel knows. */
  lemma AcceptOne(log: seq<int>, t: int, start: int, item: string)
    ensures WaitOk(log, None, start, item) ==> WaitOk(log + [t], Some(t), start, item)
    ensures forall finish :: EndOk(log, None, start, item, finish) ==> EndOk(log + [t], Some(t), start, item, finish)
  {
    FirstSnoc(log, t, start, item);
    assert (log + [t])[..|log|] == log;
  }

  lemma OfferCycles(s: State, c: nat)
    requires HubSound(s) && NtOffer(s.bell, c).Some?
    ensures CyclesOk(s.la, NtOffer(s.bell, c).value.hub)
  {
    hide WaitOk;
    hide EndOk;
    hide Enough;
    var hub, hub' := s.bell.hub, NtOffer(s.bell, c).value.hub;
    if c !in hub.bufs {
      var log, t := LogOf(hub, c), s.bell.nt.time;
      forall w | 0 <= w < |s.la.workers| ensures PlaceOk(hub', s.la.workers[w]) {
        if s.la.workers[w].Busy? && ChanOf(s.la.workers[w]) == Some(c) {
          AcceptOne(log, t, s.la.workers[w].at.start, s.la.workers[w].req.item);
        }
        assert PlaceOk(hub, s.la.workers[w]);
      }
      forall k | 0 <= k < |hub.cycles| ensures CycleOk(hub', hub.cycles[k]) {
        AcceptOne(log, t, hub.cycles[k].start, hub.cycles[k].item);
        assert CycleOk(hub, hub.cycles[k]);
      }
    }
  }

  /** The notifier's steps only fill buffers and extend logs of issued channels. */
  lemma NtKeeps(b: Bell, a: Action, cancelled: bool)
    requires ByNotifier(a) && NtStep(b, a, cancelled).Some?
    ensures var b' := NtStep(b, a, cancelled).value;
      && b'.hub.subs == b.hub.subs && b'.hub.owner == b.hub.owner && b'.hub.cycles == b.hub.cycles
      && (!a.NtSend? ==> b'.hub == b.hub)
  {
    hide LogOf;
  }

  lemma NtIssued(b: Bell, a: Action, cancelled: bool)
    requires Issued(b) && ByNotifier(a) && NtStep(b, a, cancelled).Some?
    ensures Issued(NtStep(b, a, cancelled).value)
  {
    hide LogOf;
  }

  lemma NtHub(s: State, a: Action)
    requires HubSound(s) && ByNotifier(a) && NtStep(s.bell, a, s.cancelled).Some?
    ensures HubSound(s.(bell := NtStep(s.bell, a, s.cancelled).value))
  {
    hide PlaceOk;
    hide CycleOk;
    hide Issued;
    hide Sum;
    NtKeeps(s.bell, a, s.cancelled);
    NtIssued(s.bell, a, s.cancelled);
    if a.NtSend? {
      OfferCycles(s, a.ch);
    }
    hide NtStep;
  }

  // ---- the launderers' own steps

  /** Reading the buffer either ends the cycle with that event or leaves it unread-free and unfinished. */
  lemma ReadOne(log: seq<int>, t: int, start: int, item: string)
    requires WaitOk(log, Some(t), start, item)
    ensures if Enough(start, item, t) then EndOk(log, None, start, item, t) else WaitOk(log, None, start, item)
  {
    var last := |log| - 1;
    assert log == log[..last] + [t];
    FirstSnoc(log[..last], t, start, item);
  }

  /** What a cycle step gives the launderer that takes it. */
  lemma CycleOwn(hub: Hub, w: nat, r: WashRequest, at: LaAt)
    requires InCycle(at) && CycleStep(hub, w, r.item, at).Some? && PlaceOk(hub, Busy(r, at))
    requires at.Enter? ==> hub.next !in hub.bufs
    ensures var out := CycleStep(hub, w, r.item, at).value;
      && (out.at.Some? ==> PlaceOk(out.hub, Busy(r, out.at.value)))
      && (at.Leaving? ==> CycleOk(out.hub, Cycle(at.ch, at.start, r.item, at.finish)))
  {
    hide Enough;
    if at.Waiting? {
      ReadOne(LogOf(hub, at.ch), hub.bufs[at.ch], at.start, r.item);
      hide WaitOk;
      hide EndOk;
    }
  }

  /** The channel a cycle step is about: the fresh one, or the launderer's own. */
  function Subject(hub: Hub, at: LaAt): nat
    requires InCycle(at)
  {
    match at
    case Enter(_) => hub.next
    case Waiting(_, c) => c
    case Leaving(_, c, _) => c
  }

  /** A cycle step changes nothing about any other channel. */
  lemma CycleOthers(hub: Hub, w: nat, item: string, at: LaAt, c: nat)
    requires InCycle(at) && CycleStep(hub, w, item, at).Some? && c != Subject(hub, at)
    ensures var hub' := CycleStep(hub, w, item, at).value.hub;
      && LogOf(hub', c) == LogOf(hub, c) && BufOf(hub', c) == BufOf(hub, c)
      && (c in hub'.subs <==> c in hub.subs)
  {
  }

  /** Leaving only unregisters: the logs and buffers stay as they are. */
  lemma LeavingKeeps(hub: Hub, w: nat, item: string, at: LaAt)
    requires at.Leaving? && CycleStep(hub, w, item, at).Some?
    ensures var out := CycleStep(hub, w, item, at).value;
      out.at.None? && out.hub.log == hub.log && out.hub.bufs == hub.bufs
  {
  }

  lemma CyclePlacesOk(la: Pool<WashRequest, LaAt>, hub: Hub, w: nat, out: CycleOut)
    requires CyclesOk(la, hub) && hub.next !in hub.bufs
    requires w < |la.workers| && la.workers[w].Busy? && InCycle(la.workers[w].at)
    requires CycleStep(hub, w, la.workers[w].req.item, la.workers[w].at) == Some(out)
    requires forall v :: 0 <= v < |la.workers| && v != w && ChanOf(la.workers[v]).Some? ==>
      ChanOf(la.workers[v]).value != Subject(hub, la.workers[w].at)
    ensures var la' := Advance(la, w, out.at); forall v :: 0 <= v < |la'.workers| ==> PlaceOk(out.hub, la'.workers[v])
  {
    var r, at := la.workers[w].req, la.workers[w].at;
    var la' := Advance(la, w, out.at);
    assert PlaceOk(hub, la.workers[w]);
    CycleOwn(hub, w, r, at);
    hide WaitOk;
    hide EndOk;
    hide Subject;
    forall v | 0 <= v < |la'.workers| ensures PlaceOk(out.hub, la'.workers[v]) {
      if v != w && ChanOf(la'.workers[v]).Some? {
        assert PlaceOk(hub, la.workers[v]);
        CycleOthers(hub, w, r.item, at, ChanOf(la'.workers[v]).value);
      }
    }
  }

  lemma CycleCyclesOk(hub: Hub, w: nat, r: WashRequest, at: LaAt)
    requires forall k :: 0 <= k < |hub.cycles| ==> CycleOk(hub, hub.cycles[k])
    requires InCycle(at) && CycleStep(hub, w, r.item, at).Some? && PlaceOk(hub, Busy(r, at)) && hub.next !in hub.bufs
    requires !at.Leaving? ==> forall k :: 0 <= k < |hub.cycles| ==> hub.cycles[k].ch != Subject(hub, at)
    ensures var hub' := CycleStep(hub, w, r.item, at).value.hub;
      forall k :: 0 <= k < |hub'.cycles| ==> CycleOk(hub', hub'.cycles[k])
  {
    var out := CycleStep(hub, w, r.item, at).value;
    CycleOwn(hub, w, r, at);
    hide WaitOk;
    hide EndOk;
    hide Subject;
    hide Enough;
    forall k | 0 <= k < |out.hub.cycles| ensures CycleOk(out.hub, out.hub.cycles[k]) {
      if k < |hub.cycles| {
        assert CycleOk(hub, hub.cycles[k]);
        if !at.Leaving? {
          CycleOthers(hub, w, r.item, at, hub.cycles[k].ch);
        } else {
          LeavingKeeps(hub, w, r.item, at);
        }
      }
    }
  }

  /** The channel of a cycle step is no other launderer's, and of no ended cycle. */
  lemma SubjectOwn(s: State, w: nat)
    requires HubSound(s) && w < |s.la.workers| && s.la.workers[w].Busy? && InCycle(s.la.workers[w].at)
    ensures var c := Subject(s.bell.hub, s.la.workers[w].at);
      && (forall v :: 0 <= v < |s.la.workers| && v != w && ChanOf(s.la.workers[v]).Some? ==>
            ChanOf(s.la.workers[v]).value != c)
      && (forall k :: 0 <= k < |s.bell.hub.cycles| ==> s.bell.hub.cycles[k].ch != c)
      && s.bell.hub.next !in s.bell.hub.bufs
  {
    hide CyclesOk;
    hide CutShort;
    hide Sum;
    assert s.la.workers[w].at.Waiting? || s.la.workers[w].at.Leaving? ==>
        ChanOf(s.la.workers[w]) == Some(Subject(s.bell.hub, s.la.workers[w].at));
  }

  lemma CycleHub(s: State, w: nat, out: CycleOut)
    requires HubSound(s) && w < |s.la.workers| && s.la.workers[w].Busy? && InCycle(s.la.workers[w].at)
    requires CycleStep(s.bell.hub, w, s.la.workers[w].req.item, s.la.workers[w].at) == Some(out)
    ensures CyclesOk(Advance(s.la, w, out.at), out.hub)
  {
    SubjectOwn(s, w);
    hide CycleStep;
    hide Issued;
    hide Registry;
    hide Retired;
    hide CutShort;
    hide Subject;
    assert PlaceOk(s.bell.hub, s.la.workers[w]);
    hide PlaceOk;
    hide CycleOk;
    CyclePlacesOk(s.la, s.bell.hub, w, out);
    CycleCyclesOk(s.bell.hub, w, s.la.workers[w].req, s.la.workers[w].at);
  }

  /** The registry speaks about a launderer through its channel. */
  lemma CycleChannels(s: State, w: nat, out: CycleOut)
    requires HubSound(s) && w < |s.la.workers| && s.la.workers[w].Busy? && InCycle(s.la.workers[w].at)
    requires CycleStep(s.bell.hub, w, s.la.workers[w].req.item, s.la.workers[w].at) == Some(out)
    ensures var hub, hub', x, y := s.bell.hub, out.hub, s.la.workers[w], Advance(s.la, w, out.at).workers[w];
      match x.at
      case Enter(_) =>
        && ChanOf(x).None? && ChanOf(y) == Some(hub.next) && hub.next !in hub.subs
        && hub'.subs == hub.subs + {hub.next} && hub'.owner == hub.owner[hub.next := w]
      case Waiting(_, c) => ChanOf(x) == ChanOf(y) == Some(c) && hub'.subs == hub.subs && hub'.owner == hub.owner
      case Leaving(_, c, _) =>
        && ChanOf(x) == Some(c) && ChanOf(y).None? && c in hub.subs && hub.owner[c] == w
        && hub'.subs == hub.subs - {c} && hub'.owner == hub.owner
      case _ => true
  {
    hide CyclesOk;
    hide CutShort;
    hide Retired;
    hide Sum;
    hide Enough;
  }

  lemma SubscribedChange(la: Pool<WashRequest, LaAt>, w: nat, x: Worker<WashRequest, LaAt>)
    requires w < |la.workers|
    ensures Sum(la.workers[w := x], Subscribed) ==
            Sum(la.workers, Subscribed) - Subscribed(la.workers[w]) + Subscribed(x)
  {
    SumUpdate(la.workers, w, x, Subscribed);
  }

  /** A launderer that keeps its channel, or stays without one, keeps the registry as it is. */
  lemma SameChannel(la: Pool<WashRequest, LaAt>, la': Pool<WashRequest, LaAt>, hub: Hub, hub': Hub, w: nat)
    requires Registry(la, hub) && hub'.subs == hub.subs && hub'.owner == hub.owner
    requires w < |la.workers| == |la'.workers| && la'.workers == la.workers[w := la'.workers[w]]
    requires ChanOf(la'.workers[w]) == ChanOf(la.workers[w])
    ensures Registry(la', hub')
  {
    SubscribedChange(la, w, la'.workers[w]);
    hide Sum;
    hide ChanOf;
  }

  lemma EnterOwns(la: Pool<WashRequest, LaAt>, la': Pool<WashRequest, LaAt>, hub: Hub, hub': Hub, w: nat)
    requires Owns(la, hub) && hub.next !in hub.subs
    requires hub'.subs == hub.subs + {hub.next} && hub'.owner == hub.owner[hub.next := w]
    requires w < |la.workers| == |la'.workers| && la'.workers == la.workers[w := la'.workers[w]]
    requires ChanOf(la.workers[w]).None? && ChanOf(la'.workers[w]) == Some(hub.next)
    ensures Owns(la', hub')
  {
    hide ChanOf;
  }

  lemma EnterOwned(la: Pool<WashRequest, LaAt>, la': Pool<WashRequest, LaAt>, hub: Hub, hub': Hub, w: nat)
    requires Owned(la, hub) && hub.next !in hub.subs
    requires hub'.subs == hub.subs + {hub.next} && hub'.owner == hub.owner[hub.next := w]
    requires w < |la.workers| == |la'.workers| && la'.workers == la.workers[w := la'.workers[w]]
    requires ChanOf(la.workers[w]).None? && ChanOf(la'.workers[w]) == Some(hub.next)
    ensures Owned(la', hub')
  {
    hide ChanOf;
  }

  lemma EnterRegistry(la: Pool<WashRequest, LaAt>, la': Pool<WashRequest, LaAt>, hub: Hub, hub': Hub, w: nat)
    requires Registry(la, hub) && hub.next !in hub.subs
    requires hub'.subs == hub.subs + {hub.next} && hub'.owner == hub.owner[hub.next := w]
    requires w < |la.workers| == |la'.workers| && la'.workers == la.workers[w := la'.workers[w]]
    requires ChanOf(la.workers[w]).None? && ChanOf(la'.workers[w]) == Some(hub.next)
    ensures Registry(la', hub')
  {
    EnterOwns(la, la', hub, hub', w);
    EnterOwned(la, la', hub, hub', w);
    SubscribedChange(la, w, la'.workers[w]);
    hide Owns;
    hide Owned;
    hide Sum;
    hide ChanOf;
  }

  lemma LeaveRegistry(la: Pool<WashRequest, LaAt>, la': Pool<WashRequest, LaAt>, hub: Hub, hub': Hub, w: nat, c: nat)
    requires Registry(la, hub) && c in hub.subs && hub.owner[c] == w
    requires hub'.subs == hub.subs - {c} && hub'.owner == hub.owner
    requires w < |la.workers| == |la'.workers| && la'.workers == la.workers[w := la'.workers[w]]
    requires ChanOf(la.workers[w]) == Some(c) && ChanOf(la'.workers[w]).None?
    ensures Registry(la', hub')
  {
    SubscribedChange(la, w, la'.workers[w]);
    hide Sum;
    hide ChanOf;
  }

  lemma CycleRegistry(s: State, w: nat, out: CycleOut)
    requires HubSound(s) && w < |s.la.workers| && s.la.workers[w].Busy? && InCycle(s.la.workers[w].at)
    requires CycleStep(s.bell.hub, w, s.la.workers[w].req.item, s.la.workers[w].at) == Some(out)
    ensures Registry(Advance(s.la, w, out.at), out.hub)
  {
    CycleChannels(s, w, out);
    hide CyclesOk;
    hide CutShort;
    hide Retired;
    hide Issued;
    hide Registry;
    hide CycleStep;
    hide ChanOf;
    var la', at := Advance(s.la, w, out.at), s.la.workers[w].at;
    match at {
      case Enter(_) => EnterRegistry(s.la, la', s.bell.hub, out.hub, w);
      case Waiting(_, _) => SameChannel(s.la, la', s.bell.hub, out.hub, w);
      case Leaving(_, c, _) => LeaveRegistry(s.la, la', s.bell.hub, out.hub, w, c);
      case _ =>
    }
  }

  lemma CycleIssued(bell: Bell, w: nat, item: string, at: LaAt)
    requires Issued(bell) && InCycle(at) && CycleStep(bell.hub, w, item, at).Some?
    requires at.Leaving? ==> at.ch < bell.hub.next
    ensures Issued(bell.(hub := CycleStep(bell.hub, w, item, at).value.hub))
  {
    hide Enough;
  }

  lemma CycleRetired(hub: Hub, w: nat, item: string, at: LaAt)
    requires Retired(hub) && InCycle(at) && CycleStep(hub, w, item, at).Some?
    requires at.Leaving? ==> at.ch in hub.subs
    requires forall k :: 0 <= k < |hub.cycles| ==> hub.cycles[k].ch < hub.next
    ensures Retired(CycleStep(hub, w, item, at).value.hub)
  {
    hide Enough;
  }

  lemma CycleCutShort(s: State, w: nat, out: CycleOut)
    requires CutShort(s.la, s.bell.hub, s.cancelled) && w < |s.la.workers|
    requires s.la.workers[w].Busy? && InCycle(s.la.workers[w].at)
    requires CycleStep(s.bell.hub, w, s.la.workers[w].req.item, s.la.workers[w].at) == Some(out)
    ensures CutShort(Advance(s.la, w, out.at), out.hub, s.cancelled)
  {
    hide Enough;
    assert LeavesEarly(s.la.workers[w]) ==> s.cancelled;
  }

  /** A launderer that moves between places outside the cycle does not matter to the hub. */
  lemma OutsideHub(s: State, s': State, w: nat)
    requires HubSound(s) && w < |s.la.workers|
    requires s'.bell == s.bell && s'.cancelled == s.cancelled
    requires |s'.la.workers| == |s.la.workers| && s'.la.workers == s.la.workers[w := s'.la.workers[w]]
    requires ChanOf(s.la.workers[w]).None? && ChanOf(s'.la.workers[w]).None?
    ensures HubSound(s')
  {
    SameChannel(s.la, s'.la, s.bell.hub, s.bell.hub, w);
    hide CycleOk;
    hide WaitOk;
    hide EndOk;
    hide Registry;
    hide Issued;
    hide Retired;
    assert s'.la.workers[w].Busy? ==> !s'.la.workers[w].at.Waiting? && !s'.la.workers[w].at.Leaving?;
  }

  lemma DecideOutside(shelf: Stock.Shelf, r: WashRequest, at: LaAt, ok: bool, now: int)
    requires !InCycle(at)
    ensures ChanOf(Busy(r, at)).None?
    ensures var out := LaDecide(shelf, r.item, at, ok, now); out.at.Some? ==> ChanOf(Busy(r, out.at.value)).None?
  {
  }

  /** A launderer inside its cycle has a registered channel, handed out before. */
  lemma OwnChannel(s: State, w: nat)
    requires HubSound(s) && w < |s.la.workers|
    ensures ChanOf(s.la.workers[w]).Some? ==>
      ChanOf(s.la.workers[w]).value in s.bell.hub.subs && ChanOf(s.la.workers[w]).value < s.bell.hub.next
    ensures forall k :: 0 <= k < |s.bell.hub.cycles| ==> s.bell.hub.cycles[k].ch < s.bell.hub.next
  {
  }

  lemma LaHub(s: State, w: nat, ok: bool, now: int)
    requires HubSound(s) && LaNext(s, w, ok, now).Some?
    ensures HubSound(LaNext(s, w, ok, now).value)
  {
    hide Issued;
    hide Registry;
    hide Retired;
    hide CyclesOk;
    hide CutShort;
    hide LaDecide;
    hide CycleStep;
    var s' := LaNext(s, w, ok, now).value;
    if s.la.workers[w].Busy? && InCycle(s.la.workers[w].at) {
      var out := CycleStep(s.bell.hub, w, s.la.workers[w].req.item, s.la.workers[w].at).value;
      CycleHub(s, w, out);
      CycleRegistry(s, w, out);
      OwnChannel(s, w);
      CycleIssued(s.bell, w, s.la.workers[w].req.item, s.la.workers[w].at);
      CycleRetired(s.bell.hub, w, s.la.workers[w].req.item, s.la.workers[w].at);
      CycleCutShort(s, w, out);
    } else {
      if s.la.workers[w].Busy? {
        DecideOutside(s.shop.shelf, s.la.workers[w].req, s.la.workers[w].at, ok, now);
      }
      OutsideHub(s, s', w);
    }
  }

  /** Cancellation cuts a waiting launderer short; it unregisters with its next step. */
  lemma QuitHub(s: State, w: nat)
    requires HubSound(s) && LaLeave(s, w).Some?
    ensures HubSound(LaLeave(s, w).value)
  {
    var s' := LaLeave(s, w).value;
    if s.la.workers[w].Idle? {
      OutsideHub(s, s', w);
    } else {
      assert ChanOf(s'.la.workers[w]) == ChanOf(s.la.workers[w]);
      SameChannel(s.la, s'.la, s.bell.hub, s.bell.hub, w);
      hide CycleOk;
      hide WaitOk;
      hide EndOk;
      hide Registry;
      hide Issued;
      hide Retired;
    }
  }

  /** Only launderers and the notifier touch the hour side of the bell. */
  lemma BellKept(s: State, a: Action)
    requires !a.LaGo? && !ByNotifier(a) && Next(s, a).Some?
    ensures var b, b' := s.bell, Next(s, a).value.bell;
      b'.hub == b.hub && b'.nt == b.nt && b'.hourIn == b.hourIn && b'.hourTaken == b.hourTaken
  {
    hide Next;
    hide HkNext;
    hide StNext;
    hide Selectable;
    hide Accept;
    Routes(s, a);
    if a.HkGo? || a.StGo? {
      CleanersKeepBell(s, a);
    }
  }

  lemma CleanersKeepBell(s: State, a: Action)
    requires (a.HkGo? || a.StGo?) && Next(s, a).Some?
    ensures var s' := Next(s, a).value;
      s'.bell == s.bell && s'.la.workers == s.la.workers && s'.cancelled == s.cancelled
  {
    hide Next;
    hide HkDecide;
    hide StDecide;
    hide HkEffect;
    hide StEffect;
    Routes(s, a);
  }

  /** The other processes leave launderers, hub and subscriber snapshot alone. */
  lemma OthersKeepHub(s: State, a: Action)
    requires !a.LaGo? && !a.LaQuit? && !ByNotifier(a) && Next(s, a).Some?
    ensures var s' := Next(s, a).value;
      && s'.la.workers == s.la.workers && s'.bell.hub == s.bell.hub && s'.bell.nt == s.bell.nt
      && (s.cancelled ==> s'.cancelled)
  {
    BellKept(s, a);
    hide Next;
    hide HkNext;
    hide StNext;
    hide Selectable;
    hide Accept;
    Routes(s, a);
    if a.HkGo? || a.StGo? {
      CleanersKeepBell(s, a);
    }
  }

  lemma HubStep(s: State, a: Action)
    requires HubSound(s) && Next(s, a).Some?
    ensures HubSound(Next(s, a).value)
  {
    hide Next;
    hide LaNext;
    hide LaLeave;
    hide NtStep;
    Routes(s, a);
    if a.LaGo? {
      LaHub(s, a.w, a.ok, a.now);
    } else if a.LaQuit? {
      QuitHub(s, a.w);
    } else if ByNotifier(a) {
      NtHub(s, a);
    } else {
      OthersKeepHub(s, a);
      SameHub(s, Next(s, a).value);
    }
  }

  lemma SameHub(s: State, s': State)
    requires HubSound(s)
    requires s'.la.workers == s.la.workers && s'.bell.hub == s.bell.hub && s'.bell.nt == s.bell.nt
    requires s.cancelled ==> s'.cancelled
    ensures HubSound(s')
  {
    hide PlaceOk;
    hide CycleOk;
    hide Sum;
  }

  // ---- event order

  /** The event being published is the last one read. */
  predicate OnAir(b: Bell) {
    b.nt.Publishing? ==>
      0 < b.hourTaken <= |b.hourIn| && b.hourIn[b.hourTaken - 1] == Some(b.nt.time)
  }

  lemma NtOnAir(b: Bell, a: Action, cancelled: bool)
    requires OnAir(b) && ByNotifier(a) && NtStep(b, a, cancelled).Some?
    ensures OnAir(NtStep(b, a, cancelled).value)
  {
    hide LogOf;
  }

  lemma OnAirStep(s: State, a: Action)
    requires OnAir(s.bell) && Next(s, a).Some?
    ensures OnAir(Next(s, a).value.bell)
  {
    hide Next;
    hide LaNext;
    hide NtStep;
    Routes(s, a);
    if a.LaGo? {
      LaKeepsAir(s, a.w, a.ok, a.now);
    } else if ByNotifier(a) {
      NtOnAir(s.bell, a, s.cancelled);
      hide OnAir;
    } else {
      BellKept(s, a);
    }
  }

  lemma LaKeepsAir(s: State, w: nat, ok: bool, now: int)
    requires LaNext(s, w, ok, now).Some?
    ensures var s' := LaNext(s, w, ok, now).value; s'.bell == s.bell.(hub := s'.bell.hub)
  {
    hide LaDecide;
    hide CycleStep;
  }

  /** No event from now on is earlier than `t`. */
  predicate NotBefore(b: Bell, t: int) {
    && (forall k :: b.hourTaken <= k < |b.hourIn| && b.hourIn[k].Some? ==> t <= b.hourIn[k].value)
    && (b.nt.Publishing? ==> t <= b.nt.time)
  }

  /** The events that channel `c` accepted after its first `n` are no earlier than `t`. */
  predicate LateTail(hub: Hub, c: nat, n: nat, t: int) {
    && c < hub.next && n <= |LogOf(hub, c)|
    && forall k :: n <= k < |LogOf(hub, c)| ==> t <= LogOf(hub, c)[k]
  }

  lemma OfferLate(b: Bell, a: nat, c: nat, n: nat, t: int)
    requires NotBefore(b, t) && LateTail(b.hub, c, n, t) && NtOffer(b, a).Some?
    ensures NotBefore(NtOffer(b, a).value, t) && LateTail(NtOffer(b, a).value.hub, c, n, t)
  {
  }

  lemma NtLate(b: Bell, a: Action, cancelled: bool, c: nat, n: nat, t: int)
    requires NotBefore(b, t) && LateTail(b.hub, c, n, t) && ByNotifier(a) && NtStep(b, a, cancelled).Some?
    ensures var b' := NtStep(b, a, cancelled).value; NotBefore(b', t) && LateTail(b'.hub, c, n, t)
  {
    hide LateTail;
    if a.NtSend? {
      OfferLate(b, a.ch, c, n, t);
      hide NotBefore;
    }
    hide NtOffer;
  }

  lemma LateStep(s: State, a: Action, c: nat, n: nat, t: int)
    requires NotBefore(s.bell, t) && LateTail(s.bell.hub, c, n, t) && Next(s, a).Some?
    ensures var b := Next(s, a).value.bell; NotBefore(b, t) && LateTail(b.hub, c, n, t)
  {
    hide Next;
    hide LaNext;
    hide NtStep;
    hide LogOf;
    Routes(s, a);
    if a.LaGo? {
      LaKeepsAir(s, a.w, a.ok, a.now);
      LaKeepsLog(s, a.w, a.ok, a.now, c);
    } else if ByNotifier(a) {
      NtLate(s.bell, a, s.cancelled, c, n, t);
      hide LateTail;
      hide NotBefore;
    } else {
      BellKept(s, a);
    }
  }

  lemma LaKeepsLog(s: State, w: nat, ok: bool, now: int, c: nat)
    requires LaNext(s, w, ok, now).Some? && c < s.bell.hub.next
    ensures var hub' := LaNext(s, w, ok, now).value.bell.hub;
      c < hub'.next && LogOf(hub', c) == LogOf(s.bell.hub, c)
  {
    hide LaDecide;
    hide Enough;
  }
}
