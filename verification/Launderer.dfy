/** A launderer's work as the sequential code does it: soap with one restock and retry, then the washing cycle. */
module Launderer {
  import opened Collections
  import opened Stock
  import opened StockRepo
  import opened Domain
  import opened Employees
  import opened System
  import opened Housekeeper
  import opened Notification
  import Washing

  /** Does the consumption with one restock and one retry succeed in the end? */
  predicate Obtained(view: StockView, name: string, quantity: int, f: Faults) {
    && !f.first && name in view
    && (Covers(view, name, quantity)
        || (!f.restock && !f.retry && Covers(Changed(view, name, REPLENISHMENT), name, quantity)))
  }

  lemma SoapRetry(view: StockView, quantity: int, f: Faults)
    requires 0 < quantity && NameOf(Soap) in view
    ensures var one := Consumed(Some(view), "soap", quantity, f.first, false);
      var two := Restocked(one.view, "soap", REPLENISHMENT, f.restock);
      var three := Consumed(two.view, "soap", quantity, f.retry, false);
      && (one.reply.Fine? ==> Obtained(view, "soap", quantity, f))
      && (one.reply == Failed(Insufficient("soap", quantity)) && two.reply.Fine? ==>
            (three.reply.Fine? <==> Obtained(view, "soap", quantity, f)))
      && (one.reply.Failed? && (one.reply != Failed(Insufficient("soap", quantity)) || two.reply.Failed?) ==>
            !Obtained(view, "soap", quantity, f))
  {
    assert Known(NameOf(Soap));
    assert !Blank("soap") by {
      assert !IsSpace("soap"[0]);
    }
    hide Known;
    hide Blank;
  }

  /** Which of the repository's answers mean that the soap was obtained. */
  lemma SoapSteps(stored: Option<Document>, quantity: int, f: Faults)
    requires 0 < quantity
    ensures var one := Consumed(ViewOf(stored), "soap", quantity, f.first, false);
      var two := Restocked(one.view, "soap", REPLENISHMENT, f.restock);
      var three := Consumed(two.view, "soap", quantity, f.retry, false);
      Obtained(Seen(stored), "soap", quantity, f) <==>
        if one.reply == Failed(Insufficient("soap", quantity)) then two.reply.Fine? && three.reply.Fine?
        else one.reply.Fine?
  {
    SeenView(stored);
    hide Seen;
    hide ViewOf;
    if stored.Some? {
      ItemsStored(stored.value, Soap);
      hide View;
      hide Consumed;
      hide Restocked;
      hide Obtained;
      SoapRetry(View(stored.value), quantity, f);
    } else {
      NothingSeen("soap", quantity, f);
      hide Consumed;
      hide Restocked;
    }
  }

  /** The event that ends a cycle which is given these events. */
  function Ended(events: seq<int>, start: int, item: string): Option<int> {
    var k := Washing.First(events, start, item);
    if k < |events| then Some(events[k]) else None
  }

  /** The cycle's result: the first event that comes `length` or more after the start, or none of them. */
  ghost predicate EndsAfter(events: seq<int>, start: int, length: int, finish: Option<int>) {
    match finish
    case Some(t) => exists k: nat :: Washing.FirstAfter(events, start, length, k) && events[k] == t
    case None => forall k :: 0 <= k < |events| ==> events[k] - start < length
  }

  lemma EndedIs(events: seq<int>, start: int, item: string)
    ensures item == "towels" ==> EndsAfter(events, start, 3_600_000_000_000, Ended(events, start, item))
    ensures item == "linens" ==> EndsAfter(events, start, 7_200_000_000_000, Ended(events, start, item))
  {
    var k := Washing.First(events, start, item);
    if k < |events| {
      Washing.FirstIsAfter(events, start, item);
    } else {
      Washing.FirstMeans(events, start, item);
      forall j | 0 <= j < |events| {
        Washing.EnoughIs(start, events[j]);
      }
      hide Enough;
    }
  }

  class Worker {
    const repo: Repo
    const service: Service

    constructor (repo: Repo, service: Service)
      ensures this.repo == repo && this.service == service
    {
      this.repo := repo;
      this.service := service;
    }

    /**
     The wait on a registered channel reads the events that reach it one by one, and ends with the first
     that is late enough; if `events`, all that arrive before cancellation, hold none, it ends without.
     */
    method Await(ch: Channel, start: int, item: string, events: seq<int>) returns (finish: Option<int>)
      requires ch in service.hour.items
      ensures finish == Ended(events, start, item)
    {
      finish := None;
      var k := 0;
      while k < |events| && finish.None?
        invariant k <= |events|
        invariant finish.None? ==> Washing.First(events[..k], start, item) == k
        invariant finish.Some? ==>
          0 < k && Washing.First(events[..k], start, item) == k - 1 && finish.value == events[k - 1]
      {
        assert events[..k + 1] == events[..k] + [events[k]];
        Washing.FirstSnoc(events[..k], events[k], start, item);
        if events[k] - start >= Duration(item) {
          finish := Some(events[k]);
        }
        k := k + 1;
      }
      Washing.FirstExtends(events, k, start, item);
    }

    /**
     A new channel is registered while the cycle waits on it, and the registries are as before afterwards.
     The cycle takes one hour for towels and two for linens.
     */
    method Cycle(start: int, item: string, events: seq<int>) returns (finish: Option<int>)
      requires service.Valid()
      modifies service.hour, service.day
      ensures service.hour.items == old(service.hour.items) && service.day.items == old(service.day.items)
      ensures finish == Ended(events, start, item)
      ensures item == "towels" ==> EndsAfter(events, start, 3_600_000_000_000, finish)
      ensures item == "linens" ==> EndsAfter(events, start, 7_200_000_000_000, finish)
    {
      var ch := new Channel();
      service.Register(HourChange, ch);
      finish := Await(ch, start, item, events);
      service.Unregister(HourChange, ch);
      EndedIs(events, start, item);
      hide EndsAfter;
    }

    /** The soap is taken as a consumption with one retry takes it, and the cycle runs exactly if it was. */
    method Work(item: string, clock: Option<int>, f: Faults, events: seq<int>)
      returns (washed: bool, finish: Option<int>)
      requires service.Valid()
      modifies repo, service.hour, service.day
      ensures service.hour.items == old(service.hour.items) && service.day.items == old(service.day.items)
      ensures clock.None? || (item != "towels" && item != "linens") ==> !washed && repo.stored == old(repo.stored)
      ensures clock.Some? && (item == "towels" || item == "linens") ==>
        var view, soap := old(Seen(repo.stored)), if item == "towels" then 10 else 20;
        && Seen(repo.stored) == Retried(view, "soap", soap, f)
        && washed == Obtained(view, "soap", soap, f)
      ensures washed ==> clock.Some? && finish == Ended(events, clock.value, item)
    {
      washed, finish := false, None;
      if clock.None? || WashTable(item).None? {
        return;
      }
      var soap := WashTable(item).value.soap;
      RetrySteps(repo.stored, Soap, soap, f);
      SoapSteps(repo.stored, soap, f);
      hide ViewOf;
      hide Seen;
      hide Consumed;
      hide Restocked;
      hide Retried;
      hide Obtained;
      var reply := repo.ConsumeItem("soap", soap, f.first, false);
      SeenView(repo.stored);
      if reply == Failed(Insufficient("soap", soap)) {
        reply := repo.RestockItem("soap", REPLENISHMENT, f.restock);
        SeenView(repo.stored);
        if reply.Failed? {
          return;
        }
        reply := repo.ConsumeItem("soap", soap, f.retry, false);
        SeenView(repo.stored);
      }
      if reply.Fine? {
        washed := true;
        finish := Cycle(clock.value, item, events);
      }
    }
  }

  // ---- a launderer of the step system, left alone

  /** The launderer is outside its washing cycle, at this place of its work. */
  predicate Outside(s: State, w: nat, r: WashRequest, at: LaAt) {
    Alike(s.la) && w < |s.la.workers| && s.la.workers[w] == Busy(r, at) && !InCycle(at)
  }

  lemma LaTurn(s: State, w: nat, r: WashRequest, at: LaAt, ok: bool)
    requires Outside(s, w, r, at)
    ensures var o, out := Next(s, LaGo(w, ok, 0)), LaDecide(s.shop.shelf, r.item, at, ok, 0);
      && o.Some? && o.value.la == Advance(s.la, w, out.at) && o.value.shop == LaEffect(s.shop, r, out)
  {
    hide Next;
    hide LaDecide;
    hide LaEffect;
    Routes(s, LaGo(w, ok, 0));
  }

  /**
   After `acts`, all by launderer `w`, it is about to start the cycle if `got` and done otherwise, with
   `soap` left, the other items as before, and the request settled once.
   */
  ghost predicate Ends(s: State, w: nat, r: WashRequest, start: int, acts: seq<Action>, got: bool, soap: int) {
    && (forall k :: 0 <= k < |acts| ==> acts[k].LaGo? && acts[k].w == w)
    && CanRun(s, acts) && w < |s.la.workers| && s.la.workers[w].Busy?
    && var s' := After(s, acts);
       && s'.la == Advance(s.la, w, if got then Some(Enter(start)) else None)
       && (forall i :: Qty(s'.shop.shelf, i) == if i == Soap then soap else Qty(s.shop.shelf, i))
       && s'.shop.paid == s.shop.paid + (if got then [r] else [])
       && s'.shop.unpaid == s.shop.unpaid + if got then [] else [r]
  }

  /** The last call of `wash`, after the restock. */
  lemma AgainAlone(s: State, w: nat, r: WashRequest, start: int, ok: bool) returns (acts: seq<Action>)
    requires Outside(s, w, r, Again(start)) && WashTable(r.item).Some?
    ensures var q, soap := Qty(s.shop.shelf, Soap), WashTable(r.item).value.soap;
      var got := ok && q >= soap;
      Ends(s, w, r, start, acts, got, if got then q - soap else q)
  {
    LaTurn(s, w, r, Again(start), ok);
    hide Next;
    acts := [LaGo(w, ok, 0)] + [];
    OneMore(s, LaGo(w, ok, 0), []);
  }

  /** One step ahead of a run that ends so. */
  lemma EndsLater(s: State, w: nat, r: WashRequest, start: int, ok: bool, more: seq<Action>, at: LaAt,
                  got: bool, soap: int)
    requires w < |s.la.workers| && s.la.workers[w].Busy? && s.la.workers[w].req == r && Next(s, LaGo(w, ok, 0)).Some?
    requires var s1 := Next(s, LaGo(w, ok, 0)).value;
      && s1.la == Advance(s.la, w, Some(at)) && Ends(s1, w, r, start, more, got, soap)
      && (forall i :: i != Soap ==> Qty(s1.shop.shelf, i) == Qty(s.shop.shelf, i))
      && s1.shop.paid == s.shop.paid && s1.shop.unpaid == s.shop.unpaid
    ensures Ends(s, w, r, start, [LaGo(w, ok, 0)] + more, got, soap)
  {
    hide Next;
    OneMore(s, LaGo(w, ok, 0), more);
    var s1 := Next(s, LaGo(w, ok, 0)).value;
    assert Advance(s1.la, w, if got then Some(Enter(start)) else None) ==
           Advance(s.la, w, if got then Some(Enter(start)) else None);
  }

  lemma TopUpAlone(s: State, w: nat, r: WashRequest, start: int, f: Faults) returns (acts: seq<Action>)
    requires Outside(s, w, r, TopUp(start)) && WashTable(r.item).Some?
    ensures var q, soap := Qty(s.shop.shelf, Soap), WashTable(r.item).value.soap;
      var got := !f.restock && !f.retry && q + REPLENISHMENT >= soap;
      Ends(s, w, r, start, acts, got,
           if f.restock then q else if got then q + REPLENISHMENT - soap else q + REPLENISHMENT)
  {
    LaTurn(s, w, r, TopUp(start), !f.restock);
    var ok := !f.restock;
    hide Next;
    if ok {
      var s1 := Next(s, LaGo(w, ok, 0)).value;
      var more := AgainAlone(s1, w, r, start, !f.retry);
      var q, soap := Qty(s1.shop.shelf, Soap), WashTable(r.item).value.soap;
      var got := !f.retry && q >= soap;
      EndsLater(s, w, r, start, ok, more, Again(start), got, if got then q - soap else q);
      acts := [LaGo(w, ok, 0)] + more;
    } else {
      acts := [LaGo(w, ok, 0)] + [];
      OneMore(s, LaGo(w, ok, 0), []);
    }
  }

  /**
   The step system and the sequential code agree: a launderer that has read its start time and moves
   alone reaches the washing cycle exactly if the sequential code obtains its soap, with the same stock.
   */
  lemma AloneAgrees(s: State, w: nat, r: WashRequest, start: int, view: StockView, f: Faults)
    requires Outside(s, w, r, Fill(start)) && WashTable(r.item).Some?
    requires "soap" in view && view["soap"].quantity == Qty(s.shop.shelf, Soap)
    ensures "soap" in Retried(view, "soap", WashTable(r.item).value.soap, f)
    ensures var soap := WashTable(r.item).value.soap;
      var got, left := Obtained(view, "soap", soap, f), Retried(view, "soap", soap, f)["soap"].quantity;
      exists acts :: Ends(s, w, r, start, acts, got, left)
  {
    var ok := !f.first;
    var soap := WashTable(r.item).value.soap;
    LaTurn(s, w, r, Fill(start), ok);
    hide Next;
    var s1 := Next(s, LaGo(w, ok, 0)).value;
    var got, left := Obtained(view, "soap", soap, f), Retried(view, "soap", soap, f)["soap"].quantity;
    if ok && Qty(s.shop.shelf, Soap) < soap {
      var more := TopUpAlone(s1, w, r, start, f);
      EndsLater(s, w, r, start, ok, more, TopUp(start), got, left);
    } else {
      OneMore(s, LaGo(w, ok, 0), []);
      assert Ends(s, w, r, start, [LaGo(w, ok, 0)] + [], got, left);
    }
  }

  /**
   The whole work: with the clock's answer, or its failure, at the start. The cycle's start time is the
   time that the clock showed then.
   */
  lemma WorkAgrees(s: State, w: nat, r: WashRequest, clock: Option<int>, view: StockView, f: Faults)
    requires Outside(s, w, r, LaStart) && (r.item == "towels" || r.item == "linens")
    requires "soap" in view && view["soap"].quantity == Qty(s.shop.shelf, Soap)
    ensures "soap" in Retried(view, "soap", 10, f) && "soap" in Retried(view, "soap", 20, f)
    ensures var soap := if r.item == "towels" then 10 else 20;
      var got, left := Obtained(view, "soap", soap, f), Retried(view, "soap", soap, f)["soap"].quantity;
      match clock
      case Some(now) => exists acts :: Ends(s, w, r, now, [LaGo(w, true, now)] + acts, got, left)
      case None => Ends(s, w, r, 0, [LaGo(w, false, 0)], false, Qty(s.shop.shelf, Soap))
  {
    var ok, now := clock.Some?, if clock.Some? then clock.value else 0;
    LaBegins(s, w, r, ok, now);
    hide Next;
    var s1 := Next(s, LaGo(w, ok, now)).value;
    if clock.None? {
      OneMore(s, LaGo(w, false, 0), []);
      assert [LaGo(w, false, 0)] + [] == [LaGo(w, false, 0)];
    } else {
      AloneAgrees(s1, w, r, now, view, f);
      var soap := if r.item == "towels" then 10 else 20;
      var got, left := Obtained(view, "soap", soap, f), Retried(view, "soap", soap, f)["soap"].quantity;
      var acts :| Ends(s1, w, r, now, acts, got, left);
      hide Obtained;
      hide Retried;
      BeganEnds(s, w, r, now, acts, got, left);
    }
  }

  lemma LaBegins(s: State, w: nat, r: WashRequest, ok: bool, now: int)
    requires Outside(s, w, r, LaStart)
    ensures var o := Next(s, LaGo(w, ok, now));
      && o.Some? && o.value.shop.shelf == s.shop.shelf && o.value.shop.paid == s.shop.paid
      && (ok ==> o.value.la == Advance(s.la, w, Some(Fill(now))) && o.value.shop.unpaid == s.shop.unpaid)
      && (!ok ==> o.value.la == Advance(s.la, w, None) && o.value.shop.unpaid == s.shop.unpaid + [r])
  {
    Routes(s, LaGo(w, ok, now));
    hide Next;
    assert s.shop.paid + [] == s.shop.paid && s.shop.unpaid + [] == s.shop.unpaid;
  }

  lemma BeganEnds(s: State, w: nat, r: WashRequest, now: int, more: seq<Action>, got: bool, soap: int)
    requires Outside(s, w, r, LaStart) && Next(s, LaGo(w, true, now)).Some?
    requires var s1 := Next(s, LaGo(w, true, now)).value;
      && s1.la == Advance(s.la, w, Some(Fill(now))) && Ends(s1, w, r, now, more, got, soap)
      && s1.shop.shelf == s.shop.shelf && s1.shop.paid == s.shop.paid && s1.shop.unpaid == s.shop.unpaid
    ensures Ends(s, w, r, now, [LaGo(w, true, now)] + more, got, soap)
  {
    hide Next;
    OneMore(s, LaGo(w, true, now), more);
    var s1 := Next(s, LaGo(w, true, now)).value;
    assert Advance(s1.la, w, if got then Some(Enter(now)) else None) ==
           Advance(s.la, w, if got then Some(Enter(now)) else None);
  }
}
