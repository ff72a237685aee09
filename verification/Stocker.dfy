/**
 A stocker's restock pass as the sequential code does it, what it achieves when nobody interferes,
 and that a stocker of the step system, left alone, achieves the same.
 */
module Stocker {
  import opened Collections
  import opened Stock
  import opened StockRepo
  import opened Employees
  import opened Domain
  import System

  /** One visited item: restocked if the snapshot shows it, and shows too little of it. */
  function Visit(view: StockView, snapshot: StockView, name: string, fault: bool): StockView {
    if name in snapshot && name in view && snapshot[name].quantity < MINIMUM && !fault then
      Changed(view, name, REPLENISHMENT)
    else view
  }

  /** All items visited in order against one snapshot; `faults` says which database calls fail. */
  function Pass(view: StockView, snapshot: StockView, items: seq<string>, faults: seq<bool>): StockView
    requires |faults| == |items|
  {
    if items == [] then view
    else
      var last := |items| - 1;
      Visit(Pass(view, snapshot, items[..last], faults[..last]), snapshot, items[last], faults[last])
  }

  lemma {:induction false} PassKeys(view: StockView, snapshot: StockView, items: seq<string>, faults: seq<bool>)
    requires |faults| == |items|
    ensures Pass(view, snapshot, items, faults).Keys == view.Keys
    decreases |items|
  {
    if items != [] {
      PassKeys(view, snapshot, items[..|items| - 1], faults[..|items| - 1]);
    }
  }

  lemma PassNext(view: StockView, snapshot: StockView, items: seq<string>, faults: seq<bool>, k: nat)
    requires k < |items| == |faults|
    ensures Pass(view, snapshot, items[..k + 1], faults[..k + 1]) ==
            Visit(Pass(view, snapshot, items[..k], faults[..k]), snapshot, items[k], faults[k])
  {
    assert items[..k + 1][..k] == items[..k] && faults[..k + 1][..k] == faults[..k];
  }

  lemma PassNone(view: StockView, snapshot: StockView)
    ensures Pass(view, snapshot, [], []) == view
  {
  }

  lemma KnownNotBlank(name: string)
    requires Known(name)
    ensures !Blank(name)
  {
    var i :| NameOf(i) == name;
    assert !IsSpace(name[0]);
  }

  lemma ViewKnown(stored: Option<Document>, view: StockView, name: string)
    requires ViewOf(stored) == Some(view) && name in view
    ensures Known(name) && !Blank(name)
  {
    FieldsCoverView(stored.value, name);
    KnownNames(name);
    KnownNotBlank(name);
  }

  lemma NoView(stored: Option<Document>)
    ensures stored.None? <==> ViewOf(stored).None?
  {
  }

  /** For a known item below the minimum, visiting it is what the repository's restock does. */
  lemma VisitRestocks(view: StockView, snapshot: StockView, name: string, fault: bool)
    requires name in view && name in snapshot && snapshot[name].quantity < MINIMUM
    requires Known(name) && !Blank(name)
    ensures Restocked(Some(view), name, REPLENISHMENT, fault).view == Some(Visit(view, snapshot, name, fault))
  {
    hide Known;
    hide Blank;
  }

  lemma VisitSkips(view: StockView, snapshot: StockView, name: string, fault: bool)
    requires !(name in snapshot && snapshot[name].quantity < MINIMUM)
    ensures Visit(view, snapshot, name, fault) == view
  {
  }

  class Stocker {
    const repo: Repo

    constructor (repo: Repo)
      ensures this.repo == repo
    {
      this.repo := repo;
    }

    /** The items are visited against the snapshot taken at the start, whatever the restocks change. */
    method Work(items: seq<string>, getFault: bool, faults: seq<bool>)
      requires |faults| == |items|
      modifies repo
      ensures items == [] || getFault || old(repo.stored).None? ==> repo.stored == old(repo.stored)
      ensures forall view :: !getFault && old(ViewOf(repo.stored)) == Some(view) ==>
        ViewOf(repo.stored) == Some(Pass(view, view, items, faults))
    {
      hide ViewOf;
      hide View;
      hide Pass;
      hide Visit;
      hide Restocked;
      hide Known;
      hide Blank;
      if items == [] {
        forall view {
          PassNone(view, view);
        }
        return;
      }
      var reply, snapshot := repo.GetStock(getFault);
      if reply.Failed? {
        NoView(repo.stored);
        return;
      }
      PassNone(snapshot, snapshot);
      assert items[..0] == [] && faults[..0] == [];
      var k := 0;
      while k < |items|
        invariant 0 <= k <= |items|
        invariant ViewOf(repo.stored) == Some(Pass(snapshot, snapshot, items[..k], faults[..k]))
      {
        ghost var view := Pass(snapshot, snapshot, items[..k], faults[..k]);
        PassKeys(snapshot, snapshot, items[..k], faults[..k]);
        PassNext(snapshot, snapshot, items, faults, k);
        if items[k] in snapshot && snapshot[items[k]].quantity < MINIMUM {
          ViewKnown(repo.stored, view, items[k]);
          VisitRestocks(view, snapshot, items[k], faults[k]);
          var _ := repo.RestockItem(items[k], REPLENISHMENT, faults[k]);
        } else {
          VisitSkips(view, snapshot, items[k], faults[k]);
        }
        k := k + 1;
      }
      assert items[..k] == items && faults[..k] == faults;
    }
  }

  // ---- what a pass achieves

  function NoFaults(n: nat): seq<bool> {
    seq(n, _ => false)
  }

  /** A visit changes the item it is about, by 50, and no other. */
  lemma VisitOne(view: StockView, snapshot: StockView, item: string, fault: bool, name: string)
    requires view.Keys == snapshot.Keys && name in view
    ensures var view' := Visit(view, snapshot, item, fault);
      && view'.Keys == view.Keys
      && view'[name] == StockItem(view[name].name,
           view[name].quantity + if item == name && snapshot[name].quantity < 10 && !fault then 50 else 0)
  {
  }

  lemma NoFaultsLess(n: nat)
    requires n > 0
    ensures NoFaults(n)[..n - 1] == NoFaults(n - 1) && !NoFaults(n)[n - 1]
  {
  }

  /** How often the item is listed with a restock call that does not fail. */
  function Hits(items: seq<string>, faults: seq<bool>, name: string): nat
    requires |faults| == |items|
  {
    if items == [] then 0
    else
      var last := |items| - 1;
      Hits(items[..last], faults[..last], name) + if items[last] == name && !faults[last] then 1 else 0
  }

  /** An item below 10 in the snapshot gets 50 for each listing whose call does not fail; nothing else changes. */
  lemma {:induction false} PassCounts(
    view: StockView, snapshot: StockView, items: seq<string>, faults: seq<bool>, name: string)
    requires view.Keys == snapshot.Keys && name in view && |faults| == |items|
    ensures var view' := Pass(view, snapshot, items, faults);
      && view'.Keys == view.Keys
      && view'[name] == StockItem(view[name].name,
           view[name].quantity + if snapshot[name].quantity < 10 then 50 * Hits(items, faults, name) else 0)
    decreases |items|
  {
    if items != [] {
      var last := |items| - 1;
      PassCounts(view, snapshot, items[..last], faults[..last], name);
      VisitOne(Pass(view, snapshot, items[..last], faults[..last]), snapshot, items[last], faults[last], name);
      hide Visit;
    }
  }

  /** Without failing calls every listing counts. */
  lemma {:induction false} AllHit(items: seq<string>, name: string)
    ensures Hits(items, NoFaults(|items|), name) == multiset(items)[name]
    decreases |items|
  {
    if items != [] {
      var last := |items| - 1;
      NoFaultsLess(|items|);
      AllHit(items[..last], name);
      assert items == items[..last] + [items[last]];
      hide NoFaults;
    }
  }

  function Alone(view: StockView, items: seq<string>): StockView {
    Pass(view, view, items, NoFaults(|items|))
  }

  /** On a duplicate-free list: every requested item ends at the minimum or above, each by one restock at most. */
  lemma PassMeetsMinimum(view: StockView, items: seq<string>, name: string)
    requires Distinct(items) && name in view && 0 <= view[name].quantity
    ensures name in Alone(view, items)
    ensures var q, q' := view[name].quantity, Alone(view, items)[name].quantity;
      && (name in items ==> q' >= 10)
      && q' == if name in items && q < 10 then q + 50 else q
  {
    PassCounts(view, view, items, NoFaults(|items|), name);
    AllHit(items, name);
    DistinctCount(items, name);
  }

  /** The order of the list does not matter, duplicates or not. */
  lemma PassAnyOrder(view: StockView, items: seq<string>, items': seq<string>)
    requires multiset(items) == multiset(items')
    ensures Alone(view, items) == Alone(view, items')
  {
    PassKeys(view, view, items, NoFaults(|items|));
    PassKeys(view, view, items', NoFaults(|items'|));
    forall name | name in view ensures Alone(view, items)[name] == Alone(view, items')[name] {
      PassCounts(view, view, items, NoFaults(|items|), name);
      PassCounts(view, view, items', NoFaults(|items'|), name);
      AllHit(items, name);
      AllHit(items', name);
    }
  }

  /** A second pass over the same list changes nothing. */
  lemma PassAgainIsIdle(view: StockView, items: seq<string>)
    requires forall name :: name in view ==> 0 <= view[name].quantity
    ensures Alone(Alone(view, items), items) == Alone(view, items)
  {
    var once := Alone(view, items);
    PassKeys(view, view, items, NoFaults(|items|));
    PassKeys(once, once, items, NoFaults(|items|));
    forall name | name in view ensures Alone(once, items)[name] == once[name] {
      PassCounts(view, view, items, NoFaults(|items|), name);
      PassCounts(once, once, items, NoFaults(|items|), name);
      AllHit(items, name);
    }
  }

  // ---- a stocker of the step system, left alone

  function Names(items: seq<Item>): (names: seq<string>)
    ensures |names| == |items|
  {
    seq(|items|, k requires 0 <= k < |items| => NameOf(items[k]))
  }

  /** One visit for each item of the list, with these restock calls failing. */
  function Turns(w: nat, faults: seq<bool>): (acts: seq<System.Action>) {
    if faults == [] then [] else [System.StGo(w, !faults[0])] + Turns(w, faults[1..])
  }

  predicate About(s: System.State, w: nat, req: RestockRequest, at: System.StAt) {
    Alike(s.st) && w < |s.st.workers| && s.st.workers[w] == Busy(req, at)
  }

  lemma ShelvingTurn(s: System.State, w: nat, req: RestockRequest, snapshot: Shelf, rest: seq<Item>, ok: bool)
    requires About(s, w, req, System.Shelving(snapshot, rest)) && rest != []
    ensures var o := System.Next(s, System.StGo(w, ok));
      && o.Some? && About(o.value, w, req, System.Shelving(snapshot, rest[1..]))
      && o.value.shop.shelf ==
           if Qty(snapshot, rest[0]) >= MINIMUM || !ok then s.shop.shelf else Replenish(s.shop.shelf, rest[0])
  {
    System.Routes(s, System.StGo(w, ok));
    hide System.Next;
  }

  /** The first listing, if its call does not fail, and the others. */
  lemma {:induction false} HitsHead(items: seq<string>, faults: seq<bool>, name: string)
    requires |items| == |faults| && items != []
    ensures Hits(items, faults, name) ==
            Hits(items[1..], faults[1..], name) + if items[0] == name && !faults[0] then 1 else 0
    decreases |items|
  {
    var last := |items| - 1;
    if last > 0 {
      HitsHead(items[..last], faults[..last], name);
      assert items[..last][1..] == items[1..][..last - 1] && faults[..last][1..] == faults[1..][..last - 1];
    }
  }

  lemma NamesHead(items: seq<Item>)
    requires items != []
    ensures Names(items)[1..] == Names(items[1..]) && Names(items)[0] == NameOf(items[0])
  {
  }

  lemma FirstHit(rest: seq<Item>, faults: seq<bool>, i: Item)
    requires |faults| == |rest| && rest != []
    ensures Hits(Names(rest), faults, NameOf(i)) ==
            Hits(Names(rest[1..]), faults[1..], NameOf(i)) + if rest[0] == i && !faults[0] then 1 else 0
  {
    hide NameOf;
    NamesHead(rest);
    HitsHead(Names(rest), faults, NameOf(i));
    NamesDiffer(rest[0], i);
    hide Hits;
    hide Names;
  }

  lemma {:induction false} ShelvingAlone(
    s: System.State, w: nat, req: RestockRequest, snapshot: Shelf, rest: seq<Item>, faults: seq<bool>, i: Item)
    requires About(s, w, req, System.Shelving(snapshot, rest)) && |faults| == |rest|
    ensures System.CanRun(s, Turns(w, faults))
    ensures About(System.After(s, Turns(w, faults)), w, req, System.Shelving(snapshot, []))
    ensures Qty(System.After(s, Turns(w, faults)).shop.shelf, i) ==
      Qty(s.shop.shelf, i) + if Qty(snapshot, i) < 10 then 50 * Hits(Names(rest), faults, NameOf(i)) else 0
    decreases |rest|
  {
    hide System.Next;
    hide NameOf;
    if rest != [] {
      ShelvingTurn(s, w, req, snapshot, rest, !faults[0]);
      hide About;
      var s' := System.Next(s, System.StGo(w, !faults[0])).value;
      ShelvingAlone(s', w, req, snapshot, rest[1..], faults[1..], i);
      assert Turns(w, faults)[1..] == Turns(w, faults[1..]);
      FirstHit(rest, faults, i);
      hide Hits;
      hide Names;
    }
  }

  /**
   The step system and the sequential code agree: a stocker that has just taken its snapshot, and then
   moves alone, leaves of every item what the pass over the same list leaves, whichever calls fail.
   */
  lemma AloneAgrees(s: System.State, w: nat, req: RestockRequest, items: seq<Item>, faults: seq<bool>,
                    view: StockView, i: Item)
    requires About(s, w, req, System.Shelving(s.shop.shelf, items)) && |faults| == |items|
    requires NameOf(i) in view && Qty(s.shop.shelf, i) == view[NameOf(i)].quantity
    ensures System.CanRun(s, Turns(w, faults))
    ensures About(System.After(s, Turns(w, faults)), w, req, System.Shelving(s.shop.shelf, []))
    ensures NameOf(i) in Pass(view, view, Names(items), faults)
    ensures Qty(System.After(s, Turns(w, faults)).shop.shelf, i) ==
            Pass(view, view, Names(items), faults)[NameOf(i)].quantity
  {
    ShelvingAlone(s, w, req, s.shop.shelf, items, faults, i);
    PassCounts(view, view, Names(items), faults, NameOf(i));
    hide System.Next;
    hide NameOf;
    hide Pass;
    hide Names;
    hide About;
  }

  /** The first step of the work: a snapshot, or the end of it for an empty list or a failing call. */
  lemma Begins(s: System.State, w: nat, req: RestockRequest, ok: bool)
    requires About(s, w, req, System.StStart)
    ensures var o := System.Next(s, System.StGo(w, ok));
      && o.Some? && o.value.shop.shelf == s.shop.shelf
      && if ok && req.items != [] then About(o.value, w, req, System.Shelving(s.shop.shelf, req.items))
         else w < |o.value.st.workers| && o.value.st.workers[w] == Done(req)
  {
    System.Routes(s, System.StGo(w, ok));
    hide System.Next;
  }

  lemma Finishes(s: System.State, w: nat, req: RestockRequest, snapshot: Shelf)
    requires About(s, w, req, System.Shelving(snapshot, []))
    ensures var o := System.Next(s, System.StGo(w, true));
      && o.Some? && o.value.shop.shelf == s.shop.shelf
      && w < |o.value.st.workers| && o.value.st.workers[w] == Done(req)
  {
    System.Routes(s, System.StGo(w, true));
    hide System.Next;
  }

  /** The steps of a stocker that works alone on a list, with these calls failing. */
  function WholeWork(w: nat, items: seq<Item>, getFault: bool, faults: seq<bool>): seq<System.Action> {
    if items == [] || getFault then [System.StGo(w, !getFault)]
    else [System.StGo(w, true)] + (Turns(w, faults) + [System.StGo(w, true)])
  }

  /** The whole work: a stocker that moves alone ends its request with what the sequential code leaves of every item. */
  lemma WorkAgrees(s: System.State, w: nat, req: RestockRequest, getFault: bool, faults: seq<bool>,
                   view: StockView, i: Item)
    requires About(s, w, req, System.StStart) && |faults| == |req.items|
    requires NameOf(i) in view && Qty(s.shop.shelf, i) == view[NameOf(i)].quantity
    ensures var acts := WholeWork(w, req.items, getFault, faults);
      && System.CanRun(s, acts)
      && var s' := System.After(s, acts);
         && w < |s'.st.workers| && s'.st.workers[w] == Done(req)
         && NameOf(i) in Pass(view, view, Names(req.items), faults)
         && Qty(s'.shop.shelf, i) ==
              if getFault then Qty(s.shop.shelf, i)
              else Pass(view, view, Names(req.items), faults)[NameOf(i)].quantity
  {
    PassKeys(view, view, Names(req.items), faults);
    Begins(s, w, req, !getFault);
    hide NameOf;
    hide System.Next;
    if req.items == [] || getFault {
      assert [System.StGo(w, !getFault)][1..] == [];
      assert req.items == [] ==> Names(req.items) == [] && faults == [];
    } else {
      var s1 := System.Next(s, System.StGo(w, true)).value;
      AloneAgrees(s1, w, req, req.items, faults, view, i);
      hide Pass;
      hide Names;
      var s2 := System.After(s1, Turns(w, faults));
      Finishes(s2, w, req, s.shop.shelf);
      assert [System.StGo(w, true)][1..] == [];
      System.RunAppend(s1, Turns(w, faults), [System.StGo(w, true)]);
      assert WholeWork(w, req.items, getFault, faults)[1..] == Turns(w, faults) + [System.StGo(w, true)];
    }
  }
}
