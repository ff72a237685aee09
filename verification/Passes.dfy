/** What becomes of a restock request in any run: its snapshot, and one visit for each listed item, in order. */
module Passes {
  import opened Collections
  import opened Stock
  import opened Domain
  import opened Employees
  import opened System

  predicate Moves(a: Action, w: nat) {
    a.StGo? && a.w == w
  }

  /** A visit: the item, whether the database answered, and by how much the quantity changed. */
  datatype Visit = Visit(item: Item, ok: bool, change: int)

  /** The visit that a step makes for stocker `w`, if it makes one. */
  function VisitOf(s: State, a: Action, w: nat): seq<Visit>
    requires Next(s, a).Some?
  {
    if Moves(a, w) && w < |s.st.workers| && s.st.workers[w].Busy?
       && s.st.workers[w].at.Shelving? && s.st.workers[w].at.rest != []
    then
      var i := s.st.workers[w].at.rest[0];
      [Visit(i, a.ok, Qty(Next(s, a).value.shop.shelf, i) - Qty(s.shop.shelf, i))]
    else []
  }

  /** The visits of stocker `w` in a run, in order. */
  function Visits(s: State, acts: seq<Action>, w: nat): seq<Visit>
    requires CanRun(s, acts)
    decreases |acts|
  {
    if acts == [] then []
    else
      RunLast(s, acts);
      var n := |acts| - 1;
      Visits(s, acts[..n], w) + VisitOf(After(s, acts[..n]), acts[n], w)
  }

  /** Does this step take stocker `w` from the start of its work into the visits? */
  predicate Snaps(s: State, a: Action, w: nat)
    requires Next(s, a).Some?
  {
    && Moves(a, w) && w < |s.st.workers| && s.st.workers[w].Busy? && s.st.workers[w].at.StStart?
    && w < |Next(s, a).value.st.workers| && Next(s, a).value.st.workers[w].Busy?
  }

  /** The shelf as it was when stocker `w` took its snapshot in the run. */
  function Snapshot(s: State, acts: seq<Action>, w: nat): Option<Shelf>
    requires CanRun(s, acts)
    decreases |acts|
  {
    if acts == [] then None
    else
      RunLast(s, acts);
      var n := |acts| - 1;
      var s1 := After(s, acts[..n]);
      if Snaps(s1, acts[n], w) then Some(s1.shop.shelf) else Snapshot(s, acts[..n], w)
  }

  predicate Engaged(s: State, w: nat) {
    w < |s.st.workers| && (s.st.workers[w].Got? || s.st.workers[w].Busy?)
  }

  /** Does stocker `w` have a request in its hands before and after each step of the run? */
  predicate InHand(s: State, acts: seq<Action>, w: nat)
    requires CanRun(s, acts)
    decreases |acts|
  {
    && Engaged(After(s, acts), w)
    && (acts != [] ==> (RunLast(s, acts); InHand(s, acts[..|acts| - 1], w)))
  }

  function ItemsOf(visits: seq<Visit>): seq<Item> {
    seq(|visits|, k requires 0 <= k < |visits| => visits[k].item)
  }

  /** Each visit restocks by 50 exactly if the snapshot shows less than 10 and the database answers. */
  predicate Due(visits: seq<Visit>, shelf: Shelf) {
    forall k :: 0 <= k < |visits| ==>
      visits[k].change == if Qty(shelf, visits[k].item) < 10 && visits[k].ok then 50 else 0
  }

  /** Where a stocker is with its request, given its snapshot and its visits so far. */
  predicate SoFar(x: Worker<RestockRequest, StAt>, req: RestockRequest, shelf: Option<Shelf>, visits: seq<Visit>) {
    match x
    case Got(r) => r == req && shelf.None? && visits == []
    case Busy(r, StStart) => r == req && shelf.None? && visits == []
    case Busy(r, Shelving(seen, rest)) =>
      r == req && shelf == Some(seen) && ItemsOf(visits) + rest == req.items && Due(visits, seen)
    case _ => false
  }

  /** What a stocker's own step is, seen from outside. */
  lemma OwnStep(s: State, w: nat, ok: bool)
    requires Engaged(s, w) && Next(s, StGo(w, ok)).Some?
    ensures var x, s' := s.st.workers[w], Next(s, StGo(w, ok)).value;
      && w < |s'.st.workers|
      && match x
         case Got(r) => s'.st.workers[w] == Busy(r, StStart) && s'.shop == s.shop
         case Busy(r, at) =>
           var out := StDecide(s.shop.shelf, r.items, at, ok);
           && s'.st.workers[w] == (if out.at.Some? then Busy(r, out.at.value) else Done(r))
           && s'.shop.shelf == Moved(s.shop.shelf, out.move)
         case _ => true
  {
    Routes(s, StGo(w, ok));
    hide Next;
    hide StDecide;
    hide Moved;
  }

  lemma OtherStep(s: State, a: Action, w: nat)
    requires Engaged(s, w) && !Moves(a, w) && Next(s, a).Some?
    ensures w < |Next(s, a).value.st.workers| && Next(s, a).value.st.workers[w] == s.st.workers[w]
  {
    Routes(s, a);
    hide Next;
    hide HkNext;
    hide LaNext;
    hide StDecide;
    hide NtStep;
    hide Accept;
    hide Selectable;
    if a.HkGo? {
      HkKeepsSt(s, a.w, a.ok);
    } else if a.LaGo? {
      LaKeepsSt(s, a.w, a.ok, a.now);
    }
  }

  lemma HkKeepsSt(s: State, w: nat, ok: bool)
    requires HkNext(s, w, ok).Some?
    ensures HkNext(s, w, ok).value.st == s.st
  {
    hide HkDecide;
    hide HkEffect;
  }

  lemma LaKeepsSt(s: State, w: nat, ok: bool, now: int)
    requires LaNext(s, w, ok, now).Some?
    ensures LaNext(s, w, ok, now).value.st == s.st
  {
    hide LaDecide;
    hide LaEffect;
    hide CycleStep;
  }

  /** A visit, as a step of the work: on to the rest of the list, with one more visit on record. */
  lemma VisitNext(s: State, w: nat, ok: bool, req: RestockRequest, visits: seq<Visit>)
    requires Engaged(s, w) && Next(s, StGo(w, ok)).Some?
    requires s.st.workers[w].Busy? && s.st.workers[w].at.Shelving? && s.st.workers[w].at.rest != []
    requires SoFar(s.st.workers[w], req, Some(s.st.workers[w].at.snapshot), visits)
    ensures var s' := Next(s, StGo(w, ok)).value;
      && Engaged(s', w)
      && SoFar(s'.st.workers[w], req, Some(s.st.workers[w].at.snapshot), visits + VisitOf(s, StGo(w, ok), w))
  {
    OwnStep(s, w, ok);
    hide Next;
    var rest := s.st.workers[w].at.rest;
    var more := visits + VisitOf(s, StGo(w, ok), w);
    assert ItemsOf(more) == ItemsOf(visits) + [rest[0]];
    assert rest == [rest[0]] + rest[1..];
  }

  /** From the receipt of the request on: the snapshot is taken first, and the list is visited in order. */
  lemma {:induction false} PassSoFar(s: State, acts: seq<Action>, w: nat, req: RestockRequest)
    requires w < |s.st.workers| && s.st.workers[w] == Got(req) && CanRun(s, acts) && InHand(s, acts, w)
    ensures SoFar(After(s, acts).st.workers[w], req, Snapshot(s, acts, w), Visits(s, acts, w))
    decreases |acts|
  {
    hide Next;
    if acts != [] {
      RunLast(s, acts);
      var n := |acts| - 1;
      var s1 := After(s, acts[..n]);
      PassSoFar(s, acts[..n], w, req);
      assert Engaged(s1, w);
      var shelf, visits := Snapshot(s, acts[..n], w), Visits(s, acts[..n], w);
      hide CanRun;
      hide After;
      if !Moves(acts[n], w) {
        OtherStep(s1, acts[n], w);
        assert visits + [] == visits;
      } else if s1.st.workers[w].Busy? && s1.st.workers[w].at.Shelving? && s1.st.workers[w].at.rest != [] {
        VisitNext(s1, w, acts[n].ok, req, visits);
        hide SoFar;
      } else {
        OwnStep(s1, w, acts[n].ok);
        assert visits + [] == visits;
      }
    }
  }

  /**
   Every restock request that a stocker finishes: if its snapshot was taken, each listed item was visited,
   in order, and by 50 restocked exactly if the snapshot showed less than 10 of it, unless that call
   failed; without a snapshot there was no visit, and the list was empty or the snapshot call failed.
   */
  lemma FinishedPass(s: State, acts: seq<Action>, w: nat, req: RestockRequest)
    requires w < |s.st.workers| && s.st.workers[w] == Got(req) && acts != []
    requires CanRun(s, acts) && CanRun(s, acts[..|acts| - 1]) && InHand(s, acts[..|acts| - 1], w)
    requires w < |After(s, acts).st.workers| && After(s, acts).st.workers[w].Done?
    ensures After(s, acts).st.workers[w].req == req
    ensures match Snapshot(s, acts, w)
      case Some(shelf) => ItemsOf(Visits(s, acts, w)) == req.items && Due(Visits(s, acts, w), shelf)
      case None => Visits(s, acts, w) == [] && (req.items == [] || acts[|acts| - 1] == StGo(w, false))
  {
    hide Next;
    RunLast(s, acts);
    var n := |acts| - 1;
    var s1 := After(s, acts[..n]);
    PassSoFar(s, acts[..n], w, req);
    assert Engaged(s1, w);
    var visits := Visits(s, acts[..n], w);
    hide CanRun;
    hide After;
    if !Moves(acts[n], w) {
      OtherStep(s1, acts[n], w);
    } else {
      OwnStep(s1, w, acts[n].ok);
      assert visits + [] == visits;
      assert ItemsOf(visits) + [] == ItemsOf(visits);
    }
  }
}
