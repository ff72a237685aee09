/** When sends block, when messages are taken, how work begins, and who may leave after cancellation. */
module Gates {
  import opened Collections
  import opened Stock
  import opened Domain
  import opened Employees
  import opened System
  import opened Progress
  import opened Runs

  lemma ReachedStaff(c: Setting, acts: seq<Action>, s: State)
    requires Reached(c, acts, s)
    ensures Fits(c, s) && Present(s) && Alike(s.hk) && Alike(s.la) && Alike(s.st)
  {
    ReachedInv(c, acts, s);
    hide Reached;
    InvStaff(c, s);
    InvPools(c, s);
    hide Inv;
  }

  /** A cleaning or restock request, or laundry, waits to be sent exactly while its queue holds 32, 16 or 32. */
  lemma SendsBlockWhenFull(c: Setting, acts: seq<Action>, s: State)
    requires Reached(c, acts, s)
    ensures s.desk.mgr.Dispatching? ==> (Next(s, MgrGo([])).Some? <==> |s.hk.queue| < 32)
    ensures s.desk.mgr.Ordering? ==> (Next(s, MgrGo([])).Some? <==> |s.st.queue| < 16)
    ensures forall w: nat, ok :: w < |s.hk.workers| && Sends(s.hk.workers[w]) ==>
      (Next(s, HkGo(w, ok)).Some? <==> |s.la.queue| < 32)
  {
    ReachedStaff(c, acts, s);
    hide Reached;
    hide Present;
    Routes(s, MgrGo([]));
    forall w: nat, ok | w < |s.hk.workers| && Sends(s.hk.workers[w])
      ensures Next(s, HkGo(w, ok)).Some? <==> |s.la.queue| < 32
    {
      Routes(s, HkGo(w, ok));
    }
    hide Next;
  }

  predicate Sends(w: Worker<CleaningRequest, HkAt>) {
    w.Busy? && w.at.Todo? && w.at.tasks != [] && w.at.tasks[0].op.Launder?
  }

  /** A free manager takes the next delivery, and a free notifier the next hour or day message, valid or not. */
  lemma MessagesAreTaken(s: State)
    ensures s.desk.mgr.Ready? && s.desk.taken < |s.desk.inbox| ==>
      Next(s, MgrTake).Some? && Next(s, MgrTake).value.desk.taken == s.desk.taken + 1
    ensures s.bell.nt.Listening? && s.bell.hourTaken < |s.bell.hourIn| ==>
      Next(s, NtHour).Some? && Next(s, NtHour).value.bell.hourTaken == s.bell.hourTaken + 1
    ensures s.bell.nt.Listening? && s.bell.dayTaken < |s.bell.dayIn| ==>
      Next(s, NtDay).Some? && Next(s, NtDay).value.bell.dayTaken == s.bell.dayTaken + 1
  {
    hide Accept;
    Routes(s, MgrTake);
    Routes(s, NtHour);
    Routes(s, NtDay);
    hide Next;
  }

  /** A worker takes the oldest request, and then begins its work at the start. */
  lemma WorkBegins(s: State, w: nat, ok: bool, now: int)
    requires Alike(s.hk) && Alike(s.la) && Alike(s.st)
    ensures w < |s.hk.workers| && s.hk.workers[w].Idle? && s.hk.queue != [] ==>
      Next(s, HkGo(w, ok)).Some? && Next(s, HkGo(w, ok)).value.hk.workers == s.hk.workers[w := Got(s.hk.queue[0])]
    ensures w < |s.hk.workers| && s.hk.workers[w].Got? ==>
      && Next(s, HkGo(w, ok)).Some?
      && Next(s, HkGo(w, ok)).value.hk.workers == s.hk.workers[w := Busy(s.hk.workers[w].req, HkStart)]
    ensures w < |s.la.workers| && s.la.workers[w].Idle? && s.la.queue != [] ==>
      && Next(s, LaGo(w, ok, now)).Some?
      && Next(s, LaGo(w, ok, now)).value.la.workers == s.la.workers[w := Got(s.la.queue[0])]
    ensures w < |s.la.workers| && s.la.workers[w].Got? ==>
      && Next(s, LaGo(w, ok, now)).Some?
      && Next(s, LaGo(w, ok, now)).value.la.workers == s.la.workers[w := Busy(s.la.workers[w].req, LaStart)]
    ensures w < |s.st.workers| && s.st.workers[w].Idle? && s.st.queue != [] ==>
      Next(s, StGo(w, ok)).Some? && Next(s, StGo(w, ok)).value.st.workers == s.st.workers[w := Got(s.st.queue[0])]
    ensures w < |s.st.workers| && s.st.workers[w].Got? ==>
      && Next(s, StGo(w, ok)).Some?
      && Next(s, StGo(w, ok)).value.st.workers == s.st.workers[w := Busy(s.st.workers[w].req, StStart)]
  {
    Routes(s, HkGo(w, ok));
    Routes(s, LaGo(w, ok, now));
    Routes(s, StGo(w, ok));
    hide Next;
  }

  /**
   Cancellation can come at any time. Only after it do processes leave: an idle worker, a free notifier,
   a free manager, which unregisters from day events, and a waiting launderer, which ends without a finish time.
   */
  lemma LeavingNeedsCancel(s: State, w: nat)
    ensures !s.cancelled ==> Next(s, Cancel) == Some(s.(cancelled := true))
    ensures Next(s, HkQuit(w)).Some? <==> s.cancelled && w < |s.hk.workers| && s.hk.workers[w].Idle?
    ensures Next(s, StQuit(w)).Some? <==> s.cancelled && w < |s.st.workers| && s.st.workers[w].Idle?
    ensures Next(s, LaQuit(w)).Some? <==>
      && s.cancelled && w < |s.la.workers|
      && (s.la.workers[w].Idle? || (s.la.workers[w].Busy? && s.la.workers[w].at.Waiting?))
    ensures Next(s, LaQuit(w)).Some? && s.la.workers[w].Busy? ==>
      var x := Next(s, LaQuit(w)).value.la.workers[w];
      x == Busy(s.la.workers[w].req, Leaving(s.la.workers[w].at.start, s.la.workers[w].at.ch, None))
    ensures Next(s, MgrQuit).Some? <==> s.cancelled && s.desk.mgr.Ready?
    ensures Next(s, MgrQuit).Some? ==> !Next(s, MgrQuit).value.bell.dayOn && Next(s, MgrQuit).value.desk.mgr.Gone?
    ensures Next(s, NtQuit).Some? <==> s.cancelled && s.bell.nt.Listening?
  {
    Routes(s, Cancel);
    Routes(s, HkQuit(w));
    Routes(s, StQuit(w));
    Routes(s, LaQuit(w));
    Routes(s, MgrQuit);
    Routes(s, NtQuit);
    hide Next;
  }
}
