/** The subscriber sets and the notification service as objects: registration and non-blocking publication. */
module Notification {
  import opened Collections

  class Set<T(==)> {
    var items: set<T>

    constructor ()
      ensures items == {}
    {
      items := {};
    }

    method Add(item: T)
      modifies this
      ensures items == old(items) + {item}
    {
      items := items + {item};
    }

    method Remove(item: T)
      modifies this
      ensures items == old(items) - {item}
    {
      items := items - {item};
    }

    /** Every member once, in some order. */
    method Values() returns (values: seq<T>)
      ensures Distinct(values)
      ensures forall x :: x in values <==> x in items
      ensures |values| == |items|
    {
      values := [];
      var todo := items;
      while todo != {}
        invariant todo <= items
        invariant Distinct(values)
        invariant forall x :: x in values <==> x in items && x !in todo
        invariant |values| + |todo| == |items|
      {
        var x :| x in todo;
        values := values + [x];
        todo := todo - {x};
      }
    }
  }

  /** A channel that holds at most one event. */
  class Channel {
    var buffer: Option<int>

    constructor ()
      ensures buffer == None
    {
      buffer := None;
    }

    /** A full buffer keeps its event, and the new one is lost. */
    method TrySend(time: int) returns (sent: bool)
      modifies this
      ensures sent == old(buffer).None?
      ensures buffer == if old(buffer).Some? then old(buffer) else Some(time)
    {
      if buffer.None? {
        buffer := Some(time);
        return true;
      }
      return false;
    }
  }

  datatype EventType = HourChange | DayChange

  class Service {
    const hour: Set<Channel>
    const day: Set<Channel>

    ghost predicate Valid()
    {
      hour != day
    }

    constructor ()
      ensures Valid() && fresh(hour) && fresh(day)
      ensures hour.items == {} && day.items == {}
    {
      hour := new Set<Channel>();
      day := new Set<Channel>();
    }

    /** Registering touches one registry only; a missing channel is ignored. */
    method Register(kind: EventType, ch: Channel?)
      requires Valid()
      modifies hour, day
      ensures hour.items == old(hour.items) + if kind.HourChange? && ch != null then {ch} else {}
      ensures day.items == old(day.items) + if kind.DayChange? && ch != null then {ch} else {}
    {
      if ch == null {
        return;
      }
      match kind {
        case HourChange => hour.Add(ch);
        case DayChange => day.Add(ch);
      }
    }

    method Unregister(kind: EventType, ch: Channel?)
      requires Valid()
      modifies hour, day
      ensures hour.items == old(hour.items) - if kind.HourChange? && ch != null then {ch} else {}
      ensures day.items == old(day.items) - if kind.DayChange? && ch != null then {ch} else {}
    {
      if ch == null {
        return;
      }
      match kind {
        case HourChange => hour.Remove(ch);
        case DayChange => day.Remove(ch);
      }
    }

    /** Each channel of the snapshot is offered the event once, without waiting. */
    method Notify(time: int, channels: seq<Channel>)
      modifies channels
      ensures forall c :: c in channels ==> c.buffer == if old(c.buffer).Some? then old(c.buffer) else Some(time)
    {
      for k := 0 to |channels|
        invariant forall c :: c in channels[..k] ==>
          c.buffer == if old(c.buffer).Some? then old(c.buffer) else Some(time)
        invariant forall c :: c in channels && c !in channels[..k] ==> c.buffer == old(c.buffer)
      {
        var _ := channels[k].TrySend(time);
        assert channels[..k + 1] == channels[..k] + [channels[k]];
      }
    }

    /** An hour event reaches the channels of the hour registry, and no other channel. */
    method NotifyHourChange(time: int)
      requires Valid()
      modifies hour.items
      ensures hour.items == old(hour.items) && day.items == old(day.items)
      ensures forall c :: c in hour.items ==> c.buffer == if old(c.buffer).Some? then old(c.buffer) else Some(time)
    {
      var channels := hour.Values();
      Notify(time, channels);
    }

    method NotifyDayChange(time: int)
      requires Valid()
      modifies day.items
      ensures hour.items == old(hour.items) && day.items == old(day.items)
      ensures forall c :: c in day.items ==> c.buffer == if old(c.buffer).Some? then old(c.buffer) else Some(time)
    {
      var channels := day.Values();
      Notify(time, channels);
    }
  }
}
