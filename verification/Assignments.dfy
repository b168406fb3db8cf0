/** The labor assignment: one active interval at most, and the closed ones in order. */
module Assignments {
  import opened Base
  import opened Messages

  datatype Interval = Interval(path: string, start: Time, end: Option<Time>)

  datatype Assignment = Assignment(active: Option<Interval>, history: seq<Interval>)

  const Unassigned := Assignment(None, [])

  /** The length of an interval, counting an open one up to `at`. */
  function Hours(i: Interval, at: Time): Time { (if i.end.Some? then i.end.value else at) - i.start }

  function Total(h: seq<Interval>): Time {
    if h == [] then 0
    else
      var last := h[|h| - 1];
      Total(h[..|h| - 1]) + if last.end.Some? then last.end.value - last.start else 0
  }

  function Closed(la: Assignment, at: Time): Assignment {
    if la.active == None then la else Assignment(None, la.history + [la.active.value.(end := Some(at))])
  }

  function Open(la: Assignment, path: string, at: Time): Assignment { la.(active := Some(Interval(path, at, None))) }

  /** The assignment after a successful `Assign`: whatever was active is closed first. */
  function Moved(la: Assignment, path: string, at: Time): Assignment { Open(Closed(la, at), path, at) }

  function MoveEvent(la: Assignment, associate: string, path: string, at: Time): DomainEvent {
    if la.active == None then LaborAssigned(at, associate, path)
    else LaborReassigned(at, associate, la.active.value.path, path)
  }

  class LaborAssignment {
    const associate: string
    var active: Option<Interval>
    var history: seq<Interval>
    var version: nat
    var events: seq<DomainEvent>

    function Value(): Assignment
      reads this
    {
      Assignment(active, history)
    }

    constructor (associate: string)
      ensures this.associate == associate && Value() == Unassigned && version == 1 && events == []
    {
      this.associate, active, history, version, events := associate, None, [], 1, [];
    }

    constructor Rehydrate(associate: string, active: Option<Interval>, history: seq<Interval>, version: nat)
      ensures this.associate == associate && Value() == Assignment(active, history)
      ensures this.version == version && events == []
    {
      this.associate, this.active, this.history, this.version, events := associate, active, history, version, [];
    }

    method CloseActive(at: Time)
      modifies `active, `history
      ensures Value() == Closed(old(Value()), at)
    {
      if active.Some? {
        history := history + [active.value.(end := Some(at))];
        active := None;
      }
    }

    /** Refused without the certification; otherwise closes the active interval, if any, and opens the new one. */
    method Assign(path: string, hasCertification: bool, at: Time) returns (ok: bool)
      modifies `active, `history, `events
      ensures ok == hasCertification
      ensures ok ==> Value() == Moved(old(Value()), path, at)
      ensures ok ==> events == old(events) + [MoveEvent(old(Value()), associate, path, at)]
      ensures !ok ==> Value() == old(Value()) && events == old(events)
    {
      if !hasCertification { return false; }
      if active.Some? {
        var fromPath := active.value.path;
        CloseActive(at);
        active := Some(Interval(path, at, None));
        events := events + [LaborReassigned(at, associate, fromPath, path)];
        return true;
      }
      active := Some(Interval(path, at, None));
      events := events + [LaborAssigned(at, associate, path)];
      return true;
    }

    /** Closes the active interval and returns it as it was, open. */
    method EndActive(at: Time) returns (closed: Option<Interval>)
      modifies `active, `history
      ensures closed == old(active) && Value() == Closed(old(Value()), at)
    {
      closed := active;
      if closed.Some? { CloseActive(at); }
    }

    method PullEvents() returns (es: seq<DomainEvent>)
      modifies `events
      ensures es == old(events) && events == []
    {
      es, events := events, [];
    }
  }
}
