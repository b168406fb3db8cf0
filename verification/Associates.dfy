/** The associate's shift: certifications, break flag, hours logged and whether it has ended. */
module Associates {
  import opened Base
  import opened Messages

  datatype ShiftError = AlreadyOnBreak | NotOnBreak | OnBreak | MaxHoursExceeded | ShiftOver

  /** `hours` is the time logged since the shift was started, in nanoseconds. */
  datatype Shift = Shift(certs: set<string>, onBreak: bool, hours: Time, ended: bool) {

    function Certify(cert: string): Result<Shift, ShiftError> {
      if ended then Err(ShiftOver) else Ok(this.(certs := certs + {cert}))
    }

    function StartBreak(): Result<Shift, ShiftError> {
      if ended then Err(ShiftOver) else if onBreak then Err(AlreadyOnBreak) else Ok(this.(onBreak := true))
    }

    function EndBreak(): Result<Shift, ShiftError> {
      if ended then Err(ShiftOver) else if !onBreak then Err(NotOnBreak) else Ok(this.(onBreak := false))
    }

    function CanBeAssigned(): Option<ShiftError> {
      if ended then Some(ShiftOver) else if onBreak then Some(OnBreak) else None
    }

    function LogHours(more: Time, max: Time): Result<Shift, ShiftError> {
      if ended then Err(ShiftOver)
      else if hours + more > max then Err(MaxHoursExceeded)
      else Ok(this.(hours := hours + more))
    }

    function EndShift(): Shift { this.(ended := true) }
  }

  function NewShift(certs: set<string>): Shift { Shift(certs, false, 0, false) }

  /** Hours are refused after the end, and when they would take the total past the maximum; otherwise they add up, and
      nothing else changes. */
  lemma LogHoursRule(s: Shift, more: Time, max: Time)
    ensures s.LogHours(more, max) ==
              if s.ended then Err(ShiftOver)
              else if max < s.hours + more then Err(MaxHoursExceeded)
              else Ok(Shift(s.certs, s.onBreak, s.hours + more, false))
  {
  }

  /** The aggregate as the use cases hold it: its value, the version it was loaded at, and its pending events. */
  class AssociateShift {
    const associate: string
    var certifications: set<string>
    var onBreak: bool
    var hoursLogged: Time
    var ended: bool
    var version: nat
    var events: seq<DomainEvent>

    function Value(): Shift
      reads this
    {
      Shift(certifications, onBreak, hoursLogged, ended)
    }

    constructor (associate: string, certs: set<string>, at: Time)
      ensures this.associate == associate && Value() == NewShift(certs) && version == 1
      ensures events == [ShiftStarted(at, associate, certs)]
    {
      this.associate, certifications, onBreak, hoursLogged, ended := associate, certs, false, 0, false;
      version, events := 1, [ShiftStarted(at, associate, certs)];
    }

    constructor Rehydrate(associate: string, value: Shift, version: nat)
      ensures this.associate == associate && Value() == value && this.version == version && events == []
    {
      this.associate, certifications, onBreak := associate, value.certs, value.onBreak;
      hoursLogged, ended, this.version, events := value.hours, value.ended, version, [];
    }

    /** How an operation that may be refused moves the aggregate: `r` is applied and `e` recorded, or nothing
        happens. */
    twostate predicate Outcome(r: Result<Shift, ShiftError>, e: DomainEvent, new err: Option<ShiftError>)
      reads this
    {
      match r
      case Ok(s) => err == None && Value() == s && events == old(events) + [e]
      case Err(x) => err == Some(x) && Value() == old(Value()) && events == old(events)
    }

    method Certify(cert: string, at: Time) returns (err: Option<ShiftError>)
      modifies `certifications, `events
      ensures Outcome(old(Value()).Certify(cert), Certified(at, associate, cert), err)
    {
      if ended { return Some(ShiftOver); }
      certifications := certifications + {cert};
      events := events + [Certified(at, associate, cert)];
      return None;
    }

    method StartBreak(at: Time) returns (err: Option<ShiftError>)
      modifies `onBreak, `events
      ensures Outcome(old(Value()).StartBreak(), BreakStarted(at, associate), err)
    {
      if ended { return Some(ShiftOver); }
      if onBreak { return Some(AlreadyOnBreak); }
      onBreak := true;
      events := events + [BreakStarted(at, associate)];
      return None;
    }

    method EndBreak(at: Time) returns (err: Option<ShiftError>)
      modifies `onBreak, `events
      ensures Outcome(old(Value()).EndBreak(), BreakEnded(at, associate), err)
    {
      if ended { return Some(ShiftOver); }
      if !onBreak { return Some(NotOnBreak); }
      onBreak := false;
      events := events + [BreakEnded(at, associate)];
      return None;
    }

    method LogHours(hours: Time, max: Time) returns (err: Option<ShiftError>)
      modifies `hoursLogged
      ensures match old(Value()).LogHours(hours, max)
              case Ok(s) => err == None && Value() == s
              case Err(x) => err == Some(x) && Value() == old(Value())
    {
      if ended { return Some(ShiftOver); }
      if hoursLogged + hours > max { return Some(MaxHoursExceeded); }
      hoursLogged := hoursLogged + hours;
      return None;
    }

    /** Ending twice records one event. */
    method EndShift(at: Time)
      modifies `ended, `events
      ensures Value() == old(Value()).EndShift()
      ensures events == old(events) + if old(ended) then [] else [ShiftEnded(at, associate)]
    {
      if !ended {
        ended := true;
        events := events + [ShiftEnded(at, associate)];
      }
    }

    method PullEvents() returns (es: seq<DomainEvent>)
      modifies `events
      ensures es == old(events) && events == []
    {
      es, events := events, [];
    }
  }
}
