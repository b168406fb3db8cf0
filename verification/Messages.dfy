/** Domain events, what each of them puts on the wire, and messages. */
module Messages {
  import opened Base

  datatype DomainEvent =
    | ShiftStarted(at: Time, associate: string, certs: set<string>)
    | ShiftEnded(at: Time, associate: string)
    | BreakStarted(at: Time, associate: string)
    | BreakEnded(at: Time, associate: string)
    | Certified(at: Time, associate: string, cert: string)
    | LaborAssigned(at: Time, associate: string, path: string)
    | LaborReassigned(at: Time, associate: string, fromPath: string, toPath: string)
    | PathUnderstaffed(at: Time, path: string, planned: int, active: int)
    | ShiftPlanProposed(at: Time, building: string, path: string, heads: int, rate: real)
    | ShiftPlanCommitted(at: Time, building: string, shift: string)

  datatype Topic = Integration | Analytics

  datatype PathPlan = PathPlan(path: string, heads: int, rate: real, hours: real)

  /** The data object of an analytics message: for every event exactly the fields that are written for it.  The
      certifications a shift starts with are not among them. */
  datatype Data =
    | StartedData(associate: string)
    | EndedData(associate: string)
    | BreakStartedData(associate: string)
    | BreakEndedData(associate: string)
    | CertifiedData(associate: string, cert: string)
    | AssignedData(associate: string, path: string)
    | ReassignedData(associate: string, fromPath: string, toPath: string)
    | UnderstaffedData(path: string, planned: int, active: int)
    | ProposedData(building: string, path: string, heads: int, rate: real)
    | CommittedData(building: string, shift: string)

  function Marshal(e: DomainEvent): Data {
    match e
    case ShiftStarted(_, a, _) => StartedData(a)
    case ShiftEnded(_, a) => EndedData(a)
    case BreakStarted(_, a) => BreakStartedData(a)
    case BreakEnded(_, a) => BreakEndedData(a)
    case Certified(_, a, cert) => CertifiedData(a, cert)
    case LaborAssigned(_, a, path) => AssignedData(a, path)
    case LaborReassigned(_, a, fromPath, toPath) => ReassignedData(a, fromPath, toPath)
    case PathUnderstaffed(_, path, planned, active) => UnderstaffedData(path, planned, active)
    case ShiftPlanProposed(_, building, path, heads, rate) => ProposedData(building, path, heads, rate)
    case ShiftPlanCommitted(_, building, shift) => CommittedData(building, shift)
  }

  /** What a message carries: an event's time and data, a plan line, or something no consumer can decode. */
  datatype Body =
    | Fact(at: Time, data: Data)
    | PlanLine(at: Time, building: string, shift: string, line: PathPlan)
    | Malformed

  function FactOf(e: DomainEvent): Body { Fact(e.at, Marshal(e)) }

  datatype Message = Message(topic: Topic, key: string, id: string, body: Body)

  predicate IsBreakMessage(m: Message) {
    m.topic == Analytics && m.body.Fact? && (m.body.data.BreakStartedData? || m.body.data.BreakEndedData?)
  }
}
