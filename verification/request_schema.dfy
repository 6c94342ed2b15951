/** The request record: its two enumerations, its fields and defaults, and the
    validation the schema applies when a request is saved or updated. */
module RequestSchema {
  import opened Common

  /** The three kinds of request a client can file. */
  datatype RequestType = Activate | Deactivate | ChangePlan

  /** The three stages of a request. */
  datatype RequestStatus = Pending | InProgress | Completed

  const AllTypes: seq<RequestType> := [Activate, Deactivate, ChangePlan]
  const AllStatuses: seq<RequestStatus> := [Pending, InProgress, Completed]

  /** Recognises the wire name of a request type. */
  function ParseType(s: string): (r: Option<RequestType>)
    ensures r.Some? <==> s == "activate" || s == "deactivate" || s == "change_plan"
  {
    if s == "activate" then Some(Activate)
    else if s == "deactivate" then Some(Deactivate)
    else if s == "change_plan" then Some(ChangePlan)
    else None
  }

  /** The wire name of a request type; it is the one string that parses back to it. */
  function TypeName(t: RequestType): (s: string)
    ensures ParseType(s) == Some(t)
    ensures forall s' :: ParseType(s') == Some(t) ==> s' == s
  {
    match t
    case Activate => "activate"
    case Deactivate => "deactivate"
    case ChangePlan => "change_plan"
  }

  /** Recognises the wire name of a request status. */
  function ParseStatus(s: string): (r: Option<RequestStatus>)
    ensures r.Some? <==> s == "pending" || s == "in_progress" || s == "completed"
  {
    if s == "pending" then Some(Pending)
    else if s == "in_progress" then Some(InProgress)
    else if s == "completed" then Some(Completed)
    else None
  }

  /** The wire name of a request status; it is the one string that parses back to it. */
  function StatusName(st: RequestStatus): (s: string)
    ensures ParseStatus(s) == Some(st)
    ensures forall s' :: ParseStatus(s') == Some(st) ==> s' == s
  {
    match st
    case Pending => "pending"
    case InProgress => "in_progress"
    case Completed => "completed"
  }

  /** A stored request. `kind` is the source's `type` field. References are ids
      (population of referenced documents is not modelled); `createdAt` and
      `updatedAt` come from the schema's `timestamps` option. */
  datatype Request = Request(
    id: Id,
    kind: RequestType,
    status: RequestStatus,
    client: Id,
    antenna: Option<Id>,
    plan: Option<Id>,
    newPlan: Option<Id>,
    processedBy: Option<Id>,
    startedAt: Option<Time>,
    completedAt: Option<Time>,
    comments: Option<string>,
    createdAt: Time,
    updatedAt: Time)

  /** The fields handed to `Request.create`. `kind` and `status` are the raw
      strings of the request body; absent fields are `None`. */
  datatype RequestData = RequestData(
    kind: Option<string>,
    client: Option<Id>,
    antenna: Option<Id>,
    plan: Option<Id>,
    status: Option<string>,
    comments: Option<string>)

  /** The fields of an update document (`findByIdAndUpdate`); absent fields are
      left as they are. `completedBy` is not a schema path. */
  datatype RequestUpdate = RequestUpdate(
    kind: Option<string>,
    status: Option<string>,
    client: Option<Id>,
    antenna: Option<Id>,
    plan: Option<Id>,
    newPlan: Option<Id>,
    processedBy: Option<Id>,
    startedAt: Option<Time>,
    completedAt: Option<Time>,
    comments: Option<string>,
    completedBy: Option<Id>)

  /** An update document that sets nothing. */
  const EmptyUpdate: RequestUpdate :=
    RequestUpdate(None, None, None, None, None, None, None, None, None, None, None)

  /** The message of a schema rejection. */
  const ValidationFailed: string := "Request validation failed"

  /** `new RequestModel(data).save()`: the schema requires `type` (one of the
      three types) and `client`, restricts a given `status` to the three
      statuses and defaults it to pending; every other reference and both
      processing timestamps default to null. */
  function NewRequest(data: RequestData, id: Id, now: Time): (r: Result<Request>)
    ensures r.Success? <==>
      && data.kind.Some? && ParseType(data.kind.value).Some?
      && data.client.Some?
      && (data.status.Some? ==> ParseStatus(data.status.value).Some?)
    ensures r.Success? ==>
      && r.value.id == id
      && TypeName(r.value.kind) == data.kind.value
      && r.value.client == data.client.value
      && (data.status.None? ==> r.value.status == Pending)
      && (data.status.Some? ==> StatusName(r.value.status) == data.status.value)
      && r.value.antenna == data.antenna
      && r.value.plan == data.plan
      && r.value.newPlan.None? && r.value.processedBy.None?
      && r.value.startedAt.None? && r.value.completedAt.None?
      && r.value.createdAt == now && r.value.updatedAt == now
      && r.value.comments == TrimOpt(data.comments)
  {
    if data.kind.None? || ParseType(data.kind.value).None? || data.client.None? then
      Failure(Invalid(ValidationFailed))
    else if data.status.Some? && ParseStatus(data.status.value).None? then
      Failure(Invalid(ValidationFailed))
    else
      var status := if data.status.Some? then ParseStatus(data.status.value).value else Pending;
      Success(Request(id, ParseType(data.kind.value).value, status, data.client.value,
                      data.antenna, data.plan, None, None, None, None,
                      TrimOpt(data.comments), now, now))
  }

  /** `comments` is stored trimmed. */
  function TrimOpt(o: Option<string>): (r: Option<string>)
    ensures r.Some? <==> o.Some?
    ensures r.Some? ==> r.value == Trim(o.value)
  {
    if o.Some? then Some(Trim(o.value)) else None
  }

  /** The update validators (`runValidators: true`): a given `type` or `status`
      must be one of the enumeration's values. */
  predicate UpdateIsValid(u: RequestUpdate) {
    && (u.kind.Some? ==> ParseType(u.kind.value).Some?)
    && (u.status.Some? ==> ParseStatus(u.status.value).Some?)
  }

  /** A field of an update document: the given value, or else the stored one. */
  function Override<T>(given: Option<T>, stored: Option<T>): Option<T> {
    if given.Some? then given else stored
  }

  /** Applies a valid update document to a stored record: every given schema
      path is overwritten, every other field is kept, `completedBy` is dropped
      (strict schema) and `updatedAt` is stamped. */
  function ApplyUpdate(r: Request, u: RequestUpdate, now: Time): (r': Request)
    requires UpdateIsValid(u)
    ensures r'.id == r.id && r'.createdAt == r.createdAt && r'.updatedAt == now
    ensures u.kind.Some? ==> TypeName(r'.kind) == u.kind.value
    ensures u.kind.None? ==> r'.kind == r.kind
    ensures u.status.Some? ==> StatusName(r'.status) == u.status.value
    ensures u.status.None? ==> r'.status == r.status
    ensures r'.client == (if u.client.Some? then u.client.value else r.client)
    ensures r'.antenna == (if u.antenna.Some? then u.antenna else r.antenna)
    ensures r'.plan == (if u.plan.Some? then u.plan else r.plan)
    ensures r'.newPlan == (if u.newPlan.Some? then u.newPlan else r.newPlan)
    ensures r'.processedBy == (if u.processedBy.Some? then u.processedBy else r.processedBy)
    ensures r'.startedAt == (if u.startedAt.Some? then u.startedAt else r.startedAt)
    ensures r'.completedAt == (if u.completedAt.Some? then u.completedAt else r.completedAt)
    ensures r'.comments == (if u.comments.Some? then TrimOpt(u.comments) else r.comments)
  {
    var kind := if u.kind.Some? then ParseType(u.kind.value).value else r.kind;
    var status := if u.status.Some? then ParseStatus(u.status.value).value else r.status;
    var client := if u.client.Some? then u.client.value else r.client;
    Request(r.id, kind, status, client,
            Override(u.antenna, r.antenna), Override(u.plan, r.plan),
            Override(u.newPlan, r.newPlan), Override(u.processedBy, r.processedBy),
            Override(u.startedAt, r.startedAt), Override(u.completedAt, r.completedAt),
            if u.comments.Some? then TrimOpt(u.comments) else r.comments,
            r.createdAt, now)
  }
}
