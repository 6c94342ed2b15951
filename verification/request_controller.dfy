/** The request handlers: `createRequest`, `updateRequest` and
    `updateRequestStatus`. Each runs an ordered chain of checks that answers
    early with its own status code, then writes the store, then notifies the
    hub; a notification that throws is caught and never changes the answer. */
module RequestController {
  import opened Common
  import opened RequestSchema
  import opened RequestDao
  import opened AntennaDao
  import opened SocketService

  const FieldsRequired: string := "Type y client son requeridos"
  const InvalidType: string :=
    "Tipo de solicitud inv\U{00E1}lido. Debe ser uno de: activate, deactivate, change_plan"
  const AntennaRequired: string := "Para solicitudes de antena se requiere especificar una antena"
  const AntennaUnknown: string := "La antena especificada no existe"
  const PlanUnknown: string := "El plan especificado no existe"
  const InternalError: string := "Error interno del servidor"
  const RequestNotFound: string := "Solicitud no encontrada"
  const StatusRequired: string := "El campo 'status' es requerido"
  const InvalidStatus: string :=
    "Estado inv\U{00E1}lido. Debe ser uno de: pending, in_progress, completed"

  // ---------------------------------------------------------------------------
  // createRequest

  /** The body of a create call; `kind` is the body's `type`. */
  datatype CreateBody = CreateBody(
    kind: Option<string>,
    client: Option<Id>,
    antenna: Option<Id>,
    plan: Option<Id>,
    status: Option<string>,
    comments: Option<string>)

  /** The checks of `createRequest`, in order: `type` and `client` present;
      `type` one of the three; an antenna given (every type needs one); the
      antenna exists; the plan, when given, exists. */
  function CreateCheck(body: CreateBody, antennas: set<Id>, plans: set<Id>): (r: Option<Rejection>)
    ensures r.None? <==>
      && Truthy(body.kind) && body.client.Some? && ParseType(body.kind.value).Some?
      && body.antenna.Some? && body.antenna.value in antennas
      && (body.plan.Some? ==> body.plan.value in plans)
    ensures !Truthy(body.kind) || body.client.None? ==> r == Some(Rejection(BAD_REQUEST, FieldsRequired))
    ensures r == Some(Rejection(NOT_FOUND, PlanUnknown)) ==>
      body.antenna.Some? && body.antenna.value in antennas
  {
    if !Truthy(body.kind) || body.client.None? then Some(Rejection(BAD_REQUEST, FieldsRequired))
    else if ParseType(body.kind.value).None? then Some(Rejection(BAD_REQUEST, InvalidType))
    else if body.antenna.None? then Some(Rejection(BAD_REQUEST, AntennaRequired))
    else if body.antenna.value !in antennas then Some(Rejection(NOT_FOUND, AntennaUnknown))
    else if body.plan.Some? && body.plan.value !in plans then Some(Rejection(NOT_FOUND, PlanUnknown))
    else None
  }

  /** Each failing check decides the answer whatever the later checks would say:
      missing fields, a bad type and a missing antenna are answered before any
      lookup, and an unknown antenna before the plan is looked up. */
  lemma CreateCheckOrder(body: CreateBody, antennas: set<Id>, plans: set<Id>, antennas': set<Id>, plans': set<Id>)
    ensures !Truthy(body.kind) || body.client.None? ||
            ParseType(body.kind.value).None? || body.antenna.None? ==>
      CreateCheck(body, antennas, plans) == CreateCheck(body, antennas', plans')
    ensures Truthy(body.kind) && body.client.Some? && ParseType(body.kind.value).None? ==>
      CreateCheck(body, antennas, plans) == Some(Rejection(BAD_REQUEST, InvalidType))
    ensures Truthy(body.kind) && body.client.Some? && ParseType(body.kind.value).Some? && body.antenna.None? ==>
      CreateCheck(body, antennas, plans) == Some(Rejection(BAD_REQUEST, AntennaRequired))
    ensures Truthy(body.kind) && body.client.Some? && ParseType(body.kind.value).Some? &&
            body.antenna.Some? && body.antenna.value !in antennas ==>
      CreateCheck(body, antennas, plans) == Some(Rejection(NOT_FOUND, AntennaUnknown))
  {
  }

  /** The record handed to the store: the body's fields, with `status` copied
      only when it is truthy. */
  function RequestDataOf(body: CreateBody): RequestData {
    RequestData(body.kind, body.client, body.antenna, body.plan,
                if Truthy(body.status) then body.status else None, body.comments)
  }

  /** The answer of `createRequest`: a rejection of the chain; otherwise 201
      with the stored request, or 500 when the schema refuses the record. */
  function CreateReply(antennas: set<Id>, plans: set<Id>, body: CreateBody, id: Id, now: Time): (r: Reply<Request>)
    ensures CreateCheck(body, antennas, plans).Some? ==>
      r == Fail(CreateCheck(body, antennas, plans).value.code, CreateCheck(body, antennas, plans).value.message)
    ensures CreateCheck(body, antennas, plans).None? ==>
      (r.Fail? <==> Truthy(body.status) && ParseStatus(body.status.value).None?)
    ensures r.Fail? && CreateCheck(body, antennas, plans).None? ==> r == Fail(SERVER_ERROR, InternalError)
    ensures r.Ok? ==>
      && r.code == CREATED && r.value.id == id
      && TypeName(r.value.kind) == body.kind.value && r.value.client == body.client.value
      && r.value.antenna == body.antenna && r.value.plan == body.plan
      && (!Truthy(body.status) ==> r.value.status == Pending)
      && (Truthy(body.status) ==> StatusName(r.value.status) == body.status.value)
      && r.value.comments == TrimOpt(body.comments)
      && r.value.newPlan.None? && r.value.processedBy.None?
      && r.value.startedAt.None? && r.value.completedAt.None?
      && r.value.createdAt == now && r.value.updatedAt == now
    ensures r.Ok? ==> NewRequest(RequestDataOf(body), id, now) == Success(r.value)
  {
    var check := CreateCheck(body, antennas, plans);
    if check.Some? then Fail(check.value.code, check.value.message)
    else
      var saved := NewRequest(RequestDataOf(body), id, now);
      if saved.Failure? then Fail(SERVER_ERROR, InternalError) else Ok(CREATED, saved.value)
  }

  /** A falsy `status` in the body never reaches the store, so the record gets
      the schema default; a truthy but unknown one makes the save fail with 500
      rather than 400. */
  lemma CreateStatusDefault(antennas: set<Id>, plans: set<Id>, body: CreateBody, id: Id, now: Time)
    requires CreateCheck(body, antennas, plans).None?
    ensures !Truthy(body.status) ==>
      CreateReply(antennas, plans, body, id, now).Ok?
      && CreateReply(antennas, plans, body, id, now).value.status == Pending
    ensures Truthy(body.status) && ParseStatus(body.status.value).None? ==>
      CreateReply(antennas, plans, body, id, now) == Fail(SERVER_ERROR, InternalError)
  {
  }

  /** The last read back of a record just appended is that record. */
  lemma FindAppended(rs: seq<Request>, r: Request)
    ensures FindById(rs + [r], r.id) == Some(r)
  {
    assert (rs + [r])[|rs + [r]| - 1] == r;
  }

  /** `createRequest`. The store issues a fresh id and its clock does not run
      backwards. `hubFault` says that the notification throws (before it
      emits anything); the answer does not depend on it. */
  method CreateRequest(store: RequestCollection, antennas: AntennaCollection, plans: set<Id>, hub: Hub,
                       body: CreateBody, id: Id, now: Time, hubFault: bool) returns (reply: Reply<Request>)
    requires store.Valid() && hub.Valid()
    requires FindById(store.records, id).None?
    requires forall k | 0 <= k < |store.records| :: store.records[k].createdAt <= now
    modifies store, hub
    ensures store.Valid() && hub.Valid()
    ensures reply == CreateReply(antennas.records.Keys, plans, body, id, now)
    ensures store.records == if reply.Ok? then old(store.records) + [reply.value] else old(store.records)
    ensures hub.io == old(hub.io) && hub.sockets == old(hub.sockets)
    ensures hub.outbox == old(hub.outbox) +
      if reply.Ok? && hub.io && !hubFault then AdminsNewRequest(hub.sockets, reply.value, now) else []
  {
    var check := CreateCheck(body, antennas.records.Keys, plans);
    if check.Some? {
      return Fail(check.value.code, check.value.message);
    }
    var requestData := RequestData(body.kind, body.client, body.antenna, body.plan, None, body.comments);
    if Truthy(body.status) {
      requestData := requestData.(status := body.status);
    }
    assert requestData == RequestDataOf(body);
    var created := store.Create(requestData, id, now);
    if created.Failure? {
      return Fail(SERVER_ERROR, InternalError);
    }
    FindAppended(old(store.records), created.value);
    var request := FindById(store.records, id).value;
    if !hubFault {
      hub.NotifyAdminsNewRequest(request, now);
    }
    return Ok(CREATED, request);
  }

  // ---------------------------------------------------------------------------
  // updateRequest

  /** The body of `updateRequest` with its two timestamp defaults: `startedAt`
      when a processor is assigned, `completedAt` when the status is
      "completed", each only when the caller did not send one. */
  function WithDefaultTimestamps(u: RequestUpdate, now: Time): (u': RequestUpdate)
    ensures u.startedAt.Some? ==> u'.startedAt == u.startedAt
    ensures u.completedAt.Some? ==> u'.completedAt == u.completedAt
    ensures u'.startedAt.Some? <==> u.startedAt.Some? || u.processedBy.Some?
    ensures u'.completedAt.Some? <==> u.completedAt.Some? || u.status == Some("completed")
    ensures u'.startedAt != u.startedAt ==> u'.startedAt == Some(now)
    ensures u'.completedAt != u.completedAt ==> u'.completedAt == Some(now)
    ensures u'.(startedAt := u.startedAt, completedAt := u.completedAt) == u
    ensures UpdateIsValid(u') == UpdateIsValid(u)
  {
    var withStart := if u.processedBy.Some? && u.startedAt.None? then u.(startedAt := Some(now)) else u;
    if u.status == Some("completed") && u.completedAt.None? then withStart.(completedAt := Some(now))
    else withStart
  }

  /** The answer of `updateRequest`: 500 when the validators refuse the
      document, 404 for an unknown id, otherwise 200 with the updated record.
      The record read back has its client populated; a client that is not a
      known user reads back as null, and taking its `_id` throws after the
      write, so the answer is 500 although the record was written. */
  function UpdateReply(records: seq<Request>, users: set<Id>, id: Id, body: RequestUpdate, now: Time)
    : (r: Reply<Request>)
    ensures !UpdateIsValid(body) ==> r == Fail(SERVER_ERROR, InternalError)
    ensures UpdateIsValid(body) && FindById(records, id).None? ==> r == Fail(NOT_FOUND, RequestNotFound)
    ensures UpdateIsValid(body) && FindById(records, id).Some? ==>
      var written := ApplyUpdate(FindById(records, id).value, WithDefaultTimestamps(body, now), now);
      && (written.client in users ==> r == Ok(OK, written))
      && (written.client !in users ==> r == Fail(SERVER_ERROR, InternalError))
    ensures r.Ok? ==> r.code == OK && r.value.id == id && r.value.client in users
  {
    var u := WithDefaultTimestamps(body, now);
    if !UpdateIsValid(u) then Fail(SERVER_ERROR, InternalError)
    else
      var i := IndexOf(records, id);
      if i.None? then Fail(NOT_FOUND, RequestNotFound)
      else
        var written := ApplyUpdate(records[i.value], u, now);
        if written.client !in users then Fail(SERVER_ERROR, InternalError) else Ok(OK, written)
  }

  /** `updateRequest`; `users` are the known users the read-back populates
      the client from, `hubFault` as for `CreateRequest`. */
  method UpdateRequest(store: RequestCollection, users: set<Id>, hub: Hub, id: Id, body: RequestUpdate, now: Time,
                       hubFault: bool)
    returns (reply: Reply<Request>)
    requires store.Valid() && hub.Valid()
    modifies store, hub
    ensures store.Valid() && hub.Valid()
    ensures reply == UpdateReply(old(store.records), users, id, body, now)
    ensures !UpdateIsValid(body) || IndexOf(old(store.records), id).None? ==> store.records == old(store.records)
    ensures UpdateIsValid(body) && IndexOf(old(store.records), id).Some? ==>
      var i := IndexOf(old(store.records), id).value;
      store.records == old(store.records)[i := ApplyUpdate(old(store.records)[i], WithDefaultTimestamps(body, now), now)]
    ensures reply.Ok? ==>
      && IndexOf(old(store.records), id).Some?
      && store.records == old(store.records)[IndexOf(old(store.records), id).value := reply.value]
    ensures hub.io == old(hub.io) && hub.sockets == old(hub.sockets)
    ensures reply.Ok? && hub.io && !hubFault ==>
      hub.outbox == old(hub.outbox) + ClientRequestUpdate(hub.sockets, reply.value.client, reply.value, now)
    ensures !(reply.Ok? && hub.io && !hubFault) ==> hub.outbox == old(hub.outbox)
  {
    var updateData := body;
    if updateData.processedBy.Some? && updateData.startedAt.None? {
      updateData := updateData.(startedAt := Some(now));
    }
    if updateData.status == Some("completed") && updateData.completedAt.None? {
      updateData := updateData.(completedAt := Some(now));
    }
    assert updateData == WithDefaultTimestamps(body, now);
    assert UpdateIsValid(updateData) == UpdateIsValid(body);
    ghost var answer := UpdateReply(store.records, users, id, body, now);
    var result := store.Update(id, updateData, now);
    if result.Failure? {
      assert answer == Fail(SERVER_ERROR, InternalError);
      return Fail(SERVER_ERROR, InternalError);
    }
    if result.value.None? {
      assert answer == Fail(NOT_FOUND, RequestNotFound);
      return Fail(NOT_FOUND, RequestNotFound);
    }
    var request := result.value.value;
    if request.client !in users {
      assert answer == Fail(SERVER_ERROR, InternalError);
      return Fail(SERVER_ERROR, InternalError);
    }
    assert answer == Ok(OK, request);
    if !hubFault {
      hub.NotifyClientRequestUpdate(request.client, request, now);
    }
    return Ok(OK, request);
  }

  // ---------------------------------------------------------------------------
  // updateRequestStatus

  /** The body of a status change. */
  datatype StatusBody = StatusBody(status: Option<string>, processedBy: Option<Id>)

  /** The checks of `updateRequestStatus`, in order: a status is given; it is
      one of the three; the request exists. The current status is not looked at. */
  function StatusCheck(records: seq<Request>, id: Id, body: StatusBody): (r: Option<Rejection>)
    ensures !Truthy(body.status) ==> r == Some(Rejection(BAD_REQUEST, StatusRequired))
    ensures Truthy(body.status) && ParseStatus(body.status.value).None? ==>
      r == Some(Rejection(BAD_REQUEST, InvalidStatus))
    ensures r.None? <==> Truthy(body.status) && ParseStatus(body.status.value).Some? && FindById(records, id).Some?
    ensures r.Some? && r.value.code == NOT_FOUND ==> r.value.message == RequestNotFound && FindById(records, id).None?
  {
    if !Truthy(body.status) then Some(Rejection(BAD_REQUEST, StatusRequired))
    else if ParseStatus(body.status.value).None? then Some(Rejection(BAD_REQUEST, InvalidStatus))
    else if FindById(records, id).None? then Some(Rejection(NOT_FOUND, RequestNotFound))
    else None
  }

  /** A missing or unknown status is answered before the record is loaded. */
  lemma StatusCheckBeforeLoad(records: seq<Request>, records': seq<Request>, id: Id, body: StatusBody)
    requires !Truthy(body.status) || ParseStatus(body.status.value).None?
    ensures StatusCheck(records, id, body) == StatusCheck(records', id, body)
    ensures StatusCheck(records, id, body).value.code == BAD_REQUEST
  {
  }

  /** The record `updateStatus` writes once the checks pass (no `completedBy`
      is passed). */
  function StatusWritten(records: seq<Request>, id: Id, body: StatusBody, now: Time): Request
    requires StatusCheck(records, id, body).None?
  {
    var cur := FindById(records, id).value;
    ApplyUpdate(cur, StatusUpdate(Some(cur), body.status.value, body.processedBy, None, now).value, now)
  }

  /** The answer of `updateRequestStatus`: a rejection of the chain, or 200 with
      the record as `updateStatus` leaves it. As in `updateRequest`, a client
      that is not a known user throws after the write, and the answer is 500. */
  function StatusReply(records: seq<Request>, users: set<Id>, id: Id, body: StatusBody, now: Time)
    : (r: Reply<Request>)
    ensures StatusCheck(records, id, body).Some? ==>
      r == Fail(StatusCheck(records, id, body).value.code, StatusCheck(records, id, body).value.message)
    ensures r.Ok? <==> StatusCheck(records, id, body).None? && FindById(records, id).value.client in users
    ensures StatusCheck(records, id, body).None? && FindById(records, id).value.client !in users ==>
      r == Fail(SERVER_ERROR, InternalError)
    ensures r.Ok? ==>
      var cur := FindById(records, id).value;
      && r.code == OK && r.value.id == id
      && StatusName(r.value.status) == body.status.value
      && r.value.processedBy == (if body.processedBy.Some? then body.processedBy else cur.processedBy)
      && r.value.startedAt == (if body.processedBy.Some? && cur.processedBy.None? then Some(now) else cur.startedAt)
      && r.value.completedAt == (if r.value.status == Completed then Some(now) else cur.completedAt)
      && r.value == cur.(status := r.value.status, processedBy := r.value.processedBy,
                         startedAt := r.value.startedAt, completedAt := r.value.completedAt, updatedAt := now)
  {
    var check := StatusCheck(records, id, body);
    if check.Some? then Fail(check.value.code, check.value.message)
    else
      var cur := FindById(records, id).value;
      var st := ParseStatus(body.status.value).value;
      assert StatusName(st) == body.status.value;
      StatusUpdateOnRecord(cur, st, body.processedBy, None, now);
      if cur.client !in users then Fail(SERVER_ERROR, InternalError)
      else Ok(OK, StatusWritten(records, id, body, now))
  }

  /** Any of the three statuses is accepted from any current status, including
      moves back to "pending"; completing twice re-stamps `completedAt`. */
  lemma AnyTransitionAccepted(records: seq<Request>, users: set<Id>, id: Id, target: RequestStatus,
                               processedBy: Option<Id>, now: Time)
    requires FindById(records, id).Some? && FindById(records, id).value.client in users
    ensures var r := StatusReply(records, users, id, StatusBody(Some(StatusName(target)), processedBy), now);
      r.Ok? && r.value.status == target
      && (target == Completed ==> r.value.completedAt == Some(now))
  {
    var s := StatusName(target);
    assert ParseStatus(s) == Some(target);
    assert Truthy(Some(s));
    var r := StatusReply(records, users, id, StatusBody(Some(s), processedBy), now);
    assert StatusName(r.value.status) == s;
  }

  /** `updateRequestStatus`: the current record is read first and its status is
      the `previousStatus` of the notifications; `hubFault` as for
      `CreateRequest`. No antenna is read or written. */
  method UpdateRequestStatus(store: RequestCollection, users: set<Id>, hub: Hub, id: Id, body: StatusBody, now: Time,
                             hubFault: bool)
    returns (reply: Reply<Request>)
    requires store.Valid() && hub.Valid()
    modifies store, hub
    ensures store.Valid() && hub.Valid()
    ensures reply == StatusReply(old(store.records), users, id, body, now)
    ensures StatusCheck(old(store.records), id, body).Some? ==> store.records == old(store.records)
    ensures StatusCheck(old(store.records), id, body).None? ==>
      && IndexOf(old(store.records), id).Some?
      && store.records == old(store.records)[IndexOf(old(store.records), id).value :=
                                               StatusWritten(old(store.records), id, body, now)]
    ensures reply.Ok? ==>
      && IndexOf(old(store.records), id).Some?
      && store.records == old(store.records)[IndexOf(old(store.records), id).value := reply.value]
    ensures hub.io == old(hub.io) && hub.sockets == old(hub.sockets)
    ensures hub.outbox == old(hub.outbox) +
      if reply.Ok? && hub.io && !hubFault
      then RequestStatusChange(hub.sockets, reply.value.client, reply.value,
                               FindById(old(store.records), id).value.status, now)
      else []
  {
    var check := StatusCheck(store.records, id, body);
    if check.Some? {
      return Fail(check.value.code, check.value.message);
    }
    var current := FindById(store.records, id).value;
    var previousStatus := current.status;
    var st := ParseStatus(body.status.value).value;
    StatusUpdateOnRecord(current, st, body.processedBy, None, now);
    var result := store.UpdateStatus(id, body.status.value, body.processedBy, None, now);
    var request := result.value.value;
    if request.client !in users {
      return Fail(SERVER_ERROR, InternalError);
    }
    if !hubFault {
      hub.NotifyRequestStatusChange(request.client, request, previousStatus, now);
    }
    return Ok(OK, request);
  }
}
