/** The real-time notification hub: handshake authentication, the `join`
    handler that places a connection in a room, and the three notifications
    the request handlers send to the "admins" room and to a client's own
    "user_<id>" room. The transport is abstract: an emission records the room,
    the notification and the connections in that room at the moment it is sent. */
module SocketService {
  import opened Common
  import opened RequestSchema

  /** The identifier the transport gives a connection. */
  type SocketId = string

  /** The decoded token: `id` may be missing from the payload. */
  datatype Claims = Claims(id: Option<string>)

  /** Outcome of the handshake middleware. */
  datatype Handshake = Accepted(userId: Option<string>) | Rejected(message: string)

  const TokenRequired: string := "Token de autenticaci\U{00F3}n requerido"
  const TokenInvalid: string := "Token inv\U{00E1}lido o expirado"
  const NotInitialized: string := "Socket.IO no ha sido inicializado"

  /** The room every administrator notification goes to. */
  const AdminRoom: string := "admins"

  /** The handshake middleware. Signature checking is the parameter `verify`,
      which yields the decoded claims or nothing when the token is rejected. */
  function Authenticate(token: Option<string>, verify: string -> Option<Claims>): (h: Handshake)
    ensures !Truthy(token) ==> h == Rejected(TokenRequired)
    ensures Truthy(token) && verify(token.value).None? ==> h == Rejected(TokenInvalid)
    ensures h.Accepted? <==> Truthy(token) && verify(token.value).Some?
    ensures h.Accepted? ==> h.userId == verify(token.value).value.id
  {
    if !Truthy(token) then Rejected(TokenRequired)
    else
      var claims := verify(token.value);
      if claims.None? then Rejected(TokenInvalid) else Accepted(claims.value.id)
  }

  /** How a possibly missing user id is written into a room name. */
  function UserName(u: Option<string>): string {
    if u.Some? then u.value else "undefined"
  }

  /** A client's own room. It is never the administrators' room, and the user
      id can be read back from it, so two users never share one. */
  function UserRoom(user: string): (room: string)
    ensures room != AdminRoom
    ensures |room| >= 5 && room[..5] == "user_" && room[5..] == user
  {
    var room := "user_" + user;
    assert room[0] == 'u';
    room
  }

  /** The `join` handler's choice of room: none when the claimed user id is not
      the token's; "admins" when the client says its role is "admin"; its own
      user room otherwise. The role is taken from the client as sent. */
  function JoinRoom(tokenUser: Option<string>, userId: Option<string>, role: Option<string>): (room: Option<string>)
    ensures room.None? <==> userId != tokenUser
    ensures room == Some(AdminRoom) <==> userId == tokenUser && role == Some("admin")
    ensures room.Some? && room != Some(AdminRoom) ==> room == Some(UserRoom(UserName(tokenUser)))
  {
    if userId != tokenUser then None
    else if role == Some("admin") then Some(AdminRoom)
    else Some(UserRoom(UserName(userId)))
  }

  /** Any authenticated connection may enter the administrators' room by
      claiming the role "admin" in its join message. */
  lemma AnyUserCanJoinAdmins(tokenUser: Option<string>)
    ensures JoinRoom(tokenUser, tokenUser, Some("admin")) == Some(AdminRoom)
  {
  }

  /** The labels used in notification messages: the Spanish label for a known
      request type, the key itself otherwise. */
  function TypeLabel(t: string): (text: string)
    ensures t == "activate" ==> text == "Activar antena"
    ensures t == "deactivate" ==> text == "Desactivar antena"
    ensures t == "change_plan" ==> text == "Cambiar plan"
    ensures ParseType(t).None? ==> text == t
  {
    if t == "activate" then "Activar antena"
    else if t == "deactivate" then "Desactivar antena"
    else if t == "change_plan" then "Cambiar plan"
    else t
  }

  /** The Spanish label for a known request status, the key itself otherwise. */
  function StatusLabel(s: string): (text: string)
    ensures s == "pending" ==> text == "Pendiente"
    ensures s == "in_progress" ==> text == "En proceso"
    ensures s == "completed" ==> text == "Completada"
    ensures ParseStatus(s).None? ==> text == s
  {
    if s == "pending" then "Pendiente"
    else if s == "in_progress" then "En proceso"
    else if s == "completed" then "Completada"
    else s
  }

  /** Distinct request types and distinct statuses get distinct labels, and a
      label is never itself a wire name. */
  lemma LabelsDistinguish(a: RequestType, b: RequestType, s: RequestStatus, t: RequestStatus)
    ensures TypeLabel(TypeName(a)) == TypeLabel(TypeName(b)) ==> a == b
    ensures StatusLabel(StatusName(s)) == StatusLabel(StatusName(t)) ==> s == t
    ensures TypeLabel(TypeName(a)) != TypeName(a) && StatusLabel(StatusName(s)) != StatusName(s)
  {
  }

  datatype NotificationKind = NewRequestNote | RequestUpdateNote | RequestStatusChangeNote

  /** The `type` field of a notification. */
  function KindName(k: NotificationKind): string {
    match k
    case NewRequestNote => "new_request"
    case RequestUpdateNote => "request_update"
    case RequestStatusChangeNote => "request_status_change"
  }

  /** A notification: its kind, its message, a snapshot of the request, the
      status before the change (status-change notifications only) and the
      time it was built. */
  datatype Notification = Notification(
    kind: NotificationKind,
    message: string,
    request: Request,
    previousStatus: Option<RequestStatus>,
    timestamp: Time)

  /** One `notification` event sent to a room, with the connections it reached. */
  datatype Emission = Emission(room: string, note: Notification, recipients: set<SocketId>)

  /** A live connection: the user id its token carried, and the rooms it joined. */
  datatype Connection = Connection(userId: Option<string>, rooms: set<string>)

  /** The connections currently in a room. */
  function Members(sockets: map<SocketId, Connection>, room: string): set<SocketId> {
    set sid | sid in sockets && room in sockets[sid].rooms
  }

  /** Every room a connection is in is "admins" or the room of its token's user. */
  ghost predicate RoomsMatchTokens(sockets: map<SocketId, Connection>) {
    forall sid | sid in sockets ::
      forall room | room in sockets[sid].rooms :: room == AdminRoom || room == UserRoom(UserName(sockets[sid].userId))
  }

  /** A message sent to a client's room reaches only connections whose token
      belongs to that client. */
  lemma UserRoomReachesOnlyThatUser(sockets: map<SocketId, Connection>, clientId: string)
    requires RoomsMatchTokens(sockets)
    ensures forall sid | sid in Members(sockets, UserRoom(clientId)) :: UserName(sockets[sid].userId) == clientId
  {
    forall sid | sid in Members(sockets, UserRoom(clientId))
      ensures UserName(sockets[sid].userId) == clientId
    {
      var u := UserName(sockets[sid].userId);
      assert UserRoom(clientId) == UserRoom(u);
      assert UserRoom(clientId)[5..] == clientId && UserRoom(u)[5..] == u;
    }
  }

  function NewRequestNotification(r: Request, now: Time): Notification {
    Notification(NewRequestNote, "Nueva solicitud: " + TypeLabel(TypeName(r.kind)), r, None, now)
  }

  function ClientUpdateNotification(r: Request, now: Time): Notification {
    Notification(RequestUpdateNote,
                 "Tu solicitud ha sido actualizada: " + StatusLabel(StatusName(r.status)), r, None, now)
  }

  function AdminUpdateNotification(r: Request, now: Time): Notification {
    Notification(RequestUpdateNote, "Solicitud " + r.id + " actualizada", r, None, now)
  }

  function ClientStatusNotification(r: Request, previous: RequestStatus, now: Time): Notification {
    Notification(RequestStatusChangeNote,
                 "El estado de tu solicitud cambi\U{00F3} de \"" + StatusLabel(StatusName(previous))
                 + "\" a \"" + StatusLabel(StatusName(r.status)) + "\"",
                 r, Some(previous), now)
  }

  function AdminStatusNotification(r: Request, previous: RequestStatus, now: Time): Notification {
    Notification(RequestStatusChangeNote,
                 "Estado de solicitud " + r.id + " cambi\U{00F3} a \"" + StatusLabel(StatusName(r.status)) + "\"",
                 r, Some(previous), now)
  }

  /** What `notifyAdminsNewRequest` sends: one new-request notification, to
      "admins" only. */
  function AdminsNewRequest(sockets: map<SocketId, Connection>, r: Request, now: Time): (es: seq<Emission>)
    ensures |es| == 1
    ensures es[0].room == AdminRoom && es[0].recipients == Members(sockets, AdminRoom)
    ensures es[0].note.kind == NewRequestNote && es[0].note.request == r
  {
    [Emission(AdminRoom, NewRequestNotification(r, now), Members(sockets, AdminRoom))]
  }

  /** What `notifyClientRequestUpdate` sends: two request-update notifications,
      first to the client's room, then to "admins". */
  function ClientRequestUpdate(sockets: map<SocketId, Connection>, clientId: string, r: Request, now: Time)
    : (es: seq<Emission>)
    ensures |es| == 2
    ensures es[0].room == UserRoom(clientId) && es[1].room == AdminRoom
    ensures forall k | 0 <= k < 2 ::
      es[k].note.kind == RequestUpdateNote && es[k].note.request == r
      && es[k].recipients == Members(sockets, es[k].room)
  {
    [Emission(UserRoom(clientId), ClientUpdateNotification(r, now), Members(sockets, UserRoom(clientId))),
     Emission(AdminRoom, AdminUpdateNotification(r, now), Members(sockets, AdminRoom))]
  }

  /** What `notifyRequestStatusChange` sends: two status-change notifications,
      first to the client's room, then to "admins", both carrying the status
      the request had before the change. */
  function RequestStatusChange(sockets: map<SocketId, Connection>, clientId: string, r: Request,
                               previous: RequestStatus, now: Time): (es: seq<Emission>)
    ensures |es| == 2
    ensures es[0].room == UserRoom(clientId) && es[1].room == AdminRoom
    ensures forall k | 0 <= k < 2 ::
      es[k].note.kind == RequestStatusChangeNote && es[k].note.request == r
      && es[k].note.previousStatus == Some(previous)
      && es[k].recipients == Members(sockets, es[k].room)
  {
    [Emission(UserRoom(clientId), ClientStatusNotification(r, previous, now), Members(sockets, UserRoom(clientId))),
     Emission(AdminRoom, AdminStatusNotification(r, previous, now), Members(sockets, AdminRoom))]
  }

  /** The hub's module state: whether the server has been created (`io`), the
      live connections and the notifications sent so far. */
  class Hub {
    var io: bool
    var sockets: map<SocketId, Connection>
    var outbox: seq<Emission>

    /** No connection exists before the server does, and every connection is
        only in rooms its join messages could have chosen. */
    ghost predicate Valid()
      reads this
    {
      (!io ==> sockets == map[]) && RoomsMatchTokens(sockets)
    }

    constructor ()
      ensures Valid() && !io && sockets == map[] && outbox == []
    {
      io := false;
      sockets := map[];
      outbox := [];
    }

    /** `initializeSocket`: creates the server; it has no connections yet. */
    method Initialize()
      modifies this
      ensures Valid() && io && sockets == map[] && outbox == old(outbox)
    {
      io := true;
      sockets := map[];
    }

    /** `getIO`: fails until the server has been created. */
    method GetIO() returns (r: Result<bool>)
      ensures io ==> r == Success(true)
      ensures !io ==> r == Failure(Thrown(NotInitialized))
    {
      if !io {
        return Failure(Thrown(NotInitialized));
      }
      return Success(true);
    }

    /** A connection attempt, run through the handshake middleware; an accepted
        connection is in no room yet. */
    method Connect(sid: SocketId, token: Option<string>, verify: string -> Option<Claims>) returns (h: Handshake)
      requires Valid() && io && sid !in sockets
      modifies this
      ensures Valid() && io == old(io) && outbox == old(outbox)
      ensures h == Authenticate(token, verify)
      ensures sockets == if h.Accepted? then old(sockets)[sid := Connection(h.userId, {})] else old(sockets)
    {
      h := Authenticate(token, verify);
      if h.Accepted? {
        sockets := sockets[sid := Connection(h.userId, {})];
      }
    }

    /** The `join` handler: a join whose user id is not the token's changes
        nothing; otherwise the connection enters the chosen room. */
    method Join(sid: SocketId, userId: Option<string>, role: Option<string>)
      requires Valid() && sid in sockets
      modifies this
      ensures Valid() && io == old(io) && outbox == old(outbox)
      ensures var room := JoinRoom(old(sockets)[sid].userId, userId, role);
        sockets == if room.Some?
                   then old(sockets)[sid := old(sockets)[sid].(rooms := old(sockets)[sid].rooms + {room.value})]
                   else old(sockets)
    {
      var conn := sockets[sid];
      var room := JoinRoom(conn.userId, userId, role);
      if room.Some? {
        sockets := sockets[sid := conn.(rooms := conn.rooms + {room.value})];
      }
    }

    /** A disconnection: the connection leaves every room. */
    method Disconnect(sid: SocketId)
      requires Valid()
      modifies this
      ensures Valid() && io == old(io) && outbox == old(outbox)
      ensures sockets == old(sockets) - {sid}
    {
      sockets := sockets - {sid};
    }

    /** `notifyAdminsNewRequest`: does nothing before the server exists. */
    method NotifyAdminsNewRequest(r: Request, now: Time)
      requires Valid()
      modifies this
      ensures Valid() && io == old(io) && sockets == old(sockets)
      ensures outbox == old(outbox) + (if io then AdminsNewRequest(sockets, r, now) else [])
    {
      if !io {
        return;
      }
      outbox := outbox + [Emission(AdminRoom, NewRequestNotification(r, now), Members(sockets, AdminRoom))];
    }

    /** `notifyClientRequestUpdate`: does nothing before the server exists. */
    method NotifyClientRequestUpdate(clientId: string, r: Request, now: Time)
      requires Valid()
      modifies this
      ensures Valid() && io == old(io) && sockets == old(sockets)
      ensures outbox == old(outbox) + (if io then ClientRequestUpdate(sockets, clientId, r, now) else [])
    {
      if !io {
        return;
      }
      var room := UserRoom(clientId);
      outbox := outbox + [Emission(room, ClientUpdateNotification(r, now), Members(sockets, room))];
      outbox := outbox + [Emission(AdminRoom, AdminUpdateNotification(r, now), Members(sockets, AdminRoom))];
    }

    /** `notifyRequestStatusChange`: does nothing before the server exists. */
    method NotifyRequestStatusChange(clientId: string, r: Request, previous: RequestStatus, now: Time)
      requires Valid()
      modifies this
      ensures Valid() && io == old(io) && sockets == old(sockets)
      ensures outbox == old(outbox) + (if io then RequestStatusChange(sockets, clientId, r, previous, now) else [])
    {
      if !io {
        return;
      }
      var room := UserRoom(clientId);
      outbox := outbox + [Emission(room, ClientStatusNotification(r, previous, now), Members(sockets, room))];
      outbox := outbox + [Emission(AdminRoom, AdminStatusNotification(r, previous, now), Members(sockets, AdminRoom))];
    }
  }
}
