# Antenna service requests: a Dafny model

This project models the core of a small back office for a satellite-internet
reseller. Clients file **requests** (activate an antenna, deactivate it,
change its plan). Administrators move a request through `pending`,
`in_progress` and `completed`. The **antennas** themselves have a plan/status
rule, and they may be bought in installments with a paid-installment counter.
A real-time **notification hub** tells administrators and the requesting
client about new and changed requests.

The model has one module per source file:

| module | models |
|---|---|
| `Common` | ids, optional values, handler replies, store errors, the schemas' string trimming |
| `RequestSchema` | the request record, its two enumerations, defaults, validation, update documents |
| `RequestDao` | the request store (`class RequestCollection`), `updateStatus`, the newest-first queries, `findPendingByClient`, `getStats` |
| `RequestController` | `createRequest`, `updateRequest`, `updateRequestStatus` |
| `AntennaSchema` | the antenna record, defaults and bounds, the two pre-save hooks, `activate`/`deactivate` updates |
| `AntennaDao` | the antenna store (`class AntennaCollection`): `create`, `updateById`, `activate`, `deactivate`, `registerInstallmentPayment` |
| `AntennaController` | `createAntenna`, `updateAntenna`, `activateAntenna`, `deactivateAntenna`, `registerInstallmentPayment` |
| `SocketService` | the hub (`class Hub`): handshake, `join`, `getIO`, the three notifications, the label maps |

The stores are classes whose methods update a `seq` (requests, kept in
creation order) or a `map` (antennas, keyed by id) in place. Each method is
proved against a pure function of the old state, and the properties are
proved about those functions. Each handler is a method whose answer is stated
as a pure `...Reply` function of the inputs and the old store. The method also
states the new store and the hub's new outbox.

Behaviours of the code worth knowing, each stated by a contract or lemma:

- Completing a request never changes an antenna: `updateRequestStatus` only
  writes the request.
- Any status may follow any status, including moves back to `pending`.
  `completedAt` is re-stamped on every completion and is never cleared.
- `completedBy` is never passed by the handler. It is also not a field of the
  request schema, so the strict schema drops it even when `updateStatus`
  builds it.
- The `join` handler picks the room from the role the client sends. Any
  authenticated connection can enter "admins" (`AnyUserCanJoinAdmins`).
- `updateById` runs the update validators but not the pre-save hooks. It can
  therefore store an active antenna without a plan (`UpdateCanBreakPlanRule`).
  A payment, which saves the whole document, runs the hooks again. That save
  clears a stray plan on an inactive antenna and is refused for an active
  antenna without a plan (`PaymentRunsPlanRule`).
- An antenna created with a plan but without a status is saved inactive, so
  the first hook drops its plan (`CreatePlanRule`).
- `createRequest` never checks that the client is a known user. When an
  update handler reads a record back whose client is not a known user, the
  populated client is null and the handler throws after the write. The
  answer is 500 although the record was written (`UpdateReply`,
  `StatusReply`).

## Model

| member | source | states |
|---|---|---|
| Common.TrimIsTheMiddle | api/antenna/antenna.model.js:10-15 | cutting a string into a white-space head, a middle without white space at its ends, and a white-space tail always keeps what `Trim` keeps |
| Common.Trim | api/antenna/antenna.model.js:10-15 | the stored string is the slice of the input after its leading white space, everything after it is white space, and it neither starts nor ends with white space; an all-blank string becomes empty; a trimmed string is kept |
| Common.TrimIdempotent | api/antenna/antenna.model.js:10-15 | trimming an already trimmed string changes nothing |
| RequestSchema.ParseType | api/request/request.model.js:6-10 | exactly "activate", "deactivate" and "change_plan" are request types |
| RequestSchema.TypeName | api/request/request.constants.js:2-6 | each type's wire name parses back to it, and is the only string that does |
| RequestSchema.ParseStatus | api/request/request.model.js:11-15 | exactly "pending", "in_progress" and "completed" are statuses |
| RequestSchema.StatusName | api/request/request.constants.js:9-13 | each status's wire name parses back to it, and is the only string that does |
| RequestSchema.NewRequest | api/request/request.model.js:4-64 | a save succeeds iff `type` is one of the three and `client` is given and a given status is valid; status defaults to pending; antenna and plan are copied; comments are stored trimmed when given; newPlan, processedBy, startedAt, completedAt default to null; both timestamps are the save time |
| RequestSchema.TrimOpt | api/request/request.model.js:60-63 | comments are stored trimmed when given |
| RequestSchema.ApplyUpdate | api/request/request.dao.js:83-94 | every given schema path is overwritten and every other field kept; the id and creation time are kept; `updatedAt` is stamped |
| RequestDao.IndexOf | api/request/request.dao.js:29-37 | the position found holds that id; no position holds it when none is found |
| RequestDao.FindById | api/request/request.dao.js:29-37 | a record is found iff one has the id, and it is a stored record with that id |
| RequestDao.StatusUpdate | api/request/request.dao.js:99-122 | the document always sets `status`; sets the processor when one is given; sets `startedAt` (to now) iff a processor is given and the stored record had none; sets `completedAt` (to now) iff the status is "completed"; sets `completedBy` iff completing with one given; an unknown id with a processor throws |
| RequestDao.BuildStatusUpdate | api/request/request.dao.js:105-122 | the document built field by field is the `StatusUpdate` document |
| RequestDao.StatusUpdateOnRecord | api/request/request.dao.js:105-127 | on a stored record: the requested status is written whatever the old one; `startedAt` changes only on the first processor assignment; the processor is overwritten when given; `completedAt` is re-stamped on completion and never cleared; nothing else but `updatedAt` changes |
| RequestDao.RequestCollection.constructor | api/request/request.dao.js:3 | an empty, valid store |
| RequestDao.RequestCollection.Create | api/request/request.dao.js:7-10 | the schema's record is appended or nothing changes; ids stay unique and records stay in creation order |
| RequestDao.RequestCollection.Update | api/request/request.dao.js:83-94 | a refused document changes nothing; an unknown id yields null and changes nothing; otherwise the record is replaced in place by `ApplyUpdate` |
| RequestDao.RequestCollection.UpdateStatus | api/request/request.dao.js:99-134 | builds the `StatusUpdate` document against the stored record and applies it through `Update` |
| RequestDao.Find | api/request/request.dao.js:15-24 | only stored records matching the filter are returned, each as many times as it is stored; non-matching records never |
| RequestDao.FindComplete | api/request/request.dao.js:15-24 | every stored record matching the filter is returned |
| RequestDao.FindNewestFirst | api/request/request.dao.js:23 | results come newest first |
| RequestDao.FindPendingByClient | api/request/request.dao.js:146-155 | only the client's requests that are not completed are returned |
| RequestDao.PendingByClientExactly | api/request/request.dao.js:146-155 | a request is returned iff it is the client's and pending or in progress; results come newest first |
| RequestDao.GetStats | api/request/request.dao.js:160-167 | each entry's count is the number of requests with that (status, type), and is positive |
| RequestDao.GetStatsTotal | api/request/request.dao.js:163-166 | the counts sum to the number of requests |
| RequestDao.GetStatsKeys | api/request/request.dao.js:163-166 | there is an entry for a (status, type) pair iff some request has it |
| RequestDao.GetStatsSorted | api/request/request.dao.js:168-170 | entries are in strictly ascending order of status name, then type name |
| RequestDao.KeyOrderComplete | api/request/request.dao.js:163-166 | every (status, type) pair is one of the nine grouped keys |
| RequestController.CreateCheck | api/request/request.controller.js:19-70 | passes iff type and client are given, the type is valid, an antenna is given and exists, and a given plan exists; missing type or client is 400 |
| RequestController.CreateCheckOrder | api/request/request.controller.js:19-60 | missing fields, an invalid type and a missing antenna are answered (400) whatever the lookups would find; an unknown antenna is 404 before the plan is looked up |
| RequestController.CreateReply | api/request/request.controller.js:14-104 | a failed check is the answer; otherwise 201 with exactly the record the schema saves: the given type, client, antenna, plan and status (pending when no status is sent), the trimmed comments, null processing fields and both timestamps at the save time; or 500 iff a sent status is not valid |
| RequestController.CreateStatusDefault | api/request/request.controller.js:81-84 | a falsy status is not copied, so the record is pending; an invalid truthy status yields 500 |
| RequestController.CreateRequest | api/request/request.controller.js:14-104 | the answer is `CreateReply`, which does not depend on whether the notification throws; the request is appended iff the answer is 201; one admin notification follows iff created, the hub is up and it does not throw |
| RequestController.WithDefaultTimestamps | api/request/request.controller.js:196-203 | caller-supplied `startedAt`/`completedAt` are never overwritten; `startedAt` is added iff a processor is given without one, `completedAt` iff the status is "completed" without one; nothing else changes |
| RequestController.UpdateReply | api/request/request.controller.js:190-229 | 500 for a refused document, 404 for an unknown id; otherwise the updated record is written and the answer is 200 with it iff its client is a known user, 500 if not |
| RequestController.UpdateRequest | api/request/request.controller.js:190-229 | the answer is `UpdateReply`; the store is written iff the document is valid and the id exists, even when the answer is 500; the client and admin notifications follow iff 200, the hub is up and they do not throw |
| RequestController.StatusCheck | api/request/request.controller.js:239-258 | 400 for a missing status, 400 for an invalid one, 404 for an unknown id; passes otherwise, whatever the current status |
| RequestController.StatusCheckBeforeLoad | api/request/request.controller.js:239-252 | a missing or invalid status is answered 400 whatever the store holds |
| RequestController.StatusReply | api/request/request.controller.js:234-281 | a failed check is the answer; otherwise 200 iff the client is a known user (500 if not), with the requested status, the processor and `startedAt`/`completedAt` rules of `updateStatus`, and no other change |
| RequestController.AnyTransitionAccepted | api/request/request.controller.js:245-261 | for a stored request of a known client, every target status is accepted from every current status, and completing stamps `completedAt` |
| RequestController.UpdateRequestStatus | api/request/request.controller.js:234-281 | the answer is `StatusReply`; the record is written iff the checks pass, even when the answer is 500; both status-change notifications carry the status read before the update; no antenna is touched |
| AntennaSchema.ParsePurchaseType | api/antenna/antenna.model.js:26-30 | exactly "comodato", "one_payment" and "installments" are purchase types |
| AntennaSchema.ParseAntennaStatus | api/antenna/antenna.model.js:48-52 | exactly "active" and "inactive" are antenna statuses |
| AntennaSchema.NewDocument | api/antenna/antenna.model.js:3-78 | valid iff kit number, client, supplier and a valid purchase type are given, a given status is valid and the counters are not negative; the trimmed kit number, trimmed name (default "") and notes, client, supplier, purchase type, a given status, plan and dates are stored; status defaults to inactive, counters to 0 |
| AntennaSchema.PreSave | api/antenna/antenna.model.js:80-100 | the save is refused iff active without a plan or installments without a positive total; an inactive antenna loses its plan; nothing else changes |
| AntennaSchema.ApplyUpdate | api/antenna/antenna.dao.js:115-128 | each given field is written (strings trimmed, enumerations parsed), each absent field is kept; id and creation time are kept, `updatedAt` is stamped; the bounds still hold |
| AntennaSchema.ApplyUpdateFields | api/antenna/antenna.dao.js:115-128 | field by field: a given name, kit number or notes is stored trimmed, a given purchase type or status parsed, a given client, supplier, counter, plan or date copied; every absent field keeps its stored value |
| AntennaSchema.UpdateCanBreakPlanRule | api/antenna/antenna.dao.js:115-128 | an update to "active" without a plan passes the validators and breaks the plan rule |
| AntennaSchema.Activated | api/antenna/antenna.dao.js:133-152 | status active, the given plan, activation stamped, deactivation cleared, nothing else changed |
| AntennaSchema.Deactivated | api/antenna/antenna.dao.js:157-175 | status inactive, no plan, deactivation stamped, activation date kept, nothing else changed |
| AntennaDao.SaveNew | api/antenna/antenna.dao.js:9-17 | succeeds iff the document is valid, the hooks accept it and the trimmed kit number is free; a schema or hook refusal is passed through, a taken kit is a duplicate-key refusal; a saved antenna is the new document up to the plan the hook may clear, satisfies the plan rule and bounds |
| AntennaDao.PayInstallment | api/antenna/antenna.dao.js:185-194 | refused when not in installments, then when all are paid; paid iff in installments with installments left and the hooks accept; a payment raises the count by exactly one, stamps `updatedAt`, keeps paid <= total and changes nothing else but the plan the hook clears |
| AntennaDao.PaymentRunsPlanRule | api/antenna/antenna.model.js:81-88 | the payment's save clears an inactive antenna's plan and refuses an active antenna without a plan |
| AntennaDao.RunSaveHooks | api/antenna/antenna.model.js:80-100 | the hooks run in place compute `PreSave` |
| AntennaDao.ReplaceKeepsWellFormed | api/antenna/antenna.model.js:10-15 | overwriting a record keeps kit numbers unique when the kit number is kept or free |
| AntennaDao.InsertKeepsWellFormed | api/antenna/antenna.model.js:10-15 | inserting a record with a free kit number keeps kit numbers unique |
| AntennaDao.AntennaCollection.constructor | api/antenna/antenna.dao.js:5 | an empty, valid store |
| AntennaDao.AntennaCollection.Create | api/antenna/antenna.dao.js:9-17 | the `SaveNew` result is inserted, or nothing changes |
| AntennaDao.AntennaCollection.UpdateById | api/antenna/antenna.dao.js:115-128 | a refused document and an unknown id change nothing; a kit number held by another antenna is refused; otherwise the record is overwritten |
| AntennaDao.AntennaCollection.Activate | api/antenna/antenna.dao.js:133-152 | null and no change for an unknown id; otherwise the record becomes `Activated` |
| AntennaDao.AntennaCollection.Deactivate | api/antenna/antenna.dao.js:157-175 | null and no change for an unknown id; otherwise the record becomes `Deactivated` |
| AntennaDao.AntennaCollection.RegisterInstallmentPayment | api/antenna/antenna.dao.js:180-200 | an unknown id is refused first, then `PayInstallment`; the record changes only on success |
| AntennaController.CreateCheck | api/antenna/antenna.controller.js:28-79 | passes iff the five fields are given, the kit number is free, client, supplier and a given plan exist, and an installments purchase has a positive total |
| AntennaController.CreateCheckOrder | api/antenna/antenna.controller.js:28-68 | missing fields are 400 whatever the lookups; a taken kit is 409 before the client and supplier; the client is checked before the supplier, the supplier before the plan |
| AntennaController.BodyDocument | api/antenna/antenna.controller.js:82-102 | the new document starts with no installment paid; only an installments purchase carries a total and amount |
| AntennaController.CreateReply | api/antenna/antenna.controller.js:10-118 | a failed check is the answer; 201 iff the checks pass, the kit number is not blank, the purchase type and a sent status are valid, the amount is not negative and "active" comes with a plan; the antenna has the trimmed kit number and name (default ""), the body's client, supplier, purchase type, status, dates and notes, 0 paid, the given total and amount (default 0) for installments and 0 counters otherwise, inactive without a plan when no status is sent; any other refusal is 500 |
| AntennaController.SaveReply | api/antenna/antenna.controller.js:82-116 | once the checks pass: 201 iff the schema and the first hook accept the document built from the body, with the antenna that body yields; every other answer is 500, because the checks already refused a taken kit number |
| AntennaController.CreateSaves | api/antenna/antenna.controller.js:82-104 | once the checks pass, the save succeeds exactly when the kit number is not blank, the purchase type and a sent status are valid, the amount is not negative and "active" comes with a plan; it never ends in a duplicate key |
| AntennaController.SavedFromBody | api/antenna/antenna.controller.js:82-104 | a saved create body yields the antenna `CreatedFrom` describes: trimmed kit number and name, the body's client, supplier, purchase type, status, dates and notes, the installment defaults, and an inactive antenna without a plan when no status is sent |
| AntennaController.CreatePlanRule | api/antenna/antenna.controller.js:92-104 | "active" without a plan is 500; without a status the plan is dropped |
| AntennaController.CreateAntenna | api/antenna/antenna.controller.js:10-118 | the answer is `CreateReply`; the antenna is stored iff 201 |
| AntennaController.UpdateReply | api/antenna/antenna.controller.js:195-237 | 404 for an unknown client, then 404 for an unknown supplier, then 500 for a refused document, 404 for an unknown id, 409 for a kit number held by another antenna; 200 iff none of these, with the `ApplyUpdate` record |
| AntennaController.UpdateAntenna | api/antenna/antenna.controller.js:195-237 | the answer is `UpdateReply`; the store changes iff 200 |
| AntennaController.ActivateReply | api/antenna/antenna.controller.js:242-272 | 400 without a plan id, then 404 for an unknown plan, then 404 for an unknown antenna; 200 iff none of these, with the `Activated` record |
| AntennaController.ActivateAntenna | api/antenna/antenna.controller.js:242-272 | the answer is `ActivateReply`; the store changes iff 200 |
| AntennaController.DeactivateReply | api/antenna/antenna.controller.js:277-291 | 404 iff the antenna is unknown; 200 with exactly `Deactivated` of the stored antenna: inactive, without plan, deactivated now, its activation date and every other field kept |
| AntennaController.DeactivateAntenna | api/antenna/antenna.controller.js:277-291 | the answer is `DeactivateReply`; the store changes iff 200 |
| AntennaController.PaymentCode | api/antenna/antenna.controller.js:310-321 | not found is 404; not-installments and all-paid are 400; anything else is 500 |
| AntennaController.NotFoundCarriesPhrase | api/antenna/antenna.controller.js:310 | the not-found message contains "no encontrada" |
| AntennaController.NotInstallmentsCarriesPhrase | api/antenna/antenna.controller.js:315 | the not-installments message contains "no fue adquirida en cuotas" |
| AntennaController.AllPaidCarriesPhrase | api/antenna/antenna.controller.js:316 | the all-paid message contains "ya han sido pagadas" |
| AntennaController.PaymentReply | api/antenna/antenna.controller.js:296-323 | 200 iff the store's payment succeeds, with the paid antenna and remaining = total - paid, never negative; a refusal is answered with `PaymentCode` of its error, with the error's own message on 400/404 and the generic one on 500 |
| AntennaController.PaymentCountsDown | api/antenna/antenna.controller.js:301-319 | with nothing left to pay the answer is 400; each payment lowers the remaining count |
| AntennaController.RegisterInstallmentPayment | api/antenna/antenna.controller.js:296-323 | the answer is `PaymentReply`; the store changes iff 200 |
| SocketService.Authenticate | api/socket/socket.service.js:22-36 | no token is refused, a token that fails verification is refused, otherwise the connection carries the token's user id |
| SocketService.UserRoom | api/socket/socket.service.js:56 | a user room is never "admins", and the user id can be read back from it |
| SocketService.JoinRoom | api/socket/socket.service.js:42-58 | no room iff the claimed user id differs from the token's; "admins" iff the ids match and the role is "admin"; the token user's own room otherwise |
| SocketService.AnyUserCanJoinAdmins | api/socket/socket.service.js:53-54 | any connection whose join repeats its own user id and claims role "admin" enters "admins" |
| SocketService.TypeLabel | api/socket/socket.service.js:248-255 | the Spanish label of each request type; any other key is returned as is |
| SocketService.StatusLabel | api/socket/socket.service.js:260-267 | the Spanish label of each status; any other key is returned as is |
| SocketService.LabelsDistinguish | api/socket/socket.service.js:248-267 | distinct types and distinct statuses get distinct labels, none equal to its key |
| SocketService.UserRoomReachesOnlyThatUser | api/socket/socket.service.js:46-57 | a client-room emission reaches only connections whose token is that client's |
| SocketService.AdminsNewRequest | api/socket/socket.service.js:83-107 | one new-request notification for the request, to "admins" only |
| SocketService.ClientRequestUpdate | api/socket/socket.service.js:118-172 | two request-update notifications: to the client's room first, then to "admins" |
| SocketService.RequestStatusChange | api/socket/socket.service.js:181-241 | two status-change notifications, client room first, then "admins", both carrying the previous status |
| SocketService.Hub.constructor | api/socket/socket.service.js:7 | no server, no connections, nothing sent |
| SocketService.Hub.Initialize | api/socket/socket.service.js:13-19 | the server exists and has no connections |
| SocketService.Hub.GetIO | api/socket/socket.service.js:72-77 | fails with "Socket.IO no ha sido inicializado" iff the server does not exist |
| SocketService.Hub.Connect | api/socket/socket.service.js:22-36 | the handshake result is `Authenticate`; an accepted connection is added in no room, a refused one is not added |
| SocketService.Hub.Join | api/socket/socket.service.js:42-58 | a join with another user's id changes nothing; otherwise the connection enters the `JoinRoom` room; rooms always match tokens |
| SocketService.Hub.Disconnect | api/socket/socket.service.js:61-63 | the connection leaves every room |
| SocketService.Hub.NotifyAdminsNewRequest | api/socket/socket.service.js:83-111 | nothing is sent before the server exists; otherwise `AdminsNewRequest` is appended |
| SocketService.Hub.NotifyClientRequestUpdate | api/socket/socket.service.js:118-174 | nothing is sent before the server exists; otherwise `ClientRequestUpdate` is appended |
| SocketService.Hub.NotifyRequestStatusChange | api/socket/socket.service.js:181-243 | nothing is sent before the server exists; otherwise `RequestStatusChange` is appended |

## Left out

- Population of referenced documents: references are ids, and a record read back is the stored record itself. Every request query also populates `completedBy` (api/request/request.dao.js:22, :36, :93, :133), a path the request schema does not declare; the model assumes this populate is harmless. Under a Mongoose version whose `strictPopulate` default is on (6 and later), it would raise an error once a record is found, after any write; the Mongoose version is not part of this model.
- Setting a field to `null` through an update body: an update field is either given (a value) or absent.
- Interleavings: each handler runs alone. The read-then-write gap in `updateRequestStatus` and `registerInstallmentPayment` is not modelled, so a record deleted in between (and the crash it would cause) cannot happen.
- Malformed ids: the cast error Mongo raises for them (answered 500) is not modelled.
- The transport: socket.io's own per-connection room, acknowledgements, CORS and delivery. An emission records its room and the connections in that room when it was sent.
- Token signature checking: `jwt.verify` and the secret are the function parameter `verify` of `Authenticate`.
- Time: `new Date()` is the parameter `now`. A notification's timestamp is that same instant.
- A notification that throws: the boolean `hubFault` stands for it, and it is modelled as throwing before it emits anything. A throw between the two emissions of a two-room notification is not modelled.
- AntennaController.PaymentCode: maps a payment error by its kind. The source matches substrings of the error message. The model proves that each refusal's message carries its phrase. It does not prove that the two hook messages (answered 500) carry none of the phrases.
- The pre-save hooks call `next()` a second time after reporting an error. The model treats the first reported error as aborting the save.
- Numbers are whole numbers. Fractional counters and amounts, and JavaScript's coercion of non-numeric input, are not modelled.
- The label maps are plain objects. Inherited keys such as "constructor" would return a function, and the model returns the key instead.
- Ties in `createdAt`: records created at the same instant come latest-inserted first. The database leaves their order unspecified.
- Kit numbers are compared after trimming, both in the unique index and in the handler's lookup. Mongo's collation and case rules are not modelled.
- The user, supplier and plan stores are only looked up. They are parameters (sets of known ids), and their modules are not part of this model.
- The other handlers and DAO methods are plain reads and deletes over the same stores and are not modelled: `getAllRequests`, `getRequestById`, `getRequestsByClient/Status/Type`, `deleteRequest`, `getRequestStats`, `getPendingRequestsByClient`, `getAllAntennas`, `getAntennasByClient`, `getAntennaById`, `getAntennaByKitNumber`, `deleteAntenna`, `findBySupplier`. The `find*`, `findPendingByClient` and `getStats` queries behind them are modelled in `RequestDao`.
- Routing, authentication middleware, e-mail, the server bootstrap and the database connection.
