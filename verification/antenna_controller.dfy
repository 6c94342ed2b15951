/** The antenna handlers: `createAntenna`, `updateAntenna`, `activateAntenna`,
    `deactivateAntenna` and `registerInstallmentPayment`. Users, suppliers
    and plans are only looked up here, so they are sets of known ids. */
module AntennaController {
  import opened Common
  import opened AntennaSchema
  import opened AntennaDao

  const FieldsRequired: string :=
    "N\U{00FA}mero de kit, cliente, proveedor, tipo de antena y tipo de compra son requeridos"
  const KitTaken: string := "Ya existe una antena con ese n\U{00FA}mero de kit"
  const ClientUnknown: string := "El cliente especificado no existe"
  const SupplierUnknown: string := "El proveedor especificado no existe"
  const PlanUnknown: string := "El plan especificado no existe"
  const InstallmentsRequired: string :=
    "Para tipo de compra en cuotas, debe especificar la cantidad de cuotas totales"
  const AntennaNotFoundMessage: string := "Antena no encontrada"
  const PlanRequired: string := "El plan es requerido para activar la antena"
  const PaymentRegistered: string := "Pago de cuota registrado correctamente"
  const InternalError: string := "Error interno del servidor"

  /** JavaScript truthiness of an optional number: absent, null and 0 are falsy. */
  predicate TruthyNumber(o: Option<int>) {
    o.Some? && o.value != 0
  }

  // ---------------------------------------------------------------------------
  // createAntenna

  /** The body of a create call; `antennaType` is the body's `type`. */
  datatype AntennaBody = AntennaBody(
    name: Option<string>,
    kitNumber: Option<string>,
    client: Option<Id>,
    supplier: Option<Id>,
    antennaType: Option<string>,
    purchaseType: Option<string>,
    totalInstallments: Option<int>,
    installmentAmount: Option<int>,
    plan: Option<Id>,
    status: Option<string>,
    activationDate: Option<Time>,
    deactivationDate: Option<Time>,
    notes: Option<string>)

  /** An installments purchase, as the handler tests it (by the raw string). */
  predicate InInstallments(body: AntennaBody) {
    body.purchaseType == Some("installments")
  }

  /** The checks of `createAntenna`, in order: the five required fields; the
      kit number is free; the client, the supplier and the plan (when given)
      exist; an installments purchase gives a positive number of installments. */
  function CreateCheck(body: AntennaBody, antennas: map<Id, Antenna>, users: set<Id>,
                       suppliers: set<Id>, plans: set<Id>): (r: Option<Rejection>)
    ensures r.None? <==>
      && Truthy(body.kitNumber) && body.client.Some? && body.supplier.Some?
      && Truthy(body.antennaType) && Truthy(body.purchaseType)
      && !KitNumberTaken(antennas, Trim(body.kitNumber.value), None)
      && body.client.value in users && body.supplier.value in suppliers
      && (body.plan.Some? ==> body.plan.value in plans)
      && (InInstallments(body) ==> body.totalInstallments.Some? && body.totalInstallments.value > 0)
    ensures r.Some? ==> r.value.code in {BAD_REQUEST, CONFLICT, NOT_FOUND}
  {
    if || !Truthy(body.kitNumber) || body.client.None? || body.supplier.None?
       || !Truthy(body.antennaType) || !Truthy(body.purchaseType)
    then Some(Rejection(BAD_REQUEST, FieldsRequired))
    else if KitNumberTaken(antennas, Trim(body.kitNumber.value), None) then Some(Rejection(CONFLICT, KitTaken))
    else if body.client.value !in users then Some(Rejection(NOT_FOUND, ClientUnknown))
    else if body.supplier.value !in suppliers then Some(Rejection(NOT_FOUND, SupplierUnknown))
    else if body.plan.Some? && body.plan.value !in plans then Some(Rejection(NOT_FOUND, PlanUnknown))
    else if InInstallments(body) && !(TruthyNumber(body.totalInstallments) && body.totalInstallments.value > 0)
    then Some(Rejection(BAD_REQUEST, InstallmentsRequired))
    else None
  }

  /** Each failing check decides the answer whatever the later lookups would
      find: missing fields before any lookup, a taken kit number before the
      client and supplier, the client before the supplier, the supplier
      before the plan. */
  lemma CreateCheckOrder(body: AntennaBody, antennas: map<Id, Antenna>, users: set<Id>, suppliers: set<Id>,
                         plans: set<Id>, antennas': map<Id, Antenna>, users': set<Id>, suppliers': set<Id>,
                         plans': set<Id>)
    ensures !Truthy(body.kitNumber) || body.client.None? || body.supplier.None? ||
            !Truthy(body.antennaType) || !Truthy(body.purchaseType) ==>
      && CreateCheck(body, antennas, users, suppliers, plans) == Some(Rejection(BAD_REQUEST, FieldsRequired))
      && CreateCheck(body, antennas', users', suppliers', plans') == Some(Rejection(BAD_REQUEST, FieldsRequired))
    ensures CreateCheck(body, antennas, users, suppliers, plans) == Some(Rejection(CONFLICT, KitTaken)) ==>
      CreateCheck(body, antennas, users', suppliers', plans') == Some(Rejection(CONFLICT, KitTaken))
    ensures CreateCheck(body, antennas, users, suppliers, plans) == Some(Rejection(NOT_FOUND, ClientUnknown)) ==>
      CreateCheck(body, antennas, users, suppliers', plans') == Some(Rejection(NOT_FOUND, ClientUnknown))
    ensures CreateCheck(body, antennas, users, suppliers, plans) == Some(Rejection(NOT_FOUND, SupplierUnknown)) ==>
      CreateCheck(body, antennas, users, suppliers, plans') == Some(Rejection(NOT_FOUND, SupplierUnknown))
  {
  }

  /** The document handed to the store: `name` defaults to ""; plan, status and
      dates are copied only when truthy; an installments purchase gets its
      total, its amount (0 when falsy) and a paid count of 0, any other
      purchase gets none of the three. */
  function AntennaDataOf(body: AntennaBody): AntennaData {
    var inInstallments := InInstallments(body);
    AntennaData(
      Some(if Truthy(body.name) then body.name.value else ""),
      body.kitNumber, body.client, body.supplier, body.antennaType, body.purchaseType, body.notes,
      body.plan,
      if Truthy(body.status) then body.status else None,
      body.activationDate, body.deactivationDate,
      if inInstallments then body.totalInstallments else None,
      if inInstallments then Some(if TruthyNumber(body.installmentAmount) then body.installmentAmount.value else 0)
      else None,
      if inInstallments then Some(0) else None)
  }

  /** The new document built from a create body starts with no installment
      paid; only an installments purchase carries a total and an amount. */
  lemma BodyDocument(body: AntennaBody, id: Id, now: Time)
    requires NewDocument(AntennaDataOf(body), id, now).Success?
    ensures var a := NewDocument(AntennaDataOf(body), id, now).value;
      && a.paidInstallments == 0
      && (InInstallments(body) ==> a.totalInstallments == Default(body.totalInstallments))
      && (!InInstallments(body) ==> a.totalInstallments == 0 && a.installmentAmount == 0)
      && (!Truthy(body.status) ==> a.status == Inactive)
      && a.name == (if Truthy(body.name) then Trim(body.name.value) else "")
      && (InInstallments(body) ==>
            a.installmentAmount == (if TruthyNumber(body.installmentAmount) then body.installmentAmount.value else 0))
      && (Truthy(body.status) ==> Some(a.status) == ParseAntennaStatus(body.status.value))
      && a.plan == body.plan
  {
  }

  /** What the schema and the first hook ask of a body that passed the
      checks: a kit number that is not blank, a valid purchase type, a valid
      status when one is sent, an amount that is not negative, and a plan
      for an "active" antenna. */
  predicate Creatable(body: AntennaBody)
    requires body.kitNumber.Some? && body.purchaseType.Some?
  {
    && Trim(body.kitNumber.value) != []
    && ParsePurchaseType(body.purchaseType.value).Some?
    && (Truthy(body.status) ==> ParseAntennaStatus(body.status.value).Some?)
    && (InInstallments(body) && body.installmentAmount.Some? ==> body.installmentAmount.value >= 0)
    && !(body.status == Some("active") && body.plan.None?)
  }

  /** The antenna a create body yields: the body's fields, trimmed and parsed
      by the schema, with the handler's defaults and the first hook's plan rule. */
  predicate CreatedFrom(a: Antenna, body: AntennaBody, id: Id)
    requires body.kitNumber.Some? && body.client.Some? && body.supplier.Some? && body.purchaseType.Some?
  {
    CopiedFrom(a, body, id) && CountersFrom(a, body) && StatusFrom(a, body)
  }

  /** The fields the schema copies from the body, trimmed or parsed. */
  predicate CopiedFrom(a: Antenna, body: AntennaBody, id: Id)
    requires body.kitNumber.Some? && body.client.Some? && body.supplier.Some? && body.purchaseType.Some?
  {
    && a.id == id
    && a.kitNumber == Trim(body.kitNumber.value)
    && a.name == (if Truthy(body.name) then Trim(body.name.value) else "")
    && a.client == body.client.value && a.supplier == body.supplier.value
    && Some(a.purchaseType) == ParsePurchaseType(body.purchaseType.value)
    && a.notes == (if body.notes.Some? then Some(Trim(body.notes.value)) else None)
    && a.activationDate == body.activationDate && a.deactivationDate == body.deactivationDate
  }

  /** The installment counters: none paid, the body's total and amount (0
      when falsy) for an installments purchase, zeros for any other. */
  predicate CountersFrom(a: Antenna, body: AntennaBody) {
    && a.paidInstallments == 0
    && (InInstallments(body) ==>
          && body.totalInstallments.Some? && a.totalInstallments == body.totalInstallments.value
          && a.totalInstallments > 0
          && a.installmentAmount == (if TruthyNumber(body.installmentAmount) then body.installmentAmount.value else 0))
    && (!InInstallments(body) ==> a.totalInstallments == 0 && a.installmentAmount == 0)
  }

  /** The status and the plan: the parsed status when one is sent, otherwise
      inactive without a plan; an active antenna keeps the body's plan. */
  predicate StatusFrom(a: Antenna, body: AntennaBody) {
    && PlanMatchesStatus(a) && WithinBounds(a)
    && (!Truthy(body.status) ==> a.status == Inactive && a.plan.None?)
    && (Truthy(body.status) ==> Some(a.status) == ParseAntennaStatus(body.status.value))
    && (a.status == Active ==> a.plan == body.plan)
  }

  /** Once the checks pass, the save of a create body succeeds exactly when
      the schema accepts the body's kit number, purchase type, status and
      amount and the first hook finds a plan for an "active" antenna; the
      kit number is then free, so the unique index never refuses it. */
  lemma CreateSaves(antennas: map<Id, Antenna>, users: set<Id>, suppliers: set<Id>, plans: set<Id>,
                    body: AntennaBody, id: Id, now: Time)
    requires CreateCheck(body, antennas, users, suppliers, plans).None?
    ensures var saved := SaveNew(antennas, AntennaDataOf(body), id, now);
      && (saved.Success? <==> Creatable(body))
      && saved != Failure(DuplicateKey)
  {
    var data := AntennaDataOf(body);
    var doc := NewDocument(data, id, now);
    assert Default(data.paidInstallments) == 0;
    assert InInstallments(body) ==> Default(data.totalInstallments) > 0;
    assert doc.Success? <==>
      && Trim(body.kitNumber.value) != []
      && ParsePurchaseType(body.purchaseType.value).Some?
      && (Truthy(body.status) ==> ParseAntennaStatus(body.status.value).Some?)
      && (InInstallments(body) && body.installmentAmount.Some? ==> body.installmentAmount.value >= 0);
    if doc.Success? {
      assert doc.value.kitNumber == Trim(body.kitNumber.value);
      if body.status == Some("active") {
        assert ParseAntennaStatus("active") == Some(Active);
      }
      assert doc.value.status == Active <==> body.status == Some("active");
      assert PreSave(doc.value).Success? <==> !(body.status == Some("active") && body.plan.None?);
    }
  }

  /** What a successful save of a create body stores: the body's fields,
      trimmed and parsed by the schema, with the handler's defaults. */
  lemma SavedFromBody(antennas: map<Id, Antenna>, users: set<Id>, suppliers: set<Id>, plans: set<Id>,
                      body: AntennaBody, id: Id, now: Time)
    requires CreateCheck(body, antennas, users, suppliers, plans).None?
    requires SaveNew(antennas, AntennaDataOf(body), id, now).Success?
    ensures CreatedFrom(SaveNew(antennas, AntennaDataOf(body), id, now).value, body, id)
  {
    var data := AntennaDataOf(body);
    var doc := NewDocument(data, id, now).value;
    var a := SaveNew(antennas, data, id, now).value;
    assert PreSave(doc).Success? && a == PreSave(doc).value;
    DocumentCreatedFrom(body, id, now, a);
  }

  /** The step of `SavedFromBody` past the store: a document built from the
      body whose plan the first hook has settled is `CreatedFrom` the body. */
  lemma DocumentCreatedFrom(body: AntennaBody, id: Id, now: Time, a: Antenna)
    requires body.kitNumber.Some? && body.client.Some? && body.supplier.Some? && body.purchaseType.Some?
    requires InInstallments(body) ==> body.totalInstallments.Some? && body.totalInstallments.value > 0
    requires NewDocument(AntennaDataOf(body), id, now).Success?
    requires a == NewDocument(AntennaDataOf(body), id, now).value.(plan := a.plan)
    requires PlanMatchesStatus(a)
    requires a.status == Active ==> a.plan == body.plan
    ensures CreatedFrom(a, body, id)
  {
    DocumentCopied(body, id, now, a);
    DocumentCounters(body, id, now, a);
    DocumentStatus(body, id, now, a);
  }

  /** The copied fields of `CreatedFrom`. */
  lemma DocumentCopied(body: AntennaBody, id: Id, now: Time, a: Antenna)
    requires body.kitNumber.Some? && body.client.Some? && body.supplier.Some? && body.purchaseType.Some?
    requires NewDocument(AntennaDataOf(body), id, now).Success?
    requires a == NewDocument(AntennaDataOf(body), id, now).value.(plan := a.plan)
    ensures CopiedFrom(a, body, id)
  {
    BodyDocument(body, id, now);
  }

  /** The installment counters of `CreatedFrom`. */
  lemma DocumentCounters(body: AntennaBody, id: Id, now: Time, a: Antenna)
    requires InInstallments(body) ==> body.totalInstallments.Some? && body.totalInstallments.value > 0
    requires NewDocument(AntennaDataOf(body), id, now).Success?
    requires a == NewDocument(AntennaDataOf(body), id, now).value.(plan := a.plan)
    ensures CountersFrom(a, body)
  {
    BodyDocument(body, id, now);
  }

  /** The status and plan of `CreatedFrom`. */
  lemma DocumentStatus(body: AntennaBody, id: Id, now: Time, a: Antenna)
    requires NewDocument(AntennaDataOf(body), id, now).Success?
    requires a == NewDocument(AntennaDataOf(body), id, now).value.(plan := a.plan)
    requires PlanMatchesStatus(a)
    requires a.status == Active ==> a.plan == body.plan
    ensures StatusFrom(a, body)
  {
    var data := AntennaDataOf(body);
    var doc := NewDocument(data, id, now).value;
    assert WithinBounds(doc) && a.kitNumber == doc.kitNumber && a.status == doc.status;
    if Truthy(body.status) {
      assert data.status == body.status;
    } else {
      assert data.status.None?;
    }
  }

  /** The answer of `createAntenna`: a rejection of the chain; otherwise 201
      with the saved antenna, 409 when the unique index refuses it, and 500
      for any other refusal of the schema or the hooks. */
  function CreateReply(antennas: map<Id, Antenna>, users: set<Id>, suppliers: set<Id>, plans: set<Id>,
                       body: AntennaBody, id: Id, now: Time): (r: Reply<Antenna>)
    ensures CreateCheck(body, antennas, users, suppliers, plans).Some? ==>
      var c := CreateCheck(body, antennas, users, suppliers, plans).value;
      r == Fail(c.code, c.message)
    ensures r.Fail? && CreateCheck(body, antennas, users, suppliers, plans).None? ==>
      r == Fail(SERVER_ERROR, InternalError)
    ensures r.Ok? ==> r.code == CREATED && CreatedFrom(r.value, body, id)
    ensures r.Ok? <==> CreateCheck(body, antennas, users, suppliers, plans).None? && Creatable(body)
  {
    var check := CreateCheck(body, antennas, users, suppliers, plans);
    if check.Some? then Fail(check.value.code, check.value.message)
    else SaveReply(antennas, users, suppliers, plans, body, id, now)
  }

  /** The second half of `createAntenna`, once the checks have passed: the
      store's answer to saving the document built from the body. The checks
      already refused a taken kit number, so the 409 branch is never taken
      here and every refusal is the hook's 500. */
  function SaveReply(antennas: map<Id, Antenna>, users: set<Id>, suppliers: set<Id>, plans: set<Id>,
                     body: AntennaBody, id: Id, now: Time): (r: Reply<Antenna>)
    requires CreateCheck(body, antennas, users, suppliers, plans).None?
    ensures r.Ok? <==> Creatable(body)
    ensures r.Ok? ==> r.code == CREATED && CreatedFrom(r.value, body, id)
    ensures r.Fail? ==> r == Fail(SERVER_ERROR, InternalError)
  {
    var saved := SaveNew(antennas, AntennaDataOf(body), id, now);
    CreateSaves(antennas, users, suppliers, plans, body, id, now);
    if saved.Success? then
      SavedFromBody(antennas, users, suppliers, plans, body, id, now);
      Ok(CREATED, saved.value)
    else if saved.error == DuplicateKey then Fail(CONFLICT, KitTaken)
    else Fail(SERVER_ERROR, InternalError)
  }

  /** An antenna created with a plan but no status is saved inactive, so the
      first hook drops the plan; one created "active" without a plan is
      refused by that hook with 500. */
  lemma CreatePlanRule(antennas: map<Id, Antenna>, users: set<Id>, suppliers: set<Id>, plans: set<Id>,
                       body: AntennaBody, id: Id, now: Time)
    requires CreateCheck(body, antennas, users, suppliers, plans).None?
    ensures body.status == Some("active") && body.plan.None? ==>
      CreateReply(antennas, users, suppliers, plans, body, id, now) == Fail(SERVER_ERROR, InternalError)
    ensures !Truthy(body.status) && CreateReply(antennas, users, suppliers, plans, body, id, now).Ok? ==>
      CreateReply(antennas, users, suppliers, plans, body, id, now).value.plan.None?
  {
    var data := AntennaDataOf(body);
    if body.status == Some("active") && body.plan.None? {
      assert data.status == Some("active") && data.plan.None?;
      var doc := NewDocument(data, id, now);
      if doc.Success? {
        assert ParseAntennaStatus("active") == Some(Active);
        assert doc.value.status == Active && doc.value.plan.None?;
        assert PreSave(doc.value).Failure?;
      }
    }
  }

  /** `createAntenna`: builds the document field by field, then saves it. */
  method CreateAntenna(antennas: AntennaCollection, users: set<Id>, suppliers: set<Id>, plans: set<Id>,
                       body: AntennaBody, id: Id, now: Time) returns (reply: Reply<Antenna>)
    requires antennas.Valid() && id !in antennas.records
    modifies antennas
    ensures antennas.Valid()
    ensures reply == CreateReply(old(antennas.records), users, suppliers, plans, body, id, now)
    ensures antennas.records == if reply.Ok? then old(antennas.records)[id := reply.value] else old(antennas.records)
  {
    var check := CreateCheck(body, antennas.records, users, suppliers, plans);
    if check.Some? {
      return Fail(check.value.code, check.value.message);
    }
    var antennaData := AntennaData(
      Some(if Truthy(body.name) then body.name.value else ""),
      body.kitNumber, body.client, body.supplier, body.antennaType, body.purchaseType, body.notes,
      None, None, None, None, None, None, None);
    if body.plan.Some? {
      antennaData := antennaData.(plan := body.plan);
    }
    if Truthy(body.status) {
      antennaData := antennaData.(status := body.status);
    }
    if body.activationDate.Some? {
      antennaData := antennaData.(activationDate := body.activationDate);
    }
    if body.deactivationDate.Some? {
      antennaData := antennaData.(deactivationDate := body.deactivationDate);
    }
    if InInstallments(body) {
      antennaData := antennaData.(totalInstallments := body.totalInstallments);
      antennaData := antennaData.(installmentAmount :=
        Some(if TruthyNumber(body.installmentAmount) then body.installmentAmount.value else 0));
      antennaData := antennaData.(paidInstallments := Some(0));
    }
    assert antennaData == AntennaDataOf(body);
    var saved := antennas.Create(antennaData, id, now);
    if saved.Success? {
      return Ok(CREATED, saved.value);
    } else if saved.error == DuplicateKey {
      return Fail(CONFLICT, KitTaken);
    }
    return Fail(SERVER_ERROR, InternalError);
  }

  // ---------------------------------------------------------------------------
  // updateAntenna

  /** The answer of `updateAntenna`: 404 for an unknown client or supplier
      given in the body (in that order); then the store's answer: 500 for a
      refused document, 404 for an unknown id, 409 for a taken kit number,
      200 with the updated antenna. */
  function UpdateReply(antennas: map<Id, Antenna>, users: set<Id>, suppliers: set<Id>, id: Id,
                       u: AntennaUpdate, now: Time): (r: Reply<Antenna>)
    requires WellFormed(antennas)
    ensures u.client.Some? && u.client.value !in users ==> r == Fail(NOT_FOUND, ClientUnknown)
    ensures (u.client.Some? ==> u.client.value in users) && u.supplier.Some? && u.supplier.value !in suppliers ==>
      r == Fail(NOT_FOUND, SupplierUnknown)
    ensures (u.client.Some? ==> u.client.value in users) && (u.supplier.Some? ==> u.supplier.value in suppliers) ==>
      && (!UpdateIsValid(u) ==> r == Fail(SERVER_ERROR, InternalError))
      && (UpdateIsValid(u) && id !in antennas ==> r == Fail(NOT_FOUND, AntennaNotFoundMessage))
      && ((UpdateIsValid(u) && id in antennas && u.kitNumber.Some?
           && KitNumberTaken(antennas, Trim(u.kitNumber.value), Some(id))) ==> r == Fail(CONFLICT, KitTaken))
    ensures r.Ok? <==>
      && (u.client.Some? ==> u.client.value in users) && (u.supplier.Some? ==> u.supplier.value in suppliers)
      && UpdateIsValid(u) && id in antennas
      && !(u.kitNumber.Some? && KitNumberTaken(antennas, Trim(u.kitNumber.value), Some(id)))
    ensures r.Ok? ==> r.code == OK && r.value == ApplyUpdate(antennas[id], u, now)
  {
    if u.client.Some? && u.client.value !in users then Fail(NOT_FOUND, ClientUnknown)
    else if u.supplier.Some? && u.supplier.value !in suppliers then Fail(NOT_FOUND, SupplierUnknown)
    else if !UpdateIsValid(u) then Fail(SERVER_ERROR, InternalError)
    else if id !in antennas then Fail(NOT_FOUND, AntennaNotFoundMessage)
    else if u.kitNumber.Some? && KitNumberTaken(antennas, Trim(u.kitNumber.value), Some(id)) then Fail(CONFLICT, KitTaken)
    else Ok(OK, ApplyUpdate(antennas[id], u, now))
  }

  /** `updateAntenna`. */
  method UpdateAntenna(antennas: AntennaCollection, users: set<Id>, suppliers: set<Id>, id: Id,
                       u: AntennaUpdate, now: Time) returns (reply: Reply<Antenna>)
    requires antennas.Valid()
    modifies antennas
    ensures antennas.Valid()
    ensures reply == UpdateReply(old(antennas.records), users, suppliers, id, u, now)
    ensures antennas.records == if reply.Ok? then old(antennas.records)[id := reply.value] else old(antennas.records)
  {
    if u.client.Some? && u.client.value !in users {
      return Fail(NOT_FOUND, ClientUnknown);
    }
    if u.supplier.Some? && u.supplier.value !in suppliers {
      return Fail(NOT_FOUND, SupplierUnknown);
    }
    var result := antennas.UpdateById(id, u, now);
    if result.Failure? {
      if result.error == DuplicateKey {
        return Fail(CONFLICT, KitTaken);
      }
      return Fail(SERVER_ERROR, InternalError);
    }
    if result.value.None? {
      return Fail(NOT_FOUND, AntennaNotFoundMessage);
    }
    return Ok(OK, result.value.value);
  }

  // ---------------------------------------------------------------------------
  // activateAntenna, deactivateAntenna

  /** The answer of `activateAntenna`: 400 without a plan id, 404 for an unknown
      plan, 404 for an unknown antenna, otherwise 200 with the activated antenna. */
  function ActivateReply(antennas: map<Id, Antenna>, plans: set<Id>, id: Id, planId: Option<Id>, now: Time)
    : (r: Reply<Antenna>)
    ensures planId.None? ==> r == Fail(BAD_REQUEST, PlanRequired)
    ensures planId.Some? && planId.value !in plans ==> r == Fail(NOT_FOUND, PlanUnknown)
    ensures planId.Some? && planId.value in plans && id !in antennas ==> r == Fail(NOT_FOUND, AntennaNotFoundMessage)
    ensures r.Ok? <==> planId.Some? && planId.value in plans && id in antennas
    ensures r.Ok? ==> r.value == Activated(antennas[id], planId.value, now)
    ensures r.Ok? ==>
      && r.code == OK && r.value.status == Active && r.value.plan == planId
      && r.value.activationDate == Some(now) && r.value.deactivationDate.None?
      && PlanMatchesStatus(r.value)
  {
    if planId.None? then Fail(BAD_REQUEST, PlanRequired)
    else if planId.value !in plans then Fail(NOT_FOUND, PlanUnknown)
    else if id !in antennas then Fail(NOT_FOUND, AntennaNotFoundMessage)
    else Ok(OK, Activated(antennas[id], planId.value, now))
  }

  /** `activateAntenna`: the plan is checked before the antenna is touched. */
  method ActivateAntenna(antennas: AntennaCollection, plans: set<Id>, id: Id, planId: Option<Id>, now: Time)
    returns (reply: Reply<Antenna>)
    requires antennas.Valid()
    modifies antennas
    ensures antennas.Valid()
    ensures reply == ActivateReply(old(antennas.records), plans, id, planId, now)
    ensures antennas.records == if reply.Ok? then old(antennas.records)[id := reply.value] else old(antennas.records)
  {
    if planId.None? {
      return Fail(BAD_REQUEST, PlanRequired);
    }
    if planId.value !in plans {
      return Fail(NOT_FOUND, PlanUnknown);
    }
    var antenna := antennas.Activate(id, planId.value, now);
    if antenna.None? {
      return Fail(NOT_FOUND, AntennaNotFoundMessage);
    }
    return Ok(OK, antenna.value);
  }

  /** The answer of `deactivateAntenna`: 404 for an unknown antenna, otherwise
      200 with the deactivated antenna. */
  function DeactivateReply(antennas: map<Id, Antenna>, id: Id, now: Time): (r: Reply<Antenna>)
    ensures r.Ok? <==> id in antennas
    ensures r.Fail? ==> r == Fail(NOT_FOUND, AntennaNotFoundMessage)
    ensures r.Ok? ==>
      && r.code == OK && r.value.status == Inactive && r.value.plan.None?
      && r.value.deactivationDate == Some(now) && r.value.activationDate == antennas[id].activationDate
    ensures r.Ok? ==> r.value == Deactivated(antennas[id], now)
  {
    if id !in antennas then Fail(NOT_FOUND, AntennaNotFoundMessage)
    else Ok(OK, Deactivated(antennas[id], now))
  }

  /** `deactivateAntenna`. */
  method DeactivateAntenna(antennas: AntennaCollection, id: Id, now: Time) returns (reply: Reply<Antenna>)
    requires antennas.Valid()
    modifies antennas
    ensures antennas.Valid()
    ensures reply == DeactivateReply(old(antennas.records), id, now)
    ensures antennas.records == if reply.Ok? then old(antennas.records)[id := reply.value] else old(antennas.records)
  {
    var antenna := antennas.Deactivate(id, now);
    if antenna.None? {
      return Fail(NOT_FOUND, AntennaNotFoundMessage);
    }
    return Ok(OK, antenna.value);
  }

  // ---------------------------------------------------------------------------
  // registerInstallmentPayment

  /** The success body of a payment: a message, the antenna and the number of
      installments still to pay. */
  datatype Receipt = Receipt(message: string, antenna: Antenna, remainingInstallments: int)

  /** The status code a payment error is answered with: "not found" is 404, the
      two refusals of the counter are 400, anything else is 500. */
  function PaymentCode(e: PaymentError): (code: int)
    ensures code == NOT_FOUND <==> e == AntennaNotFound
    ensures code == BAD_REQUEST <==> e == NotInstallments || e == AllPaid
    ensures code == SERVER_ERROR <==> e.SaveRejected?
  {
    match e
    case AntennaNotFound => NOT_FOUND
    case NotInstallments => BAD_REQUEST
    case AllPaid => BAD_REQUEST
    case SaveRejected(_) => SERVER_ERROR
  }

  /** `s` occurs in `text` at position `i`. */
  predicate OccursAt(text: string, s: string, i: int) {
    0 <= i <= |text| - |s| && text[i..i + |s|] == s
  }

  /** `s` occurs in `text` (the handler's `includes`). */
  ghost predicate Contains(text: string, s: string) {
    exists i :: OccursAt(text, s, i)
  }

  /** A message that ends with a phrase contains it. */
  lemma ContainsSuffix(text: string, prefix: string, s: string)
    requires text == prefix + s
    ensures Contains(text, s)
  {
    assert text[|prefix|..|prefix| + |s|] == s;
    assert OccursAt(text, s, |prefix|);
  }

  /** "Antena no encontrada" carries "no encontrada". */
  lemma NotFoundCarriesPhrase()
    ensures Contains(PaymentMessage(AntennaNotFound), "no encontrada")
  {
    ContainsSuffix(PaymentMessage(AntennaNotFound), "Antena ", "no encontrada");
  }

  /** The not-installments refusal carries "no fue adquirida en cuotas". */
  lemma NotInstallmentsCarriesPhrase()
    ensures Contains(PaymentMessage(NotInstallments), "no fue adquirida en cuotas")
  {
    ContainsSuffix(PaymentMessage(NotInstallments), "Esta antena ", "no fue adquirida en cuotas");
  }

  /** The all-paid refusal carries "ya han sido pagadas". */
  lemma AllPaidCarriesPhrase()
    ensures Contains(PaymentMessage(AllPaid), "ya han sido pagadas")
  {
    ContainsSuffix(PaymentMessage(AllPaid), "Todas las cuotas ", "ya han sido pagadas");
  }

  /** The outcome of the store's payment for an id. */
  function PaymentOutcome(antennas: map<Id, Antenna>, id: Id, now: Time): Payment {
    if id in antennas then PayInstallment(antennas[id], now) else Refused(AntennaNotFound)
  }

  /** The answer of `registerInstallmentPayment`: 200 with the receipt, or the
      error's own message under its code (500 hides the message). */
  function PaymentReply(antennas: map<Id, Antenna>, id: Id, now: Time): (r: Reply<Receipt>)
    requires WellFormed(antennas)
    ensures id !in antennas ==> r == Fail(NOT_FOUND, AntennaNotFoundMessage)
    ensures r.Ok? ==>
      && id in antennas && r.code == OK && r.value.message == PaymentRegistered
      && r.value.antenna.paidInstallments == antennas[id].paidInstallments + 1
      && r.value.remainingInstallments == antennas[id].totalInstallments - antennas[id].paidInstallments - 1
      && 0 <= r.value.remainingInstallments
    ensures r.Ok? <==> PaymentOutcome(antennas, id, now).Paid?
    ensures r.Ok? ==> r.value.antenna == PaymentOutcome(antennas, id, now).antenna
    ensures r.Fail? ==> r.code == PaymentCode(PaymentOutcome(antennas, id, now).error)
    ensures r.Fail? && r.code != SERVER_ERROR ==> r.message == PaymentMessage(PaymentOutcome(antennas, id, now).error)
    ensures r.Fail? && r.code == SERVER_ERROR ==> r.message == InternalError
  {
    var p := PaymentOutcome(antennas, id, now);
    if p.Paid? then
      Ok(OK, Receipt(PaymentRegistered, p.antenna, p.antenna.totalInstallments - p.antenna.paidInstallments))
    else if PaymentCode(p.error) == SERVER_ERROR then Fail(SERVER_ERROR, InternalError)
    else Fail(PaymentCode(p.error), PaymentMessage(p.error))
  }

  /** Paying every remaining installment one by one empties the counter: after
      a successful payment the remaining count is one less, and a payment with
      nothing remaining is refused with 400. */
  lemma PaymentCountsDown(antennas: map<Id, Antenna>, id: Id, now: Time)
    requires WellFormed(antennas) && id in antennas
    requires antennas[id].purchaseType == Installments
    ensures antennas[id].paidInstallments >= antennas[id].totalInstallments ==>
      PaymentReply(antennas, id, now) == Fail(BAD_REQUEST, PaymentMessage(AllPaid))
    ensures PaymentReply(antennas, id, now).Ok? ==>
      PaymentReply(antennas, id, now).value.remainingInstallments <
        antennas[id].totalInstallments - antennas[id].paidInstallments
  {
  }

  /** `registerInstallmentPayment`. */
  method RegisterInstallmentPayment(antennas: AntennaCollection, id: Id, now: Time) returns (reply: Reply<Receipt>)
    requires antennas.Valid()
    modifies antennas
    ensures antennas.Valid()
    ensures reply == PaymentReply(old(antennas.records), id, now)
    ensures antennas.records == if reply.Ok? then old(antennas.records)[id := reply.value.antenna] else old(antennas.records)
  {
    var payment := antennas.RegisterInstallmentPayment(id, now);
    if payment.Paid? {
      var antenna := payment.antenna;
      return Ok(OK, Receipt(PaymentRegistered, antenna, antenna.totalInstallments - antenna.paidInstallments));
    }
    var code := PaymentCode(payment.error);
    if code == SERVER_ERROR {
      return Fail(SERVER_ERROR, InternalError);
    }
    return Fail(code, PaymentMessage(payment.error));
  }
}
