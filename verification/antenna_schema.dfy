/** The antenna record: purchase types and statuses, field defaults and bounds,
    and the two pre-save hooks (an active antenna needs a plan, an inactive one
    has none; an installments purchase needs a positive number of installments). */
module AntennaSchema {
  import opened Common

  datatype PurchaseType = Comodato | OnePayment | Installments

  datatype AntennaStatus = Active | Inactive

  function ParsePurchaseType(s: string): (r: Option<PurchaseType>)
    ensures r.Some? <==> s == "comodato" || s == "one_payment" || s == "installments"
    ensures r == Some(Installments) <==> s == "installments"
  {
    if s == "comodato" then Some(Comodato)
    else if s == "one_payment" then Some(OnePayment)
    else if s == "installments" then Some(Installments)
    else None
  }

  function ParseAntennaStatus(s: string): (r: Option<AntennaStatus>)
    ensures r.Some? <==> s == "active" || s == "inactive"
    ensures r == Some(Active) <==> s == "active"
  {
    if s == "active" then Some(Active)
    else if s == "inactive" then Some(Inactive)
    else None
  }

  /** A stored antenna. Counters are whole numbers here; `createdAt` and
      `updatedAt` come from the schema's `timestamps` option. */
  datatype Antenna = Antenna(
    id: Id,
    name: string,
    kitNumber: string,
    client: Id,
    supplier: Id,
    purchaseType: PurchaseType,
    paidInstallments: int,
    totalInstallments: int,
    installmentAmount: int,
    status: AntennaStatus,
    plan: Option<Id>,
    activationDate: Option<Time>,
    deactivationDate: Option<Time>,
    notes: Option<string>,
    createdAt: Time,
    updatedAt: Time)

  /** The fields handed to `Antenna.create`; `purchaseType` and `status` are
      raw strings. `antennaType` (the body's `type`) is not a schema path and
      is dropped on save. */
  datatype AntennaData = AntennaData(
    name: Option<string>,
    kitNumber: Option<string>,
    client: Option<Id>,
    supplier: Option<Id>,
    antennaType: Option<string>,
    purchaseType: Option<string>,
    notes: Option<string>,
    plan: Option<Id>,
    status: Option<string>,
    activationDate: Option<Time>,
    deactivationDate: Option<Time>,
    totalInstallments: Option<int>,
    installmentAmount: Option<int>,
    paidInstallments: Option<int>)

  /** An update document for `updateById`; absent fields are left as they are. */
  datatype AntennaUpdate = AntennaUpdate(
    name: Option<string>,
    kitNumber: Option<string>,
    client: Option<Id>,
    supplier: Option<Id>,
    purchaseType: Option<string>,
    paidInstallments: Option<int>,
    totalInstallments: Option<int>,
    installmentAmount: Option<int>,
    status: Option<string>,
    plan: Option<Id>,
    activationDate: Option<Time>,
    deactivationDate: Option<Time>,
    notes: Option<string>)

  const ValidationFailed: string := "Antenna validation failed"
  const ActiveNeedsPlan: string := "Una antena activada debe tener un plan asignado"
  const InstallmentsNeedTotal: string :=
    "Si la forma de compra es en cuotas, debe especificar la cantidad de cuotas totales"

  /** The first hook's rule, as it holds of every antenna the hook lets through. */
  predicate PlanMatchesStatus(a: Antenna) {
    (a.status == Active ==> a.plan.Some?) && (a.status == Inactive ==> a.plan.None?)
  }

  /** The field bounds (`min: 0`) and the required, trimmed kit number. */
  predicate WithinBounds(a: Antenna) {
    && a.paidInstallments >= 0 && a.totalInstallments >= 0 && a.installmentAmount >= 0
    && a.kitNumber != [] && Trimmed(a.kitNumber)
  }

  function Default(o: Option<int>): int { if o.Some? then o.value else 0 }

  /** `new AntennaModel(data)` followed by schema validation: required paths,
      enumerations, `min: 0` bounds; absent fields take their defaults (status
      inactive, no plan, no dates, counters 0, name ""); strings are trimmed. */
  function NewDocument(data: AntennaData, id: Id, now: Time): (r: Result<Antenna>)
    ensures r.Success? <==>
      && data.kitNumber.Some? && Trim(data.kitNumber.value) != []
      && data.client.Some? && data.supplier.Some?
      && data.purchaseType.Some? && ParsePurchaseType(data.purchaseType.value).Some?
      && (data.status.Some? ==> ParseAntennaStatus(data.status.value).Some?)
      && Default(data.paidInstallments) >= 0 && Default(data.totalInstallments) >= 0
      && Default(data.installmentAmount) >= 0
    ensures r.Success? ==>
      && WithinBounds(r.value)
      && r.value.id == id && r.value.createdAt == now && r.value.updatedAt == now
      && (data.status.None? ==> r.value.status == Inactive)
      && r.value.plan == data.plan
      && r.value.activationDate == data.activationDate
      && r.value.deactivationDate == data.deactivationDate
      && r.value.name == (if data.name.Some? then Trim(data.name.value) else "")
      && r.value.kitNumber == Trim(data.kitNumber.value)
      && r.value.client == data.client.value && r.value.supplier == data.supplier.value
      && Some(r.value.purchaseType) == ParsePurchaseType(data.purchaseType.value)
      && (data.status.Some? ==> Some(r.value.status) == ParseAntennaStatus(data.status.value))
      && r.value.notes == (if data.notes.Some? then Some(Trim(data.notes.value)) else None)
      && r.value.paidInstallments == Default(data.paidInstallments)
      && r.value.totalInstallments == Default(data.totalInstallments)
      && r.value.installmentAmount == Default(data.installmentAmount)
  {
    if || data.kitNumber.None? || Trim(data.kitNumber.value) == []
       || data.client.None? || data.supplier.None?
       || data.purchaseType.None? || ParsePurchaseType(data.purchaseType.value).None?
       || (data.status.Some? && ParseAntennaStatus(data.status.value).None?)
       || Default(data.paidInstallments) < 0 || Default(data.totalInstallments) < 0
       || Default(data.installmentAmount) < 0
    then Failure(Invalid(ValidationFailed))
    else
      var status := if data.status.Some? then ParseAntennaStatus(data.status.value).value else Inactive;
      var kit := Trim(data.kitNumber.value);
      Success(Antenna(id, if data.name.Some? then Trim(data.name.value) else "", kit,
                      data.client.value, data.supplier.value,
                      ParsePurchaseType(data.purchaseType.value).value,
                      Default(data.paidInstallments), Default(data.totalInstallments),
                      Default(data.installmentAmount), status, data.plan,
                      data.activationDate, data.deactivationDate,
                      if data.notes.Some? then Some(Trim(data.notes.value)) else None,
                      now, now))
  }

  /** The two pre-save hooks, in order: an active antenna without a plan is
      refused, an inactive one has its plan cleared; then an installments
      purchase without a positive number of installments is refused. */
  function PreSave(doc: Antenna): (r: Result<Antenna>)
    ensures r.Success? <==>
      !(doc.status == Active && doc.plan.None?)
      && !(doc.purchaseType == Installments && doc.totalInstallments <= 0)
    ensures r.Success? ==>
      && PlanMatchesStatus(r.value)
      && (r.value.purchaseType == Installments ==> r.value.totalInstallments > 0)
      && r.value == doc.(plan := r.value.plan)
      && (doc.status == Active ==> r.value.plan == doc.plan)
  {
    if doc.status == Active && doc.plan.None? then
      Failure(Invalid(ActiveNeedsPlan))
    else
      var d := if doc.status == Inactive then doc.(plan := None) else doc;
      if d.purchaseType == Installments && d.totalInstallments <= 0 then
        Failure(Invalid(InstallmentsNeedTotal))
      else
        Success(d)
  }

  /** The update validators (`runValidators: true`) for an `updateById` document. */
  predicate UpdateIsValid(u: AntennaUpdate) {
    && (u.kitNumber.Some? ==> Trim(u.kitNumber.value) != [])
    && (u.purchaseType.Some? ==> ParsePurchaseType(u.purchaseType.value).Some?)
    && (u.status.Some? ==> ParseAntennaStatus(u.status.value).Some?)
    && (u.paidInstallments.Some? ==> u.paidInstallments.value >= 0)
    && (u.totalInstallments.Some? ==> u.totalInstallments.value >= 0)
    && (u.installmentAmount.Some? ==> u.installmentAmount.value >= 0)
  }

  function Override<T>(given: Option<T>, stored: T): T {
    if given.Some? then given.value else stored
  }

  /** `findByIdAndUpdate` with a valid document: given fields overwrite, the
      others are kept. Update queries do not run the pre-save hooks. */
  function ApplyUpdate(a: Antenna, u: AntennaUpdate, now: Time): (a': Antenna)
    requires UpdateIsValid(u)
    requires WithinBounds(a)
    ensures WithinBounds(a')
    ensures a'.id == a.id && a'.createdAt == a.createdAt && a'.updatedAt == now
    ensures u.status.None? ==> a'.status == a.status
    ensures u.plan.None? ==> a'.plan == a.plan
    ensures u.kitNumber.None? ==> a'.kitNumber == a.kitNumber
  {
    var kit := if u.kitNumber.Some? then Trim(u.kitNumber.value) else a.kitNumber;
    var paid := Override(u.paidInstallments, a.paidInstallments);
    var total := Override(u.totalInstallments, a.totalInstallments);
    var amount := Override(u.installmentAmount, a.installmentAmount);
    assert kit != [] && Trimmed(kit);
    assert paid >= 0 && total >= 0 && amount >= 0;
    Antenna(a.id,
            if u.name.Some? then Trim(u.name.value) else a.name,
            kit,
            Override(u.client, a.client), Override(u.supplier, a.supplier),
            if u.purchaseType.Some? then ParsePurchaseType(u.purchaseType.value).value else a.purchaseType,
            paid, total, amount,
            if u.status.Some? then ParseAntennaStatus(u.status.value).value else a.status,
            if u.plan.Some? then u.plan else a.plan,
            if u.activationDate.Some? then u.activationDate else a.activationDate,
            if u.deactivationDate.Some? then u.deactivationDate else a.deactivationDate,
            if u.notes.Some? then Some(Trim(u.notes.value)) else a.notes,
            a.createdAt, now)
  }

  /** `findByIdAndUpdate` writes each given field (strings trimmed,
      enumerations parsed) and keeps each absent one. */
  lemma ApplyUpdateFields(a: Antenna, u: AntennaUpdate, now: Time)
    requires UpdateIsValid(u) && WithinBounds(a)
    ensures var a' := ApplyUpdate(a, u, now);
      && a'.name == (if u.name.Some? then Trim(u.name.value) else a.name)
      && a'.kitNumber == (if u.kitNumber.Some? then Trim(u.kitNumber.value) else a.kitNumber)
      && a'.client == Override(u.client, a.client) && a'.supplier == Override(u.supplier, a.supplier)
      && (u.purchaseType.Some? ==> Some(a'.purchaseType) == ParsePurchaseType(u.purchaseType.value))
      && (u.purchaseType.None? ==> a'.purchaseType == a.purchaseType)
      && a'.paidInstallments == Override(u.paidInstallments, a.paidInstallments)
      && a'.totalInstallments == Override(u.totalInstallments, a.totalInstallments)
      && a'.installmentAmount == Override(u.installmentAmount, a.installmentAmount)
      && (u.status.Some? ==> Some(a'.status) == ParseAntennaStatus(u.status.value))
      && a'.plan == (if u.plan.Some? then u.plan else a.plan)
      && a'.activationDate == (if u.activationDate.Some? then u.activationDate else a.activationDate)
      && a'.deactivationDate == (if u.deactivationDate.Some? then u.deactivationDate else a.deactivationDate)
      && a'.notes == (if u.notes.Some? then Some(Trim(u.notes.value)) else a.notes)
  {
  }

  /** `updateById` does not run the pre-save hooks, so it can leave an active
      antenna without a plan. */
  lemma UpdateCanBreakPlanRule(a: Antenna, now: Time)
    requires WithinBounds(a) && a.plan.None?
    ensures var u := AntennaUpdate(None, None, None, None, None, None, None, None,
                                   Some("active"), None, None, None, None);
      UpdateIsValid(u) && !PlanMatchesStatus(ApplyUpdate(a, u, now))
  {
    var u := AntennaUpdate(None, None, None, None, None, None, None, None,
                           Some("active"), None, None, None, None);
    assert ParseAntennaStatus("active") == Some(Active);
  }

  /** `activate`: status active, the given plan, activation stamped, deactivation cleared. */
  function Activated(a: Antenna, planId: Id, now: Time): (a': Antenna)
    ensures PlanMatchesStatus(a')
    ensures a'.status == Active && a'.plan == Some(planId)
    ensures a'.activationDate == Some(now) && a'.deactivationDate.None?
    ensures a'.(status := a.status, plan := a.plan, activationDate := a.activationDate,
                deactivationDate := a.deactivationDate, updatedAt := a.updatedAt) == a
  {
    a.(status := Active, plan := Some(planId), activationDate := Some(now),
       deactivationDate := None, updatedAt := now)
  }

  /** `deactivate`: status inactive, no plan, deactivation stamped, activation date kept. */
  function Deactivated(a: Antenna, now: Time): (a': Antenna)
    ensures PlanMatchesStatus(a')
    ensures a'.status == Inactive && a'.plan.None?
    ensures a'.deactivationDate == Some(now) && a'.activationDate == a.activationDate
    ensures a'.(status := a.status, plan := a.plan, deactivationDate := a.deactivationDate,
                updatedAt := a.updatedAt) == a
  {
    a.(status := Inactive, plan := None, deactivationDate := Some(now), updatedAt := now)
  }
}
