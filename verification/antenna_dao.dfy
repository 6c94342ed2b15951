/** The antenna data-access object: a collection of antenna records keyed by id,
    with `create` (schema, hooks, unique kit number), `updateById`, the two
    single-update state changes `activate` and `deactivate`, and the
    installment counter `registerInstallmentPayment`. */
module AntennaDao {
  import opened Common
  import opened AntennaSchema

  /** `findByKitNumber` finds a record: some antenna other than `except` already
      holds that (stored, so already trimmed) kit number. */
  predicate KitNumberTaken(records: map<Id, Antenna>, kit: string, except: Option<Id>) {
    exists id: Id | id in records :: records[id].kitNumber == kit && (except.None? || except.value != id)
  }

  /** `create`: a new document, validated, through the pre-save hooks, then
      inserted unless the unique index on `kitNumber` refuses it. */
  function SaveNew(records: map<Id, Antenna>, data: AntennaData, id: Id, now: Time): (r: Result<Antenna>)
    ensures r.Success? ==>
      && PlanMatchesStatus(r.value) && WithinBounds(r.value) && r.value.id == id
      && !KitNumberTaken(records, r.value.kitNumber, None)
      && (r.value.purchaseType == Installments ==> r.value.totalInstallments > 0)
    ensures NewDocument(data, id, now).Failure? ==> r == NewDocument(data, id, now)
    ensures r.Success? ==> r.value == NewDocument(data, id, now).value.(plan := r.value.plan)
    ensures r == Failure(DuplicateKey) ==>
      data.kitNumber.Some? && KitNumberTaken(records, Trim(data.kitNumber.value), None)
    ensures NewDocument(data, id, now).Success? && PreSave(NewDocument(data, id, now).value).Failure? ==>
      r == PreSave(NewDocument(data, id, now).value)
    ensures r.Success? <==>
      && NewDocument(data, id, now).Success? && PreSave(NewDocument(data, id, now).value).Success?
      && !KitNumberTaken(records, Trim(data.kitNumber.value), None)
  {
    var doc := NewDocument(data, id, now);
    if doc.Failure? then doc
    else
      var hooked := PreSave(doc.value);
      if hooked.Failure? then hooked
      else
        assert hooked.value.kitNumber == Trim(data.kitNumber.value);
        if KitNumberTaken(records, hooked.value.kitNumber, None) then Failure(DuplicateKey)
        else hooked
  }

  /** The errors `registerInstallmentPayment` throws, in the order it checks them,
      and a refusal of the final save by the pre-save hooks. */
  datatype PaymentError = AntennaNotFound | NotInstallments | AllPaid | SaveRejected(message: string)

  function PaymentMessage(e: PaymentError): string {
    match e
    case AntennaNotFound => "Antena no encontrada"
    case NotInstallments => "Esta antena no fue adquirida en cuotas"
    case AllPaid => "Todas las cuotas ya han sido pagadas"
    case SaveRejected(m) => m
  }

  datatype Payment = Paid(antenna: Antenna) | Refused(error: PaymentError)

  /** One installment paid on a stored antenna: refused if it was not bought in
      installments, then if every installment is already paid; otherwise the
      counter goes up by one and the document is saved through the hooks. */
  function PayInstallment(a: Antenna, now: Time): (r: Payment)
    ensures a.purchaseType != Installments ==> r == Refused(NotInstallments)
    ensures a.purchaseType == Installments && a.paidInstallments >= a.totalInstallments ==>
      r == Refused(AllPaid)
    ensures r.Paid? ==>
      && r.antenna.paidInstallments == a.paidInstallments + 1
      && r.antenna.paidInstallments <= r.antenna.totalInstallments
      && r.antenna.totalInstallments == a.totalInstallments
      && PlanMatchesStatus(r.antenna)
      && r.antenna == a.(paidInstallments := a.paidInstallments + 1, updatedAt := now, plan := r.antenna.plan)
    ensures r.Paid? <==>
      && a.purchaseType == Installments && a.paidInstallments < a.totalInstallments
      && !(a.status == Active && a.plan.None?) && a.totalInstallments > 0
    ensures r.Refused? ==> r.error != AntennaNotFound
  {
    if a.purchaseType != Installments then Refused(NotInstallments)
    else if a.paidInstallments >= a.totalInstallments then Refused(AllPaid)
    else
      var saved := PreSave(a.(paidInstallments := a.paidInstallments + 1, updatedAt := now));
      if saved.Failure? then Refused(SaveRejected(saved.error.message)) else Paid(saved.value)
  }

  /** Saving a payment clears a plan left on an inactive antenna, and an active
      antenna without a plan cannot take a payment at all. */
  lemma PaymentRunsPlanRule(a: Antenna, now: Time)
    requires WithinBounds(a)
    requires a.purchaseType == Installments && a.paidInstallments < a.totalInstallments
    ensures a.status == Inactive ==> PayInstallment(a, now).Paid? && PayInstallment(a, now).antenna.plan.None?
    ensures a.status == Active && a.plan.None? ==> PayInstallment(a, now) == Refused(SaveRejected(ActiveNeedsPlan))
    ensures a.status == Active && a.plan.Some? ==> PayInstallment(a, now).Paid?
  {
  }

  /** The pre-save hooks, run on the document about to be saved. */
  method RunSaveHooks(doc: Antenna) returns (r: Result<Antenna>)
    ensures r == PreSave(doc)
  {
    var d := doc;
    if d.status == Active && d.plan.None? {
      return Failure(Invalid(ActiveNeedsPlan));
    } else if d.status == Inactive {
      d := d.(plan := None);
    }
    if d.purchaseType == Installments && d.totalInstallments <= 0 {
      return Failure(Invalid(InstallmentsNeedTotal));
    }
    return Success(d);
  }

  /** Each record is filed under its own id and within the schema's bounds,
      and no two records share a kit number (the unique index). */
  ghost predicate WellFormed(records: map<Id, Antenna>) {
    && (forall id | id in records :: records[id].id == id && WithinBounds(records[id]))
    && (forall i, j | i in records && j in records && i != j ::
          records[i].kitNumber != records[j].kitNumber)
  }

  /** Overwriting one record keeps the collection well formed when the new
      record keeps its id and bounds and its kit number is its old one or is
      held by no other record. */
  lemma ReplaceKeepsWellFormed(records: map<Id, Antenna>, id: Id, a: Antenna)
    requires WellFormed(records) && id in records
    requires a.id == id && WithinBounds(a)
    requires a.kitNumber == records[id].kitNumber || !KitNumberTaken(records, a.kitNumber, Some(id))
    ensures WellFormed(records[id := a])
  {
    forall j | j in records && j != id
      ensures records[j].kitNumber != a.kitNumber
    {
      if records[j].kitNumber == a.kitNumber {
        assert KitNumberTaken(records, a.kitNumber, Some(id));
      }
    }
  }

  /** Inserting a record under a fresh id keeps the collection well formed
      when its kit number is held by no record. */
  lemma InsertKeepsWellFormed(records: map<Id, Antenna>, id: Id, a: Antenna)
    requires WellFormed(records) && id !in records
    requires a.id == id && WithinBounds(a)
    requires !KitNumberTaken(records, a.kitNumber, None)
    ensures WellFormed(records[id := a])
  {
    var records' := records[id := a];
    forall i, j | i in records' && j in records' && i != j
      ensures records'[i].kitNumber != records'[j].kitNumber
    {
      if i == id {
        assert j in records && records[j].kitNumber != a.kitNumber;
      } else if j == id {
        assert i in records && records[i].kitNumber != a.kitNumber;
      }
    }
  }

  /** A stored collection of antennas keyed by id. */
  class AntennaCollection {
    var records: map<Id, Antenna>

    /** The collection is well formed. */
    ghost predicate Valid()
      reads this
    {
      WellFormed(records)
    }

    constructor ()
      ensures Valid() && records == map[]
    {
      records := map[];
    }

    /** `create`: inserts the saved document or changes nothing. */
    method Create(data: AntennaData, id: Id, now: Time) returns (r: Result<Antenna>)
      requires Valid()
      requires id !in records
      modifies this
      ensures Valid()
      ensures r == SaveNew(old(records), data, id, now)
      ensures records == if r.Success? then old(records)[id := r.value] else old(records)
    {
      var doc := NewDocument(data, id, now);
      if doc.Failure? {
        return doc;
      }
      r := RunSaveHooks(doc.value);
      if r.Failure? {
        return;
      }
      if KitNumberTaken(records, r.value.kitNumber, None) {
        return Failure(DuplicateKey);
      }
      InsertKeepsWellFormed(records, id, r.value);
      records := records[id := r.value];
    }

    /** `updateById`: a rejected document changes nothing; an unknown id yields
        null; a kit number held by another antenna is refused by the unique
        index; otherwise the record is overwritten. The hooks do not run. */
    method UpdateById(id: Id, u: AntennaUpdate, now: Time) returns (r: Result<Option<Antenna>>)
      requires Valid()
      modifies this
      ensures Valid()
      ensures !UpdateIsValid(u) ==> r == Failure(Invalid(ValidationFailed)) && records == old(records)
      ensures UpdateIsValid(u) && id !in old(records) ==> r == Success(None) && records == old(records)
      ensures UpdateIsValid(u) && id in old(records) && u.kitNumber.Some?
              && KitNumberTaken(old(records), Trim(u.kitNumber.value), Some(id)) ==>
        r == Failure(DuplicateKey) && records == old(records)
      ensures UpdateIsValid(u) && id in old(records)
              && !(u.kitNumber.Some? && KitNumberTaken(old(records), Trim(u.kitNumber.value), Some(id))) ==>
        var a' := ApplyUpdate(old(records)[id], u, now);
        r == Success(Some(a')) && records == old(records)[id := a']
    {
      if !UpdateIsValid(u) {
        return Failure(Invalid(ValidationFailed));
      }
      if id !in records {
        return Success(None);
      }
      if u.kitNumber.Some? && KitNumberTaken(records, Trim(u.kitNumber.value), Some(id)) {
        return Failure(DuplicateKey);
      }
      var updated := ApplyUpdate(records[id], u, now);
      if u.kitNumber.Some? {
        TrimIdempotent(u.kitNumber.value);
      }
      ReplaceKeepsWellFormed(records, id, updated);
      records := records[id := updated];
      r := Success(Some(updated));
    }

    /** `activate`: one update of the record, or null for an unknown id. */
    method Activate(id: Id, planId: Id, now: Time) returns (r: Option<Antenna>)
      requires Valid()
      modifies this
      ensures Valid()
      ensures id !in old(records) ==> r.None? && records == old(records)
      ensures id in old(records) ==>
        r == Some(Activated(old(records)[id], planId, now))
        && records == old(records)[id := Activated(old(records)[id], planId, now)]
    {
      if id !in records {
        return None;
      }
      var updated := Activated(records[id], planId, now);
      ReplaceKeepsWellFormed(records, id, updated);
      records := records[id := updated];
      return Some(updated);
    }

    /** `deactivate`: one update of the record, or null for an unknown id. */
    method Deactivate(id: Id, now: Time) returns (r: Option<Antenna>)
      requires Valid()
      modifies this
      ensures Valid()
      ensures id !in old(records) ==> r.None? && records == old(records)
      ensures id in old(records) ==>
        r == Some(Deactivated(old(records)[id], now))
        && records == old(records)[id := Deactivated(old(records)[id], now)]
    {
      if id !in records {
        return None;
      }
      var updated := Deactivated(records[id], now);
      ReplaceKeepsWellFormed(records, id, updated);
      records := records[id := updated];
      return Some(updated);
    }

    /** `registerInstallmentPayment`: an unknown id is refused first; otherwise
        the counter is raised in place and the document saved. */
    method RegisterInstallmentPayment(id: Id, now: Time) returns (r: Payment)
      requires Valid()
      modifies this
      ensures Valid()
      ensures id !in old(records) ==> r == Refused(AntennaNotFound) && records == old(records)
      ensures id in old(records) ==> r == PayInstallment(old(records)[id], now)
      ensures records == if r.Paid? then old(records)[id := r.antenna] else old(records)
    {
      if id !in records {
        return Refused(AntennaNotFound);
      }
      var antenna := records[id];
      ghost var outcome := PayInstallment(antenna, now);
      if antenna.purchaseType != Installments {
        return Refused(NotInstallments);
      }
      if antenna.paidInstallments >= antenna.totalInstallments {
        return Refused(AllPaid);
      }
      antenna := antenna.(paidInstallments := antenna.paidInstallments + 1, updatedAt := now);
      var saved := RunSaveHooks(antenna);
      if saved.Failure? {
        return Refused(SaveRejected(saved.error.message));
      }
      assert outcome == Paid(saved.value);
      assert saved.value.kitNumber == old(records)[id].kitNumber && WithinBounds(saved.value);
      ReplaceKeepsWellFormed(records, id, saved.value);
      records := records[id := saved.value];
      return Paid(saved.value);
    }
  }
}
