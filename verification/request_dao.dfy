/** The request data-access object: a collection of request records kept in
    insertion order, its writes (`create`, `update`, `updateStatus`), its
    queries (newest first) and the `(status, type)` statistics. */
module RequestDao {
  import opened Common
  import opened RequestSchema

  /** Position of the record with the given id, if any. */
  function IndexOf(rs: seq<Request>, id: Id): (r: Option<nat>)
    ensures r.Some? ==> r.value < |rs| && rs[r.value].id == id
    ensures r.None? ==> forall k | 0 <= k < |rs| :: rs[k].id != id
  {
    if rs == [] then None
    else if rs[|rs| - 1].id == id then Some(|rs| - 1)
    else IndexOf(rs[..|rs| - 1], id)
  }

  /** `findById`: the stored record with that id, or null. */
  function FindById(rs: seq<Request>, id: Id): (r: Option<Request>)
    ensures r.Some? <==> exists k | 0 <= k < |rs| :: rs[k].id == id
    ensures r.Some? ==> r.value in rs && r.value.id == id
  {
    var i := IndexOf(rs, id);
    if i.Some? then Some(rs[i.value]) else None
  }

  ghost predicate UniqueIds(rs: seq<Request>) {
    forall i, j | 0 <= i < j < |rs| :: rs[i].id != rs[j].id
  }

  /** Records are kept in the order they were created. */
  ghost predicate Chronological(rs: seq<Request>) {
    forall i, j | 0 <= i < j < |rs| :: rs[i].createdAt <= rs[j].createdAt
  }

  /** The update document `updateStatus` builds: `status` always; when a
      processor is given, the processor, and `startedAt` only if the stored
      record had no processor yet; when the status is "completed",
      `completedAt`, and `completedBy` if one is given. Reading the stored
      record of an unknown id when a processor is given throws. */
  function StatusUpdate(current: Option<Request>, status: string, processedBy: Option<Id>,
                        completedBy: Option<Id>, now: Time): (r: Result<RequestUpdate>)
    ensures r.Failure? <==> processedBy.Some? && current.None?
    ensures r.Success? ==>
      && r.value.status == Some(status)
      && r.value.processedBy == processedBy
      && (r.value.startedAt.Some? <==> processedBy.Some? && current.value.processedBy.None?)
      && (r.value.completedAt.Some? <==> status == "completed")
      && (r.value.startedAt.Some? ==> r.value.startedAt == Some(now))
      && (r.value.completedAt.Some? ==> r.value.completedAt == Some(now))
      && (r.value.completedBy.Some? <==> status == "completed" && completedBy.Some?)
      && r.value.kind.None? && r.value.client.None? && r.value.antenna.None?
      && r.value.plan.None? && r.value.newPlan.None? && r.value.comments.None?
  {
    if processedBy.Some? && current.None? then
      Failure(Thrown("Cannot read properties of null (reading 'processedBy')"))
    else
      var started := if processedBy.Some? && current.value.processedBy.None? then Some(now) else None;
      var completed := if status == "completed" then Some(now) else None;
      var finisher := if status == "completed" then completedBy else None;
      Success(EmptyUpdate.(status := Some(status), processedBy := processedBy,
                           startedAt := started, completedAt := completed, completedBy := finisher))
  }

  /** `updateStatus` builds its update document one field at a time. */
  method BuildStatusUpdate(current: Option<Request>, status: string, processedBy: Option<Id>,
                           completedBy: Option<Id>, now: Time) returns (r: Result<RequestUpdate>)
    ensures r == StatusUpdate(current, status, processedBy, completedBy, now)
  {
    var updateData := EmptyUpdate.(status := Some(status));
    if processedBy.Some? {
      if current.None? {
        return Failure(Thrown("Cannot read properties of null (reading 'processedBy')"));
      }
      if current.value.processedBy.None? {
        updateData := updateData.(startedAt := Some(now));
      }
      updateData := updateData.(processedBy := processedBy);
    }
    if status == "completed" {
      updateData := updateData.(completedAt := Some(now));
      if completedBy.Some? {
        updateData := updateData.(completedBy := completedBy);
      }
    }
    return Success(updateData);
  }

  /** What `updateStatus` does to a stored record: the status is the requested
      one, whatever it was before; `startedAt` is stamped on the first
      assignment of a processor only, so a reassignment keeps it; the
      processor is overwritten whenever one is given; `completedAt` is
      re-stamped on every completion and never cleared; nothing else changes. */
  lemma StatusUpdateOnRecord(r: Request, st: RequestStatus, processedBy: Option<Id>,
                             completedBy: Option<Id>, now: Time)
    ensures StatusUpdate(Some(r), StatusName(st), processedBy, completedBy, now).Success?
    ensures
      var u := StatusUpdate(Some(r), StatusName(st), processedBy, completedBy, now).value;
      UpdateIsValid(u) &&
      var r' := ApplyUpdate(r, u, now);
      && r'.status == st
      && r'.startedAt == (if processedBy.Some? && r.processedBy.None? then Some(now) else r.startedAt)
      && (r.processedBy.Some? ==> r'.startedAt == r.startedAt)
      && r'.processedBy == (if processedBy.Some? then processedBy else r.processedBy)
      && r'.completedAt == (if st == Completed then Some(now) else r.completedAt)
      && (r.completedAt.Some? ==> r'.completedAt.Some?)
      && r' == r.(status := st, processedBy := r'.processedBy, startedAt := r'.startedAt,
                  completedAt := r'.completedAt, updatedAt := now)
  {
    var u := StatusUpdate(Some(r), StatusName(st), processedBy, completedBy, now).value;
    assert u.status == Some(StatusName(st));
    assert ParseStatus(StatusName(st)) == Some(st);
    assert StatusName(st) == "completed" <==> st == Completed;
  }

  /** A stored collection of request records, oldest first. */
  class RequestCollection {
    var records: seq<Request>

    ghost predicate Valid()
      reads this
    {
      UniqueIds(records) && Chronological(records)
    }

    constructor ()
      ensures Valid() && records == []
    {
      records := [];
    }

    /** `create`: saves a new record built by the schema, or saves nothing. The
        store issues a fresh id and its clock does not run backwards. */
    method Create(data: RequestData, id: Id, now: Time) returns (r: Result<Request>)
      requires Valid()
      requires FindById(records, id).None?
      requires forall k | 0 <= k < |records| :: records[k].createdAt <= now
      modifies this
      ensures Valid()
      ensures r == NewRequest(data, id, now)
      ensures records == if r.Success? then old(records) + [r.value] else old(records)
    {
      r := NewRequest(data, id, now);
      if r.Success? {
        records := records + [r.value];
      }
    }

    /** `update` (`findByIdAndUpdate` with validators): a rejected document
        changes nothing; an unknown id yields null and changes nothing;
        otherwise the record is replaced in place and returned. */
    method Update(id: Id, u: RequestUpdate, now: Time) returns (r: Result<Option<Request>>)
      requires Valid()
      modifies this
      ensures Valid()
      ensures !UpdateIsValid(u) ==> r == Failure(Invalid(ValidationFailed)) && records == old(records)
      ensures UpdateIsValid(u) && IndexOf(old(records), id).None? ==>
        r == Success(None) && records == old(records)
      ensures UpdateIsValid(u) && IndexOf(old(records), id).Some? ==>
        var i := IndexOf(old(records), id).value;
        && r == Success(Some(ApplyUpdate(old(records)[i], u, now)))
        && records == old(records)[i := ApplyUpdate(old(records)[i], u, now)]
    {
      if !UpdateIsValid(u) {
        return Failure(Invalid(ValidationFailed));
      }
      var i := IndexOf(records, id);
      if i.None? {
        return Success(None);
      }
      var updated := ApplyUpdate(records[i.value], u, now);
      records := records[i.value := updated];
      return Success(Some(updated));
    }

    /** `updateStatus`: builds the status update document against the stored
        record and writes it. */
    method UpdateStatus(id: Id, status: string, processedBy: Option<Id>, completedBy: Option<Id>,
                        now: Time) returns (r: Result<Option<Request>>)
      requires Valid()
      modifies this
      ensures Valid()
      ensures var doc := StatusUpdate(FindById(old(records), id), status, processedBy, completedBy, now);
        && (doc.Failure? ==> r == Failure(doc.error) && records == old(records))
        && (doc.Success? && !UpdateIsValid(doc.value) ==>
              r == Failure(Invalid(ValidationFailed)) && records == old(records))
        && (doc.Success? && UpdateIsValid(doc.value) && IndexOf(old(records), id).None? ==>
              r == Success(None) && records == old(records))
        && (doc.Success? && UpdateIsValid(doc.value) && IndexOf(old(records), id).Some? ==>
              var i := IndexOf(old(records), id).value;
              && r == Success(Some(ApplyUpdate(old(records)[i], doc.value, now)))
              && records == old(records)[i := ApplyUpdate(old(records)[i], doc.value, now)])
    {
      var current := FindById(records, id);
      var doc := BuildStatusUpdate(current, status, processedBy, completedBy, now);
      if doc.Failure? {
        return Failure(doc.error);
      }
      r := Update(id, doc.value, now);
    }
  }

  // ---------------------------------------------------------------------------
  // Queries

  /** A query filter: each given part must match. `statuses` is an `$in` list. */
  datatype Query = Query(client: Option<Id>, statuses: Option<set<string>>, kind: Option<string>)

  predicate Matches(r: Request, q: Query) {
    && (q.client.Some? ==> r.client == q.client.value)
    && (q.statuses.Some? ==> StatusName(r.status) in q.statuses.value)
    && (q.kind.Some? ==> TypeName(r.kind) == q.kind.value)
  }

  /** `find(filter).sort({ createdAt: -1 })`: the matching records, newest
      first (records created at the same instant come latest-inserted first). */
  function Find(rs: seq<Request>, q: Query): (out: seq<Request>)
    ensures |out| <= |rs|
    ensures forall x | x in out :: x in rs && Matches(x, q)
    ensures forall x :: multiset(out)[x] == if Matches(x, q) then multiset(rs)[x] else 0
  {
    if rs == [] then []
    else
      var last := rs[|rs| - 1];
      assert rs == rs[..|rs| - 1] + [last];
      (if Matches(last, q) then [last] else []) + Find(rs[..|rs| - 1], q)
  }

  /** Every matching record is returned. */
  lemma {:induction false} FindComplete(rs: seq<Request>, q: Query, x: Request)
    requires x in rs && Matches(x, q)
    ensures x in Find(rs, q)
  {
    var last := rs[|rs| - 1];
    if x != last {
      assert x in rs[..|rs| - 1] by {
        var k :| 0 <= k < |rs| && rs[k] == x;
        assert k < |rs| - 1;
        assert rs[..|rs| - 1][k] == x;
      }
      FindComplete(rs[..|rs| - 1], q, x);
    }
  }

  /** Newest first: creation times never increase along the sequence. */
  ghost predicate NewestFirst(out: seq<Request>) {
    forall i, j | 0 <= i < j < |out| :: out[i].createdAt >= out[j].createdAt
  }

  lemma PrependNewest(x: Request, tail: seq<Request>)
    requires NewestFirst(tail)
    requires forall y | y in tail :: y.createdAt <= x.createdAt
    ensures NewestFirst([x] + tail)
  {
    var out := [x] + tail;
    forall i, j | 0 <= i < j < |out| ensures out[i].createdAt >= out[j].createdAt {
      assert out[j] == tail[j - 1];
      if i > 0 {
        assert out[i] == tail[i - 1];
      } else {
        assert tail[j - 1] in tail;
      }
    }
  }

  /** Results come newest first. */
  lemma {:induction false} FindNewestFirst(rs: seq<Request>, q: Query)
    requires Chronological(rs)
    ensures NewestFirst(Find(rs, q))
  {
    if rs != [] {
      var init := rs[..|rs| - 1];
      var last := rs[|rs| - 1];
      assert Chronological(init) by {
        forall i, j | 0 <= i < j < |init| ensures init[i].createdAt <= init[j].createdAt {
          assert init[i] == rs[i] && init[j] == rs[j];
        }
      }
      FindNewestFirst(init, q);
      var tail := Find(init, q);
      if Matches(last, q) {
        forall y | y in tail ensures y.createdAt <= last.createdAt {
          var k :| 0 <= k < |init| && init[k] == y;
          assert rs[k] == y;
        }
        PrependNewest(last, tail);
      }
    }
  }

  /** `findByClient`, `findByStatus` and `findByType`. */
  function ByClient(client: Id): Query { Query(Some(client), None, None) }
  function ByStatus(status: string): Query { Query(None, Some({status}), None) }
  function ByType(kind: string): Query { Query(None, None, Some(kind)) }

  /** `findPendingByClient`: the client's requests that are pending or in progress, newest first. */
  function FindPendingByClient(rs: seq<Request>, client: Id): (out: seq<Request>)
    ensures forall x | x in out :: x in rs && x.client == client && x.status != Completed
  {
    Find(rs, Query(Some(client), Some({"pending", "in_progress"}), None))
  }

  /** `findPendingByClient` returns exactly that client's open requests, newest first. */
  lemma PendingByClientExactly(rs: seq<Request>, client: Id)
    requires Chronological(rs)
    ensures forall x :: x in FindPendingByClient(rs, client) <==>
      x in rs && x.client == client && (x.status == Pending || x.status == InProgress)
    ensures NewestFirst(FindPendingByClient(rs, client))
  {
    var q := Query(Some(client), Some({"pending", "in_progress"}), None);
    forall x | x in rs && x.client == client && (x.status == Pending || x.status == InProgress)
      ensures x in FindPendingByClient(rs, client)
    {
      FindComplete(rs, q, x);
    }
    assert FindPendingByClient(rs, client) == Find(rs, q);
    FindNewestFirst(rs, q);
  }

  // ---------------------------------------------------------------------------
  // Statistics

  datatype StatKey = StatKey(status: RequestStatus, kind: RequestType)

  /** One `$group` result: a `(status, type)` pair and how many requests have it. */
  datatype StatEntry = StatEntry(key: StatKey, count: nat)

  function KeyOf(r: Request): StatKey { StatKey(r.status, r.kind) }

  function CountOf(rs: seq<Request>, k: StatKey): (n: nat)
    ensures n <= |rs|
  {
    if rs == [] then 0 else (if KeyOf(rs[0]) == k then 1 else 0) + CountOf(rs[1..], k)
  }

  /** The nine keys, in ascending order of status name, then type name. */
  const KeyOrder: seq<StatKey> := [
    StatKey(Completed, Activate), StatKey(Completed, ChangePlan), StatKey(Completed, Deactivate),
    StatKey(InProgress, Activate), StatKey(InProgress, ChangePlan), StatKey(InProgress, Deactivate),
    StatKey(Pending, Activate), StatKey(Pending, ChangePlan), StatKey(Pending, Deactivate)]

  /** The entries for the given keys, in their order, leaving out empty groups. */
  function StatsOver(rs: seq<Request>, keys: seq<StatKey>): (out: seq<StatEntry>)
    ensures |out| <= |keys|
    ensures forall e | e in out :: e.key in keys && e.count == CountOf(rs, e.key) && e.count > 0
  {
    if keys == [] then []
    else
      var n := CountOf(rs, keys[0]);
      (if n > 0 then [StatEntry(keys[0], n)] else []) + StatsOver(rs, keys[1..])
  }

  /** `getStats`: `$group` by `(status, type)` with `$sum: 1`, sorted by status then type. */
  function GetStats(rs: seq<Request>): (out: seq<StatEntry>)
    ensures forall e | e in out :: e.count == CountOf(rs, e.key) && e.count > 0
  {
    StatsOver(rs, KeyOrder)
  }

  function SumCounts(es: seq<StatEntry>): nat {
    if es == [] then 0 else es[0].count + SumCounts(es[1..])
  }

  /** Sum of the group sizes of the given keys. */
  function SumOver(rs: seq<Request>, keys: seq<StatKey>): nat {
    if keys == [] then 0 else CountOf(rs, keys[0]) + SumOver(rs, keys[1..])
  }

  lemma {:induction false} StatsOverSum(rs: seq<Request>, keys: seq<StatKey>)
    ensures SumCounts(StatsOver(rs, keys)) == SumOver(rs, keys)
  {
    if keys != [] {
      StatsOverSum(rs, keys[1..]);
      var n := CountOf(rs, keys[0]);
      var rest := StatsOver(rs, keys[1..]);
      if n > 0 {
        assert StatsOver(rs, keys) == [StatEntry(keys[0], n)] + rest;
        assert ([StatEntry(keys[0], n)] + rest)[1..] == rest;
      } else {
        assert StatsOver(rs, keys) == rest;
      }
    }
  }

  /** Adding one record to the front adds one to the sum over distinct keys that hold its key. */
  lemma {:induction false} SumOverCons(r: Request, rs: seq<Request>, keys: seq<StatKey>)
    requires forall i, j | 0 <= i < j < |keys| :: keys[i] != keys[j]
    ensures SumOver([r] + rs, keys) == SumOver(rs, keys) + (if KeyOf(r) in keys then 1 else 0)
  {
    if keys != [] {
      assert ([r] + rs)[1..] == rs;
      SumOverCons(r, rs, keys[1..]);
      if KeyOf(r) == keys[0] {
        assert KeyOf(r) !in keys[1..] by {
          forall k | 0 <= k < |keys[1..]| ensures keys[1..][k] != KeyOf(r) {
            assert keys[0] != keys[k + 1];
          }
        }
      } else {
        assert KeyOf(r) in keys <==> KeyOf(r) in keys[1..];
      }
    }
  }

  lemma KeyOrderComplete(k: StatKey)
    ensures k in KeyOrder
  {
    match k
    case StatKey(Completed, Activate) => assert KeyOrder[0] == k;
    case StatKey(Completed, ChangePlan) => assert KeyOrder[1] == k;
    case StatKey(Completed, Deactivate) => assert KeyOrder[2] == k;
    case StatKey(InProgress, Activate) => assert KeyOrder[3] == k;
    case StatKey(InProgress, ChangePlan) => assert KeyOrder[4] == k;
    case StatKey(InProgress, Deactivate) => assert KeyOrder[5] == k;
    case StatKey(Pending, Activate) => assert KeyOrder[6] == k;
    case StatKey(Pending, ChangePlan) => assert KeyOrder[7] == k;
    case StatKey(Pending, Deactivate) => assert KeyOrder[8] == k;
  }

  /** Position of a key in `KeyOrder`: status rank, then type rank. */
  function StatusRank(s: RequestStatus): nat {
    match s
    case Completed => 0
    case InProgress => 1
    case Pending => 2
  }

  function TypeRank(t: RequestType): nat {
    match t
    case Activate => 0
    case ChangePlan => 1
    case Deactivate => 2
  }

  function Rank(k: StatKey): nat { 3 * StatusRank(k.status) + TypeRank(k.kind) }

  lemma KeyOrderRanks()
    ensures |KeyOrder| == 9
    ensures forall i | 0 <= i < |KeyOrder| :: Rank(KeyOrder[i]) == i
  {
  }

  /** The counts of `getStats` add up to the number of requests. */
  lemma {:induction false} GetStatsTotal(rs: seq<Request>)
    ensures SumCounts(GetStats(rs)) == |rs|
  {
    StatsOverSum(rs, KeyOrder);
    SumOverAll(rs);
  }

  lemma {:induction false} SumOverAll(rs: seq<Request>)
    ensures SumOver(rs, KeyOrder) == |rs|
  {
    KeyOrderRanks();
    if rs != [] {
      SumOverAll(rs[1..]);
      assert [rs[0]] + rs[1..] == rs;
      SumOverCons(rs[0], rs[1..], KeyOrder);
      KeyOrderComplete(KeyOf(rs[0]));
    } else {
      assert SumOver(rs, KeyOrder) == 0 by {
        SumOverEmpty(KeyOrder);
      }
    }
  }

  lemma {:induction false} SumOverEmpty(keys: seq<StatKey>)
    ensures SumOver([], keys) == 0
  {
    if keys != [] {
      SumOverEmpty(keys[1..]);
    }
  }

  /** There is one entry for each `(status, type)` pair present, and none for the others. */
  lemma GetStatsKeys(rs: seq<Request>, k: StatKey)
    ensures (exists e :: e in GetStats(rs) && e.key == k) <==> CountOf(rs, k) > 0
  {
    KeyOrderComplete(k);
    StatsOverKeys(rs, KeyOrder, k);
  }

  lemma {:induction false} StatsOverKeys(rs: seq<Request>, keys: seq<StatKey>, k: StatKey)
    ensures (exists e :: e in StatsOver(rs, keys) && e.key == k) <==> k in keys && CountOf(rs, k) > 0
  {
    if keys != [] {
      StatsOverKeys(rs, keys[1..], k);
      var n := CountOf(rs, keys[0]);
      var rest := StatsOver(rs, keys[1..]);
      var head := if n > 0 then [StatEntry(keys[0], n)] else [];
      assert StatsOver(rs, keys) == head + rest;
      assert k in keys <==> k == keys[0] || k in keys[1..];
      if k == keys[0] && n > 0 {
        assert StatsOver(rs, keys)[0] == StatEntry(k, n);
      }
      if exists e :: e in rest && e.key == k {
        var e :| e in rest && e.key == k;
        assert e in StatsOver(rs, keys);
      }
    }
  }

  /** Lexicographic order of strings (the order `$sort` uses on these ASCII names). */
  predicate StrLess(a: string, b: string) {
    |b| > 0 && (|a| == 0 || a[0] < b[0] || (a[0] == b[0] && StrLess(a[1..], b[1..])))
  }

  predicate KeyLess(a: StatKey, b: StatKey) {
    || StrLess(StatusName(a.status), StatusName(b.status))
    || (a.status == b.status && StrLess(TypeName(a.kind), TypeName(b.kind)))
  }

  lemma RankAgreesWithNames(a: StatKey, b: StatKey)
    requires Rank(a) < Rank(b)
    ensures KeyLess(a, b)
  {
    if a.status == b.status {
      assert TypeRank(a.kind) < TypeRank(b.kind);
    } else {
      assert StatusRank(a.status) < StatusRank(b.status);
    }
  }

  ghost predicate RankAscending(es: seq<StatEntry>) {
    forall i, j | 0 <= i < j < |es| :: Rank(es[i].key) < Rank(es[j].key)
  }

  lemma PrependLowerRank(e: StatEntry, rest: seq<StatEntry>)
    requires RankAscending(rest)
    requires forall x | x in rest :: Rank(e.key) < Rank(x.key)
    ensures RankAscending([e] + rest)
  {
    var out := [e] + rest;
    forall i, j | 0 <= i < j < |out| ensures Rank(out[i].key) < Rank(out[j].key) {
      assert out[j] == rest[j - 1];
      if i > 0 {
        assert out[i] == rest[i - 1];
      } else {
        assert rest[j - 1] in rest;
      }
    }
  }

  lemma {:induction false} StatsOverAscending(rs: seq<Request>, keys: seq<StatKey>)
    requires forall i, j | 0 <= i < j < |keys| :: Rank(keys[i]) < Rank(keys[j])
    ensures RankAscending(StatsOver(rs, keys))
  {
    if keys != [] {
      StatsOverAscending(rs, keys[1..]);
      var n := CountOf(rs, keys[0]);
      var rest := StatsOver(rs, keys[1..]);
      if n > 0 {
        forall x | x in rest ensures Rank(keys[0]) < Rank(x.key) {
          var k :| 0 <= k < |keys[1..]| && keys[1..][k] == x.key;
          assert keys[k + 1] == x.key;
        }
        PrependLowerRank(StatEntry(keys[0], n), rest);
      }
    }
  }

  /** `getStats` entries are sorted ascending by status name, then by type name. */
  lemma GetStatsSorted(rs: seq<Request>)
    ensures var out := GetStats(rs);
      forall i, j | 0 <= i < j < |out| :: KeyLess(out[i].key, out[j].key)
  {
    KeyOrderRanks();
    StatsOverAscending(rs, KeyOrder);
    var out := GetStats(rs);
    forall i, j | 0 <= i < j < |out| ensures KeyLess(out[i].key, out[j].key) {
      RankAgreesWithNames(out[i].key, out[j].key);
    }
  }
}
