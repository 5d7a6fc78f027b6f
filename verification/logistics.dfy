/** The logistics endpoints: who may request transport for a transaction, and who may
    read, update or re-status a logistics request. A record's columns other than its
    transaction and requester are a map from column name to value, so that "only the
    columns an update sets change" can be stated; the id of a new record is an
    argument. */
module Logistics {

  datatype Response<T> = Ok(value: T) | HttpError(code: int, detail: string)

  /** The parties of a transaction. */
  datatype Transaction = Transaction(buyerId: string, sellerId: string)

  /** A transport request as the client sends it. */
  datatype LogisticsRequest = LogisticsRequest(transactionId: string, columns: map<string, string>)

  /** A stored logistics request. */
  datatype Logistics = Logistics(transactionId: string, requesterId: string, columns: map<string, string>)

  datatype LogisticsDb = LogisticsDb(transactions: map<string, Transaction>, requests: map<string, Logistics>)

  const StatusColumn := "status"
  const NotFound := "Logistics request not found"
  const ForbiddenRead := "Not authorized to access this logistics request"
  const ForbiddenUpdate := "Not authorized to update this logistics request"

  /** Whether `user` is a party to the transaction. */
  predicate IsParty(tx: Transaction, user: string) {
    !(tx.buyerId != user && tx.sellerId != user)
  }

  // ---------------------------------------------------------------------------
  // request_logistics

  function RequestLogistics(db: LogisticsDb, user: string, request: LogisticsRequest, newId: string)
    : (Response<Logistics>, LogisticsDb)
  {
    if request.transactionId !in db.transactions then (HttpError(404, "Transaction not found"), db)
    else if !IsParty(db.transactions[request.transactionId], user) then
      (HttpError(403, "Not authorized to request logistics for this transaction"), db)
    else
      var created := Logistics(request.transactionId, user, request.columns);
      (Ok(created), db.(requests := db.requests[newId := created]))
  }

  /** An unknown transaction is a 404 and a non-party a 403, both without writes; a
      party gets a record that is the request plus itself as requester, stored under
      the new id, with no other record touched. */
  lemma RequestLogisticsRules(db: LogisticsDb, user: string, request: LogisticsRequest, newId: string)
    ensures var (res, db') := RequestLogistics(db, user, request, newId);
      && (request.transactionId !in db.transactions ==> res.HttpError? && res.code == 404 && db' == db)
      && (request.transactionId in db.transactions && !IsParty(db.transactions[request.transactionId], user) ==>
            res.HttpError? && res.code == 403 && db' == db)
      && (res.Ok? <==> request.transactionId in db.transactions &&
                       (db.transactions[request.transactionId].buyerId == user ||
                        db.transactions[request.transactionId].sellerId == user))
      && (res.Ok? ==>
            && res.value.requesterId == user
            && res.value.transactionId == request.transactionId
            && res.value.columns == request.columns
            && db'.transactions == db.transactions
            && db'.requests.Keys == db.requests.Keys + {newId}
            && db'.requests[newId] == res.value
            && forall id :: id in db.requests && id != newId ==> db'.requests[id] == db.requests[id])
  {
  }

  // ---------------------------------------------------------------------------
  // get_logistics, update_logistics

  /** The guard shared by the read and update endpoints: 404 when missing, 403 unless
      the caller is the requester. */
  function AccessGuard(db: LogisticsDb, user: string, id: string, forbidden: string): Response<Logistics> {
    if id !in db.requests then HttpError(404, NotFound)
    else if db.requests[id].requesterId != user then HttpError(403, forbidden)
    else Ok(db.requests[id])
  }

  function GetLogistics(db: LogisticsDb, user: string, id: string): Response<Logistics> {
    AccessGuard(db, user, id, ForbiddenRead)
  }

  /** Only the requester may read a request. */
  lemma GetLogisticsRules(db: LogisticsDb, user: string, id: string)
    ensures id !in db.requests ==> GetLogistics(db, user, id) == HttpError(404, NotFound)
    ensures id in db.requests && db.requests[id].requesterId != user ==>
      GetLogistics(db, user, id) == HttpError(403, ForbiddenRead)
    ensures GetLogistics(db, user, id).Ok? <==> id in db.requests && db.requests[id].requesterId == user
    ensures GetLogistics(db, user, id).Ok? ==> GetLogistics(db, user, id).value == db.requests[id]
  {
  }

  /** `obj_in=logistics_update.dict(exclude_unset=True)`: the columns the update sets
      overwrite, all others stay. */
  function ApplyUpdate(record: Logistics, changes: map<string, string>): (r: Logistics)
    ensures r.transactionId == record.transactionId && r.requesterId == record.requesterId
    ensures r.columns.Keys == record.columns.Keys + changes.Keys
    ensures forall c :: c in changes ==> r.columns[c] == changes[c]
    ensures forall c :: c in record.columns && c !in changes ==> r.columns[c] == record.columns[c]
  {
    record.(columns := record.columns + changes)
  }

  function UpdateLogistics(db: LogisticsDb, user: string, id: string, changes: map<string, string>)
    : (Response<Logistics>, LogisticsDb)
  {
    var guard := AccessGuard(db, user, id, ForbiddenUpdate);
    if guard.HttpError? then (guard, db)
    else
      var updated := ApplyUpdate(guard.value, changes);
      (Ok(updated), db.(requests := db.requests[id := updated]))
  }

  /** Update has the read guards, writes nothing when refused, and otherwise changes
      exactly that record and, in it, only the columns the update sets. */
  lemma UpdateLogisticsRules(db: LogisticsDb, user: string, id: string, changes: map<string, string>)
    ensures var (res, db') := UpdateLogistics(db, user, id, changes);
      && (id !in db.requests ==> res == HttpError(404, NotFound) && db' == db)
      && (id in db.requests && db.requests[id].requesterId != user ==> res == HttpError(403, ForbiddenUpdate) && db' == db)
      && (res.Ok? <==> id in db.requests && db.requests[id].requesterId == user)
      && (res.Ok? ==>
            && res.value == ApplyUpdate(db.requests[id], changes)
            && res.value.transactionId == db.requests[id].transactionId
            && res.value.requesterId == db.requests[id].requesterId
            && res.value.columns.Keys == db.requests[id].columns.Keys + changes.Keys
            && db'.transactions == db.transactions
            && db'.requests.Keys == db.requests.Keys
            && db'.requests[id] == res.value
            && (forall c :: c in changes ==> res.value.columns[c] == changes[c])
            && (forall c :: c in db.requests[id].columns && c !in changes ==>
                  res.value.columns[c] == db.requests[id].columns[c])
            && (forall other :: other in db.requests && other != id ==> db'.requests[other] == db.requests[other]))
  {
  }

  // ---------------------------------------------------------------------------
  // update_logistics_status

  /** What the status patch does as written: its `status: str` parameter shadows the
      imported `status` module, so building either refusal raises an AttributeError,
      which the generic handler turns into a 500. */
  function UpdateStatusAsWritten(db: LogisticsDb, user: string, id: string, status: string)
    : (Response<Logistics>, LogisticsDb)
  {
    if id !in db.requests then (HttpError(500, "'str' object has no attribute 'HTTP_404_NOT_FOUND'"), db)
    else if db.requests[id].requesterId != user then
      (HttpError(500, "'str' object has no attribute 'HTTP_403_FORBIDDEN'"), db)
    else
      var updated := ApplyUpdate(db.requests[id], map[StatusColumn := status]);
      (Ok(updated), db.(requests := db.requests[id := updated]))
  }

  /** The status patch as intended: the update endpoint's guards, then only `status`
      changes. */
  function UpdateStatus(db: LogisticsDb, user: string, id: string, status: string)
    : (Response<Logistics>, LogisticsDb)
  {
    UpdateLogistics(db, user, id, map[StatusColumn := status])
  }

  /** An authorised status patch changes the `status` column and nothing else; a
      refused one is a 404 or a 403 and writes nothing. */
  lemma UpdateStatusRules(db: LogisticsDb, user: string, id: string, status: string)
    ensures var (res, db') := UpdateStatus(db, user, id, status);
      && (id !in db.requests ==> res == HttpError(404, NotFound) && db' == db)
      && (id in db.requests && db.requests[id].requesterId != user ==> res == HttpError(403, ForbiddenUpdate) && db' == db)
      && (res.Ok? <==> id in db.requests && db.requests[id].requesterId == user)
      && (res.Ok? ==> db' == db.(requests := db.requests[id := res.value]))
      && (res.Ok? ==>
            var old_ := db.requests[id];
            && res.value.columns.Keys == old_.columns.Keys + {StatusColumn}
            && res.value.columns[StatusColumn] == status
            && (forall c :: c in old_.columns && c != StatusColumn ==> res.value.columns[c] == old_.columns[c])
            && res.value.transactionId == old_.transactionId && res.value.requesterId == old_.requesterId)
  {
    UpdateLogisticsRules(db, user, id, map[StatusColumn := status]);
  }

  /** The defect: as written, a missing record or a stranger's patch answers 500 where
      404 and 403 are meant, though it still writes nothing; the authorised path agrees
      with the intended one. */
  lemma StatusPatchShadowing(db: LogisticsDb, user: string, id: string, status: string)
    ensures var (asWritten, dbW) := UpdateStatusAsWritten(db, user, id, status);
      var (intended, dbI) := UpdateStatus(db, user, id, status);
      && (id !in db.requests ==> asWritten.HttpError? && asWritten.code == 500 && intended.code == 404)
      && (id in db.requests && db.requests[id].requesterId != user ==>
            asWritten.HttpError? && asWritten.code == 500 && intended.code == 403)
      && (asWritten.HttpError? ==> dbW == db && dbI == db)
      && (asWritten.Ok? ==> (asWritten, dbW) == (intended, dbI))
  {
  }

  // ---------------------------------------------------------------------------
  // The writing endpoints against the store

  class LogisticsStore {
    var transactions: map<string, Transaction>
    var requests: map<string, Logistics>

    function State(): LogisticsDb
      reads this
    {
      LogisticsDb(transactions, requests)
    }

    constructor (db: LogisticsDb)
      ensures State() == db
    {
      transactions := db.transactions;
      requests := db.requests;
    }

    method Request(user: string, request: LogisticsRequest, newId: string) returns (res: Response<Logistics>)
      modifies this
      ensures (res, State()) == RequestLogistics(old(State()), user, request, newId)
    {
      if request.transactionId !in transactions {
        return HttpError(404, "Transaction not found");
      }
      var tx := transactions[request.transactionId];
      if tx.buyerId != user && tx.sellerId != user {
        return HttpError(403, "Not authorized to request logistics for this transaction");
      }
      var created := Logistics(request.transactionId, user, request.columns);
      requests := requests[newId := created];
      return Ok(created);
    }

    method Update(user: string, id: string, changes: map<string, string>) returns (res: Response<Logistics>)
      modifies this
      ensures (res, State()) == UpdateLogistics(old(State()), user, id, changes)
    {
      if id !in requests {
        return HttpError(404, NotFound);
      }
      var record := requests[id];
      if record.requesterId != user {
        return HttpError(403, ForbiddenUpdate);
      }
      var updated := record.(columns := record.columns + changes);
      requests := requests[id := updated];
      return Ok(updated);
    }

    /** `update_logistics_status` as the source has it (see `UpdateStatusAsWritten`). */
    method PatchStatus(user: string, id: string, status: string) returns (res: Response<Logistics>)
      modifies this
      ensures (res, State()) == UpdateStatusAsWritten(old(State()), user, id, status)
    {
      if id !in requests {
        return HttpError(500, "'str' object has no attribute 'HTTP_404_NOT_FOUND'");
      }
      var record := requests[id];
      if record.requesterId != user {
        return HttpError(500, "'str' object has no attribute 'HTTP_403_FORBIDDEN'");
      }
      var updated := record.(columns := record.columns[StatusColumn := status]);
      assert updated.columns == record.columns + map[StatusColumn := status];
      requests := requests[id := updated];
      return Ok(updated);
    }
  }
}
