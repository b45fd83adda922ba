/** Properties that follow a request from the HTTP handler through the
    service to the storage model and back to the status the client sees. */
module EndToEnd {

  import opened Wrappers
  import opened Domain
  import opened Validate
  import opened Storage
  import opened StorageProperties
  import opened Service
  import opened HttpV1

  /** Every error the storage functions report is built from the driver's
      own errors or pgx.ErrNoRows: none of them is a domain sentinel. */
  lemma StorageErrorsAreDriverErrors(db: Db, u: UpdateGood, d: DeleteGood, p: ReprioritizeGood,
                                     bound: Result<Int32, Error>, f: Faults)
    requires WellFormed(db) && DriverFaults(f) && (bound.Err? ==> DriverError(bound.error))
    ensures UpdateTx(db, u, f).result.Err? ==> DriverError(UpdateTx(db, u, f).result.error)
    ensures DeleteTx(db, d, f).result.Err? ==> DriverError(DeleteTx(db, d, f).result.error)
    ensures ReprioritizeTx(db, p, bound, f).result.Err? ==>
              DriverError(ReprioritizeTx(db, p, bound, f).result.error)
  {
  }

  /** Update through the whole stack when no row has (id, projectId): the
      handler answers 500, not 404, whatever goes wrong in the driver. */
  lemma {:induction false} MissingRowAnswersInternalError(
    db: Db, f: Faults, delFault: Option<Error>,
    params: map<string, string>, parseInt: string -> Result<Int64, NumErrorKind>,
    id: Int64, projectId: Int64, name: string, description: string)
    requires WellFormed(db) && Key(id, projectId) !in db.goods && DriverFaults(f)
    requires GetURLParams(params, parseInt) == Ok((id, projectId))
    requires 0 <= id && 0 <= projectId && name != "" && description != ""
    ensures UpdateHandler(params, parseInt, Ok(UpdateGoodRequest(name, description)),
                          u => MutationAnswer("validate update good", ValidateUpdateGood(u), "update good",
                                              UpdateTx(db, u, f).result, delFault))
            == Reply(StatusInternalServerError, ErrorBody(InternalServerError))
  {
    var u := UpdateGood(id, projectId, name, description);
    StorageErrorsAreDriverErrors(db, u, DeleteGood(id, projectId), ReprioritizeGood(id, projectId, 1), Ok(0), f);
    var stored := UpdateTx(db, u, f).result;
    assert stored.Err?;
    var answer := MutationAnswer("validate update good", ValidateUpdateGood(u), "update good", stored, delFault);
    assert answer == Err(Wrap("update good", stored.error));
    assert DriverError(answer.error);
  }

  /** A committed update whose cache invalidation fails: the change and its
      outbox row are in the tables, yet the client is told 500 and nothing
      undoes the change. */
  lemma {:induction false} CommittedUpdateReportedAsFailure(
    db: Db, delFault: Error,
    params: map<string, string>, parseInt: string -> Result<Int64, NumErrorKind>,
    id: Int64, projectId: Int64, name: string, description: string)
    requires WellFormed(db) && Key(id, projectId) in db.goods && DriverError(delFault)
    requires GetURLParams(params, parseInt) == Ok((id, projectId))
    requires 0 <= id && 0 <= projectId && name != "" && description != ""
    ensures var f := Faults(None, Leaf(""), None);
            var o := UpdateTx(db, UpdateGood(id, projectId, name, description), f);
            && o.result.Ok?
            && o.db.goods[Key(id, projectId)].Name == name
            && |o.db.outbox| == |db.outbox| + 1
            && UpdateHandler(params, parseInt, Ok(UpdateGoodRequest(name, description)),
                             u => MutationAnswer("validate update good", ValidateUpdateGood(u), "update good",
                                                 UpdateTx(db, u, f).result, Some(delFault)))
               == Reply(StatusInternalServerError, ErrorBody(InternalServerError))
  {
    var f := Faults(None, Leaf(""), None);
    var u := UpdateGood(id, projectId, name, description);
    var answer := MutationAnswer("validate update good", ValidateUpdateGood(u), "update good",
                                 UpdateTx(db, u, f).result, Some(delFault));
    assert ValidateUpdateGood(u).None?;
    assert UpdateTx(db, u, f).result.Ok?;
    assert answer == Err(Wrap("delete goods list", Wrap("del", delFault)));
    assert Is(answer.error, ErrGoodNotFound) == Is(Wrap("del", delFault), ErrGoodNotFound) == Is(delFault, ErrGoodNotFound);
    assert Is(answer.error, ErrBadRequest) == Is(Wrap("del", delFault), ErrBadRequest) == Is(delFault, ErrBadRequest);
  }

  /** What the list endpoint would show for a page storage produced: one
      zero-valued result per requested row, the counts of the scanned
      window, and zero limit and offset. */
  lemma ListedPageRendersZeros(l: ListGoods, rows: seq<Good>)
    requires 0 <= l.Limit && |rows| <= l.Limit
    ensures var r := ListResponseOf(ListResult(l, rows));
            && |r.Goods| == l.Limit
            && (forall i :: 0 <= i < |r.Goods| ==> r.Goods[i] == ZeroGoodResult)
            && r.Meta == MetaResult(|rows|, CountRemoved(rows), 0, 0)
  {
  }
}
