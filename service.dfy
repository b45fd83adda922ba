/** GoodsService of internal/good/service/service.go: validate, call the
    storage, then invalidate the list cache (or, for List, write it). The
    calls the service makes are recorded in a ghost trace, and the class
    invariant says which orders of calls can appear in it. */
module Service {

  import opened Wrappers
  import opened Domain
  import opened Validate
  import opened Storage
  import C = Cache

  /** A call the service makes on a collaborator, with whether it succeeded. */
  datatype Call =
    | StorageCreate(c: CreateGood, ok: bool)
    | StorageUpdate(u: UpdateGood, ok: bool)
    | StorageDelete(d: DeleteGood, ok: bool)
    | StorageReprioritize(p: ReprioritizeGood, ok: bool)
    | StorageList(l: ListGoods, listed: Option<GoodsList>)
    | CacheSet(list: GoodsList)
    | CacheGet
    | CacheDelete
  {
    predicate IsStorage() {
      StorageCreate? || StorageUpdate? || StorageDelete? || StorageReprioritize? || StorageList?
    }

    /** A storage call that changed the tables. */
    predicate IsCommittedMutation() {
      (StorageCreate? || StorageUpdate? || StorageDelete? || StorageReprioritize?) && ok
    }

    predicate IsFailedStorage() {
      ((StorageCreate? || StorageUpdate? || StorageDelete? || StorageReprioritize?) && !ok)
      || (StorageList? && listed.None?)
    }
  }

  /** The order of calls the service keeps, over any number of operations:
      the cache is never read; the cache is invalidated right after, and
      only right after, a committed mutation; it is written only with the
      list storage has just returned; and after a failed storage call the
      next call, if any, is a storage call again. */
  predicate Disciplined(t: seq<Call>) {
    && (forall i :: 0 <= i < |t| ==> !t[i].CacheGet?)
    && (forall i :: 0 <= i < |t| && t[i].CacheDelete? ==> 0 < i && t[i - 1].IsCommittedMutation())
    && (forall i :: 0 <= i < |t| && t[i].CacheSet? ==>
          0 < i && t[i - 1].StorageList? && t[i - 1].listed == Some(t[i].list))
    && (forall i :: 0 <= i < |t| && t[i].IsCommittedMutation() ==> i + 1 < |t| && t[i + 1].CacheDelete?)
    && (forall i :: 0 <= i < |t| && t[i].StorageList? && t[i].listed.Some? ==>
          i + 1 < |t| && t[i + 1] == CacheSet(t[i].listed.value))
    && (forall i :: 0 <= i < |t| - 1 && t[i].IsFailedStorage() ==> t[i + 1].IsStorage())
  }

  /** The calls one operation makes: none when validation fails; the storage
      call alone when it fails; otherwise the storage call and then the one
      cache call. */
  function OperationCalls(storageCall: Call, validated: bool, cacheCall: Call): (cs: seq<Call>)
    requires storageCall.IsStorage()
  {
    if !validated then []
    else if storageCall.IsFailedStorage() then [storageCall]
    else [storageCall, cacheCall]
  }

  /** Appending a whole operation's calls keeps the discipline. */
  lemma {:induction false} AppendOperation(t: seq<Call>, storageCall: Call, validated: bool, cacheCall: Call)
    requires Disciplined(t) && storageCall.IsStorage()
    requires storageCall.IsCommittedMutation() ==> cacheCall == CacheDelete
    requires storageCall.StorageList? && storageCall.listed.Some? ==>
               cacheCall == CacheSet(storageCall.listed.value)
    ensures Disciplined(t + OperationCalls(storageCall, validated, cacheCall))
  {
    var cs := OperationCalls(storageCall, validated, cacheCall);
    var u := t + cs;
    if cs != [] {
      assert u[|t|] == storageCall;
      forall i | 0 <= i < |u| && u[i].IsCommittedMutation()
        ensures i + 1 < |u| && u[i + 1].CacheDelete?
      {
        if i < |t| { assert u[i] == t[i]; }
      }
      forall i | 0 <= i < |u| && u[i].StorageList? && u[i].listed.Some?
        ensures i + 1 < |u| && u[i + 1] == CacheSet(u[i].listed.value)
      {
        if i < |t| { assert u[i] == t[i]; }
      }
      forall i | 0 <= i < |u| - 1 && u[i].IsFailedStorage()
        ensures u[i + 1].IsStorage()
      {
        if i < |t| - 1 { assert u[i] == t[i] && u[i + 1] == t[i + 1]; }
      }
    }
  }

  /** What Create, Update, Delete and Reprioritize return: the validation
      error, else the storage error, else the cache-invalidation error, each
      wrapped once; on full success, the storage result unchanged. A failed
      invalidation is reported although the storage change stands. */
  function MutationAnswer<T>(validateMsg: string, invalid: Option<Error>, storageMsg: string,
                             stored: Result<T, Error>, delFault: Option<Error>): (r: Result<T, Error>)
    ensures r.Ok? <==> invalid.None? && stored.Ok? && delFault.None?
    ensures r.Ok? ==> r == stored
    ensures invalid.Some? ==> r == Err(Wrap(validateMsg, invalid.value))
    ensures invalid.None? && stored.Err? ==> r == Err(Wrap(storageMsg, stored.error))
    ensures invalid.None? && stored.Ok? && delFault.Some? ==>
              r == Err(Wrap("delete goods list", Wrap("del", delFault.value)))
  {
    if invalid.Some? then Err(Wrap(validateMsg, invalid.value))
    else if stored.Err? then Err(Wrap(storageMsg, stored.error))
    else if delFault.Some? then Err(Wrap("delete goods list", Wrap("del", delFault.value)))
    else stored
  }

  /** The error a service answer reaches the handler with has the sentinels
      of the step that failed: a BadRequest for a validation failure, the
      storage's or the cache's own error otherwise. */
  lemma MutationAnswerSentinels<T>(validateMsg: string, invalid: Option<Error>, storageMsg: string,
                                   stored: Result<T, Error>, delFault: Option<Error>, s: Sentinel)
    requires invalid.Some? ==> Is(invalid.value, ErrBadRequest)
    ensures var r := MutationAnswer(validateMsg, invalid, storageMsg, stored, delFault);
            && (invalid.Some? ==> Is(r.error, ErrBadRequest))
            && (invalid.None? && stored.Err? ==> (Is(r.error, s) <==> Is(stored.error, s)))
            && (invalid.None? && stored.Ok? && delFault.Some? ==> (Is(r.error, s) <==> Is(delFault.value, s)))
  {
  }

  /** The cache after an operation: the list key is gone exactly when a
      committed mutation was followed by a successful DEL. */
  function Invalidated(store: map<string, C.Entry>, deleted: bool): map<string, C.Entry> {
    if deleted then store - {C.GoodsListKey} else store
  }

  /** `fmt.Errorf("<msg>: %w", err)` on an error that may be nil. */
  function WrapOpt(msg: string, err: Option<Error>): Option<Error> {
    if err.Some? then Some(Wrap(msg, err.value)) else None
  }

  class GoodsService {
    const storage: GoodStorage
    const cache: C.Cache
    ghost var trace: seq<Call>

    ghost predicate Valid()
      reads this, storage, cache
    {
      storage.Valid() && cache.Valid() && Disciplined(trace)
    }

    /** NewGoodService. */
    constructor (cache: C.Cache, storage: GoodStorage)
      requires cache.Valid() && storage.Valid()
      ensures Valid() && this.cache == cache && this.storage == storage && trace == []
    {
      this.cache := cache;
      this.storage := storage;
      trace := [];
    }

    method Create(c: CreateGood, now: Time, fault: Option<Error>, delFault: Option<Error>)
      returns (r: Result<Good, Error>)
      requires Valid()
      modifies this, storage, cache
      ensures Valid()
      ensures r == MutationAnswer("validate create good", ValidateCreateGood(c), "create good", CreateRow(old(storage.State()), storage.defaults, c, now, fault).result, delFault)
      ensures storage.State() == if ValidateCreateGood(c).Some? then old(storage.State()) else CreateRow(old(storage.State()), storage.defaults, c, now, fault).db
      ensures trace == old(trace) + OperationCalls(StorageCreate(c, CreateRow(old(storage.State()), storage.defaults, c, now, fault).result.Ok?),
                                                   ValidateCreateGood(c).None?, CacheDelete)
      ensures cache.store == Invalidated(old(cache.store),
                                         ValidateCreateGood(c).None? && CreateRow(old(storage.State()), storage.defaults, c, now, fault).result.Ok? && delFault.None?)
    {
      var invalid := ValidateCreateGood(c);
      if invalid.Some? {
        return Err(Wrap("validate create good", invalid.value));
      }
      ghost var o := CreateRow(storage.State(), storage.defaults, c, now, fault);
      var stored := storage.CreateGood(c, now, fault);
      assert stored == o.result && storage.State() == o.db;
      AppendOperation(trace, StorageCreate(c, stored.Ok?), true, CacheDelete);
      if stored.Err? {
        trace := trace + [StorageCreate(c, false)];
        return Err(Wrap("create good", stored.error));
      }
      var e := cache.DeleteGoodsList(delFault);
      trace := trace + [StorageCreate(c, true), CacheDelete];
      if e.Some? {
        return Err(Wrap("delete goods list", e.value));
      }
      r := stored;
    }

    method Update(u: UpdateGood, f: Faults, delFault: Option<Error>)
      returns (r: Result<Good, Error>)
      requires Valid()
      modifies this, storage, cache
      ensures Valid()
      ensures r == MutationAnswer("validate update good", ValidateUpdateGood(u), "update good", UpdateTx(old(storage.State()), u, f).result, delFault)
      ensures storage.State() == if ValidateUpdateGood(u).Some? then old(storage.State()) else UpdateTx(old(storage.State()), u, f).db
      ensures trace == old(trace) + OperationCalls(StorageUpdate(u, UpdateTx(old(storage.State()), u, f).result.Ok?),
                                                   ValidateUpdateGood(u).None?, CacheDelete)
      ensures cache.store == Invalidated(old(cache.store),
                                         ValidateUpdateGood(u).None? && UpdateTx(old(storage.State()), u, f).result.Ok? && delFault.None?)
    {
      var invalid := ValidateUpdateGood(u);
      if invalid.Some? {
        return Err(Wrap("validate update good", invalid.value));
      }
      ghost var o := UpdateTx(storage.State(), u, f);
      var stored := storage.UpdateGood(u, f);
      assert stored == o.result && storage.State() == o.db;
      AppendOperation(trace, StorageUpdate(u, stored.Ok?), true, CacheDelete);
      if stored.Err? {
        trace := trace + [StorageUpdate(u, false)];
        return Err(Wrap("update good", stored.error));
      }
      var e := cache.DeleteGoodsList(delFault);
      trace := trace + [StorageUpdate(u, true), CacheDelete];
      if e.Some? {
        return Err(Wrap("delete goods list", e.value));
      }
      r := stored;
    }

    method Delete(d: DeleteGood, f: Faults, delFault: Option<Error>)
      returns (err: Option<Error>)
      requires Valid()
      modifies this, storage, cache
      ensures Valid()
      ensures var a := MutationAnswer("validate delete good", ValidateDeleteGood(d), "delete good", DeleteTx(old(storage.State()), d, f).result, delFault);
              err == if a.Ok? then None else Some(a.error)
      ensures storage.State() == if ValidateDeleteGood(d).Some? then old(storage.State()) else DeleteTx(old(storage.State()), d, f).db
      ensures trace == old(trace) + OperationCalls(StorageDelete(d, DeleteTx(old(storage.State()), d, f).result.Ok?),
                                                   ValidateDeleteGood(d).None?, CacheDelete)
      ensures cache.store == Invalidated(old(cache.store),
                                         ValidateDeleteGood(d).None? && DeleteTx(old(storage.State()), d, f).result.Ok? && delFault.None?)
    {
      var invalid := ValidateDeleteGood(d);
      if invalid.Some? {
        return Some(Wrap("validate delete good", invalid.value));
      }
      ghost var o := DeleteTx(storage.State(), d, f);
      var stored := storage.DeleteGood(d, f);
      assert stored == o.result && storage.State() == o.db;
      AppendOperation(trace, StorageDelete(d, stored.Ok?), true, CacheDelete);
      if stored.Err? {
        trace := trace + [StorageDelete(d, false)];
        return Some(Wrap("delete good", stored.error));
      }
      var e := cache.DeleteGoodsList(delFault);
      trace := trace + [StorageDelete(d, true), CacheDelete];
      err := WrapOpt("delete goods list", e);
    }

    method Reprioritize(p: ReprioritizeGood, bound: Result<Int32, Error>, f: Faults, delFault: Option<Error>)
      returns (r: Result<seq<GoodPriority>, Error>)
      requires Valid()
      modifies this, storage, cache
      ensures Valid()
      ensures r == MutationAnswer("validate reprioritize good", ValidateReprioritizeGood(p), "reprioritize good", ReprioritizeTx(old(storage.State()), p, bound, f).result, delFault)
      ensures storage.State() == if ValidateReprioritizeGood(p).Some? then old(storage.State()) else ReprioritizeTx(old(storage.State()), p, bound, f).db
      ensures trace == old(trace) + OperationCalls(StorageReprioritize(p, ReprioritizeTx(old(storage.State()), p, bound, f).result.Ok?),
                                                   ValidateReprioritizeGood(p).None?, CacheDelete)
      ensures cache.store == Invalidated(old(cache.store),
                                         ValidateReprioritizeGood(p).None? && ReprioritizeTx(old(storage.State()), p, bound, f).result.Ok? && delFault.None?)
    {
      var invalid := ValidateReprioritizeGood(p);
      if invalid.Some? {
        return Err(Wrap("validate reprioritize good", invalid.value));
      }
      ghost var o := ReprioritizeTx(storage.State(), p, bound, f);
      var stored := storage.ReprioritizeGood(p, bound, f);
      assert stored == o.result && storage.State() == o.db;
      AppendOperation(trace, StorageReprioritize(p, stored.Ok?), true, CacheDelete);
      if stored.Err? {
        trace := trace + [StorageReprioritize(p, false)];
        return Err(Wrap("reprioritize good", stored.error));
      }
      var e := cache.DeleteGoodsList(delFault);
      trace := trace + [StorageReprioritize(p, true), CacheDelete];
      if e.Some? {
        return Err(Wrap("delete goods list", e.value));
      }
      r := stored;
    }

    /** List: the storage page is written to the cache as it is; the cache is
        never read and never invalidated here. A failed cache write is
        reported with the message "delete good". */
    method List(l: ListGoods, order: seq<Key>, scan: ScanFault, now: Time, setFault: Option<Error>)
      returns (r: Result<GoodsList, Error>)
      requires Valid() && EnumeratesRows(storage.goods, order)
      modifies this, cache
      ensures Valid()
      ensures ValidateListGoods(l).Some? ==>
                && r == Err(Wrap("validate list goods", ValidateListGoods(l).value))
                && cache.store == old(cache.store) && trace == old(trace)
      ensures ValidateListGoods(l).None? && !ListSucceeds(storage.goods, order, l, scan) ==>
                && !scan.NoScanFault?
                && r == Err(Wrap("list goods", ListError(scan)))
                && cache.store == old(cache.store)
                && trace == old(trace) + [StorageList(l, None)]
      ensures ValidateListGoods(l).None? && ListSucceeds(storage.goods, order, l, scan) ==>
                var page := ListResult(l, Window(storage.goods, order, l.Limit, l.Offset));
                var encoded := cache.codec.marshal(C.ToRedis(page));
                && trace == old(trace) + [StorageList(l, Some(page)), CacheSet(page)]
                && r == ListAnswer(page, encoded, setFault)
                && cache.store == (if encoded.Ok? && setFault.None?
                                   then C.Stored(old(cache.store), encoded.value, now)
                                   else old(cache.store))
    {
      var invalid := ValidateListGoods(l);
      if invalid.Some? {
        return Err(Wrap("validate list goods", invalid.value));
      }
      var listed := storage.ListGoods(l, order, scan);
      if listed.Err? {
        AppendOperation(trace, StorageList(l, None), true, CacheSet(ZeroList()));
        trace := trace + [StorageList(l, None)];
        return Err(Wrap("list goods", listed.error));
      }
      var page := listed.value;
      AppendOperation(trace, StorageList(l, Some(page)), true, CacheSet(page));
      var err := cache.SetGoodsList(page, now, setFault);
      trace := trace + [StorageList(l, Some(page)), CacheSet(page)];
      if err.Some? {
        return Err(Wrap("delete good", err.value));
      }
      r := Ok(page);
    }
  }

  /** What List returns once storage has produced `page`: the page, or the
      cache write's error wrapped as "delete good". */
  function ListAnswer(page: GoodsList, encoded: Result<C.Bytes, Error>, setFault: Option<Error>)
    : (r: Result<GoodsList, Error>)
    ensures r.Ok? <==> encoded.Ok? && setFault.None?
    ensures r.Ok? ==> r.value == page
    ensures encoded.Err? ==> r == Err(Wrap("delete good", Wrap("json marshal", encoded.error)))
    ensures encoded.Ok? && setFault.Some? ==> r == Err(Wrap("delete good", setFault.value))
  {
    if encoded.Err? then Err(Wrap("delete good", Wrap("json marshal", encoded.error)))
    else if setFault.Some? then Err(Wrap("delete good", setFault.value))
    else Ok(page)
  }

  function ZeroList(): GoodsList {
    GoodsList([], ZeroMeta)
  }
}
