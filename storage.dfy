/** The goods storage of internal/good/storage/good/postgres/postgres.go: a
    `goods` table keyed by (id, project_id), an `outbox` table, and the
    transactions that update them. The SQL engine is replaced by an in-memory
    table; a transaction is a snapshot that a failure restores. */
module Storage {

  import opened Wrappers
  import opened Domain

  // ---------------------------------------------------------------------------
  // Tables and the environment's answers
  // ---------------------------------------------------------------------------

  /** A row's identity. Every existence check and every mutation filters on
      `id = $1 AND project_id = $2`, so the pair is the only way to reach a row. */
  datatype Key = Key(id: Int64, projectId: Int64)

  /** A row of the `outbox` table: the event token drawn from uuid.New() and
      the good it is about. */
  datatype OutboxEvent = OutboxEvent(eventId: nat, goodId: Int64, projectId: Int64)

  /** What the table's column defaults put into a fresh row; the schema is
      not part of this model. */
  datatype ColumnDefaults = ColumnDefaults(description: string, priority: Int32, removed: bool)

  /** The step of a transaction at which the database reports an error.
      Mutate is the statement that applies the change (for ReprioritizeGood,
      reading back its RETURNING rows). */
  datatype Step = Begin | Check | Mutate | Outbox | Commit

  /** The environment's answers for one transaction: the first failing step
      (None: every statement succeeds), the error it reports, and what the
      deferred Rollback returns. */
  datatype Faults = Faults(failAt: Option<Step>, cause: Error, rollback: Option<Error>)

  /** The answers for one ListGoods query. */
  datatype ScanFault =
    | NoScanFault
    | QueryFails(e: Error)           // pool.Query returns an error
    | RowFails(at: nat, e: Error)    // rows.Scan fails on the at-th row
    | CursorFails(e: Error)          // rows.Err() after the last row

  /** The abstract state: both tables, the `goods.id` sequence and the uuid
      source. The two counters are not transactional: a rollback does not
      give their values back. */
  datatype Db = Db(goods: map<Key, Good>, outbox: seq<OutboxEvent>, nextId: int, issued: nat)

  /** A transaction's effect and its Go return value. */
  datatype Outcome<T> = Outcome(db: Db, result: Result<T, Error>)

  /** The table invariants: a row is stored under its own (id, project_id);
      ids come from the sequence; every outbox row has a distinct token and
      names a row that exists. */
  predicate WellFormed(db: Db) {
    && db.nextId >= 1
    && (forall k :: k in db.goods ==>
          db.goods[k].ID == k.id && db.goods[k].ProjectID == k.projectId && k.id < db.nextId)
    && (forall i :: 0 <= i < |db.outbox| ==>
          db.outbox[i].eventId < db.issued &&
          Key(db.outbox[i].goodId, db.outbox[i].projectId) in db.goods)
    && (forall i, j :: 0 <= i < j < |db.outbox| ==> db.outbox[i].eventId != db.outbox[j].eventId)
  }

  /** The tables a reader sees: the counters left aside. */
  predicate SameTables(a: Db, b: Db) {
    a.goods == b.goods && a.outbox == b.outbox
  }

  /** No step before the outbox insert failed. */
  predicate LateOrNone(f: Faults) {
    f.failAt.None? || f.failAt.value.Outbox? || f.failAt.value.Commit?
  }

  /** The error of a failed step inside a transaction: the step's error,
      joined with the rollback's error when the rollback fails too. */
  function Aborted(msg: string, cause: Error, rollback: Option<Error>): (e: Error)
    ensures forall s :: Is(e, s) <==>
              Is(cause, s) || (rollback.Some? && Is(rollback.value, s))
  {
    if rollback.Some? then Join(Wrap(msg, cause), Wrap("tx rollback", rollback.value))
    else Wrap(msg, cause)
  }

  /** What the existence check `SELECT TRUE ... FOR UPDATE` reports: a
      driver error, or pgx.ErrNoRows when no row has this (id, project_id). */
  function CheckFailure(goods: map<Key, Good>, k: Key, f: Faults): Option<Error> {
    if f.failAt == Some(Check) then Some(f.cause)
    else if k !in goods then Some(Sentinel(ErrNoRows))
    else None
  }

  /** One outbox row for the good at `k`, with the next token. */
  function Event(db: Db, k: Key): OutboxEvent {
    OutboxEvent(db.issued, k.id, k.projectId)
  }

  /** The tail every mutator shares once its change is applied: draw a token,
      insert the outbox row, commit; a failure at either step restores the
      snapshot `db` but keeps the token drawn. */
  function FinishTx<T>(db: Db, changed: map<Key, Good>, k: Key, f: Faults, value: T): (o: Outcome<T>)
    requires WellFormed(db) && k in db.goods
    requires LateOrNone(f)
    requires changed.Keys == db.goods.Keys
    requires forall j :: j in changed ==> changed[j].ID == j.id && changed[j].ProjectID == j.projectId
    ensures WellFormed(o.db) && o.db.nextId == db.nextId && o.db.issued == db.issued + 1
    ensures o.result.Ok? <==> f.failAt.None?
    ensures o.result.Ok? ==> o.db.goods == changed && o.db.outbox == db.outbox + [Event(db, k)]
    ensures o.result.Ok? ==> o.result.value == value
    ensures o.result.Err? ==> SameTables(o.db, db)
    ensures o.result.Err? ==>
              forall e :: Is(o.result.error, e) <==> Is(f.cause, e) || (f.rollback.Some? && Is(f.rollback.value, e))
  {
    var drawn := db.(issued := db.issued + 1);
    if f.failAt == Some(Outbox) then Outcome(drawn, Err(Aborted("insert event", f.cause, f.rollback)))
    else if f.failAt == Some(Commit) then Outcome(drawn, Err(Aborted("tx commit", f.cause, f.rollback)))
    else
      var o := Outcome(Db(changed, db.outbox + [Event(db, k)], db.nextId, db.issued + 1), Ok(value));
      assert WellFormed(o.db) by {
        forall i, j | 0 <= i < j < |o.db.outbox|
          ensures o.db.outbox[i].eventId != o.db.outbox[j].eventId
        {
          if j == |db.outbox| { assert o.db.outbox[i] == db.outbox[i]; }
        }
      }
      o
  }

  // ---------------------------------------------------------------------------
  // The transactions as functions of the state before them
  // ---------------------------------------------------------------------------

  /** CreateGood: one INSERT with RETURNING, outside any transaction and
      without an outbox row. */
  function CreateRow(db: Db, defaults: ColumnDefaults, c: CreateGood, now: Time, fault: Option<Error>)
    : (o: Outcome<Good>)
    requires WellFormed(db)
    ensures WellFormed(o.db) && o.db.outbox == db.outbox && o.db.issued == db.issued
    ensures o.result.Ok? <==> fault.None? && db.nextId <= MaxInt64
    ensures o.result.Err? ==> o.db == db
    ensures o.result.Ok? ==>
              var g := o.result.value;
              && g == Good(db.nextId, c.ProjectID, c.Name, defaults.description,
                           defaults.priority, defaults.removed, now)
              && Key(g.ID, g.ProjectID) !in db.goods
              && o.db.goods == db.goods[Key(g.ID, g.ProjectID) := g]
  {
    if fault.Some? then Outcome(db, Err(Wrap("insert query", fault.value)))
    else if db.nextId > MaxInt64 then
      Outcome(db, Err(Wrap("insert query", Leaf("nextval: reached maximum value of sequence"))))
    else
      var g := Good(db.nextId, c.ProjectID, c.Name, defaults.description,
                    defaults.priority, defaults.removed, now);
      Outcome(db.(goods := db.goods[Key(g.ID, g.ProjectID) := g], nextId := db.nextId + 1), Ok(g))
  }

  /** UpdateGood: check, `UPDATE goods SET name, description ... RETURNING`,
      outbox row, commit. */
  function UpdateTx(db: Db, u: UpdateGood, f: Faults): (o: Outcome<Good>)
    requires WellFormed(db)
    ensures WellFormed(o.db) && o.db.nextId == db.nextId
    ensures o.result.Ok? <==> Key(u.ID, u.ProjectID) in db.goods && f.failAt.None?
    ensures o.result.Err? ==> SameTables(o.db, db)
    ensures o.result.Err? ==>
              forall e :: Is(o.result.error, e) ==>
                e == ErrNoRows || Is(f.cause, e) || (f.rollback.Some? && Is(f.rollback.value, e))
    ensures o.result.Ok? ==>
              var k := Key(u.ID, u.ProjectID);
              && o.db.goods == db.goods[k := db.goods[k].(Name := u.Name, Description := u.Description)]
              && o.result.value == o.db.goods[k]
              && o.db.outbox == db.outbox + [OutboxEvent(db.issued, u.ID, u.ProjectID)]
  {
    var k := Key(u.ID, u.ProjectID);
    if f.failAt == Some(Begin) then Outcome(db, Err(Wrap("begin tx", f.cause)))
    else if CheckFailure(db.goods, k, f).Some? then
      Outcome(db, Err(Aborted("check existance", CheckFailure(db.goods, k, f).value, f.rollback)))
    else if f.failAt == Some(Mutate) then
      Outcome(db, Err(Aborted("update good", f.cause, f.rollback)))
    else
      var g := db.goods[k].(Name := u.Name, Description := u.Description);
      FinishTx(db, db.goods[k := g], k, f, g)
  }

  /** DeleteGood: check, `UPDATE goods SET removed = true`, outbox row,
      commit. The row stays in the table. */
  function DeleteTx(db: Db, d: DeleteGood, f: Faults): (o: Outcome<()>)
    requires WellFormed(db)
    ensures WellFormed(o.db) && o.db.nextId == db.nextId
    ensures o.result.Ok? <==> Key(d.ID, d.ProjectID) in db.goods && f.failAt.None?
    ensures o.result.Err? ==> SameTables(o.db, db)
    ensures o.result.Err? ==>
              forall e :: Is(o.result.error, e) ==>
                e == ErrNoRows || Is(f.cause, e) || (f.rollback.Some? && Is(f.rollback.value, e))
    ensures o.result.Ok? ==>
              var k := Key(d.ID, d.ProjectID);
              && o.db.goods == db.goods[k := db.goods[k].(Removed := true)]
              && o.db.outbox == db.outbox + [OutboxEvent(db.issued, d.ID, d.ProjectID)]
  {
    var k := Key(d.ID, d.ProjectID);
    if f.failAt == Some(Begin) then Outcome(db, Err(Wrap("begin tx", f.cause)))
    else if CheckFailure(db.goods, k, f).Some? then
      Outcome(db, Err(Aborted("check existance", CheckFailure(db.goods, k, f).value, f.rollback)))
    else if f.failAt == Some(Mutate) then
      Outcome(db, Err(Aborted("delete good", f.cause, f.rollback)))
    else
      FinishTx(db, db.goods[k := db.goods[k].(Removed := true)], k, f, ())
  }

  /** ReprioritizeGood: check, `UPDATE goods SET priority = $1 ... RETURNING
      id, priority` with the literal `true` bound to $1, outbox row, commit.
      `bound` is what the driver and the database make of that boolean in the
      integer column: an error, or the value stored. NewPriority is read by
      nothing here. */
  function ReprioritizeTx(db: Db, p: ReprioritizeGood, bound: Result<Int32, Error>, f: Faults)
    : (o: Outcome<seq<GoodPriority>>)
    requires WellFormed(db)
    ensures WellFormed(o.db) && o.db.nextId == db.nextId
    ensures o.result.Ok? <==> Key(p.ID, p.ProjectID) in db.goods && bound.Ok? && f.failAt.None?
    ensures o.result.Err? ==> SameTables(o.db, db)
    ensures o.result.Err? ==>
              forall e :: Is(o.result.error, e) ==>
                || e == ErrNoRows || Is(f.cause, e) || (f.rollback.Some? && Is(f.rollback.value, e))
                || (bound.Err? && Is(bound.error, e))
    ensures o.result.Ok? ==>
              var k := Key(p.ID, p.ProjectID);
              && o.db.goods == db.goods[k := db.goods[k].(Priority := bound.value)]
              && o.result.value == [GoodPriority(p.ID, bound.value)]
              && o.db.outbox == db.outbox + [OutboxEvent(db.issued, p.ID, p.ProjectID)]
  {
    var k := Key(p.ID, p.ProjectID);
    if f.failAt == Some(Begin) then Outcome(db, Err(Wrap("begin tx", f.cause)))
    else if CheckFailure(db.goods, k, f).Some? then
      Outcome(db, Err(Aborted("check existance", CheckFailure(db.goods, k, f).value, f.rollback)))
    else if bound.Err? then
      Outcome(db, Err(Aborted("reprioritize good", bound.error, f.rollback)))
    else if f.failAt == Some(Mutate) then
      Outcome(db, Err(Aborted("rows scan", f.cause, f.rollback)))
    else
      var g := db.goods[k].(Priority := bound.value);
      FinishTx(db, db.goods[k := g], k, f, [GoodPriority(p.ID, bound.value)])
  }

  // ---------------------------------------------------------------------------
  // ListGoods
  // ---------------------------------------------------------------------------

  /** `order` lists every row of the table once: the order in which the engine
      happens to return rows for a query without ORDER BY. */
  predicate EnumeratesRows(goods: map<Key, Good>, order: seq<Key>) {
    && (forall k :: k in goods ==> k in order)
    && (forall i :: 0 <= i < |order| ==> order[i] in goods)
    && (forall i, j :: 0 <= i < j < |order| ==> order[i] != order[j])
  }

  /** The rows `LIMIT limit OFFSET offset` returns. */
  function Window(goods: map<Key, Good>, order: seq<Key>, limit: nat, offset: nat): (rows: seq<Good>)
    requires forall i :: 0 <= i < |order| ==> order[i] in goods
    ensures |rows| == if offset >= |order| then 0
                      else if limit < |order| - offset then limit
                      else |order| - offset
    ensures forall i :: 0 <= i < |rows| ==> offset + i < |order| && rows[i] == goods[order[offset + i]]
  {
    var lo := if offset < |order| then offset else |order|;
    var hi := if lo + limit < |order| then lo + limit else |order|;
    seq(hi - lo, i requires 0 <= i < hi - lo => goods[order[lo + i]])
  }

  /** The number of rows with `removed = true`. */
  function CountRemoved(rows: seq<Good>): (n: nat)
    ensures n <= |rows|
    ensures n == 0 <==> forall i :: 0 <= i < |rows| ==> !rows[i].Removed
  {
    if rows == [] then 0
    else CountRemoved(rows[..|rows| - 1]) + (if rows[|rows| - 1].Removed then 1 else 0)
  }

  lemma CountRemovedStep(rows: seq<Good>, i: nat)
    requires i < |rows|
    ensures CountRemoved(rows[..i + 1]) == CountRemoved(rows[..i]) + (if rows[i].Removed then 1 else 0)
  {
    assert rows[..i + 1][..i] == rows[..i];
  }

  /** When the listing query and its scan go through: no query, row or
      cursor error hits the window. */
  predicate ListSucceeds(goods: map<Key, Good>, order: seq<Key>, l: ListGoods, fault: ScanFault)
    requires forall i :: 0 <= i < |order| ==> order[i] in goods
    requires 0 <= l.Limit && 0 <= l.Offset
  {
    && !fault.QueryFails? && !fault.CursorFails?
    && !(fault.RowFails? && fault.at < |Window(goods, order, l.Limit, l.Offset)|)
  }

  /** The error ListGoods reports for a failing query, row or cursor, each
      wrapped with its step's message. */
  function ListError(fault: ScanFault): (e: Error)
    requires !fault.NoScanFault?
    ensures forall s :: Is(e, s) <==> Is(fault.e, s)
  {
    match fault
    case QueryFails(e) => Wrap("get goods list", e)
    case RowFails(_, e) => Wrap("rows scan", e)
    case CursorFails(e) => Wrap("rows error", e)
  }

  /** The result ListGoods builds from the scanned rows: `make([]Good, Limit)`
      that the loop never appends to, and counters for the scanned rows in a
      Meta whose Limit and Offset are never set. */
  function ListResult(l: ListGoods, rows: seq<Good>): (r: GoodsList)
    requires 0 <= l.Limit && |rows| <= l.Limit
    ensures |r.Goods| == l.Limit
    ensures r.Meta.Limit == 0 && r.Meta.Offset == 0
    ensures r.Meta.Total == |rows| && r.Meta.Removed == CountRemoved(rows)
  {
    GoodsList(seq(l.Limit, _ => ZeroGood), Meta(|rows|, CountRemoved(rows), 0, 0))
  }

  // ---------------------------------------------------------------------------
  // The storage object
  // ---------------------------------------------------------------------------

  class GoodStorage {
    var goods: map<Key, Good>
    var outbox: seq<OutboxEvent>
    var nextId: int
    var issued: nat
    const defaults: ColumnDefaults

    function State(): Db
      reads this
    {
      Db(goods, outbox, nextId, issued)
    }

    ghost predicate Valid()
      reads this
    {
      WellFormed(State())
    }

    /** NewGoodStorage over an empty database. */
    constructor (defaults: ColumnDefaults)
      ensures Valid() && this.defaults == defaults
      ensures goods == map[] && outbox == [] && nextId == 1 && issued == 0
    {
      this.defaults := defaults;
      goods, outbox, nextId, issued := map[], [], 1, 0;
    }

    /** The failure path shared by every step after BEGIN: restore the
        snapshot and report the step's error joined with the rollback's. */
    method Rollback(snapshot: Db, msg: string, cause: Error, rollback: Option<Error>)
      returns (err: Error)
      modifies this
      ensures goods == snapshot.goods && outbox == snapshot.outbox
      ensures nextId == old(nextId) && issued == old(issued)
      ensures err == Aborted(msg, cause, rollback)
    {
      goods, outbox := snapshot.goods, snapshot.outbox;
      err := Wrap(msg, cause);
      if rollback.Some? {
        err := Join(err, Wrap("tx rollback", rollback.value));
      }
    }

    /** Draws the next event token, appends the outbox row and commits. */
    method Finish(snapshot: Db, k: Key, f: Faults) returns (err: Option<Error>)
      requires Valid() && snapshot.goods.Keys == goods.Keys && k in goods
      requires snapshot.outbox == outbox && snapshot.nextId == nextId && snapshot.issued == issued
      requires LateOrNone(f)
      modifies this
      ensures err.None? <==> f.failAt.None?
      ensures err.None? ==> goods == old(goods) && outbox == snapshot.outbox + [Event(snapshot, k)]
      ensures err.Some? ==> goods == snapshot.goods && outbox == snapshot.outbox
      ensures err.Some? ==> err.value == Aborted(
                if f.failAt == Some(Outbox) then "insert event" else "tx commit", f.cause, f.rollback)
      ensures nextId == old(nextId) && issued == old(issued) + 1
    {
      var eventId := issued;
      issued := issued + 1;
      outbox := outbox + [OutboxEvent(eventId, k.id, k.projectId)];
      if f.failAt == Some(Outbox) {
        var e := Rollback(snapshot, "insert event", f.cause, f.rollback);
        return Some(e);
      }
      if f.failAt == Some(Commit) {
        var e := Rollback(snapshot, "tx commit", f.cause, f.rollback);
        return Some(e);
      }
      return None;
    }

    method CreateGood(c: CreateGood, now: Time, fault: Option<Error>) returns (r: Result<Good, Error>)
      requires Valid()
      modifies this
      ensures Valid()
      ensures State() == CreateRow(old(State()), defaults, c, now, fault).db
      ensures r == CreateRow(old(State()), defaults, c, now, fault).result
    {
      if fault.Some? {
        return Err(Wrap("insert query", fault.value));
      }
      if nextId > MaxInt64 {
        return Err(Wrap("insert query", Leaf("nextval: reached maximum value of sequence")));
      }
      var good := Good(nextId, c.ProjectID, c.Name, defaults.description,
                       defaults.priority, defaults.removed, now);
      goods := goods[Key(good.ID, good.ProjectID) := good];
      nextId := nextId + 1;
      r := Ok(good);
    }

    method UpdateGood(u: UpdateGood, f: Faults) returns (r: Result<Good, Error>)
      requires Valid()
      modifies this
      ensures Valid()
      ensures State() == UpdateTx(old(State()), u, f).db
      ensures r == UpdateTx(old(State()), u, f).result
    {
      if f.failAt == Some(Begin) {
        return Err(Wrap("begin tx", f.cause));
      }
      var snapshot := State();
      var k := Key(u.ID, u.ProjectID);
      var missing := CheckFailure(goods, k, f);
      if missing.Some? {
        var e := Rollback(snapshot, "check existance", missing.value, f.rollback);
        return Err(e);
      }
      if f.failAt == Some(Mutate) {
        var e := Rollback(snapshot, "update good", f.cause, f.rollback);
        return Err(e);
      }
      goods := goods[k := goods[k].(Name := u.Name, Description := u.Description)];
      var good := goods[k];
      var err := Finish(snapshot, k, f);
      if err.Some? {
        return Err(err.value);
      }
      r := Ok(good);
    }

    method DeleteGood(d: DeleteGood, f: Faults) returns (r: Result<(), Error>)
      requires Valid()
      modifies this
      ensures Valid()
      ensures State() == DeleteTx(old(State()), d, f).db
      ensures r == DeleteTx(old(State()), d, f).result
    {
      if f.failAt == Some(Begin) {
        return Err(Wrap("begin tx", f.cause));
      }
      var snapshot := State();
      var k := Key(d.ID, d.ProjectID);
      var missing := CheckFailure(goods, k, f);
      if missing.Some? {
        var e := Rollback(snapshot, "check existance", missing.value, f.rollback);
        return Err(e);
      }
      if f.failAt == Some(Mutate) {
        var e := Rollback(snapshot, "delete good", f.cause, f.rollback);
        return Err(e);
      }
      goods := goods[k := goods[k].(Removed := true)];
      var err := Finish(snapshot, k, f);
      if err.Some? {
        return Err(err.value);
      }
      r := Ok(());
    }

    method ReprioritizeGood(p: ReprioritizeGood, bound: Result<Int32, Error>, f: Faults)
      returns (r: Result<seq<GoodPriority>, Error>)
      requires Valid()
      modifies this
      ensures Valid()
      ensures State() == ReprioritizeTx(old(State()), p, bound, f).db
      ensures r == ReprioritizeTx(old(State()), p, bound, f).result
    {
      if f.failAt == Some(Begin) {
        return Err(Wrap("begin tx", f.cause));
      }
      var snapshot := State();
      var k := Key(p.ID, p.ProjectID);
      var missing := CheckFailure(goods, k, f);
      if missing.Some? {
        var e := Rollback(snapshot, "check existance", missing.value, f.rollback);
        return Err(e);
      }
      if bound.Err? {
        var e := Rollback(snapshot, "reprioritize good", bound.error, f.rollback);
        return Err(e);
      }
      goods := goods[k := goods[k].(Priority := bound.value)];
      // The RETURNING rows: the one row the filter matches.
      var returned := [GoodPriority(k.id, goods[k].Priority)];
      var priorities: seq<GoodPriority> := [];
      var i := 0;
      while i < |returned|
        invariant 0 <= i <= |returned|
        invariant priorities == returned[..i]
        invariant i > 0 ==> f.failAt != Some(Mutate)
      {
        if f.failAt == Some(Mutate) {
          var e := Rollback(snapshot, "rows scan", f.cause, f.rollback);
          return Err(e);
        }
        priorities := priorities + [returned[i]];
        i := i + 1;
      }
      assert priorities == returned by { assert returned[..i] == returned; }
      var err := Finish(snapshot, k, f);
      if err.Some? {
        return Err(err.value);
      }
      r := Ok(priorities);
    }

    /** ListGoods scans the window, counting rows and removed rows, and
        returns `Limit` zero-valued goods beside those counts. */
    method ListGoods(l: ListGoods, order: seq<Key>, fault: ScanFault) returns (r: Result<GoodsList, Error>)
      requires EnumeratesRows(goods, order)
      requires 0 <= l.Limit && 0 <= l.Offset
      ensures r.Ok? <==> ListSucceeds(goods, order, l, fault)
      ensures r.Ok? ==> r.value == ListResult(l, Window(goods, order, l.Limit, l.Offset))
      ensures r.Ok? ==> forall i :: 0 <= i < |r.value.Goods| ==> r.value.Goods[i] == ZeroGood
      ensures r.Err? ==> !fault.NoScanFault? && r.error == ListError(fault)
      ensures fault.QueryFails? ==> r == Err(Wrap("get goods list", fault.e))
      ensures fault.RowFails? && fault.at < |Window(goods, order, l.Limit, l.Offset)| ==>
                r == Err(Wrap("rows scan", fault.e))
      ensures fault.CursorFails? ==> r == Err(Wrap("rows error", fault.e))
    {
      if fault.QueryFails? {
        return Err(Wrap("get goods list", fault.e));
      }
      var rows := Window(goods, order, l.Limit, l.Offset);
      var list := seq(l.Limit, _ => ZeroGood);
      var total, removed := 0, 0;
      var i := 0;
      while i < |rows|
        invariant 0 <= i <= |rows|
        invariant total == i
        invariant removed == CountRemoved(rows[..i])
        invariant !(fault.RowFails? && fault.at < i)
      {
        if fault.RowFails? && fault.at == i {
          return Err(Wrap("rows scan", fault.e));
        }
        total := total + 1;
        CountRemovedStep(rows, i);
        if rows[i].Removed {
          removed := removed + 1;
        }
        i := i + 1;
      }
      if fault.CursorFails? {
        return Err(Wrap("rows error", fault.e));
      }
      assert rows[..i] == rows;
      r := Ok(GoodsList(list, Meta(total, removed, 0, 0)));
    }
  }
}

/** Properties of the goods storage that relate several transactions or hold
    of all of them. */
module StorageProperties {

  import opened Wrappers
  import opened Domain
  import opened Storage

  /** The environment's errors come from the driver, not from the domain. */
  predicate DriverFaults(f: Faults) {
    DriverError(f.cause) && (f.rollback.Some? ==> DriverError(f.rollback.value))
  }

  /** A missing (id, project_id) pair -- including a correct id under another
      project -- aborts every mutator before any change, and what is reported
      is the wrapped pgx.ErrNoRows, never domain.ErrGoodNotFound. */
  lemma MissingRowIsNotNotFound(db: Db, id: Int64, projectId: Int64, name: string, description: string,
                                newPriority: Int32, bound: Result<Int32, Error>, f: Faults)
    requires WellFormed(db) && Key(id, projectId) !in db.goods
    requires f.failAt != Some(Begin) && f.failAt != Some(Check) && DriverFaults(f)
    ensures var o := UpdateTx(db, UpdateGood(id, projectId, name, description), f);
            o.result.Err? && SameTables(o.db, db) && o.db == db &&
            Is(o.result.error, ErrNoRows) && !Is(o.result.error, ErrGoodNotFound)
    ensures var o := DeleteTx(db, DeleteGood(id, projectId), f);
            o.result.Err? && o.db == db &&
            Is(o.result.error, ErrNoRows) && !Is(o.result.error, ErrGoodNotFound)
    ensures var o := ReprioritizeTx(db, ReprioritizeGood(id, projectId, newPriority), bound, f);
            o.result.Err? && o.db == db &&
            Is(o.result.error, ErrNoRows) && !Is(o.result.error, ErrGoodNotFound)
  {
  }

  /** The priority written by ReprioritizeGood is the value bound for the
      literal `true`; the requested NewPriority changes nothing. */
  lemma ReprioritizeIgnoresNewPriority(db: Db, p: ReprioritizeGood, q: Int32, bound: Result<Int32, Error>,
                                       f: Faults)
    requires WellFormed(db)
    ensures ReprioritizeTx(db, p, bound, f) == ReprioritizeTx(db, p.(NewPriority := q), bound, f)
  {
  }

  /** Soft delete is monotonic and rows are never dropped: any committed
      Update, Delete or Reprioritize keeps every row and every `removed` flag. */
  lemma RemovedIsMonotonic(db: Db, u: UpdateGood, d: DeleteGood, p: ReprioritizeGood,
                           bound: Result<Int32, Error>, f: Faults, k: Key)
    requires WellFormed(db) && k in db.goods
    ensures var g := UpdateTx(db, u, f).db.goods;
            k in g && g[k].Removed == db.goods[k].Removed
    ensures var g := ReprioritizeTx(db, p, bound, f).db.goods;
            k in g && g[k].Removed == db.goods[k].Removed
    ensures var g := DeleteTx(db, d, f).db.goods;
            k in g && (db.goods[k].Removed ==> g[k].Removed)
  {
  }

  /** A storage call, with the environment's answers for it. */
  datatype Op =
    | Create(c: CreateGood, now: Time, fault: Option<Error>)
    | Update(u: UpdateGood, f: Faults)
    | Delete(d: DeleteGood, f: Faults)
    | Reprioritize(p: ReprioritizeGood, bound: Result<Int32, Error>, f: Faults)

  function Apply(db: Db, defaults: ColumnDefaults, op: Op): (o: Outcome<()>)
    requires WellFormed(db)
    ensures WellFormed(o.db)
  {
    match op
    case Create(c, now, fault) =>
      var o := CreateRow(db, defaults, c, now, fault); Outcome(o.db, if o.result.Ok? then Ok(()) else Err(o.result.error))
    case Update(u, f) =>
      var o := UpdateTx(db, u, f); Outcome(o.db, if o.result.Ok? then Ok(()) else Err(o.result.error))
    case Delete(d, f) => DeleteTx(db, d, f)
    case Reprioritize(p, bound, f) =>
      var o := ReprioritizeTx(db, p, bound, f); Outcome(o.db, if o.result.Ok? then Ok(()) else Err(o.result.error))
  }

  /** The state after a sequence of storage calls. */
  function Run(db: Db, defaults: ColumnDefaults, ops: seq<Op>): (r: Db)
    requires WellFormed(db)
    ensures WellFormed(r)
    decreases |ops|
  {
    if ops == [] then db else Run(Apply(db, defaults, ops[0]).db, defaults, ops[1..])
  }

  /** How many of the calls were mutations that committed. */
  function Commits(db: Db, defaults: ColumnDefaults, ops: seq<Op>): nat
    requires WellFormed(db)
    decreases |ops|
  {
    if ops == [] then 0
    else
      var o := Apply(db, defaults, ops[0]);
      (if !ops[0].Create? && o.result.Ok? then 1 else 0) + Commits(o.db, defaults, ops[1..])
  }

  /** The transactional outbox: over any run, the outbox gains exactly one
      row per committed mutation, and the rows already there stay as they are. */
  lemma {:induction false} OutboxCountsCommits(db: Db, defaults: ColumnDefaults, ops: seq<Op>)
    requires WellFormed(db)
    ensures var r := Run(db, defaults, ops);
            |r.outbox| == |db.outbox| + Commits(db, defaults, ops) && db.outbox <= r.outbox
    decreases |ops|
  {
    if ops != [] {
      var o := Apply(db, defaults, ops[0]);
      OutboxCountsCommits(o.db, defaults, ops[1..]);
    }
  }
}
