/** The domain types of internal/good/domain and the Go error values that flow
    between the layers. */
module Domain {

  import opened Wrappers

  // ---------------------------------------------------------------------------
  // Fixed-width integers
  // ---------------------------------------------------------------------------

  const MinInt64: int := -0x8000_0000_0000_0000
  const MaxInt64: int := 0x7FFF_FFFF_FFFF_FFFF
  const MinInt32: int := -0x8000_0000
  const MaxInt32: int := 0x7FFF_FFFF

  type Int64 = x: int | MinInt64 <= x <= MaxInt64
  type Int32 = x: int | MinInt32 <= x <= MaxInt32

  /** Go's conversion `int32(x)` of an int64: keep the low 32 bits, read them
      as two's complement. */
  function ToInt32(x: Int64): (r: Int32)
    ensures MinInt32 <= x <= MaxInt32 ==> r == x
    ensures (r - x) % 0x1_0000_0000 == 0
  {
    var m := x % 0x1_0000_0000;
    if m <= MaxInt32 then m else m - 0x1_0000_0000
  }

  /** A wall-clock instant in nanoseconds; 0 stands for Go's zero time.Time. */
  type Time = int

  // ---------------------------------------------------------------------------
  // Entities and commands (domain/good.go, domain/log.go)
  // ---------------------------------------------------------------------------

  datatype Good = Good(
    ID: Int64,
    ProjectID: Int64,
    Name: string,
    Description: string,
    Priority: Int32,
    Removed: bool,
    CreatedAt: Time)

  /** The zero value `domain.Good{}`. */
  const ZeroGood := Good(0, 0, "", "", 0, false, 0)

  datatype CreateGood = CreateGood(ProjectID: Int64, Name: string)
  datatype UpdateGood = UpdateGood(ID: Int64, ProjectID: Int64, Name: string, Description: string)
  datatype DeleteGood = DeleteGood(ID: Int64, ProjectID: Int64)
  datatype ReprioritizeGood = ReprioritizeGood(ID: Int64, ProjectID: Int64, NewPriority: Int32)
  datatype ListGoods = ListGoods(Limit: Int32, Offset: Int32)

  datatype GoodPriority = GoodPriority(ID: Int64, Priority: Int32)

  datatype Meta = Meta(Total: Int32, Removed: Int32, Limit: Int32, Offset: Int32)

  const ZeroMeta := Meta(0, 0, 0, 0)

  datatype GoodsList = GoodsList(Goods: seq<Good>, Meta: Meta)

  datatype Log = Log(
    ID: Int64,
    ProjectID: Int64,
    Name: string,
    Description: string,
    Priority: Int32,
    Removed: bool,
    EventTime: Time)

  /** The zero value `domain.Log{}`. */
  const ZeroLog := Log(0, 0, "", "", 0, false, 0)

  /** A good with its soft-delete flag cleared: what survives a projection
      that does not carry `Removed`. */
  function WithoutRemoved(g: Good): Good { g.(Removed := false) }

  function LogWithoutRemoved(l: Log): Log { l.(Removed := false) }

  // ---------------------------------------------------------------------------
  // Go errors
  // ---------------------------------------------------------------------------

  /** The sentinel error values the code compares against with errors.Is. */
  datatype Sentinel =
    | ErrBadRequest     // domain.ErrBadRequest
    | ErrGoodNotFound   // domain.ErrGoodNotFound
    | ErrSyntax         // strconv.ErrSyntax
    | ErrRange          // strconv.ErrRange
    | ErrNoRows         // pgx.ErrNoRows, returned by Scan when a query matched no row
    | RedisNil          // redis.Nil, returned by GET on an absent key

  /** An error value as a chain: a sentinel, an opaque driver error, a
      `fmt.Errorf("...: %w", inner)` wrapper, or `errors.Join(a, b)`. */
  datatype Error =
    | Sentinel(s: Sentinel)
    | Leaf(msg: string)
    | Wrap(msg: string, inner: Error)
    | Join(first: Error, second: Error)

  /** errors.Is(e, target) for a sentinel target. */
  predicate Is(e: Error, target: Sentinel) {
    match e
    case Sentinel(s) => s == target
    case Leaf(_) => false
    case Wrap(_, inner) => Is(inner, target)
    case Join(a, b) => Is(a, target) || Is(b, target)
  }

  /** An error produced by a driver or client library (pgx, go-redis, NATS,
      strconv): it wraps neither domain sentinel. */
  predicate DriverError(e: Error) {
    !Is(e, ErrBadRequest) && !Is(e, ErrGoodNotFound)
  }

  /** `fmt.Errorf("<msg>: %w", e)` on a possibly nil error. */
  function WrapResult<T>(msg: string, r: Result<T, Error>): (w: Result<T, Error>)
    ensures w.Ok? <==> r.Ok?
    ensures r.Ok? ==> w == r
    ensures r.Err? ==> forall s :: Is(w.error, s) <==> Is(r.error, s)
  {
    if r.Ok? then r else Err(Wrap(msg, r.error))
  }

  /** A domain BadRequest error: `fmt.Errorf("%w: <msg>", domain.ErrBadRequest)`. */
  function BadRequest(msg: string): (e: Error)
    ensures Is(e, ErrBadRequest) && !Is(e, ErrGoodNotFound)
  {
    Wrap(msg, Sentinel(ErrBadRequest))
  }
}
