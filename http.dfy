/** The v1 HTTP controller of internal/good/controller/http/v1: the
    error-to-status classification of error.go, the URL parameter rules
    of v1.go, the handlers as functions of the service's answer, and the
    response projections. chi routing and render output are reduced to a
    map of URL parameters and a Reply value. */
module HttpV1 {

  import opened Wrappers
  import opened Domain

  // ---------------------------------------------------------------------------
  // Responses
  // ---------------------------------------------------------------------------

  datatype ErrorResponse = ErrorResponse(Code: Int32, Message: string)

  const NotFoundError := ErrorResponse(3, "errors.good.notFound")
  const BadRequestError := ErrorResponse(4, "errors.badRequest")
  const InternalServerError := ErrorResponse(5, "errors.internalServerError")

  const StatusOK := 200
  const StatusBadRequest := 400
  const StatusNotFound := 404
  const StatusInternalServerError := 500

  datatype GoodResult = GoodResult(
    ID: Int64, ProjectID: Int64, Name: string, Description: string,
    Priority: Int32, Removed: bool, CreatedAt: Time)

  const ZeroGoodResult := GoodResult(0, 0, "", "", 0, false, 0)

  datatype MetaResult = MetaResult(Total: Int32, Removed: Int32, Limit: Int32, Offset: Int32)
  datatype GoodsListResult = GoodsListResult(Meta: MetaResult, Goods: seq<GoodResult>)
  datatype RemoveGoodResponse = RemoveGoodResponse(ID: Int64, ProjectID: Int64, Removed: bool)
  datatype GoodPriorityResult = GoodPriorityResult(ID: Int64, Priority: Int32)

  const ZeroPriorityResult := GoodPriorityResult(0, 0)

  datatype Body =
    | ErrorBody(err: ErrorResponse)
    | GoodBody(good: GoodResult)
    | ListBody(list: GoodsListResult)
    | RemovedBody(removed: RemoveGoodResponse)
    | PrioritiesBody(priorities: seq<GoodPriorityResult>)

  /** What a handler writes: a status and a JSON body. */
  datatype Reply = Reply(status: int, body: Body)

  // ---------------------------------------------------------------------------
  // errorHandler.wrap
  // ---------------------------------------------------------------------------

  /** The reply errorHandler.wrap writes for a non-nil handler error:
      NotFound is tested before BadRequest, everything else is a 500. */
  function Classify(err: Error): (reply: Reply)
    ensures reply.status == StatusNotFound <==> Is(err, ErrGoodNotFound)
    ensures reply.status == StatusBadRequest <==> !Is(err, ErrGoodNotFound) && Is(err, ErrBadRequest)
    ensures reply.status == StatusInternalServerError <==> DriverError(err)
    ensures reply.status == StatusNotFound ==> reply.body == ErrorBody(NotFoundError)
    ensures reply.status == StatusBadRequest ==> reply.body == ErrorBody(BadRequestError)
    ensures reply.status == StatusInternalServerError ==> reply.body == ErrorBody(InternalServerError)
  {
    if Is(err, ErrGoodNotFound) then Reply(StatusNotFound, ErrorBody(NotFoundError))
    else if Is(err, ErrBadRequest) then Reply(StatusBadRequest, ErrorBody(BadRequestError))
    else Reply(StatusInternalServerError, ErrorBody(InternalServerError))
  }

  /** A handler wrapped by errorHandler.wrap: on a nil error the handler's
      own 200 reply stands and wrap writes nothing; otherwise the error is
      classified. */
  function Wrapped(handled: Result<Reply, Error>): (reply: Reply)
    ensures handled.Ok? ==> reply == handled.value
    ensures handled.Err? ==> reply == Classify(handled.error)
  {
    if handled.Ok? then handled.value else Classify(handled.error)
  }

  /** `fmt.Errorf` applied once for every message in `msgs`, innermost last. */
  function WrapAll(msgs: seq<string>, e: Error): Error {
    if msgs == [] then e else Wrap(msgs[0], WrapAll(msgs[1..], e))
  }

  /** However many layers of `fmt.Errorf("...: %w")` the service and the
      handlers add, the status an error reaches the client with is the one
      of the error that started the chain. */
  lemma {:induction false} ClassifyIgnoresWrapping(msgs: seq<string>, e: Error)
    ensures Classify(WrapAll(msgs, e)) == Classify(e)
    ensures forall s :: Is(WrapAll(msgs, e), s) <==> Is(e, s)
  {
    if msgs != [] {
      ClassifyIgnoresWrapping(msgs[1..], e);
    }
  }

  // ---------------------------------------------------------------------------
  // URL parameters
  // ---------------------------------------------------------------------------

  /** Why strconv.ParseInt rejected a string. */
  datatype NumErrorKind = SyntaxKind | RangeKind

  /** The *strconv.NumError value: it unwraps to strconv.ErrSyntax or strconv.ErrRange. */
  function NumError(k: NumErrorKind): (e: Error)
    ensures DriverError(e)
    ensures Is(e, ErrSyntax) <==> k == SyntaxKind
  {
    Wrap("strconv.ParseInt", Sentinel(if k == SyntaxKind then ErrSyntax else ErrRange))
  }

  /** chi.URLParam: an absent parameter reads as the empty string. */
  function URLParam(params: map<string, string>, name: string): string {
    if name in params then params[name] else ""
  }

  /** The rule v1.go applies to `id`, `projectId` and `limit`: absent is a
      BadRequest, a syntax error is a BadRequest, any other parse failure is
      wrapped as "parse int" and stays a driver error. */
  function ParseParam(params: map<string, string>, name: string,
                      parseInt: string -> Result<Int64, NumErrorKind>): (r: Result<Int64, Error>)
    ensures URLParam(params, name) == "" ==> r == Err(BadRequest("missing url param: " + name))
    ensures r.Ok? <==> URLParam(params, name) != "" && parseInt(URLParam(params, name)).Ok?
    ensures r.Ok? ==> r.value == parseInt(URLParam(params, name)).value
    ensures r.Err? ==>
              !Is(r.error, ErrGoodNotFound) &&
              (Is(r.error, ErrBadRequest) <==>
                 URLParam(params, name) == "" || parseInt(URLParam(params, name)) == Err(SyntaxKind))
  {
    var s := URLParam(params, name);
    if s == "" then Err(BadRequest("missing url param: " + name))
    else match parseInt(s)
      case Ok(v) => Ok(v)
      case Err(SyntaxKind) => Err(BadRequest(name + " has invalid syntax"))
      case Err(k) => Err(Wrap("parse int", NumError(k)))
  }

  /** getURLParams: `id` first, then `projectId`; the first failure is the
      one reported. */
  function GetURLParams(params: map<string, string>, parseInt: string -> Result<Int64, NumErrorKind>)
    : (r: Result<(Int64, Int64), Error>)
    ensures r.Ok? <==> ParseParam(params, "id", parseInt).Ok? && ParseParam(params, "projectId", parseInt).Ok?
    ensures r.Ok? ==> r.value == (ParseParam(params, "id", parseInt).value,
                                  ParseParam(params, "projectId", parseInt).value)
    ensures ParseParam(params, "id", parseInt).Err? ==> r == Err(ParseParam(params, "id", parseInt).error)
    ensures ParseParam(params, "id", parseInt).Ok? && ParseParam(params, "projectId", parseInt).Err? ==>
              r == Err(ParseParam(params, "projectId", parseInt).error)
  {
    var id :- ParseParam(params, "id", parseInt);
    var projectId :- ParseParam(params, "projectId", parseInt);
    Ok((id, projectId))
  }

  /** The offset rule of the list handler: absent is a BadRequest, but a
      syntax error wraps the strconv error itself, not ErrBadRequest. */
  function ParseOffset(params: map<string, string>, parseInt: string -> Result<Int64, NumErrorKind>)
    : (r: Result<Int64, Error>)
    ensures URLParam(params, "offset") == "" ==> r == Err(BadRequest("missing url param: offset"))
    ensures r.Ok? <==> URLParam(params, "offset") != "" && parseInt(URLParam(params, "offset")).Ok?
    ensures r.Ok? ==> r.value == parseInt(URLParam(params, "offset")).value
    ensures r.Err? ==>
              !Is(r.error, ErrGoodNotFound) &&
              (Is(r.error, ErrBadRequest) <==> URLParam(params, "offset") == "")
    ensures URLParam(params, "offset") != "" && parseInt(URLParam(params, "offset")) == Err(SyntaxKind) ==>
              r.Err? && Is(r.error, ErrSyntax)
  {
    var s := URLParam(params, "offset");
    if s == "" then Err(BadRequest("missing url param: offset"))
    else match parseInt(s)
      case Ok(v) => Ok(v)
      case Err(SyntaxKind) => Err(Wrap("offset has invalid syntax", NumError(SyntaxKind)))
      case Err(k) => Err(Wrap("parse int", NumError(k)))
  }

  /** The list handler's parameters: limit, then offset, both parsed as
      64-bit and handed to the service truncated with `int32(...)`. */
  function ListParams(params: map<string, string>, parseInt: string -> Result<Int64, NumErrorKind>)
    : (r: Result<ListGoods, Error>)
    ensures r.Ok? <==> ParseParam(params, "limit", parseInt).Ok? && ParseOffset(params, parseInt).Ok?
    ensures ParseParam(params, "limit", parseInt).Err? ==> r == Err(ParseParam(params, "limit", parseInt).error)
    ensures ParseParam(params, "limit", parseInt).Ok? && ParseOffset(params, parseInt).Err? ==>
              r == Err(ParseOffset(params, parseInt).error)
    ensures r.Ok? ==>
              var limit := ParseParam(params, "limit", parseInt).value;
              var offset := ParseOffset(params, parseInt).value;
              && (MinInt32 <= limit <= MaxInt32 ==> r.value.Limit == limit)
              && (MinInt32 <= offset <= MaxInt32 ==> r.value.Offset == offset)
              && (r.value.Limit - limit) % 0x1_0000_0000 == 0
              && (r.value.Offset - offset) % 0x1_0000_0000 == 0
  {
    var limit :- ParseParam(params, "limit", parseInt);
    var offset :- ParseOffset(params, parseInt);
    Ok(ListGoods(ToInt32(limit), ToInt32(offset)))
  }

  // ---------------------------------------------------------------------------
  // Response projections
  // ---------------------------------------------------------------------------

  /** The goodResult literal the create, update and list handlers build:
      every field but Removed, which is left false. */
  function ToGoodResult(g: Good): (r: GoodResult)
    ensures r.ID == g.ID && r.ProjectID == g.ProjectID && r.Name == g.Name
    ensures r.Description == g.Description && r.Priority == g.Priority && r.CreatedAt == g.CreatedAt
    ensures !r.Removed
  {
    GoodResult(g.ID, g.ProjectID, g.Name, g.Description, g.Priority, false, g.CreatedAt)
  }

  /** The list response: one result per good, in order, and the meta copied. */
  function ListResponseOf(l: GoodsList): (r: GoodsListResult)
    ensures |r.Goods| == |l.Goods|
    ensures forall i :: 0 <= i < |l.Goods| ==> r.Goods[i] == ToGoodResult(l.Goods[i])
    ensures r.Meta == MetaResult(l.Meta.Total, l.Meta.Removed, l.Meta.Limit, l.Meta.Offset)
  {
    GoodsListResult(
      MetaResult(l.Meta.Total, l.Meta.Removed, l.Meta.Limit, l.Meta.Offset),
      seq(|l.Goods|, i requires 0 <= i < |l.Goods| => ToGoodResult(l.Goods[i])))
  }

  /** The list handler's loop, appending one result per good. */
  method ListResponse(l: GoodsList) returns (r: GoodsListResult)
    ensures r == ListResponseOf(l)
  {
    var results: seq<GoodResult> := [];
    for i := 0 to |l.Goods|
      invariant |results| == i
      invariant forall j :: 0 <= j < i ==> results[j] == ToGoodResult(l.Goods[j])
    {
      var good := l.Goods[i];
      results := results + [GoodResult(good.ID, good.ProjectID, good.Name, good.Description,
                                       good.Priority, false, good.CreatedAt)];
    }
    var meta := MetaResult(l.Meta.Total, l.Meta.Removed, l.Meta.Limit, l.Meta.Offset);
    r := GoodsListResult(meta, results);
  }

  /** The reprioritize response: a slice made with length n and then
      appended to, so n zero entries precede the n real ones. */
  function PrioritiesResponseOf(ps: seq<GoodPriority>): (r: seq<GoodPriorityResult>)
    ensures |r| == 2 * |ps|
    ensures forall i :: 0 <= i < |ps| ==> r[i] == ZeroPriorityResult
    ensures forall i :: 0 <= i < |ps| ==> r[|ps| + i] == GoodPriorityResult(ps[i].ID, ps[i].Priority)
  {
    seq(|ps|, _ => ZeroPriorityResult) +
    seq(|ps|, i requires 0 <= i < |ps| => GoodPriorityResult(ps[i].ID, ps[i].Priority))
  }

  /** The reprioritize handler's `make` and append loop. */
  method PrioritiesResponse(ps: seq<GoodPriority>) returns (r: seq<GoodPriorityResult>)
    ensures r == PrioritiesResponseOf(ps)
  {
    r := seq(|ps|, _ => ZeroPriorityResult);
    for i := 0 to |ps|
      invariant |r| == |ps| + i
      invariant forall j :: 0 <= j < |ps| ==> r[j] == ZeroPriorityResult
      invariant forall j :: 0 <= j < i ==> r[|ps| + j] == GoodPriorityResult(ps[j].ID, ps[j].Priority)
    {
      r := r + [GoodPriorityResult(ps[i].ID, ps[i].Priority)];
    }
  }

  /** The remove response echoes the URL parameters. */
  function RemoveResponse(id: Int64, projectId: Int64): (r: RemoveGoodResponse)
    ensures r.ID == id && r.ProjectID == projectId && r.Removed
  {
    RemoveGoodResponse(id, projectId, true)
  }

  // ---------------------------------------------------------------------------
  // Handlers, as functions of the decoded body and of the service's answer
  // ---------------------------------------------------------------------------

  datatype CreateGoodRequest = CreateGoodRequest(Name: string)
  datatype UpdateGoodRequest = UpdateGoodRequest(Name: string, Description: string)
  datatype ReprioritizeRequest = ReprioritizeRequest(NewPriority: Int32)

  /** create: `projectId` under the same rules as getURLParams, then the
      body, then the service with the name as decoded. */
  function CreateHandler(params: map<string, string>, parseInt: string -> Result<Int64, NumErrorKind>,
                         decoded: Result<CreateGoodRequest, Error>,
                         create: CreateGood -> Result<Good, Error>): (reply: Reply)
    ensures ParseParam(params, "projectId", parseInt).Err? ==>
              reply == Classify(ParseParam(params, "projectId", parseInt).error)
    ensures reply.status == StatusOK <==>
              && ParseParam(params, "projectId", parseInt).Ok? && decoded.Ok?
              && create(CreateGood(ParseParam(params, "projectId", parseInt).value, decoded.value.Name)).Ok?
    ensures reply.status == StatusOK ==>
              reply.body == GoodBody(ToGoodResult(
                create(CreateGood(ParseParam(params, "projectId", parseInt).value, decoded.value.Name)).value))
    ensures ParseParam(params, "projectId", parseInt).Ok? && decoded.Err? ==>
              reply == Classify(Wrap("decode json", decoded.error))
    ensures ParseParam(params, "projectId", parseInt).Ok? && decoded.Err? && DriverError(decoded.error) ==>
              reply.status == StatusInternalServerError
    ensures ParseParam(params, "projectId", parseInt).Ok? && decoded.Ok? ==>
              var answer := create(CreateGood(ParseParam(params, "projectId", parseInt).value, decoded.value.Name));
              answer.Err? ==> reply == Classify(answer.error)
  {
    Wrapped(
      var projectId :- ParseParam(params, "projectId", parseInt);
      var req :- WrapResult("decode json", decoded);
      var good :- WrapResult("service create", create(CreateGood(projectId, req.Name)));
      Ok(Reply(StatusOK, GoodBody(ToGoodResult(good)))))
  }

  function UpdateHandler(params: map<string, string>, parseInt: string -> Result<Int64, NumErrorKind>,
                         decoded: Result<UpdateGoodRequest, Error>,
                         update: UpdateGood -> Result<Good, Error>): (reply: Reply)
    ensures GetURLParams(params, parseInt).Err? ==> reply == Classify(GetURLParams(params, parseInt).error)
    ensures GetURLParams(params, parseInt).Ok? && decoded.Err? ==>
              reply == Classify(Wrap("decode json", decoded.error))
    ensures GetURLParams(params, parseInt).Ok? && decoded.Err? && DriverError(decoded.error) ==>
              reply.status == StatusInternalServerError
    ensures GetURLParams(params, parseInt).Ok? && decoded.Ok? ==>
              var (id, projectId) := GetURLParams(params, parseInt).value;
              var answer := update(UpdateGood(id, projectId, decoded.value.Name, decoded.value.Description));
              && (answer.Ok? ==> reply == Reply(StatusOK, GoodBody(ToGoodResult(answer.value))))
              && (answer.Err? ==> reply == Classify(answer.error))
  {
    Wrapped(
      var ids :- WrapResult("get url params", GetURLParams(params, parseInt));
      var (id, projectId) := ids;
      var req :- WrapResult("decode json", decoded);
      var good :- WrapResult("service update", update(UpdateGood(id, projectId, req.Name, req.Description)));
      Ok(Reply(StatusOK, GoodBody(ToGoodResult(good)))))
  }

  function RemoveHandler(params: map<string, string>, parseInt: string -> Result<Int64, NumErrorKind>,
                         delete: DeleteGood -> Option<Error>): (reply: Reply)
    ensures GetURLParams(params, parseInt).Err? ==> reply == Classify(GetURLParams(params, parseInt).error)
    ensures GetURLParams(params, parseInt).Ok? ==>
              var (id, projectId) := GetURLParams(params, parseInt).value;
              && (delete(DeleteGood(id, projectId)).None? ==>
                    reply == Reply(StatusOK, RemovedBody(RemoveResponse(id, projectId))))
              && (delete(DeleteGood(id, projectId)).Some? ==>
                    reply == Classify(delete(DeleteGood(id, projectId)).value))
  {
    Wrapped(
      var ids :- WrapResult("get url params", GetURLParams(params, parseInt));
      var (id, projectId) := ids;
      var deleted := delete(DeleteGood(id, projectId));
      if deleted.Some? then Err(Wrap("delete good", deleted.value))
      else Ok(Reply(StatusOK, RemovedBody(RemoveResponse(id, projectId)))))
  }

  function ListHandler(params: map<string, string>, parseInt: string -> Result<Int64, NumErrorKind>,
                       list: ListGoods -> Result<GoodsList, Error>): (reply: Reply)
    ensures ListParams(params, parseInt).Err? ==> reply == Classify(ListParams(params, parseInt).error)
    ensures ListParams(params, parseInt).Ok? ==>
              var answer := list(ListParams(params, parseInt).value);
              && (answer.Ok? ==> reply == Reply(StatusOK, ListBody(ListResponseOf(answer.value))))
              && (answer.Err? ==> reply == Classify(answer.error))
  {
    Wrapped(
      var l :- ListParams(params, parseInt);
      var goodsList :- WrapResult("service list", list(l));
      Ok(Reply(StatusOK, ListBody(ListResponseOf(goodsList)))))
  }

  function ReprioritizeHandler(params: map<string, string>, parseInt: string -> Result<Int64, NumErrorKind>,
                               decoded: Result<ReprioritizeRequest, Error>,
                               reprioritize: ReprioritizeGood -> Result<seq<GoodPriority>, Error>): (reply: Reply)
    ensures GetURLParams(params, parseInt).Err? ==> reply == Classify(GetURLParams(params, parseInt).error)
    ensures GetURLParams(params, parseInt).Ok? && decoded.Err? ==>
              reply == Classify(Wrap("decode json", decoded.error))
    ensures GetURLParams(params, parseInt).Ok? && decoded.Err? && DriverError(decoded.error) ==>
              reply.status == StatusInternalServerError
    ensures GetURLParams(params, parseInt).Ok? && decoded.Ok? ==>
              var (id, projectId) := GetURLParams(params, parseInt).value;
              var answer := reprioritize(ReprioritizeGood(id, projectId, decoded.value.NewPriority));
              && (answer.Ok? ==> reply == Reply(StatusOK, PrioritiesBody(PrioritiesResponseOf(answer.value))))
              && (answer.Err? ==> reply == Classify(answer.error))
  {
    Wrapped(
      var ids :- WrapResult("get url params", GetURLParams(params, parseInt));
      var (id, projectId) := ids;
      var req :- WrapResult("decode json", decoded);
      var priorities :- WrapResult("reprioritize",
                                   reprioritize(ReprioritizeGood(id, projectId, req.NewPriority)));
      Ok(Reply(StatusOK, PrioritiesBody(PrioritiesResponseOf(priorities)))))
  }

  // ---------------------------------------------------------------------------
  // Routes
  // ---------------------------------------------------------------------------

  datatype Route = Route(verb: string, pattern: string)

  /** Controller.Register. */
  const Routes: seq<Route> := [
    Route("POST", "/good/create"),
    Route("PATCH", "/good/update"),
    Route("DELETE", "/good/remove"),
    Route("GET", "/good/list"),
    Route("PATCH", "/good/reprioritize")
  ]

  /** chi binds URL parameters only for `{name}` segments of the pattern. */
  predicate HasPlaceholder(pattern: string) {
    '{' in pattern
  }

  /** None of the registered patterns has a placeholder, so chi.URLParam
      reads "" for every name and every handler answers 400 before it
      reaches the service, whatever the body and the service would do. */
  lemma RegisteredRoutesAnswerBadRequest(parseInt: string -> Result<Int64, NumErrorKind>,
                                         create: CreateGood -> Result<Good, Error>,
                                         update: UpdateGood -> Result<Good, Error>,
                                         delete: DeleteGood -> Option<Error>,
                                         list: ListGoods -> Result<GoodsList, Error>,
                                         reprioritize: ReprioritizeGood -> Result<seq<GoodPriority>, Error>,
                                         createBody: Result<CreateGoodRequest, Error>,
                                         updateBody: Result<UpdateGoodRequest, Error>,
                                         reprioritizeBody: Result<ReprioritizeRequest, Error>)
    ensures forall r :: r in Routes ==> !HasPlaceholder(r.pattern)
    ensures var none: map<string, string> := map[];
            && CreateHandler(none, parseInt, createBody, create) == Reply(StatusBadRequest, ErrorBody(BadRequestError))
            && UpdateHandler(none, parseInt, updateBody, update) == Reply(StatusBadRequest, ErrorBody(BadRequestError))
            && RemoveHandler(none, parseInt, delete) == Reply(StatusBadRequest, ErrorBody(BadRequestError))
            && ListHandler(none, parseInt, list) == Reply(StatusBadRequest, ErrorBody(BadRequestError))
            && ReprioritizeHandler(none, parseInt, reprioritizeBody, reprioritize)
                 == Reply(StatusBadRequest, ErrorBody(BadRequestError))
  {
    assert !HasPlaceholder("/good/create") && !HasPlaceholder("/good/update") &&
           !HasPlaceholder("/good/remove") && !HasPlaceholder("/good/list") &&
           !HasPlaceholder("/good/reprioritize");
  }
}
