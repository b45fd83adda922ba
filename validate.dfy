/** The input validators of internal/good/service/validate.go. Each returns
    None for Go's nil error, or the first failed check as a BadRequest error. */
module Validate {

  import opened Wrappers
  import opened Domain

  /** Whether a validation outcome is a rejection that the transport maps to 400. */
  predicate IsBadRequest(r: Option<Error>) {
    r.Some? && Is(r.value, ErrBadRequest) && !Is(r.value, ErrGoodNotFound)
  }

  /** validateCreateGood: a non-negative project id (0 included) and a
      non-empty name. */
  function ValidateCreateGood(c: CreateGood): (r: Option<Error>)
    ensures r.None? <==> c.ProjectID >= 0 && c.Name != ""
    ensures r.Some? ==> IsBadRequest(r)
    ensures c.ProjectID < 0 ==> r == Some(BadRequest("negative project id"))
    ensures c.ProjectID >= 0 && c.Name == "" ==> r == Some(BadRequest("empty name"))
  {
    if c.ProjectID < 0 then Some(BadRequest("negative project id"))
    else if c.Name == "" then Some(BadRequest("empty name"))
    else None
  }

  /** validateUpdateGood: id, project id, name, description, checked in that
      order; only the first failure is reported. */
  function ValidateUpdateGood(u: UpdateGood): (r: Option<Error>)
    ensures r.None? <==> u.ID >= 0 && u.ProjectID >= 0 && u.Name != "" && u.Description != ""
    ensures r.Some? ==> IsBadRequest(r)
    ensures u.ID < 0 ==> r == Some(BadRequest("negative id"))
    ensures u.ID >= 0 && u.ProjectID < 0 ==> r == Some(BadRequest("negative project id"))
    ensures u.ID >= 0 && u.ProjectID >= 0 && u.Name == "" ==> r == Some(BadRequest("empty name"))
    ensures u.ID >= 0 && u.ProjectID >= 0 && u.Name != "" && u.Description == "" ==>
              r == Some(BadRequest("empty description"))
  {
    if u.ID < 0 then Some(BadRequest("negative id"))
    else if u.ProjectID < 0 then Some(BadRequest("negative project id"))
    else if u.Name == "" then Some(BadRequest("empty name"))
    else if u.Description == "" then Some(BadRequest("empty description"))
    else None
  }

  /** validateDeleteGood: only the two identifiers are checked. */
  function ValidateDeleteGood(d: DeleteGood): (r: Option<Error>)
    ensures r.None? <==> d.ID >= 0 && d.ProjectID >= 0
    ensures r.Some? ==> IsBadRequest(r)
    ensures d.ID < 0 ==> r == Some(BadRequest("negative id"))
    ensures d.ID >= 0 && d.ProjectID < 0 ==> r == Some(BadRequest("negative project id"))
  {
    if d.ID < 0 then Some(BadRequest("negative id"))
    else if d.ProjectID < 0 then Some(BadRequest("negative project id"))
    else None
  }

  /** validateListGoods: limit and offset must not be negative; zero passes. */
  function ValidateListGoods(l: ListGoods): (r: Option<Error>)
    ensures r.None? <==> l.Limit >= 0 && l.Offset >= 0
    ensures r.Some? ==> IsBadRequest(r)
    ensures l.Limit < 0 ==> r == Some(BadRequest("negative limit"))
    ensures l.Limit >= 0 && l.Offset < 0 ==> r == Some(BadRequest("negative offset"))
  {
    if l.Limit < 0 then Some(BadRequest("negative limit"))
    else if l.Offset < 0 then Some(BadRequest("negative offset"))
    else None
  }

  /** validateReprioritizeGood: the priority test is `NewPriority < 1`, so a
      new priority of exactly 1 passes although the message says "greater
      than 1". */
  function ValidateReprioritizeGood(p: ReprioritizeGood): (r: Option<Error>)
    ensures r.None? <==> p.ID >= 0 && p.ProjectID >= 0 && p.NewPriority >= 1
    ensures r.Some? ==> IsBadRequest(r)
    ensures p.ID < 0 ==> r == Some(BadRequest("negative id"))
    ensures p.ID >= 0 && p.ProjectID < 0 ==> r == Some(BadRequest("negative project id"))
    ensures p.ID >= 0 && p.ProjectID >= 0 && p.NewPriority < 1 ==>
              r == Some(BadRequest("invalid new priority: must be greater than 1"))
  {
    if p.ID < 0 then Some(BadRequest("negative id"))
    else if p.ProjectID < 0 then Some(BadRequest("negative project id"))
    else if p.NewPriority < 1 then Some(BadRequest("invalid new priority: must be greater than 1"))
    else None
  }

  /** The message promises "greater than 1", yet a priority of 1 is accepted
      and 0 is the largest rejected value. */
  lemma PriorityOneAccepted(id: Int64, projectId: Int64)
    requires id >= 0 && projectId >= 0
    ensures ValidateReprioritizeGood(ReprioritizeGood(id, projectId, 1)).None?
    ensures ValidateReprioritizeGood(ReprioritizeGood(id, projectId, 0)).Some?
  {
  }
}
