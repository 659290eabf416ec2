/**
 * The `/api/students` request pipeline of the server's router: the
 * validation-error and server-error responders, and the five handlers over
 * the Student collection. Authentication (`requireAuth`) is taken as already
 * passed. What `studentValidationRules` and `mongoIdValidation` report is an
 * input (the error list `validationResult(req)` would hold), as is every
 * store call's failure and the id the store assigns to a new document.
 */
module Router {
  import opened Wrappers
  import opened Js
  import opened Http
  import opened StudentStore

  /** One entry of `validationResult(req).array()`: the offending field and the validator's message. */
  datatype ValidationError = ValidationError(path: string, msg: string)

  /** `{ field: err.path, message: err.msg }`. */
  function DetailJs(e: ValidationError): JsValue
  {
    Obj(map["field" := Str(e.path), "message" := Str(e.msg)])
  }

  function Details(errors: seq<ValidationError>): (d: seq<JsValue>)
    ensures |d| == |errors|
    ensures forall i :: 0 <= i < |errors| ==> d[i] == DetailJs(errors[i])
  {
    seq(|errors|, i requires 0 <= i < |errors| => DetailJs(errors[i]))
  }

  /** Reading one `details` entry back as a validation error. */
  function DecodeDetail(v: JsValue): Option<ValidationError>
  {
    if v.Obj? && "field" in v.props && "message" in v.props
       && v.props["field"].Str? && v.props["message"].Str?
    then Some(ValidationError(v.props["field"].s, v.props["message"].s))
    else None
  }

  /** Reading a whole `details` array back, entry by entry. */
  function DecodeDetails(vs: seq<JsValue>): Option<seq<ValidationError>>
    decreases |vs|
  {
    if vs == [] then Some([])
    else match (DecodeDetail(vs[0]), DecodeDetails(vs[1..]))
      case (Some(e), Some(es)) => Some([e] + es)
      case _ => None
  }

  /** The `details` array carries every validation error, in order, and nothing else. */
  lemma {:induction false} DetailsRoundTrip(errors: seq<ValidationError>)
    ensures DecodeDetails(Details(errors)) == Some(errors)
    decreases |errors|
  {
    if errors != [] {
      DetailsRoundTrip(errors[1..]);
      assert Details(errors)[1..] == Details(errors[1..]);
      assert [errors[0]] + errors[1..] == errors;
    }
  }

  /**
   * `handleValidationErrors`: no response (the next handler runs) exactly when
   * there are no errors; otherwise 400 with `error: 'Validation failed'` and a
   * `details` array from which the error list is recovered unchanged.
   */
  function HandleValidationErrors(errors: seq<ValidationError>): (r: Option<Response>)
    ensures r.None? <==> errors == []
    ensures r.Some? ==> r.value.status == 400 && r.value.body.JsonBody? && r.value.body.value.Obj?
    ensures r.Some? ==> var p := r.value.body.value.props;
      p.Keys == {"error", "details"} && p["error"] == Str("Validation failed")
      && p["details"].Arr? && DecodeDetails(p["details"].items) == Some(errors)
  {
    if errors == [] then None
    else
      DetailsRoundTrip(errors);
      Some(Reply(400, Obj(map["error" := Str("Validation failed"), "details" := Arr(Details(errors))])))
  }

  /**
   * `handleServerError(res, err, message)`: always 500 with `error: message`;
   * the error's own message is added as `details` unless NODE_ENV is
   * 'production'.
   */
  function HandleServerError(nodeEnv: Option<string>, err: string, message: string): (r: Response)
    ensures r.status == 500 && r.body.JsonBody? && r.body.value.Obj?
    ensures "error" in r.body.value.props && r.body.value.props["error"] == Str(message)
    ensures nodeEnv == Some("production") ==> r.body.value.props.Keys == {"error"}
    ensures nodeEnv != Some("production") ==>
      r.body.value.props.Keys == {"error", "details"} && r.body.value.props["details"] == Str(err)
  {
    if nodeEnv == Some("production") then Reply(500, Obj(map["error" := Str(message)]))
    else Reply(500, Obj(map["error" := Str(message), "details" := Str(err)]))
  }

  /** The 404 every id-based handler sends for an absent id. */
  function NotFound(): Response
  {
    Reply(404, Obj(map["error" := Str("Student not found")]))
  }

  /** The body the update handler sends: the success flag, the message and the updated document. */
  function UpdatedJs(result: Student): JsValue
  {
    Obj(map["success" := Bool(true), "message" := Str("Updated successfully"), "result" := ToJs(result)])
  }

  /**
   * The handlers, over the Student collection they share. `purges` counts the
   * awaited `purgeStudentsCache()` calls; its result never affects the
   * response (and it cannot throw, see Cloudflare.PurgeCache).
   */
  class StudentApi {
    var students: seq<Student>
    var purges: nat
    const nodeEnv: Option<string>

    ghost predicate Valid()
      reads this
    {
      UniqueIds(students)
    }

    constructor (initial: seq<Student>, nodeEnv: Option<string>)
      requires UniqueIds(initial)
      ensures Valid() && students == initial && purges == 0 && this.nodeEnv == nodeEnv
    {
      students := initial;
      purges := 0;
      this.nodeEnv := nodeEnv;
    }

    /** GET /api/students: every document, or a 500 when the query fails. */
    method List(fault: Option<string>) returns (r: Response)
      ensures fault.None? ==> r.status == 200 && r.body == JsonBody(ListJs(students))
      ensures fault.Some? ==> r == HandleServerError(nodeEnv, fault.value, "Failed to retrieve students")
    {
      if fault.Some? {
        r := HandleServerError(nodeEnv, fault.value, "Failed to retrieve students");
        return;
      }
      r := Ok(ListJs(students));
    }

    /** GET /api/students/:id: validation first, then the lookup. */
    method Get(id: string, errors: seq<ValidationError>, fault: Option<string>) returns (r: Response)
      requires Valid()
      ensures errors != [] ==> Some(r) == HandleValidationErrors(errors)
      ensures errors == [] && fault.Some? ==> r == HandleServerError(nodeEnv, fault.value, "Failed to retrieve student")
      ensures errors == [] && fault.None? && !HasId(students, id) ==> r == NotFound()
      ensures errors == [] && fault.None? ==> forall x :: x in students && x.id == id ==> r == Ok(ToJs(x))
    {
      var invalid := HandleValidationErrors(errors);
      if invalid.Some? {
        return invalid.value;
      }
      if fault.Some? {
        return HandleServerError(nodeEnv, fault.value, "Failed to retrieve student");
      }
      var result := FindById(students, id);
      if result.None? {
        return NotFound();
      }
      forall x | x in students && x.id == id ensures result.value == x {
        UniqueIdsSameDocument(students, result.value, x);
      }
      r := Ok(ToJs(result.value));
    }

    /**
     * POST /api/students: validation first; then the new document is built from
     * the fifteen named fields, inserted under `freshId`, the whole list is
     * re-read, the cache purged, and the list sent.
     */
    method Create(body: map<string, JsValue>, errors: seq<ValidationError>, freshId: string,
                  insertFault: Option<string>, listFault: Option<string>) returns (r: Response)
      requires Valid() && !HasId(students, freshId)
      modifies this
      ensures Valid()
      ensures errors != [] ==>
        Some(r) == HandleValidationErrors(errors) && students == old(students) && purges == old(purges)
      ensures errors == [] && insertFault.Some? ==>
        r == HandleServerError(nodeEnv, insertFault.value, "Failed to create student")
        && students == old(students) && purges == old(purges)
      ensures errors == [] && insertFault.None? ==> students == old(students) + [Student(freshId, Pick(body))]
      ensures errors == [] && insertFault.None? && listFault.Some? ==>
        r == HandleServerError(nodeEnv, listFault.value, "Failed to create student") && purges == old(purges)
      ensures errors == [] && insertFault.None? && listFault.None? ==>
        r == Ok(ListJs(students)) && purges == old(purges) + 1
    {
      var invalid := HandleValidationErrors(errors);
      if invalid.Some? {
        return invalid.value;
      }
      var newStudent := Pick(body);
      if insertFault.Some? {
        return HandleServerError(nodeEnv, insertFault.value, "Failed to create student");
      }
      FindAfterInsert(students, Student(freshId, newStudent), freshId);
      students := students + [Student(freshId, newStudent)];
      if listFault.Some? {
        return HandleServerError(nodeEnv, listFault.value, "Failed to create student");
      }
      var result := students;
      purges := purges + 1;
      r := Ok(ListJs(result));
    }

    /**
     * PUT /api/students/:id: validation first; an absent id is a 404 that
     * changes nothing; otherwise that one document takes the fifteen named
     * fields, the cache is purged and the updated document sent back.
     */
    method Update(id: string, body: map<string, JsValue>, errors: seq<ValidationError>,
                  fault: Option<string>) returns (r: Response)
      requires Valid()
      modifies this
      ensures Valid()
      ensures errors != [] ==>
        Some(r) == HandleValidationErrors(errors) && students == old(students) && purges == old(purges)
      ensures errors == [] && fault.Some? ==>
        r == HandleServerError(nodeEnv, fault.value, "Failed to update student")
        && students == old(students) && purges == old(purges)
      ensures errors == [] && fault.None? && !HasId(old(students), id) ==>
        r == NotFound() && students == old(students) && purges == old(purges)
      ensures errors == [] && fault.None? && HasId(old(students), id) ==>
        && students == UpdateById(old(students), id, Pick(body))
        && purges == old(purges) + 1
        && r == Ok(UpdatedJs(Student(id, Pick(body))))
    {
      var invalid := HandleValidationErrors(errors);
      if invalid.Some? {
        return invalid.value;
      }
      var updatedStudent := Pick(body);
      if fault.Some? {
        return HandleServerError(nodeEnv, fault.value, "Failed to update student");
      }
      if FindById(students, id).None? {
        return NotFound();
      }
      UpdateByIdFrame(students, id, updatedStudent);
      FindAfterUpdate(students, id, updatedStudent, id);
      students := UpdateById(students, id, updatedStudent);
      var result := FindById(students, id).value;
      purges := purges + 1;
      r := Ok(UpdatedJs(result));
    }

    /**
     * DELETE /api/students/:id: validation first; an absent id is a 404 that
     * changes nothing; otherwise that one document is removed, the cache
     * purged, and 204 sent with no body.
     */
    method Delete(id: string, errors: seq<ValidationError>, fault: Option<string>) returns (r: Response)
      requires Valid()
      modifies this
      ensures Valid()
      ensures errors != [] ==>
        Some(r) == HandleValidationErrors(errors) && students == old(students) && purges == old(purges)
      ensures errors == [] && fault.Some? ==>
        r == HandleServerError(nodeEnv, fault.value, "Failed to delete student")
        && students == old(students) && purges == old(purges)
      ensures errors == [] && fault.None? && !HasId(old(students), id) ==>
        r == NotFound() && students == old(students) && purges == old(purges)
      ensures errors == [] && fault.None? && HasId(old(students), id) ==>
        && students == DeleteById(old(students), id)
        && |students| == |old(students)| - 1
        && purges == old(purges) + 1
        && r == Response(204, EmptyBody)
    {
      var invalid := HandleValidationErrors(errors);
      if invalid.Some? {
        return invalid.value;
      }
      if fault.Some? {
        return HandleServerError(nodeEnv, fault.value, "Failed to delete student");
      }
      if FindById(students, id).None? {
        return NotFound();
      }
      DeleteByIdLength(students, id);
      DeleteByIdUnique(students, id);
      students := DeleteById(students, id);
      purges := purges + 1;
      r := Response(204, EmptyBody);
    }
  }

  /**
   * Creating a student and then fetching it by the id the store assigned
   * returns the fifteen named body fields under that id.
   */
  method CreateThenGet(initial: seq<Student>, nodeEnv: Option<string>, body: map<string, JsValue>, freshId: string)
    returns (fetched: Response)
    requires UniqueIds(initial) && !HasId(initial, freshId)
    ensures fetched == Ok(ToJs(Student(freshId, Pick(body))))
  {
    var api := new StudentApi(initial, nodeEnv);
    var _ := api.Create(body, [], freshId, None, None);
    assert Student(freshId, Pick(body)) in api.students;
    fetched := api.Get(freshId, [], None);
  }

  /** Deleting a student and then fetching the same id yields 404 'Student not found'. */
  method DeleteThenGet(initial: seq<Student>, nodeEnv: Option<string>, id: string)
    returns (deleted: Response, fetched: Response)
    requires UniqueIds(initial)
    ensures HasId(initial, id) ==> deleted == Response(204, EmptyBody)
    ensures !HasId(initial, id) ==> deleted == NotFound()
    ensures fetched == NotFound()
  {
    var api := new StudentApi(initial, nodeEnv);
    deleted := api.Delete(id, [], None);
    FindAfterDelete(initial, id, id);
    fetched := api.Get(id, [], None);
  }
}
