/** The API resources: each operation turns what the repository reports
    into a response with an HTTP status code. The template and group
    resources share these operations, instantiated at their own record
    type; the repository's result is a parameter. Every operation's Go
    error result is nil, so a response is all an operation returns. */
module Resource {
  import opened Wrappers
  import opened Autoscale

  const StatusOK := 200
  const StatusCreated := 201
  const StatusNoContent := 204
  const StatusBadRequest := 400
  const StatusNotFound := 404
  const StatusInternalServerError := 500
  const StatusNotImplemented := 501

  datatype Response<T> = Response(obj: Option<T>, statusCode: int) {
    /** A response carries an object exactly when it reports success with content. */
    predicate WellFormed() {
      (obj.Some? <==> statusCode == StatusOK || statusCode == StatusCreated) &&
      statusCode in {StatusOK, StatusCreated, StatusNoContent, StatusBadRequest,
                     StatusNotFound, StatusInternalServerError, StatusNotImplemented}
    }
  }

  /** The request body, after the type assertion on it. */
  datatype Input<T> = Typed(value: T) | WrongType

  /** Looking one object up: missing is 404, any other error is 500. */
  function FindOne<T>(found: Result<T, Error>): (r: Response<T>)
    ensures r.WellFormed()
    ensures r.statusCode == StatusNotFound <==> found.Failure? && found.error == ObjectMissing
    ensures r.statusCode == StatusInternalServerError <==> found.Failure? && found.error != ObjectMissing
    ensures r.statusCode == StatusOK <==> found.Success?
    ensures found.Success? ==> r.obj == Some(found.value)
  {
    match found
    case Failure(err) =>
      if err == ObjectMissing then Response(None, StatusNotFound) else Response(None, StatusInternalServerError)
    case Success(obj) => Response(Some(obj), StatusOK)
  }

  /** Creating an object: a body of the wrong type is 400 whatever the
      repository would say, a repository error is 500. */
  function Create<T>(input: Input<T>, created: Result<T, Error>): (r: Response<T>)
    ensures r.WellFormed()
    ensures r.statusCode == StatusBadRequest <==> input.WrongType?
    ensures r.statusCode == StatusInternalServerError <==> input.Typed? && created.Failure?
    ensures r.statusCode == StatusCreated <==> input.Typed? && created.Success?
    ensures r.statusCode == StatusCreated ==> r.obj == Some(created.value)
  {
    if input.WrongType? then Response(None, StatusBadRequest)
    else if created.Failure? then Response(None, StatusInternalServerError)
    else Response(Some(created.value), StatusCreated)
  }

  /** Deleting an object: any repository error is reported as 404. */
  function Delete<T>(deleted: Option<Error>): (r: Response<T>)
    ensures r.WellFormed() && r.obj.None?
    ensures r.statusCode == StatusNotFound <==> deleted.Some?
    ensures r.statusCode == StatusNoContent <==> deleted.None?
  {
    if deleted.Some? then Response(None, StatusNotFound) else Response(None, StatusNoContent)
  }

  /** Saving a group: on success the response holds the input itself. */
  function GroupUpdate(input: Input<Group>, saved: Option<Error>): (r: Response<Group>)
    ensures r.WellFormed()
    ensures r.statusCode == StatusBadRequest <==> input.WrongType?
    ensures r.statusCode == StatusInternalServerError <==> input.Typed? && saved.Some?
    ensures r.statusCode == StatusOK <==> input.Typed? && saved.None?
    ensures r.statusCode == StatusOK ==> r.obj == Some(input.value)
  {
    if input.WrongType? then Response(None, StatusBadRequest)
    else if saved.Some? then Response(None, StatusInternalServerError)
    else Response(Some(input.value), StatusOK)
  }

  /** Listing objects, or fetching the user or group configuration: any
      error is 500. */
  function FindAll<T>(listed: Result<T, Error>): (r: Response<T>)
    ensures r.WellFormed()
    ensures r.statusCode == StatusInternalServerError <==> listed.Failure?
    ensures r.statusCode == StatusOK <==> listed.Success?
    ensures listed.Success? ==> r.obj == Some(listed.value)
  {
    if listed.Failure? then Response(None, StatusInternalServerError) else Response(Some(listed.value), StatusOK)
  }

  /** The operations a resource does not support. */
  function NotImplemented<T>(): (r: Response<T>)
    ensures r.WellFormed() && r.obj.None? && r.statusCode == StatusNotImplemented
  {
    Response(None, StatusNotImplemented)
  }

  /** A repository failure never reads as success, and success never as
      a failure, in any operation that consults the repository. */
  lemma RepositoryErrorsAreNeverSuccess<T>(found: Result<T, Error>, input: Input<T>, created: Result<T, Error>,
                                            deleted: Option<Error>)
    ensures found.Failure? ==> 400 <= FindOne(found).statusCode < 600
    ensures created.Failure? ==> 400 <= Create(input, created).statusCode < 600
    ensures deleted.Some? ==> 400 <= Delete<T>(deleted).statusCode < 600
    ensures found.Success? ==> 200 <= FindOne(found).statusCode < 300
    ensures input.Typed? && created.Success? ==> 200 <= Create(input, created).statusCode < 300
  {
  }

  /** The status a lookup returns tells which kind of error, if any, the
      repository reported. */
  lemma FindOneStatusDeterminesOutcome<T>(a: Result<T, Error>, b: Result<T, Error>)
    requires FindOne(a).statusCode == FindOne(b).statusCode
    ensures a.Success? <==> b.Success?
    ensures a.Failure? ==> (a.error == ObjectMissing <==> b.error == ObjectMissing)
  {
  }
}
