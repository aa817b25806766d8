/** The request wrappers of the client.  The transport is not modelled: each
    wrapper takes the way the backend's reply settles as a parameter and
    returns the request it issues together with how its own promise settles. */
module Http {
  import opened ClassRecords
  import UseClasses

  /** Whatever a failed request rejects with. */
  type HttpError = string

  datatype Request =
    | Get(path: string)
    | Post(path: string, body: ClassBody)
    | Put(path: string, body: ClassBody)
    | Delete(path: string)

  /** How a promise settles. */
  datatype Outcome = Resolved | Rejected(error: HttpError)

  /** The whole collection. */
  const CollectionPath: string := "/classes.json"

  /** `/classes/${classId}.json`: the key sits between a fixed prefix and a fixed suffix. */
  function ClassPath(id: string): (p: string)
    ensures |p| == |id| + 14
    ensures p[..9] == "/classes/" && p[|p| - 5..] == ".json"
    ensures p[9..|p| - 5] == id
  {
    "/classes/" + id + ".json"
  }

  /** Different ids address different paths. */
  lemma ClassPathInjective(a: string, b: string)
    requires ClassPath(a) == ClassPath(b)
    ensures a == b
  {
    var p := ClassPath(a);
    assert a == p[9..|p| - 5];
  }

  /** `fetchClasses`: GET the collection, then push one record per key with `for…in`.
      A null body has no keys; a failed request rethrows its error. */
  method FetchClasses(reply: Result<Option<WireObject>, HttpError>)
    returns (request: Request, result: Result<seq<ClassDetails>, HttpError>)
    ensures request == Get(CollectionPath)
    ensures reply.Err? ==> result == Err(reply.error)
    ensures reply.Ok? ==> result.Ok? && result.value == UseClasses.SnapshotClasses(reply.value)
    ensures reply.Ok? && reply.value.Some? ==>
      |result.value| == |reply.value.value| &&
      forall i :: 0 <= i < |reply.value.value| ==> result.value[i].id == reply.value.value[i].0
  {
    request := Get(CollectionPath);
    if reply.Err? {
      return request, Err(reply.error);
    }
    var data: WireObject := if reply.value.Some? then reply.value.value else [];
    var classes: seq<ClassDetails> := [];
    var i := 0;
    while i < |data|
      invariant 0 <= i <= |data|
      invariant classes == UseClasses.Expand(data[..i])
    {
      var key := data[i].0;
      classes := classes + [ToRecord(key, data[i].1)];
      UseClasses.ExpandAppend(data[..i], [data[i]]);
      assert data[..i + 1] == data[..i] + [data[i]];
      i := i + 1;
    }
    assert data[..i] == data;
    result := Ok(classes);
  }

  /** `addClass`: POST the body to the collection; the catch logs any error and returns normally. */
  method AddClass(classData: ClassBody, reply: Outcome) returns (request: Request, outcome: Outcome)
    ensures request == Post(CollectionPath, classData)
    ensures outcome == Resolved
  {
    request := Post(CollectionPath, classData);
    outcome := Resolved;
  }

  /** `updateClass`: PUT the full body, unchanged, at the record's path; the promise is the request's. */
  method UpdateClass(classId: string, classData: ClassBody, reply: Outcome) returns (request: Request, outcome: Outcome)
    ensures request.Put? && request.body == classData
    ensures request.path == ClassPath(classId)
    ensures outcome == reply
  {
    request := Put(ClassPath(classId), classData);
    outcome := reply;
  }

  /** `deleteClass`: DELETE at the record's path; the promise is the request's. */
  method DeleteClass(classId: string, reply: Outcome) returns (request: Request, outcome: Outcome)
    ensures request == Delete(ClassPath(classId))
    ensures outcome == reply
  {
    request := Delete(ClassPath(classId));
    outcome := reply;
  }
}
