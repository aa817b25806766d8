/** The class record of the schedule (ClassDetails), the body stored for it
    under its key in the backend collection, and how a stored body is read
    back into a record.  A record's fields hold JavaScript property reads, so
    a member missing from the stored JSON object reads as `undefined`. */
module ClassRecords {

  datatype Option<+T> = None | Some(value: T)

  datatype Result<+T, +E> = Ok(value: T) | Err(error: E)

  /** The value of a property read: a string, or `undefined` when the member is absent. */
  datatype Value = Undefined | Str(s: string)

  /** One scheduled class; `id` is the key the record is stored under. */
  datatype ClassDetails = ClassDetails(
    id: string,
    date: Value,
    startTime: Value,
    endTime: Value,
    className: Value,
    instructor: Value,
    description: Value)

  /** A record without its id (`Omit<ClassDetails, "id">`): the body of an add or update. */
  datatype ClassBody = ClassBody(
    date: Value,
    startTime: Value,
    endTime: Value,
    className: Value,
    instructor: Value,
    description: Value)

  /** A stored JSON object, reduced to its string-valued members. */
  type JsonObject = map<string, string>

  /** A keyed collection as the backend returns it: key and body, in key enumeration order. */
  type WireObject = seq<(string, JsonObject)>

  /** The six member names a record is read from. */
  const FieldNames: set<string> :=
    {"date", "startTime", "endTime", "className", "instructor", "description"}

  /** `o[name]`: the member's string, or `undefined` when `o` has no such member. */
  function Member(o: JsonObject, name: string): (v: Value)
    ensures v.Str? <==> name in o
    ensures name in o ==> v.s == o[name]
  {
    if name in o then Str(o[name]) else Undefined
  }

  /** The record built for one key of a collection: the key as `id`, the six fields read from the
      body.  Serialising the record's body again gives back exactly the six members the stored
      object has, and nothing else. */
  function ToRecord(key: string, body: JsonObject): (r: ClassDetails)
    ensures r.id == key
    ensures BodyJson(BodyOf(r)) == SixMembers(body)
  {
    var r := ClassDetails(key,
      Member(body, "date"), Member(body, "startTime"), Member(body, "endTime"),
      Member(body, "className"), Member(body, "instructor"), Member(body, "description"));
    JsonOfFields(BodyJson(BodyOf(r)), SixMembers(body));
    r
  }

  /** The members of `o` named by one of the six fields. */
  function SixMembers(o: JsonObject): (k: JsonObject)
    ensures forall n :: n in k ==> n in FieldNames
    ensures forall n :: n in FieldNames ==> Member(k, n) == Member(o, n)
  {
    map n | n in o && n in FieldNames :: o[n]
  }

  /** Two objects whose members lie among the six names and agree on each of them are equal. */
  lemma JsonOfFields(j: JsonObject, k: JsonObject)
    requires forall n :: n in j ==> n in FieldNames
    requires forall n :: n in k ==> n in FieldNames
    requires Member(j, "date") == Member(k, "date") && Member(j, "startTime") == Member(k, "startTime")
    requires Member(j, "endTime") == Member(k, "endTime") && Member(j, "className") == Member(k, "className")
    requires Member(j, "instructor") == Member(k, "instructor")
    requires Member(j, "description") == Member(k, "description")
    ensures j == k
  {
    forall n | n in FieldNames ensures Member(j, n) == Member(k, n) {
    }
    forall n | n in j ensures n in k && j[n] == k[n] {
      assert Member(j, n) == Member(k, n);
    }
    forall n | n in k ensures n in j {
      assert Member(j, n) == Member(k, n);
    }
  }

  /** The record with the given id and body. */
  function WithId(id: string, b: ClassBody): (c: ClassDetails)
    ensures c.id == id && BodyOf(c) == b
  {
    ClassDetails(id, b.date, b.startTime, b.endTime, b.className, b.instructor, b.description)
  }

  /** The record minus its id. */
  function BodyOf(c: ClassDetails): ClassBody
  {
    ClassBody(c.date, c.startTime, c.endTime, c.className, c.instructor, c.description)
  }

  /** Adds member `name` unless the value is `undefined`, which `JSON.stringify` leaves out. */
  function PutMember(o: JsonObject, name: string, v: Value): (r: JsonObject)
    ensures v.Str? ==> Member(r, name) == v
    ensures v.Undefined? ==> r == o
    ensures forall n :: n != name ==> Member(r, n) == Member(o, n)
  {
    if v.Str? then o[name := v.s] else o
  }

  /** The JSON object a body is sent and stored as. */
  function BodyJson(b: ClassBody): (j: JsonObject)
    ensures Member(j, "date") == b.date && Member(j, "startTime") == b.startTime
    ensures Member(j, "endTime") == b.endTime && Member(j, "className") == b.className
    ensures Member(j, "instructor") == b.instructor && Member(j, "description") == b.description
    ensures forall n :: n in j ==> n in FieldNames
  {
    var o0: JsonObject := map[];
    var o1 := PutMember(o0, "date", b.date);
    var o2 := PutMember(o1, "startTime", b.startTime);
    var o3 := PutMember(o2, "endTime", b.endTime);
    var o4 := PutMember(o3, "className", b.className);
    var o5 := PutMember(o4, "instructor", b.instructor);
    PutMember(o5, "description", b.description)
  }

  /** A body stored under `key` reads back as the record with that key as id and the body's fields. */
  lemma StoredBodyRoundTrip(key: string, b: ClassBody)
    ensures ToRecord(key, BodyJson(b)) == WithId(key, b)
  {
    var o0: JsonObject := map[];
    var o1 := PutMember(o0, "date", b.date);
    var o2 := PutMember(o1, "startTime", b.startTime);
    var o3 := PutMember(o2, "endTime", b.endTime);
    var o4 := PutMember(o3, "className", b.className);
    var o5 := PutMember(o4, "instructor", b.instructor);
    var o6 := PutMember(o5, "description", b.description);
    assert Member(o6, "date") == b.date;
    assert Member(o6, "startTime") == b.startTime;
    assert Member(o6, "endTime") == b.endTime;
    assert Member(o6, "className") == b.className;
    assert Member(o6, "instructor") == b.instructor;
    assert Member(o6, "description") == b.description;
  }

  /** Members other than the six are dropped: bodies that agree on the six give the same record. */
  lemma ToRecordDropsExtraMembers(key: string, o: JsonObject, o': JsonObject)
    requires forall n :: n in FieldNames ==> Member(o, n) == Member(o', n)
    ensures ToRecord(key, o) == ToRecord(key, o')
  {
    assert "date" in FieldNames && "startTime" in FieldNames && "endTime" in FieldNames;
    assert "className" in FieldNames && "instructor" in FieldNames && "description" in FieldNames;
  }

  /** A JavaScript object has each own key once. */
  predicate DistinctKeys(w: WireObject)
  {
    forall i, j :: 0 <= i < |w| && 0 <= j < |w| && i != j ==> w[i].0 != w[j].0
  }
}
