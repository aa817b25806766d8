/** The live subscription's snapshot turned into records: `snapshot.val() || {}`,
    then one record per key of the collection, with the key as `id`. */
module UseClasses {
  import opened ClassRecords

  /** `Object.keys(data).map(key => ({ id: key, date: data[key].date, ... }))`. */
  function Expand(data: WireObject): (r: seq<ClassDetails>)
    ensures |r| == |data|
    ensures forall i :: 0 <= i < |data| ==> r[i].id == data[i].0
    ensures forall i :: 0 <= i < |data| ==> BodyOf(r[i]) == ClassBody(
      Member(data[i].1, "date"), Member(data[i].1, "startTime"), Member(data[i].1, "endTime"),
      Member(data[i].1, "className"), Member(data[i].1, "instructor"), Member(data[i].1, "description"))
  {
    seq(|data|, i requires 0 <= i < |data| => ToRecord(data[i].0, data[i].1))
  }

  /** The list the hook publishes for a snapshot; a null snapshot reads as `{}`. */
  function SnapshotClasses(snapshot: Option<WireObject>): (r: seq<ClassDetails>)
    ensures snapshot.None? ==> r == []
    ensures snapshot.Some? ==> |r| == |snapshot.value|
  {
    Expand(if snapshot.Some? then snapshot.value else [])
  }

  /** Keys enumerated in sequence give records in the same sequence. */
  lemma ExpandAppend(a: WireObject, b: WireObject)
    ensures Expand(a + b) == Expand(a) + Expand(b)
  {
  }

  /** Distinct keys give distinct ids. */
  lemma ExpandIdsDistinct(data: WireObject)
    requires DistinctKeys(data)
    ensures forall i, j :: 0 <= i < |data| && 0 <= j < |data| && i != j ==> Expand(data)[i].id != Expand(data)[j].id
  {
  }

  /** Members beyond the six do not reach the list: collections whose bodies agree on the six expand alike. */
  lemma ExpandDropsExtraMembers(data: WireObject, data': WireObject)
    requires |data| == |data'|
    requires forall i :: 0 <= i < |data| ==> data[i].0 == data'[i].0
    requires forall i, n :: 0 <= i < |data| && n in FieldNames ==> Member(data[i].1, n) == Member(data'[i].1, n)
    ensures Expand(data) == Expand(data')
  {
    forall i | 0 <= i < |data| ensures Expand(data)[i] == Expand(data')[i] {
      ToRecordDropsExtraMembers(data[i].0, data[i].1, data'[i].1);
    }
  }

  /** A body stored under a key of the collection is listed with that key as id and its own fields. */
  lemma StoredBodyListed(data: WireObject, i: int, b: ClassBody)
    requires 0 <= i < |data| && data[i].1 == BodyJson(b)
    ensures Expand(data)[i] == WithId(data[i].0, b)
  {
    StoredBodyRoundTrip(data[i].0, b);
  }
}
