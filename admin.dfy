/** The admin week editor (EditScheduleWeekly): a week of day columns, each
    listing that day's classes by start time, and the add and edit forms
    whose submits write to the backend.  The component's state hooks are the
    fields of `EditScheduleWeekly`; each handler is a method that changes
    the fields it sets.  The moment values the screen holds are day numbers,
    and their `format("YYYY-MM-DD")` is the screen's `iso` function. */
module Admin {
  import opened ClassRecords
  import opened Sequences
  import opened DaySort
  import opened WeekGrid
  import Http
  import UseClasses

  /** `keyof ClassFormData`. */
  datatype FormField = ClassNameField | InstructorField | StartTimeField | EndTimeField | DescriptionField

  /** The form's state (`ClassFormData`); a prefill can copy an `undefined` field into it. */
  datatype ClassForm = ClassForm(
    className: Value,
    instructor: Value,
    startTime: Value,
    endTime: Value,
    description: Value)

  /** The form `openModal` and a successful add reset to. */
  const EmptyForm: ClassForm := ClassForm(Str(""), Str(""), Str(""), Str(""), Str(""))

  /** `form[name]`. */
  function Field(form: ClassForm, name: FormField): Value
  {
    match name
    case ClassNameField => form.className
    case InstructorField => form.instructor
    case StartTimeField => form.startTime
    case EndTimeField => form.endTime
    case DescriptionField => form.description
  }

  /** `{ ...prev, [name]: value }`: field `name` becomes `v`, the other four keep their values. */
  function WithField(form: ClassForm, name: FormField, v: Value): (r: ClassForm)
    ensures Field(r, name) == v
    ensures forall other :: other != name ==> Field(r, other) == Field(form, other)
  {
    match name
    case ClassNameField => form.(className := v)
    case InstructorField => form.(instructor := v)
    case StartTimeField => form.(startTime := v)
    case EndTimeField => form.(endTime := v)
    case DescriptionField => form.(description := v)
  }

  /** `{ ...formData, date }`: the body of an add or an edit. */
  function SubmitBody(form: ClassForm, date: Value): (b: ClassBody)
    ensures b.date == date
    ensures forall name :: Field(form, name) == BodyField(b, name)
  {
    ClassBody(date, form.startTime, form.endTime, form.className, form.instructor, form.description)
  }

  /** The body member a form field is sent as. */
  function BodyField(b: ClassBody, name: FormField): Value
  {
    match name
    case ClassNameField => b.className
    case InstructorField => b.instructor
    case StartTimeField => b.startTime
    case EndTimeField => b.endTime
    case DescriptionField => b.description
  }

  /** `openEditModal`'s prefill.  Submitting it unedited, with the record's own date,
      sends back exactly the record minus its id. */
  function PrefillForm(c: ClassDetails): (form: ClassForm)
    ensures SubmitBody(form, c.date) == BodyOf(c)
    ensures WithId(c.id, SubmitBody(form, c.date)) == c
  {
    ClassForm(c.className, c.instructor, c.startTime, c.endTime, c.description)
  }

  /** Whether a record's date string is exactly `d`. */
  function OnDate(d: string): ClassDetails -> bool
  {
    (c: ClassDetails) => c.date == Str(d)
  }

  /** `classes.filter((cls) => cls.date === dateStr)`. */
  function ClassesOnDate(classes: seq<ClassDetails>, dateStr: string): (r: seq<ClassDetails>)
    ensures |r| <= |classes|
    ensures forall i :: 0 <= i < |r| ==> r[i].date == Str(dateStr)
    ensures forall x :: x in r <==> x in classes && x.date == Str(dateStr)
  {
    FilterMembers(classes, OnDate(dateStr));
    Filter(classes, OnDate(dateStr))
  }

  /** Exactly the records dated `d` are kept, each as often as it occurs. */
  lemma ClassesOnDateExactly(classes: seq<ClassDetails>, d: string, x: ClassDetails)
    ensures x in ClassesOnDate(classes, d) <==> x in classes && x.date == Str(d)
    ensures multiset(ClassesOnDate(classes, d))[x] == if x.date == Str(d) then multiset(classes)[x] else 0
  {
    FilterCount(classes, OnDate(d), x);
    assert x in ClassesOnDate(classes, d) <==> x in multiset(ClassesOnDate(classes, d));
    assert x in classes <==> x in multiset(classes);
  }

  /** The kept records stay in input order. */
  lemma ClassesOnDateInOrder(a: seq<ClassDetails>, b: seq<ClassDetails>, d: string)
    ensures ClassesOnDate(a + b, d) == ClassesOnDate(a, d) + ClassesOnDate(b, d)
  {
    FilterAppend(a, b, OnDate(d));
  }

  /** A day column: `classesForDate(date).sort(byStartTime)`. */
  function DayList(classes: seq<ClassDetails>, dateStr: string): (r: seq<ClassDetails>)
    requires AllTimed(ClassesOnDate(classes, dateStr))
    ensures AllTimed(r) && SortedByStart(r)
    ensures multiset(r) == multiset(ClassesOnDate(classes, dateStr))
    ensures forall x :: x in r <==> x in classes && x.date == Str(dateStr)
    ensures forall k :: WithStart(r, k) == WithStart(ClassesOnDate(classes, dateStr), k)
  {
    var day := ClassesOnDate(classes, dateStr);
    StableSortSorted(day);
    StableSortStableAll(day);
    assert forall x :: x in StableSort(day) <==> x in multiset(StableSort(day));
    assert forall x :: x in day <==> x in multiset(day);
    StableSort(day)
  }

  /** The classes of the day-list example below. */
  function ExampleClass(id: string, date: string, start: string): ClassDetails
  {
    ClassDetails(id, Str(date), Str(start), Undefined, Undefined, Undefined, Undefined)
  }

  lemma ExampleFilter(a: ClassDetails, b: ClassDetails, c: ClassDetails)
    requires a.date == Str("2024-06-03") && b.date == Str("2024-06-03") && c.date == Str("2024-06-04")
    ensures ClassesOnDate([a, b, c], "2024-06-03") == [a, b]
  {
    var d := "2024-06-03";
    assert [a, b, c][1..] == [b, c] && [b, c][1..] == [c] && [c][1..] == [];
    assert Filter([c], OnDate(d)) == [];
    assert Filter([b, c], OnDate(d)) == [b];
  }

  lemma ExampleSort(a: ClassDetails, b: ClassDetails)
    requires Timed(a) && Timed(b) && StartKey(a) <= StartKey(b)
    ensures StableSort([a, b]) == [a, b]
  {
    assert [a, b][1..] == [b] && [b][1..] == [];
    assert StableSort([b]) == [b];
  }

  /** Three records on two days: the day with two lists them by numeric start time,
      `"9:00"` before `"10:15"`. */
  lemma DayListExample()
    ensures var a := ExampleClass("a", "2024-06-03", "9:00");
      var b := ExampleClass("b", "2024-06-03", "10:15");
      var c := ExampleClass("c", "2024-06-04", "08:00");
      AllTimed(ClassesOnDate([a, b, c], "2024-06-03")) &&
      DayList([a, b, c], "2024-06-03") == [a, b]
  {
    var a := ExampleClass("a", "2024-06-03", "9:00");
    var b := ExampleClass("b", "2024-06-03", "10:15");
    var c := ExampleClass("c", "2024-06-04", "08:00");
    Times.ToMinutesOfClock("9", "00");
    Times.ToMinutesOfClock("10", "15");
    assert "9" + ":" + "00" == "9:00";
    assert "10" + ":" + "15" == "10:15";
    assert StartKey(a) == 540 && StartKey(b) == 615;
    ExampleDayList(a, b, c);
  }

  lemma ExampleDayList(a: ClassDetails, b: ClassDetails, c: ClassDetails)
    requires a.date == Str("2024-06-03") && b.date == Str("2024-06-03") && c.date == Str("2024-06-04")
    requires Timed(a) && Timed(b) && StartKey(a) <= StartKey(b)
    ensures AllTimed(ClassesOnDate([a, b, c], "2024-06-03"))
    ensures DayList([a, b, c], "2024-06-03") == [a, b]
  {
    ExampleFilter(a, b, c);
    ExampleSort(a, b);
  }

  class EditScheduleWeekly {
    var weekOffset: int
    var classes: seq<ClassDetails>
    var selectedDate: Option<int>
    var modalVisible: bool
    var formData: ClassForm
    var selectedClass: Option<ClassDetails>
    var editModalVisible: bool
    /** `format("YYYY-MM-DD")` of a day. */
    const iso: int -> string
    /** A day on which the locale's week begins. */
    const weekAnchor: int

    constructor (iso: int -> string, weekAnchor: int)
      ensures this.iso == iso && this.weekAnchor == weekAnchor
      ensures weekOffset == 0 && classes == [] && selectedDate == None && !modalVisible
      ensures formData == EmptyForm && selectedClass == None && !editModalVisible
    {
      this.iso := iso;
      this.weekAnchor := weekAnchor;
      weekOffset := 0;
      classes := [];
      selectedDate := None;
      modalVisible := false;
      formData := EmptyForm;
      selectedClass := None;
      editModalVisible := false;
    }

    /** `startOfWeek` on day `today`: the start of the week `weekOffset` weeks away. */
    function StartOfShownWeek(today: int): (start: int)
      reads this
      ensures start <= today + 7 * weekOffset < start + 7
      ensures (start - weekAnchor) % 7 == 0
    {
      StartOfWeek(today + 7 * weekOffset, weekAnchor)
    }

    /** `weekDates`: seven consecutive days, exactly the week that starts at `startOfWeek`. */
    function WeekDates(today: int): (dates: seq<int>)
      reads this
      ensures |dates| == 7 && dates[0] == StartOfShownWeek(today)
      ensures forall i :: 0 <= i < 6 ==> dates[i + 1] == dates[i] + 1
      ensures forall x :: x in dates <==> StartOfWeek(x, weekAnchor) == StartOfShownWeek(today)
    {
      WeekRowIsWeekAll(StartOfShownWeek(today), weekAnchor);
      WeekRow(StartOfShownWeek(today))
    }

    /** `classesForDate`. */
    function ClassesForDate(dateStr: string): (r: seq<ClassDetails>)
      reads this
      ensures forall i :: 0 <= i < |r| ==> r[i].date == Str(dateStr)
      ensures forall x :: x in r <==> x in classes && x.date == Str(dateStr)
    {
      ClassesOnDate(classes, dateStr)
    }

    /** The cell of one day: a fresh array of its classes, sorted in place by start time. */
    method DayColumn(day: int) returns (column: array<ClassDetails>)
      requires AllTimed(ClassesOnDate(classes, iso(day)))
      ensures fresh(column)
      ensures column[..] == DayList(classes, iso(day))
    {
      column := NewArray(ClassesForDate(iso(day)));
      SortInPlace(column);
    }

    /** `fetchAndSetClasses`: the fetched list replaces `classes`; a failure leaves them. */
    method FetchAndSetClasses(reply: Result<Option<WireObject>, Http.HttpError>) returns (request: Http.Request)
      modifies this`classes
      ensures request == Http.Get(Http.CollectionPath)
      ensures reply.Ok? ==> classes == UseClasses.SnapshotClasses(reply.value)
      ensures reply.Err? ==> classes == old(classes)
    {
      var result;
      request, result := Http.FetchClasses(reply);
      if result.Ok? {
        classes := result.value;
      }
    }

    /** `openModal`: select the day and clear the form. */
    method OpenModal(date: int)
      modifies this`selectedDate, this`formData, this`modalVisible
      ensures selectedDate == Some(date) && formData == EmptyForm && modalVisible
    {
      selectedDate := Some(date);
      formData := EmptyForm;
      modalVisible := true;
    }

    /** `openEditModal`: select the record and copy it into the form. */
    method OpenEditModal(cls: ClassDetails)
      modifies this`selectedClass, this`formData, this`editModalVisible
      ensures selectedClass == Some(cls) && formData == PrefillForm(cls) && editModalVisible
    {
      selectedClass := Some(cls);
      formData := PrefillForm(cls);
      editModalVisible := true;
    }

    /** `handleChange`: only field `name` of the form changes. */
    method HandleChange(name: FormField, value: string)
      modifies this`formData
      ensures formData == WithField(old(formData), name, Str(value))
      ensures Field(formData, name) == Str(value)
      ensures forall other :: other != name ==> Field(formData, other) == Field(old(formData), other)
    {
      formData := WithField(formData, name, Str(value));
    }

    /** `handleSubmit`: with no selected day nothing is sent; otherwise the form plus the
        selected day is posted.  `addClass` never rejects, so the form is always reset,
        the modal closed and the list re-fetched afterwards. */
    method HandleSubmit(addReply: Http.Outcome, fetchReply: Result<Option<WireObject>, Http.HttpError>)
      returns (requests: seq<Http.Request>)
      modifies this`formData, this`modalVisible, this`classes
      ensures selectedDate.None? ==>
        requests == [] && formData == old(formData) && modalVisible == old(modalVisible) && classes == old(classes)
      ensures selectedDate.Some? ==>
        requests == [Http.Post(Http.CollectionPath, SubmitBody(old(formData), Str(iso(selectedDate.value)))),
                     Http.Get(Http.CollectionPath)] &&
        formData == EmptyForm && !modalVisible &&
        (fetchReply.Ok? ==> classes == UseClasses.SnapshotClasses(fetchReply.value)) &&
        (fetchReply.Err? ==> classes == old(classes))
    {
      if selectedDate.None? {
        return [];
      }
      var classData := SubmitBody(formData, Str(iso(selectedDate.value)));
      var post, outcome := Http.AddClass(classData, addReply);
      requests := [post];
      if outcome.Resolved? {
        formData := EmptyForm;
        modalVisible := false;
        var get := FetchAndSetClasses(fetchReply);
        requests := requests + [get];
      }
    }

    /** `handleEditSubmit`: with no selected record nothing is sent; otherwise the form is put at
        the record's id with the record's own date.  Success closes the modal, clears the
        selection and re-fetches; a rejection leaves the state as it was. */
    method HandleEditSubmit(updateReply: Http.Outcome, fetchReply: Result<Option<WireObject>, Http.HttpError>)
      returns (requests: seq<Http.Request>)
      modifies this`editModalVisible, this`selectedClass, this`classes
      ensures old(selectedClass).None? ==>
        requests == [] && editModalVisible == old(editModalVisible) && selectedClass == old(selectedClass) &&
        classes == old(classes)
      ensures old(selectedClass).Some? ==>
        |requests| >= 1 &&
        requests[0] == Http.Put(Http.ClassPath(old(selectedClass).value.id),
                                SubmitBody(formData, old(selectedClass).value.date))
      ensures old(selectedClass).Some? && updateReply.Resolved? ==>
        requests[1..] == [Http.Get(Http.CollectionPath)] && !editModalVisible && selectedClass == None &&
        (fetchReply.Ok? ==> classes == UseClasses.SnapshotClasses(fetchReply.value)) &&
        (fetchReply.Err? ==> classes == old(classes))
      ensures old(selectedClass).Some? && updateReply.Rejected? ==>
        |requests| == 1 && editModalVisible == old(editModalVisible) && selectedClass == old(selectedClass) &&
        classes == old(classes)
    {
      if selectedClass.None? {
        return [];
      }
      var cls := selectedClass.value;
      var put, outcome := Http.UpdateClass(cls.id, SubmitBody(formData, cls.date), updateReply);
      requests := [put];
      if outcome.Resolved? {
        editModalVisible := false;
        selectedClass := None;
        var get := FetchAndSetClasses(fetchReply);
        requests := requests + [get];
      }
    }

    /** The add modal's Cancel: closes the modal and keeps the form and the selected day. */
    method CancelAdd()
      modifies this`modalVisible
      ensures !modalVisible
    {
      modalVisible := false;
    }

    /** The edit modal's Cancel: closes the modal and drops the selection, so a later edit
        submit sends nothing until a record is opened again. */
    method CancelEdit()
      modifies this`editModalVisible, this`selectedClass
      ensures !editModalVisible && selectedClass == None
    {
      editModalVisible := false;
      selectedClass := None;
    }

    /** `goToPreviousWeek`. */
    method GoToPreviousWeek()
      modifies this`weekOffset
      ensures weekOffset == old(weekOffset) - 1
      ensures forall today :: StartOfShownWeek(today) == old(StartOfShownWeek(today)) - 7
    {
      weekOffset := weekOffset - 1;
      forall today ensures StartOfShownWeek(today) == old(StartOfShownWeek(today)) - 7 {
        OffsetShift(today, old(weekOffset), -1, weekAnchor);
      }
    }

    /** `goToNextWeek`. */
    method GoToNextWeek()
      modifies this`weekOffset
      ensures weekOffset == old(weekOffset) + 1
      ensures forall today :: StartOfShownWeek(today) == old(StartOfShownWeek(today)) + 7
    {
      weekOffset := weekOffset + 1;
      forall today ensures StartOfShownWeek(today) == old(StartOfShownWeek(today)) + 7 {
        OffsetShift(today, old(weekOffset), 1, weekAnchor);
      }
    }
  }

}
