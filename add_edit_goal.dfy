/**
  The goal form: its fields, seeded from the goal being edited, its list of
  extra conditions (objects the form appends to and updates in place), the
  title, and the submit handler that reports the record and closes the form.
  The two callbacks are modelled as the sequence of calls the form makes.
 */
module AddEditGoal {
  import opened JsValues

  /** One extra condition of a goal; the form updates these objects in place. */
  class Condition {
    var condition: string
    var conditionValue: string

    /** `{ condition: "", conditionValue: "" }`. */
    constructor()
      ensures condition == "" && conditionValue == ""
    {
      condition := "";
      conditionValue := "";
    }
  }

  /** The two properties of a condition the form writes: `"condition"` and `"conditionValue"`. */
  datatype ConditionField = ConditionName | ConditionValue

  /** What a condition holds, as a value. */
  datatype Entry = Entry(condition: string, conditionValue: string)

  const EmptyEntry := Entry("", "")

  /** The entry with one of its two properties replaced. */
  function SetEntryField(e: Entry, field: ConditionField, value: string): Entry {
    match field
    case ConditionName => e.(condition := value)
    case ConditionValue => e.(conditionValue := value)
  }

  /** `handleConditionChange` on values: the entry at `index` gets `value` for `field`. */
  function UpdateEntries(entries: seq<Entry>, index: nat, field: ConditionField, value: string): (updated: seq<Entry>)
    requires index < |entries|
    ensures |updated| == |entries|
    ensures forall i :: 0 <= i < |entries| && i != index ==> updated[i] == entries[i]
    ensures field == ConditionName ==>
      updated[index].condition == value && updated[index].conditionValue == entries[index].conditionValue
    ensures field == ConditionValue ==>
      updated[index].conditionValue == value && updated[index].condition == entries[index].condition
  {
    entries[index := SetEntryField(entries[index], field, value)]
  }

  /**
    Updates of one entry behave like assignments: the last write to a field
    wins, writes to the two fields commute, writes to different entries
    commute, and writing a field's current value changes nothing.
   */
  lemma UpdateEntriesLaws(entries: seq<Entry>, i: nat, j: nat, f: ConditionField, g: ConditionField, v: string, w: string)
    requires i < |entries| && j < |entries|
    ensures UpdateEntries(UpdateEntries(entries, i, f, v), i, f, w) == UpdateEntries(entries, i, f, w)
    ensures (i != j || f != g) ==>
      UpdateEntries(UpdateEntries(entries, i, f, v), j, g, w) == UpdateEntries(UpdateEntries(entries, j, g, w), i, f, v)
    ensures UpdateEntries(entries, i, ConditionName, entries[i].condition) == entries
    ensures UpdateEntries(entries, i, ConditionValue, entries[i].conditionValue) == entries
  {
  }

  /** The form fields other than the conditions. */
  datatype FormField = GoalName | DataLevel | DataValue | Metric | MetricCondition | MetricValue | TimePeriod | Priority

  /** `initialData?.key || ""`: the edited goal's value when it is truthy, `""` otherwise or when there is no goal. */
  function InitialValue(initialData: Option<JsObject>, key: string): (v: JsValue)
    ensures initialData.Some? && key in initialData.value && Truthy(initialData.value[key]) ==> v == initialData.value[key]
    ensures !(initialData.Some? && key in initialData.value && Truthy(initialData.value[key])) ==> v == Str("")
  {
    match initialData
    case None => Str("")
    case Some(data) => Or(Get(data, key), Str(""))
  }

  /** The modal's title: a goal to edit is an object, and every object is truthy. */
  function Title(initialData: Option<JsObject>): (title: string)
    ensures title == "Edit Goal" <==> initialData.Some?
    ensures title == "Edit Goal" || title == "Add Goal"
  {
    if initialData.Some? then "Edit Goal" else "Add Goal"
  }

  /** The record handed to `onSubmit`; its conditions are the form's own condition objects. */
  datatype FormData = FormData(
    goalName: JsValue,
    dataLevel: JsValue,
    dataValue: JsValue,
    metric: JsValue,
    metricCondition: JsValue,
    metricValue: JsValue,
    conditions: seq<Condition>,
    timePeriod: JsValue,
    priority: JsValue)

  /** A call the form makes to its parent. */
  datatype Callback = Submitted(data: FormData) | Closed

  /** The form's state. */
  class GoalForm {
    var goalName: JsValue
    var dataLevel: JsValue
    var dataValue: JsValue
    var metric: JsValue
    var metricCondition: JsValue
    var metricValue: JsValue
    var conditions: seq<Condition>
    var timePeriod: JsValue
    var priority: JsValue

    /** Every condition is its own object, so writing one leaves the others alone. */
    ghost predicate Valid()
      reads this
    {
      forall i, j :: 0 <= i < j < |conditions| ==> conditions[i] != conditions[j]
    }

    /** The conditions' contents, in order. */
    function Entries(): (entries: seq<Entry>)
      reads this, conditions
      ensures |entries| == |conditions|
    {
      seq(|conditions|, i reads this, conditions requires 0 <= i < |conditions| =>
        Entry(conditions[i].condition, conditions[i].conditionValue))
    }

    /**
      The first render: every field from the edited goal or `""`, except the
      metric condition, which is "Equals" whatever the goal says; one empty
      condition.
     */
    constructor(initialData: Option<JsObject>)
      ensures goalName == InitialValue(initialData, "goalName")
      ensures dataLevel == InitialValue(initialData, "dataLevel")
      ensures dataValue == InitialValue(initialData, "dataValue")
      ensures metric == InitialValue(initialData, "metric")
      ensures metricCondition == Str("Equals")
      ensures metricValue == InitialValue(initialData, "metricValue")
      ensures timePeriod == InitialValue(initialData, "timePeriod")
      ensures priority == InitialValue(initialData, "priority")
      ensures Valid() && Entries() == [EmptyEntry]
      ensures fresh(conditions[0])
    {
      goalName := InitialValue(initialData, "goalName");
      dataLevel := InitialValue(initialData, "dataLevel");
      dataValue := InitialValue(initialData, "dataValue");
      metric := InitialValue(initialData, "metric");
      metricCondition := Str("Equals");
      metricValue := InitialValue(initialData, "metricValue");
      var first := new Condition();
      conditions := [first];
      timePeriod := InitialValue(initialData, "timePeriod");
      priority := InitialValue(initialData, "priority");
    }

    /** `handleAddCondition`: a new empty condition after the existing ones, which are kept as they are. */
    method AddCondition()
      requires Valid()
      modifies this
      ensures Valid()
      ensures |conditions| == |old(conditions)| + 1 && conditions[..|old(conditions)|] == old(conditions)
      ensures fresh(conditions[|conditions| - 1])
      ensures Entries() == old(Entries()) + [EmptyEntry]
      ensures goalName == old(goalName) && dataLevel == old(dataLevel) && dataValue == old(dataValue)
      ensures metric == old(metric) && metricCondition == old(metricCondition) && metricValue == old(metricValue)
      ensures timePeriod == old(timePeriod) && priority == old(priority)
    {
      var added := new Condition();
      conditions := conditions + [added];
    }

    /**
      `handleConditionChange(index, field, value)`: the condition object at
      `index` is written in place. The list holds the same objects, and only
      that entry's `field` changes.
     */
    method ChangeCondition(index: nat, field: ConditionField, value: string)
      requires Valid() && index < |conditions|
      modifies conditions[index]
      ensures Entries() == UpdateEntries(old(Entries()), index, field, value)
    {
      var target := conditions[index];
      match field
      case ConditionName => target.condition := value;
      case ConditionValue => target.conditionValue := value;
    }

    /** A text input or select of the form changed: its field becomes the entered string. */
    method SetField(field: FormField, value: string)
      modifies this
      ensures goalName == (if field == GoalName then Str(value) else old(goalName))
      ensures dataLevel == (if field == DataLevel then Str(value) else old(dataLevel))
      ensures dataValue == (if field == DataValue then Str(value) else old(dataValue))
      ensures metric == (if field == Metric then Str(value) else old(metric))
      ensures metricCondition == (if field == MetricCondition then Str(value) else old(metricCondition))
      ensures metricValue == (if field == MetricValue then Str(value) else old(metricValue))
      ensures timePeriod == (if field == TimePeriod then Str(value) else old(timePeriod))
      ensures priority == (if field == Priority then Str(value) else old(priority))
      ensures conditions == old(conditions)
    {
      match field
      case GoalName => goalName := Str(value);
      case DataLevel => dataLevel := Str(value);
      case DataValue => dataValue := Str(value);
      case Metric => metric := Str(value);
      case MetricCondition => metricCondition := Str(value);
      case MetricValue => metricValue := Str(value);
      case TimePeriod => timePeriod := Str(value);
      case Priority => priority := Str(value);
    }

    /** The record the form would submit now. */
    function CurrentData(): FormData
      reads this
    {
      FormData(goalName, dataLevel, dataValue, metric, metricCondition, metricValue, conditions, timePeriod, priority)
    }

    /**
      `handleSubmit`: whatever the fields hold, empty required fields
      included, the form reports the nine fields to `onSubmit` and then calls
      `onClose`; it changes nothing itself.
     */
    method Submit() returns (calls: seq<Callback>)
      ensures |calls| == 2 && calls[1] == Closed
      ensures calls[0].Submitted?
      ensures calls[0].data.goalName == goalName && calls[0].data.dataLevel == dataLevel
      ensures calls[0].data.dataValue == dataValue && calls[0].data.metric == metric
      ensures calls[0].data.metricCondition == metricCondition && calls[0].data.metricValue == metricValue
      ensures calls[0].data.conditions == conditions
      ensures calls[0].data.timePeriod == timePeriod && calls[0].data.priority == priority
    {
      calls := [Submitted(CurrentData()), Closed];
    }
  }

  /**
    A fresh form for a new goal can be submitted straight away: the record
    carries empty strings for the required fields, "Equals" and one empty
    condition, and the form closes after reporting it.
   */
  method SubmitBlankForm() returns (form: GoalForm, calls: seq<Callback>)
    ensures calls == [Submitted(form.CurrentData()), Closed]
    ensures calls[0].data.goalName == Str("") && calls[0].data.metric == Str("")
    ensures calls[0].data.metricCondition == Str("Equals")
    ensures |calls[0].data.conditions| == 1 && form.Entries() == [EmptyEntry]
  {
    form := new GoalForm(None);
    calls := form.Submit();
  }

  /**
    The submitted record holds the form's own condition objects, not copies:
    editing a condition after submitting shows through the record already
    handed to `onSubmit`.
   */
  method EditAfterSubmit(form: GoalForm, value: string) returns (data: FormData)
    requires form.Valid() && |form.conditions| > 0
    modifies form.conditions[0]
    ensures data == form.CurrentData()
    ensures data.conditions[0].condition == value
  {
    var calls := form.Submit();
    data := calls[0].data;
    form.ChangeCondition(0, ConditionName, value);
    assert form.Entries()[0].condition == value;
  }
}
