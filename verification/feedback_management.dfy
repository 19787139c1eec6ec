/** The feedback administration page (src/pages/FeedbackManagement.tsx):
    the colour and label tables of its tags, the batch mark-as-read action
    and the filter selects. */
module FeedbackManagement {
  import opened Js

  const KnownStatuses: seq<string> := ["pending", "processing", "resolved", "closed"]
  const KnownPriorities: seq<string> := ["low", "medium", "high", "urgent"]
  const KnownTypes: seq<string> := ["bug", "feature", "improvement", "question", "complaint", "other"]

  /** `getStatusColor`. */
  function StatusColor(status: string): (c: string)
    ensures c == "default" <==> status !in KnownStatuses
  {
    match status
    case "pending" => "orange"
    case "processing" => "blue"
    case "resolved" => "green"
    case "closed" => "gray"
    case _ => "default"
  }

  /** `getPriorityColor`. */
  function PriorityColor(priority: string): (c: string)
    ensures c == "default" <==> priority !in KnownPriorities
  {
    match priority
    case "low" => "green"
    case "medium" => "orange"
    case "high" => "red"
    case "urgent" => "purple"
    case _ => "default"
  }

  /** The colours of the known statuses, and of the known priorities, are
      pairwise different, so each tag tells its value apart. */
  lemma ColoursDistinguishKnownValues()
    ensures forall i, j :: 0 <= i < j < |KnownStatuses| ==>
      StatusColor(KnownStatuses[i]) != StatusColor(KnownStatuses[j])
    ensures forall i, j :: 0 <= i < j < |KnownPriorities| ==>
      PriorityColor(KnownPriorities[i]) != PriorityColor(KnownPriorities[j])
    ensures StatusColor("pending") == "orange" && StatusColor("processing") == "blue"
    ensures StatusColor("resolved") == "green" && StatusColor("closed") == "gray"
    ensures PriorityColor("low") == "green" && PriorityColor("medium") == "orange"
    ensures PriorityColor("high") == "red" && PriorityColor("urgent") == "purple"
  {
  }

  /** The label table of `getTypeText`. */
  const TypeLabels: map<string, string> := map[
    "bug" := "错误报告",
    "feature" := "功能建议",
    "improvement" := "改进建议",
    "question" := "问题咨询",
    "complaint" := "投诉建议",
    "other" := "其他"]

  /** `typeMap[type] || type`: the label of a known type, the type itself
      otherwise (every label is non-empty, so `||` never falls through for a
      known type). */
  function TypeText(kind: string): (text: string)
    ensures kind in TypeLabels ==> text == TypeLabels[kind]
    ensures kind !in TypeLabels ==> text == kind
  {
    if kind in TypeLabels && TypeLabels[kind] != "" then TypeLabels[kind] else kind
  }

  /** The table covers exactly the six types of the form. */
  lemma TypeLabelsCoverKnownTypes()
    ensures forall t :: t in TypeLabels <==> t in KnownTypes
  {
  }

  /** The labels of the known types, in the order of `KnownTypes`. */
  const KnownTypeLabels: seq<string> := ["错误报告", "功能建议", "改进建议", "问题咨询", "投诉建议", "其他"]

  /** Each known type shows its own label; the labels are pairwise
      different, so distinct known types read differently. */
  lemma TypeTextOfKnownTypes()
    ensures forall i :: 0 <= i < |KnownTypes| ==> TypeText(KnownTypes[i]) == KnownTypeLabels[i]
    ensures forall i, j :: 0 <= i < j < |KnownTypeLabels| ==> KnownTypeLabels[i] != KnownTypeLabels[j]
  {
    assert TypeText("bug") == KnownTypeLabels[0];
    assert TypeText("feature") == KnownTypeLabels[1];
    assert TypeText("improvement") == KnownTypeLabels[2];
    assert TypeText("question") == KnownTypeLabels[3];
    assert TypeText("complaint") == KnownTypeLabels[4];
    assert TypeText("other") == KnownTypeLabels[5];
  }

  // ---------------------------------------------------------------------
  // Batch mark-as-read

  datatype Notice = Success(text: string) | Warning(text: string) | Error(text: string)

  /** What `handleBatchMarkAsRead` did: the new selection, the ids it asked
      the server to mark (if it asked), whether the list is fetched again,
      and the message shown. */
  datatype Batch = Batch(selected: seq<string>, requested: Option<seq<string>>, refetch: bool, notice: Notice)

  /** `handleBatchMarkAsRead` once settled (`marked` says whether the
      request succeeded). */
  function BatchMarkAsRead(selected: seq<string>, marked: bool): (b: Batch)
    ensures |selected| == 0 ==> b == Batch(selected, None, false, Warning("请选择要标记的反馈"))
    ensures |selected| > 0 ==> b.requested == Some(selected)
    ensures |selected| > 0 && marked ==> b.selected == [] && b.refetch && b.notice == Success("批量标记已读成功")
    ensures |selected| > 0 && !marked ==> b.selected == selected && !b.refetch && b.notice == Error("批量标记已读失败")
  {
    if |selected| == 0 then Batch(selected, None, false, Warning("请选择要标记的反馈"))
    else if marked then Batch([], Some(selected), true, Success("批量标记已读成功"))
    else Batch(selected, Some(selected), false, Error("批量标记已读失败"))
  }

  /** A request is sent exactly when something is selected, and after a
      success a second click only warns. */
  lemma BatchRequestIffSelection(selected: seq<string>, m1: bool, m2: bool)
    ensures BatchMarkAsRead(selected, m1).requested.Some? <==> |selected| > 0
    ensures m1 ==> BatchMarkAsRead(BatchMarkAsRead(selected, m1).selected, m2).requested.None?
  {
  }

  // ---------------------------------------------------------------------
  // Filters

  /** The filter object sent with every list request; '' means no filter. */
  datatype Filters = Filters(status: string, kind: string, priority: string, isRead: string)

  const NoFilters: Filters := Filters("", "", "", "")

  datatype Field = StatusField | TypeField | PriorityField | IsReadField

  function Get(f: Filters, field: Field): string {
    match field
    case StatusField => f.status
    case TypeField => f.kind
    case PriorityField => f.priority
    case IsReadField => f.isRead
  }

  /** A filter select's `onChange`: `{ ...filters, field: value || '' }`. */
  function SetFilter(f: Filters, field: Field, value: Option<string>): (r: Filters)
    ensures Get(r, field) == OrEmptyString(value)
    ensures forall other :: other != field ==> Get(r, other) == Get(f, other)
  {
    var v := OrEmptyString(value);
    match field
    case StatusField => f.(status := v)
    case TypeField => f.(kind := v)
    case PriorityField => f.(priority := v)
    case IsReadField => f.(isRead := v)
  }

  /** What a filter select shows: `filters.field || undefined`. */
  function Shown(f: Filters, field: Field): Option<string> {
    StringOrUndefined(Get(f, field))
  }

  /** Clearing a select stores '' and shows the placeholder; choosing a
      value shows it again; the other selects are unaffected. */
  lemma FilterSelectRoundTrip(f: Filters, field: Field, value: Option<string>)
    ensures Shown(SetFilter(f, field, value), field) == OrUndefined(value)
    ensures value.None? ==> Get(SetFilter(f, field, None), field) == ""
    ensures forall other :: other != field ==> Shown(SetFilter(f, field, value), other) == Shown(f, other)
  {
  }

  /** Clearing every select in turn gives the initial filters. */
  lemma ClearingAllFilters(f: Filters)
    ensures SetFilter(SetFilter(SetFilter(SetFilter(f, StatusField, None), TypeField, None),
                                PriorityField, None), IsReadField, None) == NoFilters
  {
  }
}
