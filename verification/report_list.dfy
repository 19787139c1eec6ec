/** The report list page (src/pages/ReportList.tsx): the request
    parameters and response fallbacks of `fetchReports`, and the local
    status update behind the status select. */
module ReportList {
  import opened Js

  datatype ReportItem = ReportItem(
    id: string,
    targetType: string,
    targetId: string,
    reasonType: string,
    description: Option<string>,
    status: string,
    createdAt: string)

  /** How a request settled: resolved with its value, or rejected with the
      server's `message`, if it sent one. */
  datatype Settled<T> = Resolved(value: T) | Rejected(message: Option<string>)

  datatype Notice = Success(text: string) | Warning(text: string) | Error(text: string)

  /** The server message when there is one, else the fallback. */
  function MessageOr(message: Option<string>, fallback: string): (text: string)
    ensures Truthy(message) ==> text == message.value
    ensures !Truthy(message) ==> text == fallback
  {
    if Truthy(message) then message.value else fallback
  }

  // ---------------------------------------------------------------------
  // Status update

  /** The list with every item whose id is `id` given status `next`. */
  function MarkStatus(list: seq<ReportItem>, id: string, next: string): (r: seq<ReportItem>)
    ensures |r| == |list|
    ensures forall i :: 0 <= i < |list| ==>
      && r[i].id == list[i].id && r[i].targetType == list[i].targetType
      && r[i].targetId == list[i].targetId && r[i].reasonType == list[i].reasonType
      && r[i].description == list[i].description && r[i].createdAt == list[i].createdAt
      && r[i].status == (if list[i].id == id then next else list[i].status)
  {
    seq(|list|, i requires 0 <= i < |list| => if list[i].id == id then list[i].(status := next) else list[i])
  }

  /** Updating twice to the same status is updating once. */
  lemma MarkStatusIdempotent(list: seq<ReportItem>, id: string, next: string)
    ensures MarkStatus(MarkStatus(list, id, next), id, next) == MarkStatus(list, id, next)
  {
  }

  /** Updates of different items commute; of the same item, the later wins. */
  lemma MarkStatusCommutes(list: seq<ReportItem>, id1: string, s1: string, id2: string, s2: string)
    ensures id1 != id2 ==>
      MarkStatus(MarkStatus(list, id1, s1), id2, s2) == MarkStatus(MarkStatus(list, id2, s2), id1, s1)
    ensures MarkStatus(MarkStatus(list, id1, s1), id1, s2) == MarkStatus(list, id1, s2)
  {
  }

  /** A list without the record's id is left exactly as it was. */
  lemma MarkStatusAbsentId(list: seq<ReportItem>, id: string, next: string)
    requires forall i :: 0 <= i < |list| ==> list[i].id != id
    ensures MarkStatus(list, id, next) == list
  {
  }

  /** `handleUpdateStatus` once the update request settled: on success the
      list is updated in place; on failure it is untouched and the error
      shown. */
  function HandleUpdateStatus(list: seq<ReportItem>, record: ReportItem, next: string,
                              call: Settled<()>): (r: (seq<ReportItem>, Notice))
    ensures call.Resolved? ==> r.0 == MarkStatus(list, record.id, next) && r.1 == Success("状态已更新")
    ensures call.Rejected? ==> r.0 == list && r.1 == Error(MessageOr(call.message, "更新状态失败"))
  {
    match call
    case Resolved(_) => (MarkStatus(list, record.id, next), Success("状态已更新"))
    case Rejected(msg) => (list, Error(MessageOr(msg, "更新状态失败")))
  }

  /** The status select: only 'pending' and 'resolved' reach the update;
      any other value warns and changes nothing. */
  function OnStatusSelect(list: seq<ReportItem>, record: ReportItem, v: string,
                          call: Settled<()>): (r: (seq<ReportItem>, Notice))
    ensures v != "pending" && v != "resolved" ==> r.0 == list && r.1 == Warning("仅支持设置为 已处理/未处理")
    ensures (v == "pending" || v == "resolved") ==> r == HandleUpdateStatus(list, record, v, call)
  {
    if v == "pending" || v == "resolved" then HandleUpdateStatus(list, record, v, call)
    else (list, Warning("仅支持设置为 已处理/未处理"))
  }

  /** Whatever the select reports, every item keeps its place, its id and
      every field but its status, and only the record's items may change. */
  lemma StatusSelectTouchesOnlyRecord(list: seq<ReportItem>, record: ReportItem, v: string,
                                      call: Settled<()>, i: nat)
    requires i < |list| && list[i].id != record.id
    ensures |OnStatusSelect(list, record, v, call).0| == |list|
    ensures OnStatusSelect(list, record, v, call).0[i] == list[i]
  {
  }

  // ---------------------------------------------------------------------
  // Fetching

  /** The query `fetchReports` sends. */
  datatype ReportQuery = ReportQuery(
    page: int,
    limit: int,
    status: Option<string>,
    targetType: Option<string>,
    search: Option<string>,
    startDate: Option<string>,
    endDate: Option<string>)

  /** The query: page and limit always; status, target type and search when
      set; both date bounds (through `iso`, standing for `toISOString`) only
      when the range exists and has both ends. */
  function BuildReportQuery<D>(p: int, l: int, status: Option<string>, targetType: Option<string>,
                               search: string, dateRange: Option<(Option<D>, Option<D>)>,
                               iso: D -> string): (q: ReportQuery)
    ensures q.page == p && q.limit == l
    ensures q.status.Some? <==> Truthy(status)
    ensures q.targetType.Some? <==> Truthy(targetType)
    ensures q.search.Some? <==> search != ""
    ensures q.status.Some? ==> q.status == status
    ensures q.targetType.Some? ==> q.targetType == targetType
    ensures q.search.Some? ==> q.search.value == search
    ensures q.startDate.Some? <==> q.endDate.Some?
    ensures q.startDate.Some? <==> dateRange.Some? && dateRange.value.0.Some? && dateRange.value.1.Some?
    ensures q.startDate.Some? ==>
      q.startDate.value == iso(dateRange.value.0.value) && q.endDate.value == iso(dateRange.value.1.value)
  {
    var both := dateRange.Some? && dateRange.value.0.Some? && dateRange.value.1.Some?;
    ReportQuery(p, l, OrUndefined(status), OrUndefined(targetType), StringOrUndefined(search),
      if both then Some(iso(dateRange.value.0.value)) else None,
      if both then Some(iso(dateRange.value.1.value)) else None)
  }

  /** The `data` object of a report response; every field may be missing. */
  datatype ReportData = ReportData(
    list: Option<seq<ReportItem>>,
    total: Option<int>,
    page: Option<int>,
    limit: Option<int>)

  datatype ReportPage = ReportPage(list: seq<ReportItem>, total: int, page: int, limit: int)

  /** The number, unless it is missing or 0 (`x || fallback`). */
  function NumberOr(x: Option<int>, fallback: int): (n: int)
    ensures x.Some? && NumTruthy(x.value) ==> n == x.value
    ensures !(x.Some? && NumTruthy(x.value)) ==> n == fallback
  {
    if x.Some? && NumTruthy(x.value) then x.value else fallback
  }

  /** `fetchReports(p, l)` once settled: a response fills the page, each
      missing field falling back to `[]`, 0, the requested page and the
      requested limit; a rejection keeps the page and shows the error. */
  function FetchReports(s: ReportPage, p: int, l: int,
                        call: Settled<Option<ReportData>>): (r: (ReportPage, Option<Notice>))
    ensures call.Rejected? ==> r.0 == s && r.1 == Some(Error(MessageOr(call.message, "获取举报列表失败")))
    ensures call.Resolved? ==> r.1.None?
    ensures call.Resolved? && call.value.None? ==> r.0 == ReportPage([], 0, p, l)
    ensures call.Resolved? && call.value.Some? ==>
      && r.0.list == call.value.value.list.GetOr([])
      && r.0.total == NumberOr(call.value.value.total, 0)
      && r.0.page == NumberOr(call.value.value.page, p)
      && r.0.limit == NumberOr(call.value.value.limit, l)
  {
    match call
    case Rejected(msg) => (s, Some(Error(MessageOr(msg, "获取举报列表失败"))))
    case Resolved(data) =>
      var d := data.GetOr(ReportData(None, None, None, None));
      (ReportPage(d.list.GetOr([]), NumberOr(d.total, 0), NumberOr(d.page, p), NumberOr(d.limit, l)), None)
  }

  /** A response carrying every field (page and limit non-zero) is taken
      as it is; an empty `data` gives the empty first state of the request. */
  lemma FetchReportsFallbacks(s: ReportPage, p: int, l: int, d: ReportData)
    ensures d.list.Some? && d.total.Some? && d.page.Some? && d.limit.Some?
            && d.page.value != 0 && d.limit.value != 0 ==>
      FetchReports(s, p, l, Resolved(Some(d))).0 ==
        ReportPage(d.list.value, d.total.value, d.page.value, d.limit.value)
    ensures FetchReports(s, p, l, Resolved(Some(ReportData(None, None, None, None)))).0 == ReportPage([], 0, p, l)
  {
  }
}
