/** The job-history HTTP handlers (backend/src/api/http/history-controller.js):
    the pagination clamp of `getJobs` and the not-found mapping of
    `getJobById`. The repository calls are parameters. */
module History {
  import opened Wrappers
  import opened Json
  import opened Strings

  /** `Number(query?.limit)`: a query parameter converted to a number,
      `undefined` (a missing parameter or no query) giving NaN. */
  function QueryNumber(query: Option<map<string, string>>, name: string): (r: JsNumber)
    ensures query.None? || name !in query.value ==> r == NaN
  {
    if query.Some? && name in query.value then ParseNumber(query.value[name]) else NaN
  }

  /** `n || d`: NaN and zero are falsy. */
  function OrDefault(n: JsNumber, d: real): (r: real)
    ensures n.NaN? || n.value == 0.0 ==> r == d
    ensures n.Finite? && n.value != 0.0 ==> r == n.value
  {
    match n
    case NaN => d
    case Finite(v) => if v == 0.0 then d else v
  }

  function Min(a: real, b: real): real { if a <= b then a else b }
  function Max(a: real, b: real): real { if a >= b then a else b }

  /** `Math.min(Math.max(Number(query?.limit) || 20, 1), 100)` */
  function Limit(query: Option<map<string, string>>): (r: real)
    ensures 1.0 <= r <= 100.0
  {
    Min(Max(OrDefault(QueryNumber(query, "limit"), 20.0), 1.0), 100.0)
  }

  /** `Math.max(Number(query?.offset) || 0, 0)` */
  function Offset(query: Option<map<string, string>>): (r: real)
    ensures r >= 0.0
  {
    Max(OrDefault(QueryNumber(query, "offset"), 0.0), 0.0)
  }

  /** The limit is 20 when the parameter is missing, not a number, or zero,
      and the requested value itself when that lies in [1, 100]. */
  lemma LimitDefault(query: Option<map<string, string>>)
    ensures QueryNumber(query, "limit").NaN? || QueryNumber(query, "limit").value == 0.0 ==> Limit(query) == 20.0
    ensures QueryNumber(query, "limit").Finite? && 1.0 <= QueryNumber(query, "limit").value <= 100.0 ==>
      Limit(query) == QueryNumber(query, "limit").value
    ensures query.Some? && "limit" in query.value && query.value["limit"] == "" ==> Limit(query) == 20.0
  {
  }

  /** The offset is 0 when the parameter is missing or not a number, and the
      requested value itself when that is not negative. */
  lemma OffsetDefault(query: Option<map<string, string>>)
    ensures QueryNumber(query, "offset").NaN? ==> Offset(query) == 0.0
    ensures QueryNumber(query, "offset").Finite? && QueryNumber(query, "offset").value >= 0.0 ==>
      Offset(query) == QueryNumber(query, "offset").value
  {
  }

  /** A written-out page size reaches the repository unchanged. */
  lemma LimitOfDecimal(n: nat)
    requires 1 <= n <= 100
    ensures Limit(Some(map["limit" := NatToString(n)])) == n as real
  {
    NatToStringNumber(n);
  }

  /** `getJobs(query)`: the repository's page for the clamped values, with
      the same values echoed under pagination. */
  function GetJobs(query: Option<map<string, string>>, listJobs: (real, real) -> Json): (r: Json)
    ensures r.JObj? && r.fields.Keys == {"jobs", "pagination"}
    ensures r.fields["jobs"] == listJobs(Limit(query), Offset(query))
    ensures var p := r.fields["pagination"];
      p.JObj? && p.fields.Keys == {"limit", "offset"}
      && p.fields["limit"].JNum? && 1.0 <= p.fields["limit"].n <= 100.0
      && p.fields["offset"].JNum? && p.fields["offset"].n >= 0.0
  {
    var limit := Limit(query);
    var offset := Offset(query);
    JObj(map["jobs" := listJobs(limit, offset),
             "pagination" := JObj(map["limit" := JNum(limit), "offset" := JNum(offset)])])
  }

  /** `getJobById(jobId)` given what the repository returned (null when
      there is no such job). */
  function GetJobById(jobId: string, found: Json): (r: Json)
    ensures !Truthy(found) ==> r == JObj(map["error" := JStr("Job " + jobId + " not found.")])
    ensures Truthy(found) ==> r == found
  {
    if !Truthy(found) then JObj(map["error" := JStr("Job " + jobId + " not found.")]) else found
  }

  /** The error object is returned exactly when the repository found
      nothing, as long as a stored job never looks like one: a job is an
      object with more than the single key `error`. */
  lemma GetJobByIdNotFound(jobId: string, found: Json)
    requires found.JNull? || (found.JObj? && found.fields.Keys != {"error"})
    ensures (GetJobById(jobId, found).JObj? && GetJobById(jobId, found).fields.Keys == {"error"}) <==> found.JNull?
  {
  }
}
