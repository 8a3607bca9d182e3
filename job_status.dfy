/** `api/routes/job_status.py`: the status of a job, looked up by its id or
    by its name. The database is an oracle from lookups to the rows the
    query would return, or to a database error. */
module JobStatus {
  import opened Common

  /** The query arguments as given: a key is present or absent. */
  type QueryArgs = map<string, string>

  const EitherIdOrNameMessage := "Either job_id or job_name is required"

  /** `JobStatusRequest.validate_schema` on the keys of the dict it is
      given: the schema error, attached to both fields, when neither key is
      there. */
  function ValidateSchema(keys: set<string>): (r: Result<(), map<string, string>>)
    ensures r.Err? <==> "job_id" !in keys && "job_name" !in keys
    ensures r.Err? ==>
      r.error.Keys == {"job_id", "job_name"} && r.error["job_id"] == r.error["job_name"] == EitherIdOrNameMessage
  {
    if "job_id" !in keys && "job_name" !in keys then
      Err(map["job_id" := EitherIdOrNameMessage, "job_name" := EitherIdOrNameMessage])
    else Ok(())
  }

  /** The keys of the dict a schema validator receives: the loaded data, in
      which every field declared with a default holds that default when the
      client did not send it. Both fields default to `None`. */
  function LoadedKeys(data: QueryArgs): set<string> {
    data.Keys + {"job_id", "job_name"}
  }

  /** The validator as written, run on the loaded data: both keys are always
      there, so it never rejects a request. */
  function ValidateLoaded(data: QueryArgs): (r: Result<(), map<string, string>>)
    ensures r.Ok?
  {
    ValidateSchema(LoadedKeys(data))
  }

  /** A request with neither key passes the validator as written and is
      looked up by the name `None`; run on the keys the client sent, the
      validator rejects it. */
  lemma MissingKeysNotRejected(db: Database)
    ensures ValidateLoaded(map[]).Ok?
    ensures LookupFor(LoadRequest(map[])) == ByName(None)
    ensures ValidateSchema({}).Err?
    ensures Get(db, map[]) == Err(EitherIdOrNameMessage)
  {
  }

  /** The loaded request: each field is the given value or `None`. */
  datatype StatusRequest = StatusRequest(jobId: Option<string>, jobName: Option<string>)

  function Field(data: QueryArgs, key: string): (r: Option<string>)
    ensures r.Some? <==> key in data
    ensures r.Some? ==> r.value == data[key]
  {
    if key in data then Some(data[key]) else None
  }

  function LoadRequest(data: QueryArgs): StatusRequest {
    StatusRequest(Field(data, "job_id"), Field(data, "job_name"))
  }

  /** What the database is asked for. */
  datatype Lookup = ById(jobId: string) | ByName(jobName: Option<string>)

  /** `JobStatus.get`: a non-empty `job_id` selects the lookup by id; any
      other request, an empty `job_id` included, is looked up by name. */
  function LookupFor(args: StatusRequest): (l: Lookup)
    ensures l.ById? <==> Truthy(args.jobId)
    ensures l.ById? ==> l.jobId == args.jobId.value
    ensures l.ByName? ==> l.jobName == args.jobName
  {
    if Truthy(args.jobId) then ById(args.jobId.value) else ByName(args.jobName)
  }

  /** The key `job_id` wins when both are given with a non-empty id. */
  lemma IdWins(data: QueryArgs)
    requires "job_id" in data && data["job_id"] != "" && "job_name" in data
    ensures LookupFor(LoadRequest(data)) == ById(data["job_id"])
  {
  }

  /** A present but empty `job_id` falls back to the name. */
  lemma EmptyIdUsesName(data: QueryArgs)
    requires "job_id" in data && data["job_id"] == ""
    ensures LookupFor(LoadRequest(data)) == ByName(Field(data, "job_name"))
  {
  }

  /** A row of `JobHistoryLastEvent`: job id, event, time. */
  datatype Row = Row(jobId: string, event: string, time: string)

  /** What the database returns for a lookup: the rows, or an error. */
  type Database = Lookup -> Result<seq<Row>, string>

  /** The text the error names the lookup with. */
  function Description(l: Lookup): string {
    match l
    case ById(id) => "job_id=" + id
    case ByName(name) => "job_name=" + (if name.Some? then name.value else "None")
  }

  function FailureMessage(l: Lookup): string {
    "Failed to get job status (" + Description(l) + ")."
  }

  /** The response for a row. */
  function StatusOf(row: Row): (m: map<string, string>)
    ensures m.Keys == {"job_id", "event", "timestamp"}
    ensures m["job_id"] == row.jobId && m["event"] == row.event && m["timestamp"] == row.time
  {
    map["job_id" := row.jobId, "event" := row.event, "timestamp" := row.time]
  }

  /** `_get_job_status` as written: the row helper is called with a keyword
      argument, `fetch_result`, that it does not accept, so the call raises
      `TypeError` before any query runs, and that is wrapped as the failure. */
  function GetJobStatusAsWritten(db: Database, l: Lookup): (r: Result<map<string, string>, string>)
    ensures r == Err(FailureMessage(l))
  {
    Err(FailureMessage(l))
  }

  /** `_get_job_status` as intended: the query must return exactly one row,
      which becomes the response; a database error, no row or several rows
      end in the failure. */
  function GetJobStatus(db: Database, l: Lookup): (r: Result<map<string, string>, string>)
    ensures r.Ok? <==> db(l).Ok? && |db(l).value| == 1
    ensures r.Ok? ==> r.value == StatusOf(db(l).value[0])
    ensures r.Err? ==> r.error == FailureMessage(l)
  {
    match db(l)
    case Err(_) => Err(FailureMessage(l))
    case Ok(rows) => if |rows| == 1 then Ok(StatusOf(rows[0])) else Err(FailureMessage(l))
  }

  /** The whole request as intended: validation of the keys the client
      sent, then the lookup. */
  function Get(db: Database, data: QueryArgs): (r: Result<map<string, string>, string>)
    ensures "job_id" !in data && "job_name" !in data ==> r == Err(EitherIdOrNameMessage)
    ensures ("job_id" in data || "job_name" in data) ==> r == GetJobStatus(db, LookupFor(LoadRequest(data)))
  {
    if ValidateSchema(data.Keys).Err? then Err(EitherIdOrNameMessage)
    else GetJobStatus(db, LookupFor(LoadRequest(data)))
  }

  /** Where the database holds exactly one row for the job, the intended
      lookup answers with it and the lookup as written still fails. */
  lemma KeywordMismatch(db: Database, l: Lookup, row: Row)
    requires db(l) == Ok([row])
    ensures GetJobStatus(db, l) == Ok(StatusOf(row))
    ensures GetJobStatusAsWritten(db, l).Err?
  {
  }

  /** Two matching rows are an error even when they agree. */
  lemma TwoRowsFail(db: Database, l: Lookup, row: Row)
    requires db(l) == Ok([row, row])
    ensures GetJobStatus(db, l) == Err(FailureMessage(l))
  {
  }
}
