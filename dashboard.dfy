/** `dashboard/routes/dashboard.py`: the per-event contributions to the
    running counts of jobs and of requested cores that the dashboard plots.
    Each history row carries its event and the job's stored config. */
module Dashboard {
  import opened Common
  import opened Yaml

  /** A row of the job history joined with the job's config. */
  datatype HistoryRow = HistoryRow(event: string, jobConfig: Value)

  /** `add_number_jobs`: a created job adds one, a completed or failed job
      removes one, any other event leaves the count. */
  function AddNumberJobs(row: HistoryRow): (r: int)
    ensures r == 1 <==> row.event == "Created"
    ensures r == -1 <==> row.event == "Completed" || row.event == "Failed"
    ensures r == 0 <==> row.event != "Created" && row.event != "Completed" && row.event != "Failed"
  {
    if row.event == "Created" then 1
    else if row.event == "Completed" || row.event == "Failed" then -1
    else 0
  }

  /** `['spec']['template']['spec']['containers'][0]['resources']['requests']['cpu']`. */
  const CpuRequestPath: Path :=
    [Key("spec"), Key("template"), Key("spec"), Key("containers"), At(0), Key("resources"), Key("requests"), Key("cpu")]

  /** One more subscript, when the value so far exists. */
  function Sub(v: Option<Value>, s: Step): Option<Value> {
    match v
    case None => None
    case Some(x) => Child(x, s)
  }

  /** `job_config['spec']['template']['spec']['containers'][0]['resources']['requests']['cpu']`,
      one subscript after another. */
  function CpuRequest(config: Value): Option<Value> {
    Sub(Sub(Sub(Sub(Sub(Sub(Sub(Sub(Some(config), Key("spec")), Key("template")), Key("spec")), Key("containers")),
      At(0)), Key("resources")), Key("requests")), Key("cpu"))
  }

  /** Reading the subscripts one after another is reading the whole path. */
  lemma CpuRequestIsGet(config: Value)
    ensures CpuRequest(config) == Get(config, CpuRequestPath)
  {
    var p := CpuRequestPath;
    assert p[1..][1..][1..][1..][1..][1..][1..][1..] == [];
  }

  /** Decimal digits, at least one. */
  predicate AllDigits(s: string) {
    |s| > 0 && forall i :: 0 <= i < |s| ==> IsDigit(s[i])
  }

  /** The value of a string of decimal digits. */
  function DigitsValue(s: string): (n: nat)
    requires AllDigits(s)
  {
    if |s| == 1 then (s[0] as int) - ('0' as int)
    else 10 * DigitsValue(s[..|s| - 1]) + ((s[|s| - 1] as int) - ('0' as int))
  }

  /** `int(x)` for a loaded value: a sign and decimal digits for text, the
      number itself for an integer, 0 or 1 for a boolean; anything else
      raises. */
  function ParseInt(v: Value): (r: Option<int>)
    ensures v.Int? ==> r == Some(v.i)
    ensures v.Str? && AllDigits(v.s) ==> r == Some(DigitsValue(v.s))
    ensures v.Null? || v.List? || v.Dict? ==> r.None?
  {
    match v
    case Int(i) => Some(i)
    case Bool(b) => Some(if b then 1 else 0)
    case Str(s) =>
      if AllDigits(s) then Some(DigitsValue(s))
      else if |s| > 1 && (s[0] == '-' || s[0] == '+') && AllDigits(s[1..]) then
        var d: int := DigitsValue(s[1..]);
        Some(if s[0] == '-' then -d else d)
      else None
    case _ => None
  }

  /** A millicore or fractional CPU request is not an integer. */
  lemma FractionalCpuRaises()
    ensures ParseInt(Str("500m")).None? && ParseInt(Str("0.5")).None?
  {
    assert !IsDigit("500m"[3]);
    assert !IsDigit("0.5"[1]);
    assert "500m"[0] != '-' && "500m"[0] != '+';
    assert "0.5"[0] != '-' && "0.5"[0] != '+';
  }

  /** The CPU request of a row's job, which every row must have. */
  function CoresOf(row: HistoryRow): Option<int> {
    match CpuRequest(row.jobConfig)
    case None => None
    case Some(cpu) => ParseInt(cpu)
  }

  const CpuParseError := "the job's CPU request is not an integer"

  /** `add_number_cores`: the CPU request is parsed first, for every event;
      a created job adds its cores, a completed one removes them, any other
      event, failure included, leaves the count. */
  function AddNumberCores(row: HistoryRow): (r: Result<int, string>)
    ensures r.Err? <==> CoresOf(row).None?
    ensures r.Ok? && row.event == "Created" ==> r.value == CoresOf(row).value
    ensures r.Ok? && row.event == "Completed" ==> r.value == -CoresOf(row).value
    ensures r.Ok? && row.event != "Created" && row.event != "Completed" ==> r.value == 0
  {
    match CoresOf(row)
    case None => Err(CpuParseError)
    case Some(n) =>
      Ok(if row.event == "Created" then n else if row.event == "Completed" then 0 - n else 0)
  }

  /** The running job count's total change over some rows. */
  function JobTotal(rows: seq<HistoryRow>): int {
    if |rows| == 0 then 0 else JobTotal(rows[..|rows| - 1]) + AddNumberJobs(rows[|rows| - 1])
  }

  /** The cores column over some rows; the whole column fails as soon as one
      row does. */
  function CoreTotal(rows: seq<HistoryRow>): Result<int, string> {
    if |rows| == 0 then Ok(0)
    else Plus(CoreTotal(rows[..|rows| - 1]), AddNumberCores(rows[|rows| - 1]))
  }

  /** Adding up two results: the first error wins. */
  function Plus(a: Result<int, string>, b: Result<int, string>): (r: Result<int, string>)
    ensures r.Ok? <==> a.Ok? && b.Ok?
    ensures r.Ok? ==> r.value == a.value + b.value
  {
    if a.Err? then a else if b.Err? then b else Ok(a.value + b.value)
  }

  /** How many rows have the event. */
  function CountEvent(rows: seq<HistoryRow>, event: string): nat {
    if |rows| == 0 then 0
    else CountEvent(rows[..|rows| - 1], event) + (if rows[|rows| - 1].event == event then 1 else 0)
  }

  /** The job count changes by the number of creations minus the number of
      completions and failures. */
  lemma {:induction false} JobTotalCounts(rows: seq<HistoryRow>)
    ensures JobTotal(rows) == CountEvent(rows, "Created") - CountEvent(rows, "Completed") - CountEvent(rows, "Failed")
  {
    if |rows| > 0 {
      JobTotalCounts(rows[..|rows| - 1]);
    }
  }

  /** The change a row of a job requesting `n` cores makes. */
  function Delta(event: string, n: int): int {
    if event == "Created" then n else if event == "Completed" then -n else 0
  }

  /** The changes of some rows whose jobs all request `n` cores, added up. */
  function DeltaSum(rows: seq<HistoryRow>, n: int): int {
    if |rows| == 0 then 0 else DeltaSum(rows[..|rows| - 1], n) + Delta(rows[|rows| - 1].event, n)
  }

  /** For rows of jobs that all request `n` cores, the core count changes by
      `n` per creation and `-n` per completion; failures do not count. */
  lemma CoreTotalCounts(rows: seq<HistoryRow>, n: int)
    requires forall i :: 0 <= i < |rows| ==> CoresOf(rows[i]) == Some(n)
    ensures CoreTotal(rows) == Ok(n * (CountEvent(rows, "Created") - CountEvent(rows, "Completed")))
  {
    CoreTotalSums(rows, n);
    DeltaSumCounts(rows, n);
  }

  /** The column adds up the rows' changes. */
  lemma {:induction false} CoreTotalSums(rows: seq<HistoryRow>, n: int)
    requires forall i :: 0 <= i < |rows| ==> CoresOf(rows[i]) == Some(n)
    ensures CoreTotal(rows) == Ok(DeltaSum(rows, n))
  {
    if |rows| > 0 {
      var front := rows[..|rows| - 1];
      var last := rows[|rows| - 1];
      FrontSameCores(rows, front, n);
      CoreTotalSums(front, n);
      var d := RowDelta(last, n);
      CoreTotalStep(rows);
      var sum := DeltaSum(front, n) + d;
      assert CoreTotal(rows) == Ok(sum);
      assert DeltaSum(rows, n) == sum;
    }
  }

  /** Rows that all request `n` cores still do once the last is dropped. */
  lemma FrontSameCores(rows: seq<HistoryRow>, front: seq<HistoryRow>, n: int)
    requires |rows| > 0 && front == rows[..|rows| - 1]
    requires forall i :: 0 <= i < |rows| ==> CoresOf(rows[i]) == Some(n)
    ensures forall i :: 0 <= i < |front| ==> CoresOf(front[i]) == Some(n)
    ensures CoresOf(rows[|rows| - 1]) == Some(n)
  {
    forall i | 0 <= i < |front| ensures CoresOf(front[i]) == Some(n) {
      assert front[i] == rows[i];
    }
  }

  /** The changes add up to `n` per creation minus `n` per completion. */
  lemma {:induction false} DeltaSumCounts(rows: seq<HistoryRow>, n: int)
    ensures DeltaSum(rows, n) == n * (CountEvent(rows, "Created") - CountEvent(rows, "Completed"))
  {
    if |rows| > 0 {
      var front := rows[..|rows| - 1];
      DeltaSumCounts(front, n);
      var created: int := CountEvent(front, "Created");
      var completed: int := CountEvent(front, "Completed");
      var e := rows[|rows| - 1].event;
      if e == "Created" {
        MulStep(n, created - completed, 1);
      } else if e == "Completed" {
        MulStep(n, created - completed, -1);
      }
    }
  }

  /** One step of the column: the total so far plus the last row's change. */
  lemma CoreTotalStep(rows: seq<HistoryRow>)
    requires |rows| > 0
    ensures CoreTotal(rows) == Plus(CoreTotal(rows[..|rows| - 1]), AddNumberCores(rows[|rows| - 1]))
  {
  }

  /** The cores a row contributes when its job requests `n`. */
  lemma RowDelta(row: HistoryRow, n: int) returns (d: int)
    requires CoresOf(row) == Some(n)
    ensures AddNumberCores(row) == Ok(d)
    ensures d == Delta(row.event, n)
  {
    d := AddNumberCores(row).value;
  }

  lemma MulStep(n: int, x: int, e: int)
    requires e == 1 || e == -1
    ensures n * (x + e) == n * x + (if e == 1 then n else -n)
  {
  }

  /** A job that is created and completes leaves both counts as they were;
      one that is created and fails leaves its cores counted. */
  lemma CreatedThenFinished(config: Value, n: int)
    requires CoresOf(HistoryRow("Created", config)) == Some(n)
    ensures var completed := [HistoryRow("Created", config), HistoryRow("Completed", config)];
      JobTotal(completed) == 0 && CoreTotal(completed) == Ok(0)
    ensures var failed := [HistoryRow("Created", config), HistoryRow("Failed", config)];
      JobTotal(failed) == 0 && CoreTotal(failed) == Ok(n)
  {
    var created := [HistoryRow("Created", config)];
    var completed := [HistoryRow("Created", config), HistoryRow("Completed", config)];
    var failed := [HistoryRow("Created", config), HistoryRow("Failed", config)];
    assert created[..0] == [];
    assert JobTotal(created) == 1 && CoreTotal(created) == Ok(n);
    assert completed[..1] == created && failed[..1] == created;
    assert CoresOf(HistoryRow("Completed", config)) == Some(n);
    assert CoresOf(HistoryRow("Failed", config)) == Some(n);
  }
}
