/** `api/routes/job_scheduler.py`: placing a validated job request in the
    region with the lowest carbon emission and publishing it to that
    region's queue. The carbon API client is an oracle from requests to
    answers; in the repository it always raises. */
module JobScheduler {
  import opened Common
  import JobQueue

  /** The parts of a job request the scheduler reads. */
  datatype JobRequest = JobRequest(name: string, originalLocation: Option<string>,
                                   inputs: seq<(string, string)>, outputs: seq<(string, string)>)

  /** The arguments of `get_carbon_emissions_by_location`. */
  datatype CarbonQuery = CarbonQuery(originalLocation: Option<string>, candidates: seq<string>,
                                     inputSize: int, outputSize: int)

  /** The client's answer: locations in the map's iteration order, each with
      its `total_emission` entry if it has one, or an exception. */
  datatype CarbonAnswer = Emissions(scores: seq<(string, Option<int>)>) | ClientRaises

  /** `CarbonApiClient.get_carbon_emissions_by_location`, which raises
      `NotImplementedError` whatever it is asked. */
  function StubClient(q: CarbonQuery): CarbonAnswer {
    ClientRaises
  }

  /** `_get_data_size`: no size is tracked yet, so it is always zero. */
  function DataSize(name: string, mountpoints: seq<(string, string)>): int {
    0
  }

  /** The query `_get_best_location` sends: both sizes are computed from the
      inputs. */
  function QueryFor(job: JobRequest, regions: seq<string>): CarbonQuery {
    CarbonQuery(job.originalLocation, regions, DataSize(job.name, job.inputs), DataSize(job.name, job.inputs))
  }

  /** Both sizes in the query are zero, whatever the request's inputs and
      outputs are. */
  lemma QuerySizes(job: JobRequest, regions: seq<string>)
    ensures QueryFor(job, regions).inputSize == QueryFor(job, regions).outputSize == 0
    ensures QueryFor(job, regions) == QueryFor(job.(outputs := []), regions)
    ensures QueryFor(job, regions).candidates == regions
  {
  }

  /** Every location has a `total_emission`, so the key function of `min`
      does not raise. */
  predicate AllScored(scores: seq<(string, Option<int>)>) {
    forall i :: 0 <= i < |scores| ==> scores[i].1.Some?
  }

  /** The index `min` picks: the first entry with the least emission. */
  function MinIndex(scores: seq<(string, Option<int>)>): (k: nat)
    requires |scores| > 0 && AllScored(scores)
    ensures k < |scores|
    ensures forall j :: 0 <= j < |scores| ==> scores[k].1.value <= scores[j].1.value
    ensures forall j :: 0 <= j < k ==> scores[j].1.value > scores[k].1.value
  {
    if |scores| == 1 then 0
    else
      var k := MinIndex(scores[..|scores| - 1]);
      assert forall j :: 0 <= j < |scores| - 1 ==> scores[..|scores| - 1][j] == scores[j];
      if scores[|scores| - 1].1.value < scores[k].1.value then |scores| - 1 else k
  }

  /** `min(emissions, key=...)`: the location with the least emission, ties
      to the earliest; `None` when `min` raises (an empty map or a missing
      `total_emission`). */
  function Best(scores: seq<(string, Option<int>)>): (r: Option<string>)
    ensures r.Some? <==> |scores| > 0 && AllScored(scores)
    ensures r.Some? ==>
      (exists k :: 0 <= k < |scores| && scores[k].0 == r.value
         && (forall j :: 0 <= j < |scores| ==> scores[k].1.value <= scores[j].1.value)
         && (forall j :: 0 <= j < k ==> scores[j].1.value > scores[k].1.value))
  {
    if |scores| > 0 && AllScored(scores) then
      var k := MinIndex(scores);
      Some(scores[k].0)
    else None
  }

  /** `_get_best_location`: the best scored location, or the first region
      when the client raises or `min` does. It never raises itself. */
  function GetBestLocation(client: CarbonQuery -> CarbonAnswer, job: JobRequest, regions: seq<string>): (r: string)
    requires |regions| > 0
    ensures client(QueryFor(job, regions)).ClientRaises? ==> r == regions[0]
    ensures client(QueryFor(job, regions)).Emissions? ==>
      var scores := client(QueryFor(job, regions)).scores;
      r == (if Best(scores).Some? then Best(scores).value else regions[0])
  {
    match client(QueryFor(job, regions))
    case ClientRaises => regions[0]
    case Emissions(scores) =>
      match Best(scores)
      case Some(location) => location
      case None => regions[0]
  }

  /** With the repository's client every job goes to the first region. */
  lemma StubPlacesInFirstRegion(job: JobRequest, regions: seq<string>)
    requires |regions| > 0
    ensures GetBestLocation(StubClient, job, regions) == regions[0]
  {
  }

  /** A location with a strictly lower emission than every other one is chosen. */
  lemma StrictMinimumChosen(scores: seq<(string, Option<int>)>, k: nat)
    requires k < |scores| && AllScored(scores)
    requires forall j :: 0 <= j < |scores| && j != k ==> scores[k].1.value < scores[j].1.value
    ensures Best(scores) == Some(scores[k].0)
  {
  }

  const QueueFailureMessage := "Failed to send job to queue"

  /** `_send_job_to_queue`: a failing publish becomes a `ValueError`. */
  method SendJobToQueue(queue: JobQueue.Queue, region: string, message: string) returns (r: Result<(), string>)
    modifies queue
    ensures queue.calls == old(queue.calls) + [JobQueue.Publish(queue.brokerUrl, JobQueue.QueueName(queue.prefix, region), message)]
    ensures r.Ok? <==> !queue.fails(JobQueue.Publish(queue.brokerUrl, JobQueue.QueueName(queue.prefix, region), message))
    ensures r.Err? ==> r.error == QueueFailureMessage
  {
    var ok := queue.SendMessageToRegion(region, message);
    if ok {
      r := Ok(());
    } else {
      r := Err(QueueFailureMessage);
    }
  }

  /** `JobSchduler.post`: choose the location, publish the request's YAML
      text, unchanged, to its queue, and answer `({}, 201)` once the publish
      has returned. */
  method Post(queue: JobQueue.Queue, client: CarbonQuery -> CarbonAnswer, regions: seq<string>,
              job: JobRequest, dump: string) returns (r: Result<(map<string, string>, int), string>)
    requires |regions| > 0
    modifies queue
    ensures var best := GetBestLocation(client, job, regions);
      queue.calls == old(queue.calls) + [JobQueue.Publish(queue.brokerUrl, JobQueue.QueueName(queue.prefix, best), dump)]
      && (r.Ok? <==> !queue.fails(JobQueue.Publish(queue.brokerUrl, JobQueue.QueueName(queue.prefix, best), dump)))
    ensures r.Ok? ==> r.value == (map[], 201)
    ensures r.Err? ==> r.error == QueueFailureMessage
  {
    var best := GetBestLocation(client, job, regions);
    var sent := SendJobToQueue(queue, best, dump);
    if sent.Err? {
      return Err(sent.error);
    }
    r := Ok((map[], 201));
  }
}
