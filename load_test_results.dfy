/** The load-test results page. For each of the two delivery methods (Kafka
    and synchronous) a panel holds the last result and a loading flag; a
    started test is polled every two seconds until it completes, fails or the
    fetch fails, and a two-minute ceiling stops the polling in any case. The
    page can also load both results from a k6 result file. One firing of a
    timer is one call; what each backend call returned is its input. */
module LoadTestResults {
  import opened JsValues
  import opened ApiErrors

  /** The measurements of one load test. */
  datatype Metrics = Metrics(
    p50: real, p95: real, p99: real, avg: real, max: real, min: real,
    totalRequests: int, throughput: real, failureRate: real)

  /** How a test delivers participation requests: through Kafka or synchronously. */
  datatype Delivery = Kafka | Sync

  datatype TestStatus = Running | Completed | Failed

  /** A load-test result as the backend reports it. The campaign id is
      whatever `parseInt` made of the page's input, so it may be `NaN`. */
  datatype LoadTestResult = LoadTestResult(
    jobId: string,
    delivery: Delivery,
    campaignId: ParsedInt,
    status: TestStatus,
    metrics: Option<Metrics>,
    error: Option<string>,
    completedAt: Option<string>)

  /** The request that starts a test: the parsed inputs and a fixed
      five-second duration. */
  datatype LoadTestRequest = LoadTestRequest(campaignId: ParsedInt, virtualUsers: ParsedInt, duration: int)

  const TestDuration: int := 5

  /** The request both start buttons send, read from the page's two inputs. */
  function StartRequest(campaignIdText: string, virtualUsersText: string): (q: LoadTestRequest)
    ensures q.duration == TestDuration
    ensures q.campaignId == ParseInt(campaignIdText, Omitted)
    ensures q.virtualUsers == ParseInt(virtualUsersText, Omitted)
  {
    LoadTestRequest(ParseInt(campaignIdText, Omitted), ParseInt(virtualUsersText, Omitted), TestDuration)
  }

  /** One method's entry in a k6 result file: an object whose `metrics` may
      be missing. */
  datatype FileEntry = FileEntry(metrics: Option<Metrics>)

  /** The k6 result file: either method's entry may be missing. */
  datatype ResultFile = ResultFile(kafka: Option<FileEntry>, sync: Option<FileEntry>)

  /** The job id given to a result loaded from the file. */
  function ManualJobId(m: Delivery): (id: string)
    ensures id == (if m == Kafka then "manual-kafka" else "manual-sync")
  {
    match m
    case Kafka => "manual-kafka"
    case Sync => "manual-sync"
  }

  /** The result recorded for one entry of the file: a completed test of that
      method with the page's campaign id and the entry's metrics. */
  function ManualResult(m: Delivery, campaignIdText: string, entry: FileEntry): (r: LoadTestResult)
    ensures r.status == Completed && r.delivery == m && r.jobId == ManualJobId(m)
    ensures r.campaignId == ParseInt(campaignIdText, Omitted)
    ensures r.metrics == entry.metrics && r.error == None && r.completedAt == None
  {
    LoadTestResult(ManualJobId(m), m, ParseInt(campaignIdText, Omitted), Completed, entry.metrics, None, None)
  }

  /** One row of the comparison chart: a statistic and its value for each method. */
  datatype ComparisonRow = ComparisonRow(name: string, kafka: real, sync: real)

  /** The compared statistics, in chart order. */
  const StatisticNames: seq<string> := ["P50", "P95", "P99", "평균"]

  /** The statistic of row `i` of the chart. */
  function Statistic(m: Metrics, i: nat): real
    requires i < 4
  {
    if i == 0 then m.p50 else if i == 1 then m.p95 else if i == 2 then m.p99 else m.avg
  }

  /** Both results carry metrics. */
  predicate BothMeasured(kafka: Option<LoadTestResult>, sync: Option<LoadTestResult>)
  {
    kafka.Some? && kafka.value.metrics.Some? && sync.Some? && sync.value.metrics.Some?
  }

  /** The comparison chart's data: the four statistics side by side when both
      results carry metrics, and nothing otherwise. */
  function ComparisonData(kafka: Option<LoadTestResult>, sync: Option<LoadTestResult>): (rows: seq<ComparisonRow>)
    ensures |rows| == (if BothMeasured(kafka, sync) then 4 else 0)
    ensures BothMeasured(kafka, sync) ==>
      forall i :: 0 <= i < |rows| ==>
        rows[i] == ComparisonRow(StatisticNames[i], Statistic(kafka.value.metrics.value, i), Statistic(sync.value.metrics.value, i))
  {
    if BothMeasured(kafka, sync) then
      var k, s := kafka.value.metrics.value, sync.value.metrics.value;
      [ ComparisonRow("P50", k.p50, s.p50),
        ComparisonRow("P95", k.p95, s.p95),
        ComparisonRow("P99", k.p99, s.p99),
        ComparisonRow("평균", k.avg, s.avg) ]
    else []
  }

  /** The chart reads nothing of a result but its metrics: results that differ
      only in job id, status, error or campaign give the same chart. */
  lemma ComparisonDataReadsOnlyMetrics(k1: LoadTestResult, s1: LoadTestResult, k2: LoadTestResult, s2: LoadTestResult)
    requires k1.metrics == k2.metrics && s1.metrics == s2.metrics
    ensures ComparisonData(Some(k1), Some(s1)) == ComparisonData(Some(k2), Some(s2))
  {
    var r1, r2 := ComparisonData(Some(k1), Some(s1)), ComparisonData(Some(k2), Some(s2));
    assert |r1| == |r2|;
    forall i | 0 <= i < |r1| ensures r1[i] == r2[i] {
    }
  }

  /** Loading both methods' entries from a file puts the chart in place
      exactly when both entries carry metrics. */
  lemma ManualResultsCompare(campaignIdText: string, k: FileEntry, s: FileEntry)
    ensures var rows := ComparisonData(Some(ManualResult(Kafka, campaignIdText, k)), Some(ManualResult(Sync, campaignIdText, s)));
      (|rows| == 4 <==> k.metrics.Some? && s.metrics.Some?) && (rows == [] <==> k.metrics.None? || s.metrics.None?)
  {
  }

  /** An active polling interval: its timer handle and the job it polls. */
  datatype Poll = Poll(handle: nat, jobId: string)

  /** One method's panel: its last result, its loading flag (which disables
      its start button), and the interval polling for it, if any. */
  class ResultPanel {
    var result: Option<LoadTestResult>
    var loading: bool
    var polling: Option<Poll>
    var nextHandle: nat

    /** A panel only polls while it is loading, and its interval's handle is
        one it gave out. */
    ghost predicate Valid()
      reads this
    {
      && (polling.Some? ==> loading)
      && (polling.Some? ==> polling.value.handle < nextHandle)
    }

    constructor ()
      ensures Valid() && result == None && !loading && polling == None
    {
      result := None;
      loading := false;
      polling := None;
      nextHandle := 0;
    }

    /** `handleKafkaTest`/`handleSyncTest`, with `started` the outcome of the
        start call. The panel is loading first; if the call throws it stops
        loading and no polling begins, otherwise an interval starts polling the
        returned job and its handle is returned for the ceiling timer. */
    method Start(started: Fetched<string>) returns (handle: Option<nat>)
      requires Valid() && !loading
      modifies this`loading, this`polling, this`nextHandle
      ensures Valid() && result == old(result)
      ensures started.Threw? ==> !loading && polling == None && handle == None
      ensures started.Done? ==>
        && loading && handle == Some(old(nextHandle))
        && polling == Some(Poll(old(nextHandle), started.value))
    {
      loading := true;
      match started
      case Threw(_) =>
        loading := false;
        handle := None;
      case Done(jobId) =>
        polling := Some(Poll(nextHandle, jobId));
        handle := Some(nextHandle);
        nextHandle := nextHandle + 1;
    }

    /** One firing of the polling interval, with the outcome of fetching the
        job's result. A completed test stops polling, stores the result and
        ends loading; a failed test stops polling and ends loading but keeps
        the previous result; a running test changes nothing; a failed fetch
        stops polling and ends loading. */
    method PollOnce(fetched: Fetched<LoadTestResult>)
      requires Valid() && polling.Some?
      modifies this`result, this`loading, this`polling
      ensures Valid()
      ensures fetched.Done? && fetched.value.status == Completed ==>
        result == Some(fetched.value) && !loading && polling == None
      ensures fetched.Done? && fetched.value.status == Failed ==>
        result == old(result) && !loading && polling == None
      ensures fetched.Done? && fetched.value.status == Running ==>
        result == old(result) && loading == old(loading) && polling == old(polling)
      ensures fetched.Threw? ==> result == old(result) && !loading && polling == None
    {
      match fetched
      case Done(r) =>
        if r.status == Completed {
          polling := None;
          result := Some(r);
          loading := false;
        } else if r.status == Failed {
          polling := None;
          loading := false;
        }
      case Threw(_) =>
        polling := None;
        loading := false;
    }

    /** The two-minute timeout of the interval with handle `handle`: it clears
        that interval if it still runs, and touches neither the result nor the
        loading flag, so a test still running then leaves the panel loading. */
    method Ceiling(handle: nat)
      requires Valid()
      modifies this`polling
      ensures Valid() && result == old(result) && loading == old(loading)
      ensures polling == (if old(polling).Some? && old(polling).value.handle == handle then None else old(polling))
    {
      if polling.Some? && polling.value.handle == handle {
        polling := None;
      }
    }

    /** Records a result loaded from the result file. */
    method SetResult(r: LoadTestResult)
      requires Valid()
      modifies this`result
      ensures Valid() && result == Some(r)
    {
      result := Some(r);
    }
  }

  /** What the run section offers: in automatic mode one start button per
      method, each enabled unless its panel is loading; in manual mode one
      button that loads the result file. */
  datatype RunControls = StartButtons(kafkaEnabled: bool, syncEnabled: bool) | LoadFileButton

  /** The page: the mode switch, its two inputs and one panel per method. */
  class LoadTestPage {
    var autoMode: bool
    var campaignId: string
    var virtualUsers: string
    const kafka: ResultPanel
    const sync: ResultPanel

    ghost predicate Valid()
      reads this, kafka, sync
    {
      kafka != sync && kafka.Valid() && sync.Valid()
    }

    /** The page opens in manual mode with campaign 1, 100 virtual users and
        empty panels. */
    constructor ()
      ensures Valid() && fresh(kafka) && fresh(sync)
      ensures !autoMode && campaignId == "1" && virtualUsers == "100"
      ensures kafka.result == None && sync.result == None && !kafka.loading && !sync.loading
    {
      autoMode := false;
      campaignId := "1";
      virtualUsers := "100";
      kafka := new ResultPanel();
      sync := new ResultPanel();
    }

    /** The run section's buttons: a start button can be pressed only while
        its own test is not loading, so one method's test never blocks the
        other's; manual mode offers only the file load. */
    function Controls(): (c: RunControls)
      reads this, kafka, sync
      ensures c.StartButtons? <==> autoMode
      ensures c.StartButtons? ==> (c.kafkaEnabled <==> !kafka.loading) && (c.syncEnabled <==> !sync.loading)
    {
      if autoMode then StartButtons(!kafka.loading, !sync.loading) else LoadFileButton
    }

    /** `handleKafkaTest`: pressing the Kafka start button, which automatic
        mode offers and which is enabled only while that panel is idle. It
        sends the request built from the page's current inputs (returned as
        `sent`) and starts the Kafka panel with `started`, the outcome of the
        call; the other panel and the inputs are untouched. */
    method StartKafka(started: Fetched<string>) returns (sent: LoadTestRequest, handle: Option<nat>)
      requires Valid() && Controls() == StartButtons(true, !sync.loading)
      modifies kafka`loading, kafka`polling, kafka`nextHandle
      ensures Valid() && sent == StartRequest(campaignId, virtualUsers)
      ensures kafka.result == old(kafka.result)
      ensures started.Threw? ==> !kafka.loading && kafka.polling == None && handle == None
      ensures started.Done? ==>
        && kafka.loading && handle == Some(old(kafka.nextHandle))
        && kafka.polling == Some(Poll(old(kafka.nextHandle), started.value))
      ensures unchanged(sync)
    {
      sent := StartRequest(campaignId, virtualUsers);
      handle := kafka.Start(started);
    }

    /** `handleSyncTest`: the same for the synchronous method's button and
        panel. */
    method StartSync(started: Fetched<string>) returns (sent: LoadTestRequest, handle: Option<nat>)
      requires Valid() && Controls() == StartButtons(!kafka.loading, true)
      modifies sync`loading, sync`polling, sync`nextHandle
      ensures Valid() && sent == StartRequest(campaignId, virtualUsers)
      ensures sync.result == old(sync.result)
      ensures started.Threw? ==> !sync.loading && sync.polling == None && handle == None
      ensures started.Done? ==>
        && sync.loading && handle == Some(old(sync.nextHandle))
        && sync.polling == Some(Poll(old(sync.nextHandle), started.value))
      ensures unchanged(kafka)
    {
      sent := StartRequest(campaignId, virtualUsers);
      handle := sync.Start(started);
    }

    /** `loadManualResults`, with `file` the outcome of fetching and parsing
        the result file. A failure only shows a message. Otherwise each method
        whose entry is present gets a completed manual result; a method whose
        entry is missing keeps its result. Loading flags and polling are not
        touched. */
    method LoadManual(file: Fetched<ResultFile>)
      requires Valid()
      modifies kafka`result, sync`result
      ensures Valid()
      ensures file.Threw? ==> kafka.result == old(kafka.result) && sync.result == old(sync.result)
      ensures file.Done? ==>
        && kafka.result == (if file.value.kafka.Some? then Some(ManualResult(Kafka, campaignId, file.value.kafka.value)) else old(kafka.result))
        && sync.result == (if file.value.sync.Some? then Some(ManualResult(Sync, campaignId, file.value.sync.value)) else old(sync.result))
    {
      match file
      case Threw(_) =>
      case Done(data) =>
        if data.kafka.Some? {
          kafka.SetResult(ManualResult(Kafka, campaignId, data.kafka.value));
        }
        if data.sync.Some? {
          sync.SetResult(ManualResult(Sync, campaignId, data.sync.value));
        }
    }

    /** The comparison chart for the current results. */
    function Comparison(): (rows: seq<ComparisonRow>)
      reads this, kafka, sync
      ensures |rows| == 4 <==> BothMeasured(kafka.result, sync.result)
      ensures rows == [] <==> !BothMeasured(kafka.result, sync.result)
    {
      ComparisonData(kafka.result, sync.result)
    }
  }
}
