/** The batch administration page: the participation load simulator with its
    input checks, and the history of aggregation batch runs with a colour per
    run status, the number of updated rows and the run's duration. Each
    backend call's outcome is an input. */
module BatchManagement {
  import opened JsValues
  import opened ApiErrors

  const CampaignIdError: string := "유효한 캠페인 ID를 입력하세요."
  const CountError: string := "요청 횟수는 1 이상 100,000 이하로 입력하세요."
  const FallbackMessage: string := "알 수 없는 오류가 발생했습니다."

  /** The largest number of requests one simulation may publish. */
  const MaxSimulationCount: int := 100000

  /** The outcome of checking the simulator's two inputs: the numbers to
      send, or the message that rejects them. */
  datatype SimulationCheck = Accepted(campaignId: int, count: int) | Rejected(message: string)

  /** `handleSimulate`'s checks: both inputs are read with `parseInt(_, 10)`;
      the campaign id must be a positive number, and only then is the count
      looked at, which must lie between 1 and 100000. */
  function ValidateSimulation(campaignIdText: string, countText: string): (r: SimulationCheck)
    ensures var c, n := ParseInt(campaignIdText, Ten), ParseInt(countText, Ten);
      && (r.Accepted? <==> c.Int? && c.value > 0 && n.Int? && 1 <= n.value <= MaxSimulationCount)
      && (r.Accepted? ==> r.campaignId == c.value && r.count == n.value)
      && (!(c.Int? && c.value > 0) ==> r == Rejected(CampaignIdError))
      && (c.Int? && c.value > 0 && !(n.Int? && 1 <= n.value <= MaxSimulationCount) ==> r == Rejected(CountError))
  {
    var c, n := ParseInt(campaignIdText, Ten), ParseInt(countText, Ten);
    if c.NaN? || c.value <= 0 then Rejected(CampaignIdError)
    else if n.NaN? || n.value <= 0 || n.value > MaxSimulationCount then Rejected(CountError)
    else Accepted(c.value, n.value)
  }

  /** For inputs that are the decimal text of numbers (possibly followed by
      text that cannot continue a number, as `parseInt` ignores it), a valid
      campaign id is accepted with exactly the counts 1..100000, and the
      numbers sent are the numbers typed. */
  lemma AcceptedCounts(id: int, idRest: string, n: int, countRest: string)
    requires id > 0
    requires idRest == [] || !IsDigit(idRest[0], 10)
    requires countRest == [] || !IsDigit(countRest[0], 10)
    ensures var r := ValidateSimulation(IntToString(id) + idRest, IntToString(n) + countRest);
      && (r.Accepted? <==> 1 <= n <= MaxSimulationCount)
      && (r.Accepted? ==> r == Accepted(id, n))
      && (r.Rejected? ==> r.message == CountError)
  {
    ParseIntOfIntToString(id, idRest, Ten);
    ParseIntOfIntToString(n, countRest, Ten);
  }

  /** An input with no decimal digit at all is never accepted as a campaign
      id, whatever the count. */
  lemma DigitlessCampaignIdRejected(campaignIdText: string, countText: string)
    requires forall i :: 0 <= i < |campaignIdText| ==> !IsDigit(campaignIdText[i], 10)
    ensures ValidateSimulation(campaignIdText, countText) == Rejected(CampaignIdError)
  {
    NoDigitParsesToNaN(campaignIdText, Ten);
  }

  /** The error shown when the simulation call fails: the message of an
      `ApiError`, and the fixed fallback for anything else. */
  function SimulationErrorText(t: Thrown): (m: string)
    ensures IsApiError(t) ==> m == t.api.message
    ensures !IsApiError(t) ==> m == FallbackMessage
  {
    if t.ApiErr? then t.api.message else FallbackMessage
  }

  /** The colours a status chip can take. */
  datatype ChipColor = Success | Error | Warning | Default

  /** `getStatusColor`. */
  function StatusColor(status: string): (c: ChipColor)
    ensures c == Success <==> status == "COMPLETED"
    ensures c == Error <==> status == "FAILED"
    ensures c == Warning <==> status == "STARTING" || status == "STARTED"
    ensures c == Default <==> status !in {"COMPLETED", "FAILED", "STARTING", "STARTED"}
  {
    if status == "COMPLETED" then Success
    else if status == "FAILED" then Error
    else if status == "STARTING" || status == "STARTED" then Warning
    else Default
  }

  /** The run duration shown, in milliseconds, from the run's start and end
      instants (the parsing of their ISO texts is outside the model). */
  function Duration(startMs: int, endMs: int): (d: int)
    ensures startMs + d == endMs
    ensures d >= 0 <==> startMs <= endMs
  {
    endMs - startMs
  }

  /** The updated-rows cell: the count with the unit `개`, or `-` when the
      count is missing or empty. */
  function UpdatedRowsLabel(updatedRows: Option<string>): (text: string)
    ensures text == "-" <==> !Truthy(updatedRows)
    ensures Truthy(updatedRows) ==> |text| == |updatedRows.value| + 1 && text[..|updatedRows.value|] == updatedRows.value && text[|updatedRows.value|..] == "개"
  {
    if Truthy(updatedRows) then updatedRows.value + "개" else "-"
  }

  /** One entry of the batch history. */
  datatype HistoryItem = HistoryItem(
    jobInstanceId: int,
    jobName: string,
    jobExecutionId: int,
    status: string,
    exitStatus: string,
    startTime: string,
    endTime: string,
    targetDate: string,
    updatedRows: Option<string>)

  datatype BatchHistory = BatchHistory(jobName: string, totalCount: int, history: seq<HistoryItem>)

  /** The page's state for the simulator and the history table. */
  class BatchPage {
    var simCampaignId: string
    var simCount: string
    var isSimulating: bool
    var simError: Option<string>
    var history: Option<BatchHistory>
    var loading: bool

    constructor ()
      ensures simCampaignId == "" && simCount == "" && !isSimulating && simError == None
      ensures history == None && !loading
    {
      simCampaignId := "";
      simCount := "";
      isSimulating := false;
      simError := None;
      history := None;
      loading := false;
    }

    /** `handleSimulate` (its button is disabled while a simulation runs),
        with `outcome` what the simulation call gives. Rejected inputs show
        their message, make no call and leave the simulating flag alone;
        accepted inputs clear the error, make the call with the parsed
        numbers (returned as `request`), and end with the flag off whether the
        call succeeds or fails, showing the failure's message. */
    method Simulate(outcome: Fetched<string>) returns (request: Option<(int, int)>)
      requires !isSimulating
      modifies this`isSimulating, this`simError
      ensures var check := ValidateSimulation(simCampaignId, simCount);
        && (check.Rejected? ==> request == None && simError == Some(check.message) && isSimulating == old(isSimulating))
        && (check.Accepted? ==> request == Some((check.campaignId, check.count)) && !isSimulating)
        && (check.Accepted? && outcome.Done? ==> simError == None)
        && (check.Accepted? && outcome.Threw? ==> simError == Some(SimulationErrorText(outcome.error)))
    {
      var check := ValidateSimulation(simCampaignId, simCount);
      match check
      case Rejected(message) =>
        simError := Some(message);
        request := None;
      case Accepted(campaignId, count) =>
        isSimulating := true;
        simError := None;
        request := Some((campaignId, count));
        if outcome.Threw? {
          simError := Some(SimulationErrorText(outcome.error));
        }
        isSimulating := false;
    }

    /** `loadHistory`, with `fetched` what the history call gives: a success
        replaces the history, a failure keeps it, and loading ends either way. */
    method LoadHistory(fetched: Fetched<BatchHistory>)
      modifies this`history, this`loading
      ensures !loading
      ensures history == (if fetched.Done? then Some(fetched.value) else old(history))
    {
      loading := true;
      if fetched.Done? {
        history := Some(fetched.value);
      }
      loading := false;
    }
  }
}
