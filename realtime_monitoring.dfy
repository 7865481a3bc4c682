/** The live monitor of one campaign's consumption rate. While monitoring, a
    one-second interval fetches the campaign's status; every fetch after the
    first turns the stock consumed since the previous fetch into transactions
    per second (TPS) and appends it to a history that keeps the last minute.
    One interval firing is one call of `Tick`; the fetched status, the clock
    reading and the clock text are its inputs. */
module RealtimeMonitoring {
  import opened JsValues
  import opened ApiErrors

  /** The number of history entries kept: one minute of one-second ticks. */
  const HistoryLimit: nat := 60

  /** The status the monitor fetches. */
  datatype CampaignStatus = CampaignStatus(
    campaignId: int,
    campaignName: string,
    totalStock: int,
    currentStock: int,
    successCount: int,
    failCount: int,
    totalParticipation: int,
    stockUsageRate: string)

  /** One entry of the TPS history. */
  datatype TpsPoint = TpsPoint(time: string, tps: real, successCount: int, failCount: int)

  /** `list.slice(-60)`: the last `HistoryLimit` entries, or all of them when
      there are no more. */
  function Window<T>(s: seq<T>): seq<T>
  {
    if |s| <= HistoryLimit then s else s[|s| - HistoryLimit..]
  }

  /** The window is never longer than the limit, holds the most recent entries
      in arrival order, and holds every entry while there are few enough. */
  lemma WindowShape<T>(s: seq<T>)
    ensures |Window(s)| == if |s| <= HistoryLimit then |s| else HistoryLimit
    ensures Window(s) == s[|s| - |Window(s)|..]
    ensures |s| <= HistoryLimit ==> Window(s) == s
  {
  }

  /** Keeping the window of the window with one entry appended is the same as
      keeping the window of everything seen: the oldest entry is dropped first,
      and the newest entry is always the last one kept. */
  lemma WindowAppend<T>(s: seq<T>, x: T)
    ensures Window(Window(s) + [x]) == Window(s + [x])
    ensures Window(s + [x])[|Window(s + [x])| - 1] == x
  {
    var w := Window(s);
    if |s| >= HistoryLimit {
      assert |w| == HistoryLimit;
      assert (w + [x])[1..] == (s + [x])[|s| + 1 - HistoryLimit..];
    }
  }

  /** Appending a sample with a non-negative rate to the samples and to their
      window keeps the history the window of the samples, with no negative
      rate in it. */
  lemma AppendKeepsHistory(samples: seq<TpsPoint>, history: seq<TpsPoint>, point: TpsPoint)
    requires history == Window(samples) && point.tps >= 0.0
    requires forall i :: 0 <= i < |samples| ==> samples[i].tps >= 0.0
    ensures Window(history + [point]) == Window(samples + [point])
    ensures forall i :: 0 <= i < |samples + [point]| ==> (samples + [point])[i].tps >= 0.0
  {
    WindowAppend(samples, point);
    forall i | 0 <= i < |samples + [point]|
      ensures (samples + [point])[i].tps >= 0.0
    {
      if i < |samples| {
        assert (samples + [point])[i] == samples[i];
      }
    }
  }

  /** `(prevStock - currentStock) / ((now - prevTime) / 1000)`: the stock
      consumed per second since the previous sample, with times in
      milliseconds. */
  function Tps(prevStock: int, currentStock: int, elapsedMs: int): (r: real)
    requires elapsedMs > 0
    ensures r * (elapsedMs as real) == (prevStock - currentStock) as real * 1000.0
  {
    (prevStock - currentStock) as real / (elapsedMs as real / 1000.0)
  }

  /** `Math.max(0, tps)`. */
  function ClampedTps(prevStock: int, currentStock: int, elapsedMs: int): (r: real)
    requires elapsedMs > 0
    ensures r >= 0.0
    ensures r > 0.0 <==> currentStock < prevStock
    ensures r > 0.0 ==> r * (elapsedMs as real) == (prevStock - currentStock) as real * 1000.0
  {
    var t := Tps(prevStock, currentStock, elapsedMs);
    if t > 0.0 then t else 0.0
  }

  /** The success rate shown for a status, in percent: zero when nobody has
      taken part yet. */
  function SuccessRate(s: CampaignStatus): (r: real)
    ensures s.totalParticipation > 0 ==> r * (s.totalParticipation as real) == (s.successCount as real) * 100.0
    ensures s.totalParticipation <= 0 ==> r == 0.0
    ensures 0 <= s.successCount <= s.totalParticipation ==> 0.0 <= r <= 100.0
  {
    if s.totalParticipation > 0 then (s.successCount as real / s.totalParticipation as real) * 100.0 else 0.0
  }

  /** The path the status of campaign `campaignId` is fetched from; the id
      is the text of the campaign id input, pasted in as it is. */
  function StatusPath(campaignId: string): (path: string)
    ensures |path| == |StatusPrefix| + |campaignId| + |StatusSuffix|
    ensures path[..|StatusPrefix|] == StatusPrefix
    ensures path[|StatusPrefix|..|StatusPrefix| + |campaignId|] == campaignId
    ensures path[|StatusPrefix| + |campaignId|..] == StatusSuffix
  {
    StatusPrefix + campaignId + StatusSuffix
  }

  const StatusPrefix: string := "/api/campaigns/"
  const StatusSuffix: string := "/status"

  /** The monitor's state. `samples` is every entry appended since the last
      start; the history shown is its window. */
  class Monitor {
    var campaignId: string
    var isMonitoring: bool
    var status: Option<CampaignStatus>
    var tpsHistory: seq<TpsPoint>
    var currentTps: real
    var prevStock: Option<int>
    var prevTime: Option<int>
    ghost var samples: seq<TpsPoint>

    ghost predicate Valid()
      reads this
    {
      && tpsHistory == Window(samples)
      && currentTps >= 0.0
      && (forall i :: 0 <= i < |samples| ==> samples[i].tps >= 0.0)
    }

    /** The page's initial state: not monitoring, nothing fetched. */
    constructor ()
      ensures Valid()
      ensures campaignId == "1"
      ensures !isMonitoring && status == None && tpsHistory == [] && currentTps == 0.0
      ensures prevStock == None && prevTime == None && samples == []
    {
      campaignId := "1";
      isMonitoring := false;
      status := None;
      tpsHistory := [];
      currentTps := 0.0;
      prevStock := None;
      prevTime := None;
      samples := [];
    }

    /** `handleStart`: monitoring on, an empty history and no previous sample.
        The last status and TPS stay on screen until the next fetch. */
    method Start()
      requires Valid()
      modifies this`isMonitoring, this`tpsHistory, this`samples, this`prevStock, this`prevTime
      ensures Valid()
      ensures isMonitoring && tpsHistory == [] && samples == []
      ensures prevStock == None && prevTime == None
      ensures status == old(status) && currentTps == old(currentTps)
    {
      isMonitoring := true;
      tpsHistory := [];
      prevStock := None;
      prevTime := None;
      samples := [];
    }

    /** `handleStop`: monitoring off, everything else kept. */
    method Stop()
      requires Valid()
      modifies this`isMonitoring
      ensures Valid() && !isMonitoring
    {
      isMonitoring := false;
    }

    /** One firing of the polling interval at clock time `now` (milliseconds),
        whose formatted time of day is `timeText`, with the outcome of the
        status fetch, whose path is returned as `request`. No interval runs
        while not monitoring, and a failed fetch is only logged. A successful fetch shows the new status; when there was
        a previous sample it also sets the current TPS and appends an entry to
        the history; either way the new sample becomes the previous one. */
    method Tick(fetched: Fetched<CampaignStatus>, now: int, timeText: string) returns (request: Option<string>)
      requires Valid()
      requires isMonitoring && fetched.Done? && prevTime.Some? ==> now > prevTime.value
      modifies this`status, this`tpsHistory, this`currentTps, this`prevStock, this`prevTime, this`samples
      ensures Valid()
      ensures request == if isMonitoring then Some(StatusPath(campaignId)) else None
      ensures !old(isMonitoring) || fetched.Threw? ==>
        && status == old(status) && tpsHistory == old(tpsHistory) && currentTps == old(currentTps)
        && prevStock == old(prevStock) && prevTime == old(prevTime) && samples == old(samples)
      ensures old(isMonitoring) && fetched.Done? ==>
        && status == Some(fetched.value)
        && prevStock == Some(fetched.value.currentStock)
        && prevTime == Some(now)
      ensures old(isMonitoring) && fetched.Done? && old(prevStock).Some? && old(prevTime).Some? ==>
        var tps := ClampedTps(old(prevStock).value, fetched.value.currentStock, now - old(prevTime).value);
        && currentTps == tps
        && samples == old(samples) + [TpsPoint(timeText, tps, fetched.value.successCount, fetched.value.failCount)]
        && tpsHistory == Window(old(tpsHistory) + [TpsPoint(timeText, tps, fetched.value.successCount, fetched.value.failCount)])
      ensures old(isMonitoring) && fetched.Done? && !(old(prevStock).Some? && old(prevTime).Some?) ==>
        currentTps == old(currentTps) && tpsHistory == old(tpsHistory) && samples == old(samples)
    {
      if !isMonitoring {
        return None;
      }
      request := Some(StatusPath(campaignId));
      match fetched
      case Threw(_) =>
      case Done(newStatus) =>
        status := Some(newStatus);
        if prevStock.Some? && prevTime.Some? {
          var tps := ClampedTps(prevStock.value, newStatus.currentStock, now - prevTime.value);
          currentTps := tps;
          var point := TpsPoint(timeText, tps, newStatus.successCount, newStatus.failCount);
          AppendKeepsHistory(samples, tpsHistory, point);
          tpsHistory := Window(tpsHistory + [point]);
          samples := samples + [point];
        }
        prevStock := Some(newStatus.currentStock);
        prevTime := Some(now);
    }
  }
}
