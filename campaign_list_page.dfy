/** The user-facing campaign page: counters of the campaigns that can and
    cannot be joined, a grid of campaign cards (skeleton cards while the first
    load runs), and a confirmation dialog that sends one participation request
    for a random user. The list is reloaded every five seconds; each load and
    each participation call is one step whose outcome is an input. */
module CampaignListPage {
  import opened JsValues
  import opened ApiErrors
  import opened CampaignRules

  const LoadError: string := "캠페인 목록을 불러오는데 실패했습니다."

  /** The number of skeleton cards shown while the first load runs. */
  const SkeletonCards: nat := 6

  /** A campaign the closed counter counts: closed, or out of stock. */
  predicate IsSoldOut(c: Campaign)
  {
    c.status == Closed || c.currentStock == 0
  }

  /** `campaigns.filter(c => c.status === 'OPEN' && c.currentStock > 0)`:
      every campaign that can be joined, as often as the list holds it, and
      nothing else. */
  function OpenCampaigns(cs: seq<Campaign>): (r: seq<Campaign>)
    ensures |r| <= |cs|
    ensures forall c :: multiset(r)[c] == if IsOpen(c) then multiset(cs)[c] else 0
  {
    if cs == [] then []
    else
      assert cs == [cs[0]] + cs[1..];
      (if IsOpen(cs[0]) then [cs[0]] else []) + OpenCampaigns(cs[1..])
  }

  /** `campaigns.filter(c => c.status === 'CLOSED' || c.currentStock === 0)`:
      every closed or empty campaign, as often as the list holds it, and
      nothing else. */
  function SoldOutCampaigns(cs: seq<Campaign>): (r: seq<Campaign>)
    ensures |r| <= |cs|
    ensures forall c :: multiset(r)[c] == if IsSoldOut(c) then multiset(cs)[c] else 0
  {
    if cs == [] then []
    else
      assert cs == [cs[0]] + cs[1..];
      (if IsSoldOut(cs[0]) then [cs[0]] else []) + SoldOutCampaigns(cs[1..])
  }

  /** The two counters at the top of the page. */
  function OpenCount(cs: seq<Campaign>): nat
  {
    |OpenCampaigns(cs)|
  }

  function ClosedCount(cs: seq<Campaign>): nat
  {
    |SoldOutCampaigns(cs)|
  }

  /** With no negative stock, every campaign is counted by exactly one of the
      two counters, so they add up to the length of the list. */
  lemma {:induction false} CountersPartition(cs: seq<Campaign>)
    requires forall i :: 0 <= i < |cs| ==> cs[i].currentStock >= 0
    ensures OpenCount(cs) + ClosedCount(cs) == |cs|
  {
    if cs != [] {
      assert IsOpen(cs[0]) <==> !IsSoldOut(cs[0]);
      CountersPartition(cs[1..]);
    }
  }

  /** An open campaign with negative stock is counted by neither counter, so
      the partition needs the stock to be non-negative. */
  lemma NegativeStockEscapesCounters()
    ensures var c := Campaign(1, "c", 10, -1, Open, "", "");
      OpenCount([c]) + ClosedCount([c]) == 0
  {
    var c := Campaign(1, "c", 10, -1, Open, "", "");
    assert OpenCampaigns([c]) == [] + OpenCampaigns([]);
    assert SoldOutCampaigns([c]) == [] + SoldOutCampaigns([]);
  }

  /** The page's state. */
  class CampaignPage {
    var campaigns: seq<Campaign>
    var loading: bool
    var error: Option<string>
    var selectedCampaign: Option<Campaign>
    var participating: bool

    /** The page opens loading, with an empty list and no dialog. */
    constructor ()
      ensures campaigns == [] && loading && error == None
      ensures selectedCampaign == None && !participating
    {
      campaigns := [];
      loading := true;
      error := None;
      selectedCampaign := None;
      participating := false;
    }

    /** Skeleton cards show only while loading a still-empty list; otherwise
        the list renders, possibly a stale one. */
    function SkeletonCount(): (n: nat)
      reads this
      ensures n == (if loading && campaigns == [] then SkeletonCards else 0)
      ensures n > 0 <==> loading && |campaigns| == 0
    {
      if loading && |campaigns| == 0 then SkeletonCards else 0
    }

    /** `loadCampaigns`, with `fetched` what the list call gives: a success
        replaces the list and clears the error, a failure keeps the list and
        shows the fixed message; loading ends either way. */
    method Load(fetched: Fetched<seq<Campaign>>)
      modifies this`campaigns, this`error, this`loading
      ensures !loading
      ensures fetched.Done? ==> campaigns == fetched.value && error == None
      ensures fetched.Threw? ==> campaigns == old(campaigns) && error == Some(LoadError)
    {
      loading := true;
      if fetched.Done? {
        campaigns := fetched.value;
        error := None;
      } else {
        error := Some(LoadError);
      }
      loading := false;
    }

    /** `handleParticipateClick` on a card; the button of a campaign that
        cannot be joined is disabled, so it is never pressed. */
    method ParticipateClick(c: Campaign)
      requires ParticipateButton(c).enabled
      modifies this`selectedCampaign
      ensures selectedCampaign == Some(c) && IsOpen(c)
    {
      selectedCampaign := Some(c);
    }

    /** `handleCloseDialog`. */
    method CloseDialog()
      modifies this`selectedCampaign
      ensures selectedCampaign == None
    {
      selectedCampaign := None;
    }

    /** `handleConfirmParticipation` (its button is disabled while a request
        runs), with `r` the random draw and `outcome` what the participation
        call gives. With no campaign selected nothing happens. Otherwise one
        request for the selected campaign and a user id in 1..100000 is sent
        (returned as `request`), the dialog closes whether it succeeds or
        fails, and a success asks for the list to be reloaded. */
    method ConfirmParticipation(r: real, outcome: Fetched<string>) returns (request: Option<(int, int)>, reload: bool)
      requires 0.0 <= r < 1.0 && !participating
      modifies this`selectedCampaign, this`participating
      ensures !participating
      ensures old(selectedCampaign).None? ==> request == None && !reload && selectedCampaign == None
      ensures old(selectedCampaign).Some? ==>
        && request == Some((old(selectedCampaign).value.id, RandomUserId(r)))
        && 1 <= request.value.1 <= MaxUserId
        && selectedCampaign == None
        && reload == outcome.Done?
    {
      if selectedCampaign.None? {
        request, reload := None, false;
        return;
      }
      participating := true;
      var userId := RandomUserId(r);
      request := Some((selectedCampaign.value.id, userId));
      selectedCampaign := None;
      reload := outcome.Done?;
      participating := false;
    }
  }
}
