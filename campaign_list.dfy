/** The simpler campaign list: campaign cards with a status line and a
    participate button, a confirmation dialog, and a dialog showing the
    result of the participation request. The list is reloaded every five
    seconds; each load and each participation call is one step whose outcome
    is an input. */
module CampaignList {
  import opened JsValues
  import opened ApiErrors
  import opened CampaignRules

  const LoadError: string := "캠페인 목록을 불러오는데 실패했습니다."
  const ParticipationFallback: string := "참여 요청 중 오류가 발생했습니다."

  /** The status line of a card. It reads the status alone. */
  function StatusLabel(c: Campaign): (text: string)
    ensures text == OpenLabel <==> c.status.Open?
    ensures text == ClosedLabel <==> c.status.Closed?
  {
    assert OpenLabel != ClosedLabel by { assert |OpenLabel| != |ClosedLabel|; }
    if c.status == Open then OpenLabel else ClosedLabel
  }

  /** An open campaign whose stock has run out reads "in progress" while its
      button is disabled and reads "sold out": the card's two texts disagree. */
  lemma SoldOutOpenCampaignLabels(c: Campaign)
    requires c.status == Open && c.currentStock <= 0
    ensures StatusLabel(c) == OpenLabel
    ensures !ParticipateButton(c).enabled && ParticipateButton(c).text == SoldOutLabel
  {
  }

  /** The part of a thrown object that the page's error path looks at:
      `err.response?.data?.error`, each step possibly absent. */
  datatype ErrorData = ErrorData(error: Option<string>)
  datatype ErrorResponse = ErrorResponse(data: Option<ErrorData>)
  datatype ErrorObject = ErrorObject(response: Option<ErrorResponse>)

  /** What the property lookups find on a value the participation call
      threw. The client turns every failure into an `ApiError` (or, for a null
      error body, a `TypeError`); neither has a `response` property. */
  function PropertiesOf(t: Thrown): (o: ErrorObject)
    ensures o.response.None?
  {
    ErrorObject(None)
  }

  /** The failure text as the page computes it from the thrown object: the
      response's `error` field when it is a non-empty string, else the fixed
      fallback. */
  function ParticipationFailureAsWritten(err: ErrorObject): (m: string)
    ensures var e := if err.response.Some? && err.response.value.data.Some? then err.response.value.data.value.error else None;
      m == (if Truthy(e) then e.value else ParticipationFallback)
  {
    match err.response
    case Some(ErrorResponse(Some(ErrorData(e)))) => if Truthy(e) then e.value else ParticipationFallback
    case _ => ParticipationFallback
  }

  /** Had the page received an axios error carrying the server's `error`
      field, it would have shown that field. */
  lemma AsWrittenReadsAxiosShape(text: string)
    requires text != ""
    ensures ParticipationFailureAsWritten(ErrorObject(Some(ErrorResponse(Some(ErrorData(Some(text))))))) == text
  {
  }

  /** But whatever the server answered, the page as written shows the
      fallback: a rejection with the server's own explanation, say "already
      joined" with status 409, loses it. */
  lemma AsWrittenAlwaysFallback(t: Thrown)
    ensures ParticipationFailureAsWritten(PropertiesOf(t)) == ParticipationFallback
    ensures var e := ApiErr(ApiError("ApiError", "이미 참여한 캠페인입니다.", Some("PARTICIPATION_001"), Some(409)));
      ParticipationFailureAsWritten(PropertiesOf(e)) == ParticipationFallback && e.api.message != ParticipationFallback
  {
  }

  /** The failure text the page evidently means to show: the server's message,
      which the client has put into the `ApiError`, and the fallback when
      there is none. */
  function ParticipationFailureText(t: Thrown): (m: string)
    ensures IsApiError(t) && t.api.message != "" ==> m == t.api.message
    ensures !(IsApiError(t) && t.api.message != "") ==> m == ParticipationFallback
    ensures m != ""
  {
    if t.ApiErr? && t.api.message != "" then t.api.message else ParticipationFallback
  }

  /** The corrected text differs from the written one exactly when the server
      gave a message other than the fallback. */
  lemma CorrectedShowsServerMessage(t: Thrown)
    ensures ParticipationFailureText(t) != ParticipationFailureAsWritten(PropertiesOf(t))
      <==> IsApiError(t) && t.api.message != "" && t.api.message != ParticipationFallback
  {
    AsWrittenAlwaysFallback(t);
  }

  /** The page's state. */
  class CampaignListView {
    var campaigns: seq<Campaign>
    var loading: bool
    var error: Option<string>
    var selectedCampaign: Option<Campaign>
    var participating: bool
    var participationResult: Option<string>

    /** The page opens loading, with an empty list and no dialog. */
    constructor ()
      ensures campaigns == [] && loading && error == None
      ensures selectedCampaign == None && !participating && participationResult == None
    {
      campaigns := [];
      loading := true;
      error := None;
      selectedCampaign := None;
      participating := false;
      participationResult := None;
    }

    /** The full-page spinner replaces the page only while loading a
        still-empty list. */
    function ShowSpinner(): (shown: bool)
      reads this
      ensures shown ==> campaigns == []
      ensures !loading ==> !shown
      ensures loading && campaigns == [] ==> shown
    {
      loading && |campaigns| == 0
    }

    /** `loadCampaigns`, with `fetched` what the list call gives: a success
        replaces the list and clears the error, a failure keeps the list and
        shows the fixed message; loading ends either way. */
    method Load(fetched: Fetched<seq<Campaign>>)
      modifies this`campaigns, this`error, this`loading
      ensures !loading && !ShowSpinner()
      ensures fetched.Done? ==> campaigns == fetched.value && error == None
      ensures fetched.Threw? ==> campaigns == old(campaigns) && error == Some(LoadError)
    {
      loading := true;
      if fetched.Done? {
        campaigns := fetched.value;
        error := None;
      } else {
        error := Some(LoadError);
      }
      loading := false;
    }

    /** `handleParticipateClick`; a disabled button is never pressed. */
    method ParticipateClick(c: Campaign)
      requires ParticipateButton(c).enabled
      modifies this`selectedCampaign
      ensures selectedCampaign == Some(c) && IsOpen(c)
    {
      selectedCampaign := Some(c);
    }

    method CloseDialog()
      modifies this`selectedCampaign
      ensures selectedCampaign == None
    {
      selectedCampaign := None;
    }

    method CloseResultDialog()
      modifies this`participationResult
      ensures participationResult == None
    {
      participationResult := None;
    }

    /** `handleConfirmParticipation` (its button is disabled while a request
        runs), with `r` the random draw and `outcome` what the participation
        call gives. With no campaign selected nothing happens. Otherwise one
        request for the selected campaign and a user id in 1..100000 is sent
        (returned as `request`). A success shows the server's message, closes
        the dialog and asks for the list to be reloaded; a failure shows the
        failure text as the page computes it, which is always the fallback,
        and leaves the campaign selected. */
    method ConfirmParticipation(r: real, outcome: Fetched<string>) returns (request: Option<(int, int)>, reload: bool)
      requires 0.0 <= r < 1.0 && !participating
      modifies this`selectedCampaign, this`participating, this`participationResult
      ensures !participating
      ensures old(selectedCampaign).None? ==>
        request == None && !reload && selectedCampaign == None && participationResult == old(participationResult)
      ensures old(selectedCampaign).Some? ==>
        && request == Some((old(selectedCampaign).value.id, RandomUserId(r)))
        && 1 <= request.value.1 <= MaxUserId
        && reload == outcome.Done?
      ensures old(selectedCampaign).Some? && outcome.Done? ==>
        participationResult == Some(outcome.value) && selectedCampaign == None
      ensures old(selectedCampaign).Some? && outcome.Threw? ==>
        participationResult == Some(ParticipationFailureAsWritten(PropertiesOf(outcome.error)))
        && participationResult == Some(ParticipationFallback)
        && selectedCampaign == old(selectedCampaign)
    {
      if selectedCampaign.None? {
        request, reload := None, false;
        return;
      }
      participating := true;
      var userId := RandomUserId(r);
      request := Some((selectedCampaign.value.id, userId));
      if outcome.Done? {
        participationResult := Some(outcome.value);
        selectedCampaign := None;
        reload := true;
      } else {
        participationResult := Some(ParticipationFailureAsWritten(PropertiesOf(outcome.error)));
        AsWrittenAlwaysFallback(outcome.error);
        reload := false;
      }
      participating := false;
    }
  }
}
