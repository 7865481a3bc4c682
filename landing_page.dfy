/** The landing page's campaign preview: it loads the campaign list once and
    shows at most the first three campaigns, with three skeleton cards while
    the load runs. Its only state is the preview and the loading flag, set
    once when the load settles. */
module LandingPage {
  import opened JsValues
  import opened ApiErrors
  import opened CampaignRules

  /** The number of campaigns previewed, and of skeleton cards shown. */
  const PreviewSize: nat := 3

  /** `data.slice(0, 3)`: the first three campaigns in the server's order, or
      all of them when there are fewer. */
  function Preview(cs: seq<Campaign>): (p: seq<Campaign>)
    ensures |p| == if |cs| < PreviewSize then |cs| else PreviewSize
    ensures p <= cs
  {
    if |cs| <= PreviewSize then cs else cs[..PreviewSize]
  }

  /** The preview drops nothing but what comes after the third campaign:
      every campaign among the first three is shown, and the order is kept. */
  lemma PreviewKeepsHead(cs: seq<Campaign>, i: nat)
    requires i < |cs| && i < PreviewSize
    ensures i < |Preview(cs)| && Preview(cs)[i] == cs[i]
  {
  }

  /** The page's state: the previewed campaigns and whether the load runs. */
  datatype Landing = Landing(campaigns: seq<Campaign>, loading: bool)

  /** The page before its load settles. */
  const Initial: Landing := Landing([], true)

  /** The load settling with `fetched`: a success shows the preview of the
      list, a failure (only logged) leaves the preview as it was; loading
      ends either way. */
  function Settle(page: Landing, fetched: Fetched<seq<Campaign>>): (next: Landing)
    ensures !next.loading
    ensures fetched.Done? ==> next.campaigns == Preview(fetched.value)
    ensures fetched.Threw? ==> next.campaigns == page.campaigns
    ensures |next.campaigns| <= PreviewSize || next.campaigns == page.campaigns
  {
    match fetched
    case Done(data) => Landing(Preview(data), false)
    case Threw(_) => page.(loading := false)
  }

  /** A failed first load leaves an empty preview, no longer loading. */
  lemma FailedLoadShowsNothing(t: Thrown)
    ensures Settle(Initial, Threw(t)) == Landing([], false)
  {
  }

  /** The cards the preview section shows: three skeletons while loading,
      else one card per previewed campaign. */
  datatype Cards = Skeletons(count: nat) | CampaignCards(campaigns: seq<Campaign>)

  function PreviewCards(page: Landing): (cards: Cards)
    ensures page.loading <==> cards == Skeletons(PreviewSize)
    ensures !page.loading ==> cards == CampaignCards(page.campaigns)
  {
    if page.loading then Skeletons(PreviewSize) else CampaignCards(page.campaigns)
  }

  /** Once the first load has settled, the skeletons are gone and at most
      three campaign cards show, whatever the load gave. */
  lemma SettledPreviewCards(fetched: Fetched<seq<Campaign>>)
    ensures var cards := PreviewCards(Settle(Initial, fetched));
      && cards.CampaignCards?
      && |cards.campaigns| <= PreviewSize
  {
  }
}
