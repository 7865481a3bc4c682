/** The campaign record and the availability rules that the user pages repeat:
    whether a campaign can still be joined, the remaining-stock percentage,
    the texts of its badge and button, and the user id drawn at random for a
    participation request. */
module CampaignRules {
  import opened JsValues

  datatype Status = Open | Closed

  /** A campaign as the backend lists it. */
  datatype Campaign = Campaign(
    id: int,
    name: string,
    totalStock: int,
    currentStock: int,
    status: Status,
    createdAt: string,
    updatedAt: string)

  /** A campaign can be joined while it is open and has stock left. */
  predicate IsOpen(c: Campaign)
  {
    c.status == Open && c.currentStock > 0
  }

  const OpenLabel: string := "진행 중"
  const ClosedLabel: string := "마감"
  const JoinLabel: string := "참여하기"
  const SoldOutLabel: string := "마감되었습니다"

  /** The badge of a campaign card on the landing page and the campaign page:
      it follows availability, not the status alone. */
  function AvailabilityLabel(c: Campaign): (text: string)
    ensures text == OpenLabel <==> IsOpen(c)
    ensures text == ClosedLabel <==> !IsOpen(c)
  {
    if IsOpen(c) then OpenLabel else ClosedLabel
  }

  /** The participate button of a campaign card: whether it can be pressed,
      and its text. */
  datatype JoinButton = JoinButton(enabled: bool, text: string)

  function ParticipateButton(c: Campaign): (b: JoinButton)
    ensures b.enabled <==> IsOpen(c)
    ensures b.text == (if IsOpen(c) then JoinLabel else SoldOutLabel)
    ensures !b.enabled <==> b.text == SoldOutLabel
  {
    if IsOpen(c) then JoinButton(true, JoinLabel) else JoinButton(false, SoldOutLabel)
  }

  /** The badge, the button and the button's text all follow the one rule:
      the badge reads "in progress" exactly when the button can be pressed,
      exactly when the button reads "join". */
  lemma JoinableDisplays(c: Campaign)
    ensures AvailabilityLabel(c) == OpenLabel <==> ParticipateButton(c).enabled
    ensures ParticipateButton(c).enabled <==> ParticipateButton(c).text == JoinLabel
  {
    assert JoinLabel != SoldOutLabel by { assert |JoinLabel| != |SoldOutLabel|; }
  }

  /** `currentStock / totalStock * 100`, the share of the stock still left.
      With no stock at all the quotient is not a finite number (`NaN`), given
      here as `None`. */
  function StockPercentage(c: Campaign): (p: Option<real>)
    ensures p.None? <==> c.totalStock == 0
    ensures p.Some? ==> p.value * (c.totalStock as real) == (c.currentStock as real) * 100.0
    ensures 0 <= c.currentStock <= c.totalStock && c.totalStock > 0 ==> p.Some? && 0.0 <= p.value <= 100.0
    ensures c.totalStock != 0 && c.currentStock == 0 ==> p == Some(0.0)
  {
    if c.totalStock == 0 then None
    else Some((c.currentStock as real / c.totalStock as real) * 100.0)
  }

  /** The largest user id drawn for a participation request. */
  const MaxUserId: int := 100000

  /** `Math.floor(r * 100000) + 1` for a `Math.random()` draw `r`. */
  function RandomUserId(r: real): (id: int)
    requires 0.0 <= r < 1.0
    ensures 1 <= id <= MaxUserId
  {
    var x := r * (MaxUserId as real);
    assert 0.0 <= x < MaxUserId as real;
    x.Floor + 1
  }

  /** Every user id from 1 to 100000 can be drawn. */
  lemma EveryUserIdDrawable(k: int)
    requires 1 <= k <= MaxUserId
    ensures var r := (k - 1) as real / (MaxUserId as real);
      0.0 <= r < 1.0 && RandomUserId(r) == k
  {
    var r := (k - 1) as real / (MaxUserId as real);
    assert r * (MaxUserId as real) == (k - 1) as real;
  }
}
