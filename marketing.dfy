/** Marketing of src/models/Marketing.js: campaigns bought with the game's
    money, and hype decay. */
module MarketingModel {
  import opened Common
  import opened GameRules
  import opened GameModel

  /** `Marketing.CAMPAIGN_COST`. */
  const CampaignCost: real := 1000.0

  /** Hype a campaign adds. */
  const CampaignHype: real := 5.0

  /** The two game fields marketing touches. */
  datatype Buzz = Buzz(money: real, hype: real)

  datatype Campaign = Campaign(ok: bool, buzz: Buzz)

  /** `launchCampaign`: refused, with no change, unless the money covers the
      cost; otherwise the cost is paid and hype rises by 5. */
  function Launched(b: Buzz): (r: Campaign)
    ensures r.ok <==> b.money >= CampaignCost
    ensures r.ok ==> r.buzz == Buzz(b.money - CampaignCost, b.hype + CampaignHype)
    ensures !r.ok ==> r.buzz == b
  {
    var paid := Spend(b.money, CampaignCost);
    if paid.ok then Campaign(true, Buzz(paid.balance, b.hype + CampaignHype)) else Campaign(false, b)
  }

  /** `loseHype(amount)`: hype falls by `amount`, but not below 0. */
  function HypeAfterLoss(hype: real, amount: real): (h: real)
    ensures h >= 0.0
    ensures h >= hype - amount
    ensures hype >= 0.0 && amount >= 0.0 ==> h <= hype
    ensures h > 0.0 ==> h == hype - amount
  {
    Max(0.0, hype - amount)
  }

  /** Two losses in a row are one loss of the sum, as long as the hype
      started non-negative. */
  lemma LossesAdd(hype: real, a: real, b: real)
    requires hype >= 0.0 && a >= 0.0 && b >= 0.0
    ensures HypeAfterLoss(HypeAfterLoss(hype, a), b) == HypeAfterLoss(hype, a + b)
  {
  }

  /** Losing the 5 points of hype a campaign bought restores the hype. */
  lemma CampaignThenLoss(b: Buzz)
    requires b.hype >= 0.0 && Launched(b).ok
    ensures HypeAfterLoss(Launched(b).buzz.hype, CampaignHype) == b.hype
  {
  }

  /** The marketing model of src/models/Marketing.js, bound to one game. */
  class Marketing {
    const game: Game

    constructor (game: Game)
      ensures this.game == game
    {
      this.game := game;
    }

    /** `canLaunchCampaign`. */
    function CanLaunchCampaign(): (ok: bool)
      reads game
      ensures ok <==> Launched(Buzz(game.money, game.hype)).ok
    {
      game.CanAfford(CampaignCost)
    }

    /** `launchCampaign`. */
    method LaunchCampaign() returns (ok: bool)
      requires game.Valid()
      modifies game`money, game`hype
      ensures game.Valid()
      ensures Campaign(ok, Buzz(game.money, game.hype)) == Launched(old(Buzz(game.money, game.hype)))
    {
      if !CanLaunchCampaign() {
        return false;
      }
      var _ := game.SpendMoney(CampaignCost);
      game.hype := game.hype + CampaignHype;
      return true;
    }

    /** `loseHype(amount = 1)`. */
    method LoseHype(amount: real := 1.0)
      requires game.Valid()
      modifies game`hype
      ensures game.Valid()
      ensures game.hype == HypeAfterLoss(old(game.hype), amount)
    {
      game.hype := Max(0.0, game.hype - amount);
    }
  }
}
