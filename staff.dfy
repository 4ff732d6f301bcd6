/** Hiring and firing of src/models/Staff.js. A hire is paid from the game's
    money through `canAfford`/`spendMoney`; the head count lives on the
    game object. */
module StaffModel {
  import opened GameRules
  import opened GameModel
  import opened Projects

  /** `Staff.HIRE_COST`. */
  const HireCost: real := 2000.0

  /** The two game fields hiring and firing touch. */
  datatype Crew = Crew(money: real, staff: int)

  /** The outcome of `hire` or `fire`: the returned flag and the new fields. */
  datatype Hiring = Hiring(ok: bool, crew: Crew)

  /** `hire`: refused, with no change, unless the money covers the cost;
      otherwise the cost is paid and one more person is on staff. */
  function Hired(c: Crew): (r: Hiring)
    ensures r.ok <==> c.money >= HireCost
    ensures r.ok ==> r.crew.money == c.money - HireCost && r.crew.staff == c.staff + 1
    ensures !r.ok ==> r.crew == c
    ensures r.crew.staff >= c.staff && r.crew.money <= c.money
  {
    var paid := Spend(c.money, HireCost);
    if paid.ok then Hiring(true, Crew(paid.balance, c.staff + 1)) else Hiring(false, c)
  }

  /** `fire`: refused, with no change, when nobody is on staff; otherwise
      one person leaves. Money is never touched. */
  function Fired(c: Crew): (r: Hiring)
    ensures r.ok <==> c.staff > 0
    ensures r.crew.money == c.money
    ensures r.ok ==> r.crew.staff == c.staff - 1
    ensures !r.ok ==> r.crew == c
    ensures c.staff >= 0 ==> r.crew.staff >= 0
  {
    if c.staff <= 0 then Hiring(false, c) else Hiring(true, c.(staff := c.staff - 1))
  }

  /** A successful hire followed by a fire leaves the head count as it was
      and the money 2000 lower. */
  lemma FireUndoesHire(c: Crew)
    requires Hired(c).ok && c.staff >= 0
    ensures Fired(Hired(c).crew) == Hiring(true, Crew(c.money - HireCost, c.staff))
  {
  }

  datatype StaffAction = HireOne | FireOne

  /** The fields after a series of button presses. */
  function ApplyActions(c: Crew, actions: seq<StaffAction>): Crew
    decreases |actions|
  {
    if actions == [] then c
    else
      var step := if actions[0] == HireOne then Hired(c) else Fired(c);
      ApplyActions(step.crew, actions[1..])
  }

  /** How many of those presses were successful hires. */
  function HiresIn(c: Crew, actions: seq<StaffAction>): (n: nat)
    ensures n <= |actions|
    decreases |actions|
  {
    if actions == [] then 0
    else
      var step := if actions[0] == HireOne then Hired(c) else Fired(c);
      (if actions[0] == HireOne && step.ok then 1 else 0) + HiresIn(step.crew, actions[1..])
  }

  /** Whatever is pressed, money and head count never become negative, and
      the money spent is exactly 2000 per successful hire. */
  lemma {:induction false} ActionsKeepCrewSound(c: Crew, actions: seq<StaffAction>)
    requires c.money >= 0.0 && c.staff >= 0
    ensures ApplyActions(c, actions).money >= 0.0 && ApplyActions(c, actions).staff >= 0
    ensures ApplyActions(c, actions).money == c.money - HireCost * HiresIn(c, actions) as real
    decreases |actions|
  {
    if actions != [] {
      var step := if actions[0] == HireOne then Hired(c) else Fired(c);
      ActionsKeepCrewSound(step.crew, actions[1..]);
    }
  }

  /** The staff model of src/models/Staff.js, bound to one game. */
  class Staff {
    const game: Game

    constructor (game: Game)
      ensures this.game == game
    {
      this.game := game;
    }

    /** `canHire`. */
    function CanHire(): (ok: bool)
      reads game
      ensures ok <==> Hired(Crew(game.money, game.staff)).ok
    {
      game.CanAfford(HireCost)
    }

    /** `hire`. */
    method Hire() returns (ok: bool)
      requires game.Valid()
      modifies game`money, game`staff
      ensures game.Valid()
      ensures Hiring(ok, Crew(game.money, game.staff)) == Hired(old(Crew(game.money, game.staff)))
    {
      if !CanHire() {
        return false;
      }
      var _ := game.SpendMoney(HireCost);
      game.staff := game.staff + 1;
      return true;
    }

    /** `fire`. */
    method Fire() returns (ok: bool)
      requires game.Valid()
      modifies game`staff
      ensures game.Valid()
      ensures Hiring(ok, Crew(game.money, game.staff)) == Fired(old(Crew(game.money, game.staff)))
    {
      if game.staff <= 0 {
        return false;
      }
      game.staff := game.staff - 1;
      return true;
    }

    /** `getProductivity`: the progress one `advanceProgress` call makes
        with the current head count. */
    function GetProductivity(): (p: int)
      reads game
      ensures p as real == ProgressGain(game.staff)
      ensures game.staff >= 0 ==> p >= 0
    {
      game.staff * 2
    }
  }
}
