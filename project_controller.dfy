/** The project controller of src/controllers/ProjectController.js: the
    guard of the start button and the per-tick milestone step with its
    bonus and the completion of the project. The DOM wiring, the info panel
    and the log lines are not modelled. */
module ProjectControl {
  import opened Common
  import opened GameRules
  import opened GameModel
  import opened Projects

  /** What a press of the start button does. */
  datatype StartOutcome = AlreadyInProgress | NotEnoughStaff(required: int) | Started

  /** The start guard: a running project blocks the start; otherwise the
      chosen template's staff requirement must be met. */
  function StartDecision(isRunning: bool, staff: int, kind: ProjectKind): (o: StartOutcome)
    ensures o == AlreadyInProgress <==> isRunning
    ensures o == Started <==> !isRunning && staff >= TemplateOf(kind).staff
    ensures o.NotEnoughStaff? <==> !isRunning && staff < TemplateOf(kind).staff
    ensures o.NotEnoughStaff? ==> o.required == TemplateOf(kind).staff
  {
    if isRunning then AlreadyInProgress
    else if staff < TemplateOf(kind).staff then NotEnoughStaff(TemplateOf(kind).staff)
    else Started
  }

  /** The bonus a reached milestone pays: 3000 plus 100 per point of hype. */
  function MilestoneBonus(hype: real): (b: real)
    ensures hype >= 0.0 ==> b >= 3000.0
    ensures b - 3000.0 == 100.0 * hype
  {
    3000.0 + hype * 100.0
  }

  /** The bonuses paid over a series of updates at a fixed hype, one per
      staff count passed to `advanceProgress`. */
  function BonusTotal(s: Standing, staffs: seq<int>, hype: real): real
    decreases |staffs|
  {
    if staffs == [] then 0.0
    else
      var st := Advance(s, staffs[0]);
      (if st.reached then MilestoneBonus(hype) else 0.0) + BonusTotal(st.standing, staffs[1..], hype)
  }

  /** At a fixed hype the bonuses add up to one bonus per reported
      milestone, that is one per step of the milestone counter. */
  lemma {:induction false} BonusPerMilestone(s: Standing, staffs: seq<int>, hype: real)
    ensures BonusTotal(s, staffs, hype) == Reached(s, staffs) as real * MilestoneBonus(hype)
    ensures BonusTotal(s, staffs, hype) == (Run(s, staffs).milestone - s.milestone) as real * MilestoneBonus(hype)
    decreases |staffs|
  {
    RunMilestones(s, staffs);
    if staffs != [] {
      BonusPerMilestone(Advance(s, staffs[0]).standing, staffs[1..], hype);
    }
  }

  class ProjectController {
    const game: Game

    constructor (game: Game)
      ensures this.game == game
    {
      this.game := game;
    }

    /** The start button's click handler for the selected template. A
        rejection changes nothing; a start installs a new project through
        `setProject` and then sets the money to the budget once more. */
    method StartProject(kind: ProjectKind) returns (outcome: StartOutcome)
      requires game.Valid()
      modifies game`project, game`money, game`hype, game`isRunning
      ensures game.Valid()
      ensures outcome == StartDecision(old(game.isRunning), game.staff, kind)
      ensures outcome != Started ==>
        game.project == old(game.project) && game.money == old(game.money)
        && game.hype == old(game.hype) && game.isRunning == old(game.isRunning)
      ensures outcome == Started ==>
        && game.project != null && fresh(game.project) && game.project.kind == kind
        && game.project.Position() == Standing(0.0, 1)
        && game.money == TemplateOf(kind).budget
        && game.hype == Max(old(game.hype), TemplateOf(kind).hype)
        && game.isRunning
    {
      if game.isRunning {
        return AlreadyInProgress;
      }
      var project := new Project(kind);
      if game.staff < project.staff {
        return NotEnoughStaff(project.staff);
      }
      game.SetProject(project);
      game.money := project.budget;
      return Started;
    }

    /** `update`, with `hypePow` standing for Math.pow(hype, 1.5). Without a
        running project nothing changes. Otherwise the project advances by
        the head count; a reached milestone pays the bonus, and if it was
        the last one the project is completed and its earnings returned. */
    method Update(hypePow: real) returns (reached: bool, earnings: Option<int>)
      requires game.Valid() && IsPow15(game.hype, hypePow)
      modifies game`money, game`hype, game`project, game`isRunning, game.project
      ensures game.Valid()
      ensures !old(game.isRunning) || old(game.project) == null ==>
        !reached && earnings == None && game.project == old(game.project)
        && game.money == old(game.money) && game.hype == old(game.hype) && game.isRunning == old(game.isRunning)
        && (old(game.project) != null ==> unchanged(old(game.project)))
      ensures old(game.isRunning) && old(game.project) != null ==>
        Stepped(old(game.project).Position(), reached) == Advance(old(game.project.Position()), game.staff)
      ensures earnings.Some? <==> reached && old(game.project) != null && old(game.project).IsComplete()
      ensures earnings.Some? ==>
        && earnings.value == Earnings(old(game.project).budget, old(game.project).staff, game.staff, hypePow)
        && game.project == null && !game.isRunning
        && game.hype == old(game.hype) + (if game.staff > 0 then (game.staff as real * 1.5).Floor as real else 0.0)
      ensures earnings.None? ==>
        game.project == old(game.project) && game.isRunning == old(game.isRunning) && game.hype == old(game.hype)
      ensures game.money == old(game.money) + (if reached then MilestoneBonus(old(game.hype)) else 0.0)
                            + (if earnings.Some? then earnings.value as real else 0.0)
    {
      if !game.isRunning || game.project == null {
        return false, None;
      }
      var project := game.project;
      reached := project.AdvanceProgress(game.staff);
      earnings := None;
      if reached {
        game.money := game.money + MilestoneBonus(game.hype);
        if project.IsComplete() {
          var e := game.CompleteProject(hypePow);
          earnings := Some(e);
        }
      }
    }
  }
}
