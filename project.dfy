/** The studio project of src/models/Project.js: the template table and the
    milestone state machine driven by `advanceProgress`. */
module Projects {

  /** The keys of the `projects` table. */
  datatype ProjectKind = Indie | Rpg | Shooter

  datatype Template = Template(name: string, budget: real, staff: int, hype: real, milestones: int)

  /** The `projects` template table. Every template asks for staff, has a
      budget and at least three milestones. */
  function TemplateOf(kind: ProjectKind): (t: Template)
    ensures t.budget > 0.0 && t.hype > 0.0
    ensures t.staff >= 2 && t.milestones >= 3
  {
    match kind
    case Indie => Template("Indie Platformer", 10000.0, 2, 10.0, 3)
    case Rpg => Template("Epic RPG", 20000.0, 4, 20.0, 5)
    case Shooter => Template("Space Shooter", 15000.0, 3, 15.0, 4)
  }

  /** Where a project stands: progress towards the next milestone (0..100)
      and the number of the milestone being worked on. */
  datatype Standing = Standing(progress: real, milestone: int)

  /** The outcome of one `advanceProgress` call. */
  datatype Stepped = Stepped(standing: Standing, reached: bool)

  /** Progress one call adds for a given head count. */
  function ProgressGain(staffCount: int): real
  {
    2.0 * staffCount as real
  }

  /** One `advanceProgress` call: a milestone is reached exactly when the
      progress gets to 100; progress then starts over from 0 and the
      milestone counter moves on by one. */
  function Advance(s: Standing, staffCount: int): (r: Stepped)
    ensures r.reached <==> s.progress + ProgressGain(staffCount) >= 100.0
    ensures r.standing.progress < 100.0
    ensures r.reached ==> r.standing.progress == 0.0 && r.standing.milestone == s.milestone + 1
    ensures !r.reached ==> r.standing == Standing(s.progress + ProgressGain(staffCount), s.milestone)
  {
    var p := s.progress + ProgressGain(staffCount);
    if p >= 100.0 then Stepped(Standing(0.0, s.milestone + 1), true)
    else Stepped(Standing(p, s.milestone), false)
  }

  /** The standing after a series of `advanceProgress` calls. */
  function Run(s: Standing, staffs: seq<int>): Standing
    decreases |staffs|
  {
    if staffs == [] then s else Run(Advance(s, staffs[0]).standing, staffs[1..])
  }

  /** How many of those calls returned true. */
  function Reached(s: Standing, staffs: seq<int>): (n: nat)
    ensures n <= |staffs|
    decreases |staffs|
  {
    if staffs == [] then 0
    else
      var st := Advance(s, staffs[0]);
      (if st.reached then 1 else 0) + Reached(st.standing, staffs[1..])
  }

  /** The milestone counter moves by exactly the number of reported
      milestones: it never decreases, grows by at most one per call, and
      progress stays below 100 once any call has been made. */
  lemma {:induction false} RunMilestones(s: Standing, staffs: seq<int>)
    ensures Run(s, staffs).milestone == s.milestone + Reached(s, staffs)
    ensures s.milestone <= Run(s, staffs).milestone <= s.milestone + |staffs|
    ensures staffs != [] ==> Run(s, staffs).progress < 100.0
    decreases |staffs|
  {
    if staffs != [] {
      RunMilestones(Advance(s, staffs[0]).standing, staffs[1..]);
    }
  }

  /** A freshly created project is complete after a series of calls exactly
      when at least as many milestones as its template lists were reported. */
  lemma {:induction false} CompleteAfterAllMilestones(kind: ProjectKind, staffs: seq<int>)
    ensures Run(Standing(0.0, 1), staffs).milestone > TemplateOf(kind).milestones
        <==> Reached(Standing(0.0, 1), staffs) >= TemplateOf(kind).milestones
  {
    RunMilestones(Standing(0.0, 1), staffs);
  }

  /** With at least one staff member on every call, the next milestone is
      reported within (100 - progress) / 2 calls. */
  lemma {:induction false} StaffedProjectReachesMilestone(s: Standing, staffs: seq<int>)
    requires 0.0 <= s.progress < 100.0
    requires forall i :: 0 <= i < |staffs| ==> staffs[i] >= 1
    requires 2.0 * |staffs| as real >= 100.0 - s.progress
    ensures Reached(s, staffs) >= 1
    decreases |staffs|
  {
    var st := Advance(s, staffs[0]);
    if !st.reached {
      assert st.standing.progress >= s.progress + 2.0;
      StaffedProjectReachesMilestone(st.standing, staffs[1..]);
    }
  }

  /** A project object made from a template (src/models/Project.js:7-31). */
  class Project {
    const kind: ProjectKind
    const name: string
    const budget: real
    const staff: int
    const hype: real
    const milestones: int
    var progress: real
    var currentMilestone: int

    /** `new Project(type)`: copies the template and starts at milestone 1. */
    constructor (kind: ProjectKind)
      ensures this.kind == kind
      ensures Template(name, budget, staff, hype, milestones) == TemplateOf(kind)
      ensures progress == 0.0 && currentMilestone == 1
    {
      var t := TemplateOf(kind);
      this.kind := kind;
      name := t.name;
      budget := t.budget;
      staff := t.staff;
      hype := t.hype;
      milestones := t.milestones;
      progress := 0.0;
      currentMilestone := 1;
    }

    function Position(): Standing
      reads this
    {
      Standing(progress, currentMilestone)
    }

    /** `advanceProgress(staffCount)`. */
    method AdvanceProgress(staffCount: int) returns (reached: bool)
      modifies this`progress, this`currentMilestone
      ensures Stepped(Position(), reached) == Advance(old(Position()), staffCount)
      ensures progress < 100.0
      ensures old(currentMilestone) <= currentMilestone <= old(currentMilestone) + 1
    {
      var progressIncrease := ProgressGain(staffCount);
      progress := progress + progressIncrease;
      if progress >= 100.0 {
        progress := 0.0;
        currentMilestone := currentMilestone + 1;
        return true;
      }
      return false;
    }

    /** `isComplete()`. */
    predicate IsComplete()
      reads this
    {
      currentMilestone > milestones
    }
  }
}
