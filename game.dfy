/** The game object of src/models/Game.js: the hacking economy (BTC,
    detection risk, CPU slots, active hacks), the session flags, and the
    studio fields (money, staff, hype, the running project) that the other
    models update through it. Clock readings (milliseconds) and random draws
    in [0, 1) are parameters. */
module GameModel {
  import opened Common
  import opened GameRules
  import opened Projects

  /** The random draws one `update` tick may consume, each in [0, 1). */
  datatype TickDraws = TickDraws(eventRoll: real, eventPick: real, bugRoll: real, bugDraw: real,
                                 followerRoll: real, followerDraw: real)
  {
    predicate InRange()
    {
      && 0.0 <= eventRoll < 1.0 && 0.0 <= eventPick < 1.0
      && 0.0 <= bugRoll < 1.0 && 0.0 <= bugDraw < 1.0
      && 0.0 <= followerRoll < 1.0 && 0.0 <= followerDraw < 1.0
    }
  }

  /** Every field of the game except the clock stamp `lastUpdate`. */
  datatype Snapshot = Snapshot(
    btc: real, reputation: int, cpuPower: int, session: Session, uptime: real,
    activeHacks: seq<Hack>, connections: int, securityLevel: int, detectionRisk: real,
    cpuUsage: real, bruteforcePower: real, miningPower: real,
    money: real, staff: int, hype: real, isRunning: bool, project: Project?,
    devTime: real, bugs: int, devPhase: DevPhase, taskProgress: map<DevPhase, seq<Task>>,
    followers: int)

  const CpuErrorMessage := "ERROR: Insufficient CPU resources"

  class Game {
    // hacking economy
    var btc: real
    var reputation: int
    var cpuPower: int
    var isGameStarted: bool
    var isGameOver: bool
    var isPaused: bool
    var uptime: real
    var lastUpdate: real
    var activeHacks: seq<Hack>
    var connections: int
    var securityLevel: int
    var detectionRisk: real
    var cpuUsage: real
    var bruteforcePower: real
    var miningPower: real
    // studio
    var money: real
    var staff: int
    var hype: real
    var isRunning: bool
    var project: Project?
    var devTime: real
    var bugs: int
    var devPhase: DevPhase
    var taskProgress: map<DevPhase, seq<Task>>
    var followers: int

    /** The invariant every operation keeps: the active hacks fit in the CPU
        slots and none of them is finished, CPU usage is a percentage, BTC,
        staff and hype are never negative, task progress stays in [0, 1]. */
    ghost predicate Valid()
      reads this
    {
      HackingValid() && StudioValid()
    }

    /** The hacking half of `Valid`. */
    ghost predicate HackingValid()
      reads this`cpuPower, this`activeHacks, this`cpuUsage, this`btc, this`bruteforcePower, this`miningPower
    {
      && cpuPower >= 1
      && |activeHacks| <= cpuPower
      && AllUnfinished(activeHacks)
      && 0.0 <= cpuUsage <= 100.0
      && btc >= 0.0
      && bruteforcePower >= 0.0 && miningPower >= 0.0
    }

    /** The studio half of `Valid`. */
    ghost predicate StudioValid()
      reads this`staff, this`hype, this`taskProgress
    {
      staff >= 0 && hype >= 0.0 && PhasesBounded(taskProgress)
    }

    function Flags(): Session
      reads this
    {
      Session(isGameStarted, isPaused, isGameOver)
    }

    ghost function State(): Snapshot
      reads this
    {
      Snapshot(btc, reputation, cpuPower, Flags(), uptime, activeHacks, connections, securityLevel,
               detectionRisk, cpuUsage, bruteforcePower, miningPower, money, staff, hype, isRunning,
               project, devTime, bugs, devPhase, taskProgress, followers)
    }

    /** The values `initializeGame` assigns. It does not assign `money` or
        `staff`, so a restart keeps them. */
    ghost predicate Initialized(now: real)
      reads this
    {
      && btc == 0.1 && reputation == 0 && cpuPower == 1
      && Flags() == Session(false, true, false)
      && uptime == 0.0 && lastUpdate == now
      && activeHacks == [] && connections == 1 && securityLevel == 1
      && detectionRisk == 0.0 && cpuUsage == 0.0
      && bruteforcePower == 1.0 && miningPower == 1.0
      && hype == 0.0 && !isRunning && project == null
      && devTime == 0.0 && bugs == 0 && devPhase == Planning && taskProgress == map[]
      && followers == 0
    }

    /** `new Game()` at clock reading `now`. The source never gives `money`
        and `staff` a value; here they start at 0. */
    constructor (now: real)
      ensures Initialized(now) && money == 0.0 && staff == 0
      ensures Valid()
    {
      btc, reputation, cpuPower := 0.1, 0, 1;
      isGameStarted, isGameOver, isPaused := false, false, true;
      uptime, lastUpdate := 0.0, now;
      activeHacks, connections, securityLevel := [], 1, 1;
      detectionRisk, cpuUsage := 0.0, 0.0;
      bruteforcePower, miningPower := 1.0, 1.0;
      money, staff := 0.0, 0;
      hype, isRunning, project := 0.0, false, null;
      devTime, bugs, devPhase, taskProgress := 0.0, 0, Planning, map[];
      followers := 0;
    }

    /** The "game state" and "network state" part of `initializeGame`, with
        the bruteforce and mining software at power 1. */
    method ResetEconomy()
      modifies this`btc, this`reputation, this`cpuPower, this`uptime, this`activeHacks, this`connections,
        this`securityLevel, this`detectionRisk, this`cpuUsage, this`bruteforcePower, this`miningPower
      ensures btc == 0.1 && reputation == 0 && cpuPower == 1 && uptime == 0.0
      ensures activeHacks == [] && connections == 1 && securityLevel == 1
      ensures detectionRisk == 0.0 && cpuUsage == 0.0 && bruteforcePower == 1.0 && miningPower == 1.0
    {
      btc, reputation, cpuPower, uptime := 0.1, 0, 1, 0.0;
      activeHacks, connections, securityLevel := [], 1, 1;
      detectionRisk, cpuUsage := 0.0, 0.0;
      bruteforcePower, miningPower := 1.0, 1.0;
    }

    /** The session flags and the clock stamp `initializeGame` sets: not
        started, paused, not over. */
    method ResetSession(now: real)
      modifies this`isGameStarted, this`isGameOver, this`isPaused, this`lastUpdate
      ensures Flags() == Session(false, true, false) && lastUpdate == now
    {
      isGameStarted, isGameOver, isPaused := false, false, true;
      lastUpdate := now;
    }

    /** The "project state" part of `initializeGame`. */
    method ResetStudio()
      modifies this`hype, this`isRunning, this`project, this`devTime, this`bugs, this`devPhase,
        this`taskProgress, this`followers
      ensures hype == 0.0 && !isRunning && project == null
      ensures devTime == 0.0 && bugs == 0 && devPhase == Planning && taskProgress == map[] && followers == 0
    {
      hype, isRunning, project := 0.0, false, null;
      devTime, bugs, devPhase, taskProgress := 0.0, 0, Planning, map[];
      followers := 0;
    }

    /** `initializeGame` at clock reading `now`; money and staff keep their
        values. */
    method InitializeGame(now: real)
      requires staff >= 0
      modifies this
      ensures Initialized(now) && money == old(money) && staff == old(staff)
      ensures Valid()
    {
      ResetEconomy();
      ResetSession(now);
      ResetStudio();
    }

    /** `restartGame`: re-runs `initializeGame` and reports the restart. */
    method RestartGame(now: real) returns (message: string)
      requires staff >= 0
      modifies this
      ensures Initialized(now) && money == old(money) && staff == old(staff)
      ensures Valid()
      ensures message == "Game restarted. Starting funds: $10,000"
    {
      InitializeGame(now);
      message := "Game restarted. Starting funds: $10,000";
    }

    /** `startGame`. */
    method StartGame(now: real) returns (message: string)
      modifies this`isGameStarted, this`isPaused, this`lastUpdate
      ensures Flags() == Start(old(Flags()))
      ensures lastUpdate == now
      ensures message == "Game started!"
    {
      isGameStarted := true;
      isPaused := false;
      lastUpdate := now;
      message := "Game started!";
    }

    /** `checkGameOver`. */
    method CheckGameOver() returns (fired: bool)
      modifies this`isGameOver, this`isPaused
      ensures Checked(Flags(), fired) == CheckOver(old(Flags()), detectionRisk)
    {
      if detectionRisk >= 100.0 && !isGameOver {
        isGameOver := true;
        isPaused := true;
        return true;
      }
      return false;
    }

    /** `togglePause` at clock reading `now`. */
    method TogglePause(now: real) returns (paused: bool)
      modifies this`isPaused, this`lastUpdate
      ensures Toggled(Flags(), paused) == Toggle(old(Flags()))
      ensures lastUpdate == if old(Flags()) != Flags() && !isPaused then now else old(lastUpdate)
    {
      if !isGameStarted || isGameOver {
        return false;
      }
      isPaused := !isPaused;
      if !isPaused {
        lastUpdate := now;
      }
      return isPaused;
    }

    /** `startHack(target)` with the values the missing `calculateDifficulty`
        and `calculateReward` would give, and the draw behind the hack's
        risk (`Math.random() * 20`). */
    method StartHack(target: string, difficulty: PosReal, reward: NonNegReal, riskDraw: real)
      returns (message: string)
      requires Valid() && 0.0 <= riskDraw < 1.0
      modifies this`activeHacks, this`cpuUsage
      ensures Valid()
      ensures old(|activeHacks|) >= cpuPower ==>
        message == CpuErrorMessage && activeHacks == old(activeHacks) && cpuUsage == old(cpuUsage)
      ensures old(|activeHacks|) < cpuPower ==>
        && activeHacks == old(activeHacks) + [Hack(target, 0.0, difficulty, reward, riskDraw * 20.0)]
        && cpuUsage == CpuUsage(|activeHacks|, cpuPower)
        && message == "Initiating hack on " + target + "..."
    {
      if |activeHacks| >= cpuPower {
        return CpuErrorMessage;
      }
      var hack := Hack(target, 0.0, difficulty, reward, riskDraw * 20.0);
      activeHacks := activeHacks + [hack];
      UpdateCPUUsage();
      message := "Initiating hack on " + target + "...";
    }

    /** `updateHacks(deltaTime)`: the `activeHacks.filter` loop, which
        advances every hack, completes and drops the finished ones and keeps
        the others, then `updateCPUUsage`. */
    method UpdateHacks(dt: real)
      requires Valid() && dt >= 0.0
      modifies this`activeHacks, this`btc, this`reputation, this`detectionRisk, this`cpuUsage
      ensures Valid()
      ensures Ledger(activeHacks, btc, reputation, detectionRisk)
        == Sweep(old(activeHacks), Ledger([], old(btc), old(reputation), old(detectionRisk)), bruteforcePower, dt)
      ensures activeHacks == Unfinished(old(activeHacks), bruteforcePower, dt)
      ensures cpuUsage == CpuUsage(|activeHacks|, cpuPower)
    {
      var kept := FilterHacks(activeHacks, dt);
      activeHacks := kept;
      UpdateCPUUsage();
      assert staff == old(staff) && hype == old(hype) && taskProgress == old(taskProgress);
      assert |activeHacks| <= cpuPower && AllUnfinished(activeHacks);
      assert 0.0 <= cpuUsage <= 100.0 && btc >= 0.0;
    }

    /** The `activeHacks.filter(...)` loop itself: every hack goes through
        the callback, in order, and the kept ones are returned. */
    method FilterHacks(hacks: seq<Hack>, dt: real) returns (kept: seq<Hack>)
      modifies this`btc, this`reputation, this`detectionRisk
      ensures Ledger(kept, btc, reputation, detectionRisk)
        == Sweep(hacks, Ledger([], old(btc), old(reputation), old(detectionRisk)), bruteforcePower, dt)
      ensures kept == Unfinished(hacks, bruteforcePower, dt)
      ensures |kept| <= |hacks| && AllUnfinished(kept) && btc >= old(btc)
    {
      ghost var start := Ledger([], btc, reputation, detectionRisk);
      kept := [];
      var i := 0;
      while i < |hacks|
        invariant 0 <= i <= |hacks|
        invariant Ledger(kept, btc, reputation, detectionRisk) == Sweep(hacks[..i], start, bruteforcePower, dt)
      {
        assert hacks[..i + 1][..i] == hacks[..i];
        kept := FilterCallback(kept, hacks[i], dt);
        i := i + 1;
      }
      assert hacks[..i] == hacks;
      SweepSummary(hacks, start, bruteforcePower, dt);
    }

    /** The filter callback for one hack, with `kept` the hacks the filter
        has kept so far: advance the hack, then complete a finished one or
        keep an unfinished one and add its risk. */
    method FilterCallback(kept: seq<Hack>, hack: Hack, dt: real) returns (kept': seq<Hack>)
      modifies this`btc, this`reputation, this`detectionRisk
      ensures Ledger(kept', btc, reputation, detectionRisk)
        == Visit(Ledger(kept, old(btc), old(reputation), old(detectionRisk)), hack, bruteforcePower, dt)
    {
      var advanced := Advanced(hack, bruteforcePower, dt);
      if advanced.progress >= 1.0 {
        CompleteHack(advanced);
        kept' := kept;
      } else {
        detectionRisk := detectionRisk + advanced.risk * dt / 100.0;
        kept' := kept + [advanced];
      }
    }

    /** `completeHack(hack)` (its returned message is not modelled). */
    method CompleteHack(hack: Hack)
      modifies this`btc, this`reputation, this`detectionRisk
      ensures Ledger([], btc, reputation, detectionRisk)
        == Credit(Ledger([], old(btc), old(reputation), old(detectionRisk)), hack)
    {
      btc := btc + hack.reward;
      reputation := reputation + (hack.difficulty * 10.0).Floor;
      detectionRisk := Max(0.0, detectionRisk - 10.0);
    }

    /** `updateMining(deltaTime)`. */
    method UpdateMining(dt: real)
      requires Valid() && dt >= 0.0
      modifies this`btc, this`cpuUsage
      ensures Valid()
      ensures btc == old(btc) + MiningRate(miningPower, dt)
      ensures cpuUsage == MinedCpu(old(cpuUsage), MiningRate(miningPower, dt))
    {
      var miningRate := MiningRate(miningPower, dt);
      btc := btc + miningRate;
      cpuUsage := Min(100.0, cpuUsage + miningRate * 100.0);
    }

    /** `updateCPUUsage`. */
    method UpdateCPUUsage()
      requires cpuPower >= 1
      modifies this`cpuUsage
      ensures cpuUsage == CpuUsage(|activeHacks|, cpuPower)
    {
      cpuUsage := Min(100.0, (|activeHacks| as real / cpuPower as real) * 100.0);
    }

    /** `processRandomEvents(deltaTime)`: an event fires when the roll is
        below deltaTime * 0.1; the pick chooses which one. */
    method ProcessRandomEvents(dt: real, roll: real, pick: real) returns (fired: Option<RandomEvent>)
      requires Valid() && 0.0 <= pick < 1.0
      modifies this`detectionRisk, this`btc, this`cpuUsage
      ensures Valid()
      ensures fired == if roll < dt * 0.1 then Some(PickEvent(pick)) else None
      ensures fired == Some(SecurityScan) ==> detectionRisk == old(detectionRisk) + 20.0
      ensures fired != Some(SecurityScan) ==> detectionRisk == old(detectionRisk)
      ensures fired == Some(Vulnerability) ==> btc == old(btc) + 0.05
      ensures fired != Some(Vulnerability) ==> btc == old(btc)
      ensures fired == Some(NetworkGlitch) ==> cpuUsage == GlitchCpu(old(cpuUsage))
      ensures fired != Some(NetworkGlitch) ==> cpuUsage == old(cpuUsage)
    {
      if roll < dt * 0.1 {
        var event := PickEvent(pick);
        var _ := ProcessEvent(event);
        return Some(event);
      }
      return None;
    }

    /** `processEvent(event)`. */
    method ProcessEvent(event: RandomEvent) returns (message: string)
      requires Valid()
      modifies this`detectionRisk, this`btc, this`cpuUsage
      ensures Valid()
      ensures detectionRisk == old(detectionRisk) + (if event == SecurityScan then 20.0 else 0.0)
      ensures btc == old(btc) + (if event == Vulnerability then 0.05 else 0.0)
      ensures cpuUsage == if event == NetworkGlitch then GlitchCpu(old(cpuUsage)) else old(cpuUsage)
      ensures message == EventMessage(event)
    {
      match event {
        case SecurityScan => detectionRisk := detectionRisk + 20.0;
        case Vulnerability => btc := btc + 0.05;
        case NetworkGlitch => cpuUsage := Max(0.0, cpuUsage + -10.0);
      }
      message := EventMessage(event);
    }

    /** `canAfford(cost)`: exactly the guard under which `spendMoney`
        pays. */
    function CanAfford(cost: real): (ok: bool)
      reads this
      ensures ok <==> Spend(money, cost).ok
    {
      money >= cost
    }

    /** `spendMoney(amount)`. */
    method SpendMoney(amount: real) returns (ok: bool)
      modifies this`money
      ensures Spent(ok, money) == Spend(old(money), amount)
    {
      if !CanAfford(amount) {
        return false;
      }
      money := money - amount;
      return true;
    }

    /** `earnMoney(amount)`. */
    method EarnMoney(amount: real)
      modifies this`money
      ensures money == old(money) + amount
    {
      money := money + amount;
    }

    /** `spendBTC(amount)`. */
    method SpendBTC(amount: real) returns (ok: bool)
      requires Valid()
      modifies this`btc
      ensures Valid()
      ensures Spent(ok, btc) == Spend(old(btc), amount)
    {
      if btc >= amount {
        btc := btc - amount;
        return true;
      }
      return false;
    }

    function CalculateDailyOperatingCosts(): real
      reads this
    {
      DailyOperatingCost(connections, |activeHacks|, securityLevel)
    }

    /** `updateSecurityMeasures`. Its call of the missing `this.log` member,
        made when the risk ends above 80, would throw; `ok` is false then. */
    method UpdateSecurityMeasures() returns (ok: bool)
      modifies this`detectionRisk
      ensures detectionRisk == SecurityRisk(old(detectionRisk), |activeHacks|, securityLevel)
      ensures detectionRisk <= 100.0
      ensures ok <==> detectionRisk <= 80.0
    {
      detectionRisk := Min(100.0, detectionRisk + (|activeHacks| as real * 2.0) - (securityLevel as real * 0.5));
      ok := detectionRisk <= 80.0;
    }

    /** `onNewDay`: pays the daily operating cost when BTC covers it, then
        raises the security measures. Replacing the available targets is not
        modelled. `ok` is false when the security step throws. */
    method OnNewDay() returns (ok: bool)
      requires Valid()
      modifies this`btc, this`detectionRisk
      ensures Valid()
      ensures btc == Spend(old(btc), DailyOperatingCost(connections, |activeHacks|, securityLevel)).balance
      ensures detectionRisk == SecurityRisk(old(detectionRisk), |activeHacks|, securityLevel)
      ensures ok <==> detectionRisk <= 80.0
    {
      var operatingCosts := CalculateDailyOperatingCosts();
      var _ := SpendBTC(operatingCosts);
      ok := UpdateSecurityMeasures();
    }

    function GetPhaseMultiplier(): real
      reads this
    {
      PhaseMultiplier(devPhase)
    }

    /** `updateTaskProgress(deltaTime)`: creates the current phase's task
        list on first use, then moves every unfinished task forward by
        0.01 * deltaTime * staff. */
    method UpdateTaskProgress(dt: real)
      requires Valid() && dt >= 0.0
      modifies this`taskProgress
      ensures Valid()
      ensures old(project) == null ==> taskProgress == old(taskProgress)
      ensures old(project) != null ==>
        taskProgress == old(taskProgress)[devPhase := AdvanceTasks(PhaseTasks(old(taskProgress), devPhase), TaskGain(dt, staff))]
    {
      if project == null {
        return;
      }
      var phase := devPhase;
      if phase !in taskProgress {
        taskProgress := taskProgress[phase := DefaultTasks];
      }
      var tasks := taskProgress[phase];
      ghost var before := tasks;
      assert before == PhaseTasks(old(taskProgress), phase);
      var amount := TaskGain(dt, staff);
      var i := 0;
      while i < |tasks|
        invariant 0 <= i <= |tasks| && |tasks| == |before|
        invariant forall k :: 0 <= k < i ==> tasks[k] == TaskStep(before[k], amount)
        invariant forall k :: i <= k < |tasks| ==> tasks[k] == before[k]
      {
        if tasks[i].progress < 1.0 {
          tasks := tasks[i := tasks[i].(progress := Min(1.0, tasks[i].progress + amount))];
        }
        i := i + 1;
      }
      assert tasks == AdvanceTasks(before, amount);
      AdvanceTasksBounds(before, amount);
      taskProgress := taskProgress[phase := tasks];
      assert taskProgress == old(taskProgress)[phase := tasks];
    }

    /** `updateDevPhase`. It returns nothing, so the caller's "phase
        changed" branch is never taken. */
    method UpdateDevPhase()
      requires project != null
      modifies this`devPhase
      ensures devPhase == PhaseFor(project.progress)
    {
      var progress := project.progress;
      if progress < 0.25 {
        devPhase := Planning;
      } else if progress < 0.5 {
        devPhase := Development;
      } else if progress < 0.75 {
        devPhase := Testing;
      } else {
        devPhase := Polishing;
      }
    }

    /** `setProject(project)`. */
    method SetProject(p: Project)
      requires Valid()
      modifies this`project, this`money, this`hype, this`isRunning
      ensures Valid()
      ensures project == p && money == p.budget && hype == Max(old(hype), p.hype) && isRunning
    {
      project := p;
      money := p.budget;
      hype := Max(hype, p.hype);
      isRunning := true;
    }

    /** `calculateEarnings`, with `hypePow` standing for Math.pow(hype, 1.5). */
    function CalculateEarnings(hypePow: real): int
      requires Valid()
      reads this, project
    {
      if project == null then 0 else Earnings(project.budget, project.staff, staff, hypePow)
    }

    /** `completeProject`: banks the earnings, adds floor(1.5 * staff) hype
        when there is staff, and ends the project. */
    method CompleteProject(hypePow: real) returns (earnings: int)
      requires Valid() && IsPow15(hype, hypePow)
      modifies this`money, this`hype, this`project, this`isRunning
      ensures Valid()
      ensures earnings == old(CalculateEarnings(hypePow))
      ensures money == old(money) + earnings as real
      ensures hype == old(hype) + (if staff > 0 then (staff as real * 1.5).Floor as real else 0.0)
      ensures project == null && !isRunning
    {
      earnings := CalculateEarnings(hypePow);
      EarnMoney(earnings as real);
      if staff > 0 {
        hype := hype + (staff as real * 1.5).Floor as real;
      }
      project := null;
      isRunning := false;
    }

    /** The first half of a running `update` tick: the hacks, mining, a
        random event and the game-over check. */
    method TickHacking(dt: real, draws: TickDraws)
      requires Valid() && dt >= 0.0 && draws.InRange()
      modifies this`activeHacks, this`btc, this`reputation, this`detectionRisk, this`cpuUsage,
        this`isGameOver, this`isPaused
      ensures Valid()
    {
      UpdateHacks(dt);
      UpdateMining(dt);
      var _ := ProcessRandomEvents(dt, draws.eventRoll, draws.eventPick);
      var _ := CheckGameOver();
    }

    /** The project step of a running `update` tick: development time,
        the project's progress, the tasks of the current phase and the bug
        roll. It returns how many bugs were found. */
    method AdvanceProject(dt: real, draws: TickDraws) returns (found: int)
      requires Valid() && dt >= 0.0 && draws.InRange()
      requires isRunning && project != null
      modifies this`devTime, this`taskProgress, this`bugs, project`progress
      ensures Valid()
      ensures devTime == old(devTime) + dt
      ensures project.progress == ProjectProgressAfter(old(project.progress), staff, devPhase, dt)
      ensures found == BugsFound(draws.bugRoll, draws.bugDraw, staff, dt) && found >= 0
      ensures bugs == old(bugs) + found
      ensures taskProgress
        == old(taskProgress)[devPhase := AdvanceTasks(PhaseTasks(old(taskProgress), devPhase), TaskGain(dt, staff))]
    {
      devTime := devTime + dt;
      project.progress := ProjectProgressAfter(project.progress, staff, devPhase, dt);
      UpdateTaskProgress(dt);
      found := BugsFound(draws.bugRoll, draws.bugDraw, staff, dt);
      bugs := bugs + found;
    }

    /** A running `update` tick's project part: the project step and then,
        unless bugs were found, the phase update and the completion when
        the progress reached 1. `stop` tells whether the tick ended here. */
    method TickProject(dt: real, draws: TickDraws, hypePow: real) returns (stop: bool)
      requires Valid() && dt >= 0.0 && draws.InRange() && IsPow15(hype, hypePow)
      requires isRunning && project != null
      modifies this`devTime, this`taskProgress, this`bugs, this`devPhase, this`money, this`hype,
        this`project, this`isRunning, project`progress
      ensures Valid()
      ensures devTime == old(devTime) + dt
      ensures old(project).progress == ProjectProgressAfter(old(project.progress), staff, old(devPhase), dt)
      ensures bugs == old(bugs) + BugsFound(draws.bugRoll, draws.bugDraw, staff, dt)
      ensures taskProgress
        == old(taskProgress)[old(devPhase) := AdvanceTasks(PhaseTasks(old(taskProgress), old(devPhase)), TaskGain(dt, staff))]
      ensures stop <==> bugs > old(bugs) || project == null
      ensures bugs > old(bugs) ==> devPhase == old(devPhase)
      ensures bugs == old(bugs) ==> devPhase == PhaseFor(old(project).progress)
      ensures project == null <==> bugs == old(bugs) && old(project).progress >= 1.0
      ensures project != null ==>
        project == old(project) && isRunning && money == old(money) && hype == old(hype)
      ensures project == null ==>
        && !isRunning
        && money == old(money) + Earnings(old(project).budget, old(project).staff, staff, hypePow) as real
        && hype == old(hype) + (if staff > 0 then (staff as real * 1.5).Floor as real else 0.0)
    {
      var found := AdvanceProject(dt, draws);
      if found > 0 {
        return true;
      }
      UpdateDevPhase();
      if project.progress >= 1.0 {
        var _ := CompleteProject(hypePow);
        return true;
      }
      return false;
    }

    /** `update()` at clock reading `now` (milliseconds). Outside a running
        session only the clock stamp moves; otherwise the elapsed seconds
        drive one tick. */
    method Update(now: real, draws: TickDraws, hypePow: real)
      requires Valid() && now >= lastUpdate && draws.InRange()
      requires IsPow15(hype, hypePow)
      modifies this, project
      ensures Valid()
      ensures lastUpdate == now
      ensures !Ticks(old(Flags())) ==>
        State() == old(State()) && (old(project) != null ==> unchanged(old(project)))
      ensures Ticks(old(Flags())) ==> uptime == old(uptime) + (now - old(lastUpdate)) / 1000.0
    {
      if !isGameStarted || isPaused || isGameOver {
        lastUpdate := now;
        return;
      }
      var dt := (now - lastUpdate) / 1000.0;
      lastUpdate := now;
      Tick(dt, draws, hypePow);
    }

    /** The body of a running `update` tick of `dt` seconds: uptime, the
        hacks, mining, random events and the game-over check, the daily
        upkeep on a day change (a throw there ends the tick), the project,
        and the daily follower roll. */
    method Tick(dt: real, draws: TickDraws, hypePow: real)
      requires Valid() && dt >= 0.0 && draws.InRange() && IsPow15(hype, hypePow)
      modifies this`uptime, this`activeHacks, this`btc, this`reputation, this`detectionRisk, this`cpuUsage,
        this`isGameOver, this`isPaused, this`devTime, this`taskProgress, this`bugs, this`devPhase,
        this`money, this`hype, this`project, this`isRunning, this`followers, project
      ensures Valid()
      ensures uptime == old(uptime) + dt
    {
      uptime := uptime + dt;
      TickHacking(dt, draws);
      TickStudio(DayIndex(uptime) > DayIndex(uptime - dt), dt, draws, hypePow);
    }

    /** The rest of `update` after the hacking step: the daily upkeep when a
        new day began, the project step, and the daily follower roll. */
    method TickStudio(newDay: bool, dt: real, draws: TickDraws, hypePow: real)
      requires Valid() && dt >= 0.0 && draws.InRange() && IsPow15(hype, hypePow)
      modifies this`btc, this`detectionRisk, this`devTime, this`taskProgress, this`bugs, this`devPhase,
        this`money, this`hype, this`project, this`isRunning, this`followers, project
      ensures Valid()
    {
      if newDay {
        var ok := OnNewDay();
        if !ok {
          return;
        }
      }
      if isRunning && project != null {
        var stop := TickProject(dt, draws, hypePow);
        if stop {
          return;
        }
      }
      if newDay {
        RollFollowers(draws.followerRoll, draws.followerDraw);
      }
    }

    /** The daily follower roll of `update`. */
    method RollFollowers(roll: real, draw: real)
      requires 0.0 <= draw < 1.0
      modifies this`followers
      ensures followers == old(followers) + FollowerGain(roll, draw, reputation)
    {
      if roll < 0.3 + reputation as real * 0.01 {
        followers := followers + (draw * reputation as real + 1.0).Floor;
      }
    }
  }
}
