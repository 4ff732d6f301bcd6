# fuzzy-octo game core in Dafny

This project models the simulation core of the browser game in
`src/models`, `src/controllers` and `src/views/UI.js`. The core has three parts:

- **The hacking economy of `Game`.** Hacks occupy CPU slots, gain progress each
  tick and pay out BTC and reputation when they finish. Every running hack
  raises the detection risk. Mining credits BTC per hour and raises CPU usage.
  Random events (security scan, vulnerability, network glitch) change risk,
  BTC or CPU usage. The session flags (started, paused, game over) decide
  whether a tick runs at all, and a detection risk of 100 ends the game once.
  A daily upkeep pays operating costs in BTC and raises the security measures.
- **The studio simulation.** A `Project` made from the `indie`/`rpg`/`shooter`
  template table moves through its milestones. `Staff` and `Marketing` make
  purchases guarded by the game's money. The `EventController` fires at most one
  event of its table per update: the first one whose draw falls below its
  chance. The `ProjectController` guards the start of a project, pays a bonus
  per milestone and completes the project after its last milestone. The
  `Game` object's own project tick covers the development phase, the phase
  multiplier, task progress, bugs and followers.
- **The display helpers of `UI`.** These cover:
  - progress-bar percent and classes;
  - the hack cards;
  - the signatures that suppress re-rendering of the upgrade and research lists;
  - the log-type derivation;
  - the bounded code stream and the activity tail;
  - the drain of the game's event queue;
  - the 120 ms click debounce.

Layout:

- `common.dfy`: `Option`, `Min` and `Max` (JavaScript's `Math.min`/`Math.max`).
- `game_rules.dfy` (module `GameRules`): the rules of `Game.js` as functions on
  values, with their lemmas. It covers the hack filter loop (`Sweep`, with the
  reference views `Unfinished`/`Finished`), CPU usage, random events, session
  flags, guarded spending, daily upkeep, phases, tasks and earnings.
- `game.dfy` (module `GameModel`): the class `Game` with the source's fields.
  Each of its methods updates those fields and is proved against the functions
  of `GameRules`. `Valid()` is the invariant all of them keep:
  - the active hacks fit in the CPU slots and none of them is finished;
  - CPU usage lies in [0, 100];
  - BTC, staff and hype are not negative;
  - task progress lies in [0, 1].
- `project.dfy`, `staff.dfy`, `marketing.dfy`, `event_controller.dfy`,
  `project_controller.dfy`: one module per source file. Each has a class whose
  methods update the shared `Game` and a pure function that states the step.
- `ui.dfy` (module `UIView`): the helper functions and a `UI` class. The class
  holds the state kept across calls (signatures, click stamps, the log, the
  code stream) and the rendered views as values.

Inputs that come from outside are parameters:

- Clock readings (`Date.now`, `performance.now`) are passed in as milliseconds.
- Every `Math.random()` draw is passed in as a number in [0, 1).
- The value of `Math.pow(hype, 1.5)` is passed in as `hypePow`. The
  precondition `IsPow15(hype, hypePow)` (`hypePow >= 0`, `hypePow² = hype³`)
  ties it to hype.
- The results of the missing `calculateDifficulty`/`calculateReward` are passed
  in as the `difficulty` (> 0) and `reward` (≥ 0) of `StartHack`.

Numbers are exact `real`s and counts are `int`s, so double rounding does not
arise. `Math.floor` is `.Floor`.

What `Game.js` does, in the points that shape the model:

- `Game.js` has no staged hacks, no trace or grace state machine and
  no upgrade or research engine. A hack is a single `progress` value that
  finishes at 1.
- A finished hack earns `floor(difficulty * 10)` reputation and lowers the risk
  by 10 (src/models/Game.js:176-177).
- The capacity is `cpuPower`, which the code fixes at 1.
- The daily `updateSecurityMeasures` caps risk at 100 but does not floor it at
  0. With no running hack and security level 1, a risk below 0.5 becomes
  negative (`GameRules.SecurityRiskCanGoNegative`). So "risk is never negative"
  holds for the hack loop (`GameRules.SweepRiskNonNegative`) but not for the
  game as a whole.
- `src/models/Game.js` defines `getState` twice (lines 3-28 and 30-55), and
  `src/views/UI.js` defines `updateUpgrades` twice (196-215 and 328-347). In
  both cases the later definition wins. The two `updateUpgrades` bodies are
  identical, and the later one is the one modelled.
- The template table of `src/models/Project.js` is not the table inside
  `Game.startProject`. In `Game.startProject` indie has budget 5000 and hype 5,
  and rpg needs 5 staff; in `Project.js` they are 10000, 10 and 4. The model uses the `Project.js`
  table, which is the one the start button goes through.

## Model

| member | source | states |
|---|---|---|
| GameRules.Advanced | src/models/Game.js:159 | advancing a hack changes its progress and nothing else |
| GameRules.ReputationFor | src/models/Game.js:176 | the reputation of a finished hack is the non-negative integer with n ≤ difficulty·10 < n+1 |
| GameRules.Credit | src/models/Game.js:174-178 | `completeHack` adds the reward to BTC and floor(difficulty·10) to reputation; it lowers the risk by exactly 10 when risk ≥ 10 and to 0 otherwise, so the risk is never negative and never rises |
| GameRules.Unfinished | src/models/Game.js:158-169 | the reference list of survivors is never longer than the input and holds no finished hack |
| GameRules.Finished | src/models/Game.js:161-164 | the reference list of completed hacks is never longer than the input, and each of its hacks has progress ≥ 1 |
| GameRules.SweepKeepsUnfinished | src/models/Game.js:158-169 | the filter loop keeps exactly the advanced unfinished hacks, in their original order |
| GameRules.SweepCreditsFinished | src/models/Game.js:161-163 | the filter loop credits the rewards and reputations of exactly the finished hacks |
| GameRules.RiskAdded | src/models/Game.js:167 | the risk a list of running hacks adds over a tick is never negative for dt ≥ 0 |
| GameRules.SweepRiskStep | src/models/Game.js:161-167 | the last hack of the loop either finishes (risk −10 floored at 0, one more finished hack, no risk added) or is kept (its risk·dt/100 added) |
| GameRules.SweepRiskBounds | src/models/Game.js:161-167 | the loop's risk is at least start + Σ risk·dt/100 over the kept hacks − 10 per finished hack; for start ≥ 0 and dt ≥ 0 it is at most start + that sum; when start ≥ 10 per finished hack it equals the lower bound |
| GameRules.SweepRiskNonNegative | src/models/Game.js:167 | for dt ≥ 0 the loop never makes a non-negative risk negative |
| GameRules.SweepSummary | src/models/Game.js:157-169 | the list never grows, every survivor has progress < 1, BTC never falls, BTC and reputation grow by the finished hacks' rewards, and the risk is at least start + added risk − 10 per finished hack |
| GameRules.CpuUsage | src/models/Game.js:187-189 | CPU usage lies in [0, 100] and is exactly 100 when every slot is taken |
| GameRules.CpuUsageShare | src/models/Game.js:188 | below capacity, usage·cpuPower = 100·active |
| GameRules.MiningRate | src/models/Game.js:182 | mining credits power BTC per hour: rate·3600 = power·dt, never negative |
| GameRules.MinedCpu | src/models/Game.js:184 | mining raises CPU usage by rate·100 and caps it at 100; it never lowers a usage in range |
| GameRules.PickEvent | src/models/Game.js:198-205 | a draw in [0, 1/3) picks the security scan, [1/3, 2/3) the vulnerability, [2/3, 1) the network glitch |
| GameRules.GlitchCpu | src/models/Game.js:215-216 | the network glitch lowers CPU usage by 10, floored at 0 |
| GameRules.Toggle | src/models/Game.js:227-234 | `togglePause` returns false and changes nothing before the start or after game over; otherwise it flips pause and returns the new value |
| GameRules.ToggleTwice | src/models/Game.js:227-234 | two toggles restore the flags |
| GameRules.Start | src/models/Game.js:123-128 | `startGame` leaves the game started and unpaused, with game-over unchanged |
| GameRules.CheckOver | src/models/Game.js:130-137 | the check fires exactly when risk ≥ 100 and the game is not over; firing sets game-over and pause, otherwise nothing changes |
| GameRules.CheckOverOneShot | src/models/Game.js:130-137 | after it fires, any later check returns false and changes nothing, whatever the risk |
| GameModel.Game.CanAfford | src/models/Game.js:491-493 | `canAfford` holds exactly when `Spend` of the cost succeeds |
| GameRules.Spend | src/models/Game.js:491-499 | a spend succeeds exactly when the balance covers it; success deducts the amount, failure leaves the balance; a non-negative balance stays non-negative |
| GameRules.SpendAllBounds | src/models/Game.js:573-579 | no series of guarded spends makes a non-negative balance negative, and non-negative spends never raise it |
| GameRules.DailyOperatingCost | src/models/Game.js:411-421 | the daily cost is 0.001 + 0.0001 per connection + 0.0002 per active hack + 0.0005 per security level |
| GameRules.SecurityRisk | src/models/Game.js:430-437 | the daily security step never leaves the risk above 100; below the cap it is risk + 2·active − 0.5·securityLevel |
| GameRules.SecurityRiskCanGoNegative | src/models/Game.js:432-437 | with no hack and security level 1, a risk in [0, 0.5) ends the day below 0 |
| GameRules.FollowerGain | src/models/Game.js:379-386 | no gain when the roll is ≥ 0.3 + reputation/100; otherwise between 1 and max(reputation, 1) new followers |
| GameRules.BugsFound | src/models/Game.js:357-361 | bugs appear exactly when the roll is below (0.05 + 0.01·staff)·dt, and then between 1 and max(staff, 1) of them |
| GameRules.PhaseFor | src/models/Game.js:478-489 | the phase is Planning below 0.25, Development below 0.5, Testing below 0.75, Polishing otherwise (each as an if-and-only-if) |
| GameRules.PhaseForMonotone | src/models/Game.js:478-489 | more progress never gives an earlier phase |
| GameRules.PhaseMultiplier | src/models/Game.js:447-455 | Planning 0.7, Development 1.2, Testing 0.8, Polishing 0.5; only Development speeds work up |
| GameRules.ProjectProgressAfter | src/models/Game.js:347-351 | project progress never exceeds 1, never falls, and below the cap grows by 0.01·(1 + staff/2)·multiplier·dt |
| GameRules.TaskStep | src/models/Game.js:471-475 | a task keeps its name, its progress never falls for a non-negative gain, never exceeds max(1, old), and a finished task is left alone |
| GameRules.TaskGain | src/models/Game.js:473 | the per-tick task gain is non-negative for non-negative dt and staff |
| GameRules.AdvanceTasksBounds | src/models/Game.js:471-475 | the forEach over the tasks keeps names and order, progress non-decreasing and within [0, 1] |
| GameRules.EarningsAmount | src/models/Game.js:536-546 | earnings are 1.5·base when exactly staffed, at least that when overstaffed, between base/2 and base when understaffed |
| GameRules.Earnings | src/models/Game.js:527-549 | `calculateEarnings` is the floor of the amount above, with the same bounds after rounding |
| GameModel.Game.constructor | src/models/Game.js:56-121 | a new game holds the values `initializeGame` assigns, money and staff are 0, and the invariant holds |
| GameModel.Game.InitializeGame | src/models/Game.js:60-121 | `initializeGame` resets every field it names and keeps money and staff, which it never assigns |
| GameModel.Game.RestartGame | src/models/Game.js:222-225 | a restart re-initialises the game and returns its message |
| GameModel.Game.StartGame | src/models/Game.js:123-128 | the flags become those of `Start`, and the clock stamp is the current time |
| GameModel.Game.CheckGameOver | src/models/Game.js:130-137 | the flags and the result are those of `CheckOver` |
| GameModel.Game.TogglePause | src/models/Game.js:227-234 | the flags and the result are those of `Toggle`; the clock stamp moves only on resume |
| GameModel.Game.StartHack | src/models/Game.js:139-155 | at capacity: the CPU error message, with hacks and CPU usage unchanged; otherwise the new hack is appended at progress 0 with risk 20·draw and CPU usage is recomputed |
| GameModel.Game.UpdateHacks | src/models/Game.js:157-172 | the hacks and balances become those of `Sweep`, and the hacks are exactly `Unfinished`; CPU usage is recomputed and the invariant kept |
| GameModel.Game.FilterHacks | src/models/Game.js:158-169 | the filter loop over the hacks computes `Sweep`, keeps only unfinished hacks, never grows the list and never lowers BTC |
| GameModel.Game.FilterCallback | src/models/Game.js:158-168 | one callback is one `Visit` step |
| GameModel.Game.CompleteHack | src/models/Game.js:174-179 | `completeHack` is the `Credit` step |
| GameModel.Game.UpdateMining | src/models/Game.js:181-185 | BTC grows by the mining rate and CPU usage becomes `MinedCpu`, keeping the invariant |
| GameModel.Game.UpdateCPUUsage | src/models/Game.js:187-189 | CPU usage becomes `CpuUsage(active, cpuPower)` |
| GameModel.Game.ProcessRandomEvents | src/models/Game.js:191-196 | an event fires exactly when the roll is below dt·0.1; the picked event's field alone changes |
| GameModel.Game.ProcessEvent | src/models/Game.js:207-220 | a scan adds 20 risk, a vulnerability adds 0.05 BTC, a glitch lowers CPU usage by 10 floored at 0; each touches only its field |
| GameModel.Game.SpendMoney | src/models/Game.js:495-499 | `spendMoney` is `Spend` on money |
| GameModel.Game.EarnMoney | src/models/Game.js:501-503 | money grows by the amount |
| GameModel.Game.SpendBTC | src/models/Game.js:573-579 | `spendBTC` is `Spend` on BTC, keeping BTC non-negative |
| GameModel.Game.UpdateSecurityMeasures | src/models/Game.js:430-445 | risk becomes `SecurityRisk`, at most 100; the step fails (the missing `log` throws) exactly when risk ends above 80 |
| GameModel.Game.OnNewDay | src/models/Game.js:389-409 | the daily cost is paid when BTC covers it, then the security step runs |
| GameModel.Game.UpdateTaskProgress | src/models/Game.js:457-476 | without a project nothing changes; otherwise the phase's task list (created on first use) is advanced by `AdvanceTasks`, keeping progress in [0, 1] |
| GameModel.Game.UpdateDevPhase | src/models/Game.js:478-489 | the phase becomes `PhaseFor(progress)` |
| GameModel.Game.SetProject | src/models/Game.js:505-511 | the project is installed, money becomes its budget, hype becomes max(hype, project hype), and the game is running |
| GameModel.Game.CompleteProject | src/models/Game.js:513-525 | earnings are banked, hype grows by floor(1.5·staff) when there is staff, and the project is cleared and stopped |
| GameModel.Game.TickHacking | src/models/Game.js:328-331 | hacks, mining, a random event and the game-over check keep the invariant |
| GameModel.Game.AdvanceProject | src/models/Game.js:343-359 | dev time grows by dt, project progress becomes `ProjectProgressAfter`, the current phase's tasks are advanced (the call at line 354) by `TaskGain`, and bugs grow by `BugsFound` |
| GameModel.Game.TickProject | src/models/Game.js:342-373 | the tasks advance; the tick stops early exactly when bugs were found or the project completed; with bugs the phase is kept, without them it becomes `PhaseFor(progress)`; the project is cleared exactly when no bug was found and progress reached 1, and then money grows by `Earnings`, hype by floor(1.5·staff) with staff, and the game stops; otherwise project, money, hype and running are unchanged |
| GameModel.Game.Update | src/models/Game.js:314-322 | when not started, paused or over, only the clock stamp moves; otherwise uptime grows by the elapsed seconds |
| GameModel.Game.Tick | src/models/Game.js:324-386 | a running tick adds dt to uptime and keeps the invariant |
| GameModel.Game.TickStudio | src/models/Game.js:333-386 | the daily upkeep, the project step and the follower roll keep the invariant |
| GameModel.Game.RollFollowers | src/models/Game.js:379-386 | followers grow by `FollowerGain` |
| Projects.TemplateOf | src/models/Project.js:1-5 | every template has a positive budget and hype, needs at least 2 staff and has at least 3 milestones |
| Projects.Advance | src/models/Project.js:16-26 | a milestone is reached exactly when progress + 2·staff ≥ 100; then progress is 0 and the milestone grows by 1, otherwise progress grows and the milestone is unchanged; progress stays below 100 |
| Projects.RunMilestones | src/models/Project.js:16-26 | over a series of calls the milestone grows by exactly the number reported, never falls, and grows by at most one per call |
| Projects.CompleteAfterAllMilestones | src/models/Project.js:28-30 | a fresh project is complete exactly when at least as many milestones as its template lists were reported |
| Projects.StaffedProjectReachesMilestone | src/models/Project.js:17-23 | with staff ≥ 1 on every call, a milestone is reported within (100 − progress)/2 calls |
| Projects.Project.constructor | src/models/Project.js:8-14 | a new project copies its template and starts at progress 0, milestone 1 |
| Projects.Project.AdvanceProgress | src/models/Project.js:16-26 | `advanceProgress` is the `Advance` step: progress < 100 afterwards and the milestone grows by 0 or 1 |
| StaffModel.Hired | src/models/Staff.js:12-18 | a hire succeeds exactly when money ≥ 2000; it then costs 2000 and adds one staff member, and otherwise changes nothing |
| StaffModel.Fired | src/models/Staff.js:20-24 | a fire succeeds exactly when staff > 0 and removes one; money is untouched, and staff never goes negative |
| StaffModel.FireUndoesHire | src/models/Staff.js:12-24 | hire then fire restores the head count, 2000 poorer |
| StaffModel.ActionsKeepCrewSound | src/models/Staff.js:12-24 | under any button sequence, money and staff stay non-negative and money falls by exactly 2000 per successful hire |
| StaffModel.Staff.CanHire | src/models/Staff.js:8-10 | `canHire` holds exactly when `Hired` succeeds on the game's money and staff |
| StaffModel.Staff.Hire | src/models/Staff.js:12-18 | `hire` is `Hired` on the game's money and staff |
| StaffModel.Staff.Fire | src/models/Staff.js:20-24 | `fire` is `Fired` on the game's money and staff |
| StaffModel.Staff.GetProductivity | src/models/Staff.js:26-28 | productivity is the progress one `advanceProgress` call makes, 2 per staff member |
| MarketingModel.Launched | src/models/Marketing.js:12-18 | a campaign succeeds exactly when money ≥ 1000; it then costs 1000 and adds 5 hype, and otherwise changes nothing |
| MarketingModel.HypeAfterLoss | src/models/Marketing.js:20-22 | hype after a loss is never negative, never above the old value for a non-negative amount, and exactly hype − amount when positive |
| MarketingModel.LossesAdd | src/models/Marketing.js:20-22 | two losses are one loss of their sum |
| MarketingModel.CampaignThenLoss | src/models/Marketing.js:12-22 | losing the 5 hype a campaign bought restores the hype |
| MarketingModel.Marketing.CanLaunchCampaign | src/models/Marketing.js:8-10 | `canLaunchCampaign` holds exactly when `Launched` succeeds on the game's money and hype |
| MarketingModel.Marketing.LaunchCampaign | src/models/Marketing.js:12-18 | `launchCampaign` is `Launched` on the game's money and hype |
| MarketingModel.Marketing.LoseHype | src/models/Marketing.js:20-22 | `loseHype` (default amount 1) sets hype to `HypeAfterLoss` |
| EventControl.Effect | src/controllers/EventController.js:5-43 | the effects are money −1000; hype +5; staff −1 only when staff > 1; money +2000; hype max(0, hype−3); each touches one field, and staff ≥ 1 and hype ≥ 0 are kept |
| EventControl.FirstFiring | src/controllers/EventController.js:49-55 | the chosen entry's draw is below its chance and every earlier draw is not; with no choice, no draw is below its chance |
| EventControl.FirstFiringIsFirst | src/controllers/EventController.js:49-55 | conversely, an entry that fires after entries that did not is the one chosen |
| EventControl.Fired | src/controllers/EventController.js:49-55 | no event fires exactly when every draw is at or above its chance; otherwise the first firing entry's event fires |
| EventControl.EffectsKeepStudio | src/controllers/EventController.js:8-41 | over any series of events, staff ≥ 1 and hype ≥ 0 are kept, staff never grows, and money moves by at most −1000 or +2000 per event |
| EventControl.EventController.constructor | src/controllers/EventController.js:2-44 | the controller holds the five-entry event table |
| EventControl.EventController.Execute | src/controllers/EventController.js:8-41 | one `execute` closure applies `Effect` |
| EventControl.EventController.Update | src/controllers/EventController.js:46-56 | when not running nothing changes; otherwise at most one event, `Fired(draws)`, is applied |
| ProjectControl.StartDecision | src/controllers/ProjectController.js:27-40 | a start is refused while running, refused when staff < the template's staff, and accepted otherwise (each an if-and-only-if) |
| ProjectControl.MilestoneBonus | src/controllers/ProjectController.js:80 | the bonus is 3000 + 100·hype, at least 3000 for non-negative hype |
| ProjectControl.BonusPerMilestone | src/controllers/ProjectController.js:76-81 | at fixed hype, the bonuses paid equal one bonus per milestone step |
| ProjectControl.ProjectController.StartProject | src/controllers/ProjectController.js:27-54 | a refusal changes nothing; a start installs a fresh project at milestone 1, money = budget, hype = max(hype, project hype), running |
| ProjectControl.ProjectController.Update | src/controllers/ProjectController.js:73-101 | no-op without a running project; money rises by the bonus exactly when a milestone is reached; after the last milestone the project completes and is cleared |
| UIView.ProgressBar | src/views/UI.js:271-278 | percent is the value clamped to [0, 100]; warning iff percent ≥ 70, danger iff ≥ 90, so danger implies warning |
| UIView.CurrentStage | src/views/UI.js:284-286 | the current stage exists exactly when there are stages and the index is in range |
| UIView.HackPercent | src/views/UI.js:287-292 | a timed stage gives min(100, elapsed/duration·100); otherwise 100 if completed, else 0; never above 100 |
| UIView.BarClassOf | src/views/UI.js:294-298 | bar class priority is failed > complete > high (> 80) > mid (> 50) |
| UIView.StatusOf | src/views/UI.js:293 | failed before complete; otherwise the current stage name |
| UIView.CardOf | src/views/UI.js:283-307 | the stage label is '-' exactly when failed or completed, else index+1; the stage count, status, percent and class are as above |
| UIView.CardConsistent | src/views/UI.js:293-304 | the label, status and bar class of a card agree |
| UIView.Signature | src/views/UI.js:331 | the signature has one `id:level:cost` entry per item, in order |
| UIView.UpgradeSigAgrees | src/views/UI.js:331-333 | two upgrade lists have equal signatures exactly when they agree on id, level and cost position by position |
| UIView.Fixed2 | src/views/UI.js:472 | points to two decimals: the sign, and the nearest hundredths count, ties upward |
| UIView.Fixed2Close | src/views/UI.js:472 | equal two-decimal renderings are less than 0.01 apart |
| UIView.ResearchSigAgrees | src/views/UI.js:472-474 | equal research signatures mean the same entries and points within 0.01 |
| UIView.UpgradeViewOf | src/views/UI.js:335-344 | an upgrade row is affordable exactly when BTC ≥ cost |
| UIView.ResearchViewOf | src/views/UI.js:476-485 | a research row is disabled exactly when points < cost |
| UIView.DerivedType | src/views/UI.js:515-517 | the type is 'risk' after a '[RISK]' prefix, 'trace' after '[TRACE]', and the given type otherwise |
| UIView.SystemLines | src/views/UI.js:448-451 | one 'system' log line per queued event, in queue order |
| UIView.SystemLinesAppend | src/views/UI.js:450 | logging two batches is logging their concatenation |
| UIView.ActivityTail | src/views/UI.js:375 | the tail holds min(10, n) entries, the newest first |
| UIView.ActivityTailPush | src/views/UI.js:375 | a new entry appears on top and pushes the rest down by one |
| UIView.NonBlank | src/views/UI.js:387 | the filter leaves no line that trims to empty (white space and line terminators as `trim` removes them), every other line of the input is in the result, and a list without blanks is unchanged; order and repetitions are stated by the two lemmas below |
| UIView.NonBlankAppend | src/views/UI.js:387 | the filter of a concatenation is the concatenation of the filters, so the kept lines keep their order and repetitions |
| UIView.NonBlankSingle | src/views/UI.js:387 | a single line is dropped exactly when it trims to empty |
| UIView.LastN | src/views/UI.js:388 | the last n elements, or all when fewer |
| UIView.NextStream | src/views/UI.js:379-390 | the stream keeps at most 60 lines, the suffix of the non-blank old lines followed by the new ones, and ends with the new lines |
| UIView.StreamGrows | src/views/UI.js:383-389 | with no blank lines, each update grows the stream by 3 up to 60 lines and keeps it free of blanks |
| UIView.ClickDecision | src/views/UI.js:173-186 | a click is ignored off a button or while paused, is too soon within 120 ms, is dropped without an id, is refused when the balance is short, and otherwise requests the purchase |
| UIView.StampMovesPastDebounce | src/views/UI.js:176-178 | the stamp moves exactly for clicks on a button, while not paused, that pass the debounce |
| UIView.AcceptedSpaced | src/views/UI.js:176-178 | accepted clicks are at least 120 ms after the stamp and at least 120 ms apart |
| UIView.UI.constructor | src/views/UI.js:42-45 | both signatures start empty, both click stamps at 0, and nothing is rendered |
| UIView.UI.RefreshBars | src/views/UI.js:420-422 | the CPU and risk bars are `ProgressBar` of usage and risk; under the game invariant the CPU bar shows the usage itself |
| UIView.UI.UpdateActiveHacks | src/views/UI.js:280-310 | one card per hack, in order |
| UIView.UI.UpdateUpgrades | src/views/UI.js:328-347 | an equal signature changes nothing; otherwise the list is re-rendered; the stored signature is always the list's |
| UIView.UI.UpdateResearch | src/views/UI.js:467-486 | no state or an equal signature changes nothing; otherwise the list is re-rendered against the points |
| UIView.UI.Log | src/views/UI.js:512-523 | one line is appended, with the derived type |
| UIView.UI.FlushGameEvents | src/views/UI.js:448-451 | the queue is emptied and each event logged in original order |
| UIView.UI.UpdateAnalytics | src/views/UI.js:374-376 | the activity list shows `ActivityTail` of the feed when there is one |
| UIView.UI.UpdateCodeStream | src/views/UI.js:379-390 | the stream becomes `NextStream` of the old lines and the three new ones |
| UIView.UpgradeFundsWarning | src/views/UI.js:183 | the short-funds message starts with '[UPGRADE] ' and is logged as a 'warning' |
| UIView.ResearchFundsWarning | src/views/UI.js:499 | the short-funds message starts with '[RESEARCH] ' and is logged as a 'warning' |
| UIView.UI.UpgradeClick | src/views/UI.js:171-187 | the outcome is `ClickDecision` against BTC; the stamp moves only past the debounce; a refusal for short funds appends exactly one 'warning' log line, and every other outcome leaves the log alone |
| UIView.UI.ResearchClick | src/views/UI.js:490-503 | the outcome is `ClickDecision` against the research points, without the id check; the stamp moves only past the debounce; a refusal for short funds appends exactly one 'warning' log line, and every other outcome leaves the log alone |

Four members are plain delegations and carry no contract of their own.
`GameModel.Game.CalculateDailyOperatingCosts` (src/models/Game.js:411-421)
is `GameRules.DailyOperatingCost` on the game's fields.
`GameModel.Game.GetPhaseMultiplier` (src/models/Game.js:447-455) is
`GameRules.PhaseMultiplier` of the current phase.
`GameModel.Game.CalculateEarnings` (src/models/Game.js:527-549) is
`GameRules.Earnings` of the project, or 0 without one.
`Projects.Project.IsComplete` (src/models/Project.js:28-30) is the milestone
test that `Projects.CompleteAfterAllMilestones` characterises. Their rows are
those of the rule functions and the lemma.

## Left out

- `getState` (src/models/Game.js:3-55, two identical copies) and `getProjectStatus` (551-571) are left out. They are snapshot projections for display.
- `startProject` (src/models/Game.js:240-266) is left out. Its only caller is `UI.setupProjectButton`, which is never called and reads an element the UI never looks up. The studio start path goes through `ProjectController` and `setProject`.
- Target generation is left out, because it is all random draws: `generateRandomTargets`, `generateTargetName`, `generateNewTargets` (src/models/Game.js:268-304, 423-428). The `availableTargets` list and the `networkNodes` list are therefore not fields of the model. `OnNewDay` skips the target refresh.
- The fields `timeScale`, `dayLength`, `staffCost`, `gameTime` and `setTimeScale`, and the `encryption` and `antivirus` software entries, are left out. No modelled code reads them.
- `startGameLoop` (`setInterval`, src/models/Game.js:306-312) and the UI's `setInterval`/`setTimeout` calls are left out. The clock is a parameter: `Update` takes `now`, and the tick methods take `dt`.
- GameModel.Game.Update: `Date.now()` is the parameter `now`, in milliseconds. Its contract does not state the tick's individual effects, only the guard, the clock stamp and uptime. The effects are stated by the methods it calls. The model requires `now` to be no earlier than the last stamp: if the wall clock stepped back, the source would tick with a negative `deltaTime` and lower uptime, hack progress and BTC, and the model's invariant (BTC ≥ 0, progress within bounds) does not cover that.
- GameModel.Game.Tick: its contract states only uptime and the invariant. The tick's other effects are stated by `TickHacking`, `TickStudio` and the methods they call.
- GameModel.Game.TickHacking: its contract states only the invariant. Each step's effect is stated by that step's own method.
- GameModel.Game.TickStudio: its contract states only the invariant. Each step's effect is stated by that step's own method.
- GameModel.Game.TickProject: the result of the phase-change check is not modelled, because `updateDevPhase` returns nothing. So the "phase changed" return of `update` (src/models/Game.js:364-367) is never taken.
- GameModel.Game.UpdateSecurityMeasures: the call of the undefined `this.log` throws when risk ends above 80. This is modelled as the result `false`, and `Tick` then stops as the exception would. The thrown error itself is not modelled.
- GameModel.Game.StartHack: `calculateDifficulty` and `calculateReward` are not defined anywhere in the repository's source, so their results are parameters. As written, the source therefore throws a `TypeError` at `this.calculateDifficulty` (src/models/Game.js:147) whenever a slot is free, so `activeHacks` never grows in the running program. The hack-loop lemmas describe the code as it would run with those two functions defined.
- GameModel.Game.CompleteProject: `Math.pow(hype, 1.5)` is the parameter `hypePow`, tied to hype by `IsPow15`.
- GameModel.Game.constructor: `money` and `staff` are never initialised in the source. They start at 0 here.
- UIView.UpgradeSigAgrees: the signature is modelled as a list of `(id, level, cost)` entries rather than the `'|'`-joined string. Ids containing `':'` or `'|'`, or costs whose JavaScript renderings coincide, could make two different lists render the same string. The model treats such lists as different.
- UIView.Fixed2: it models `toFixed(2)` for numbers below 10^21 with exact rounding. Binary floating-point effects on ties are not modelled.
- UIView.UI.UpgradeClick: the purchase itself (`purchaseUpgrade`), its result log line and the delayed re-render are left out. `Game.js` defines no upgrade engine, so the click ends at the requested purchase. The cost's `toFixed(5)` rendering is the parameter `costText`.
- UIView.UI.ResearchClick: the purchase itself (`purchaseResearch`) and its result log line are left out, for the same reason. The research points are a parameter, and the cost's rendering is the parameter `costText`.
- The trace/grace/upgrade/research engine that `UI.js` reads (`updateTraceUI`, `onTraceClick`, `resolveTraceOption`, `traceEventActive`, `graceActive`, `research`, `recentEvents`) is not defined by `Game.js`. Only `flushGameEvents` is modelled, with `recentEvents` as an `EventQueue` object that may be absent.
- DOM construction, `innerHTML` templates, event listeners, panels, `updateHackTargets`, `updateNetworkStatus`, `updateResourceStats` and the numeric formatting with `toFixed`/`toLocaleTimeString` are left out. Rendered rows are modelled as values.
- `randomCodeLine` (src/views/UI.js:392-396) is left out. The three new code lines are a parameter of `UpdateCodeStream`.
- The UI's own hire button handler (src/views/UI.js:144-156, never attached) and the hack button wiring are left out. They are event wiring around `startHack`, `canAfford` and `spendMoney`, which are modelled.
- src/main.js is left out. It holds an unresolved merge conflict, so it is not a loadable file.
- src/views/Scene.js (THREE.js rendering) and vite.config.js (build configuration) are left out.
- JavaScript numbers are IEEE doubles. The model uses exact `real` and `int`, so rounding error and overflow are not modelled.
