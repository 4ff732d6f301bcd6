/** The arithmetic and the decision rules of src/models/Game.js, stated as
    functions over values; the class in game.dfy applies them to its fields. */
module GameRules {
  import opened Common

  type PosReal = r: real | r > 0.0 witness 1.0
  type NonNegReal = r: real | r >= 0.0

  // ---------------------------------------------------------------------
  // Hacks

  /** One record of `activeHacks`: its target, progress towards completion
      (done at 1), difficulty, reward and the risk it adds per second. */
  datatype Hack = Hack(target: string, progress: real, difficulty: PosReal, reward: NonNegReal, risk: NonNegReal)

  /** A hack after one tick of brute force: progress grows by
      power * dt / difficulty and nothing else about it changes. */
  function Advanced(h: Hack, power: real, dt: real): (a: Hack)
    ensures a == h.(progress := a.progress)
  {
    h.(progress := h.progress + power * dt / h.difficulty)
  }

  /** Reputation a completed hack earns: floor(difficulty * 10). */
  function ReputationFor(h: Hack): (n: int)
    ensures n >= 0
    ensures n as real <= h.difficulty * 10.0 < n as real + 1.0
  {
    (h.difficulty * 10.0).Floor
  }

  /** What the `activeHacks` filter loop carries from one hack to the next:
      the hacks kept so far and the balances the callbacks change. */
  datatype Ledger = Ledger(survivors: seq<Hack>, btc: real, reputation: int, risk: real)

  /** `completeHack`: credit the reward and the reputation and lower the
      risk by 10, but not below 0. */
  function Credit(l: Ledger, h: Hack): (r: Ledger)
    ensures r.survivors == l.survivors
    ensures r.btc == l.btc + h.reward && r.reputation == l.reputation + ReputationFor(h)
    ensures r.risk >= 0.0 && r.risk <= Max(0.0, l.risk)
    ensures l.risk >= 10.0 ==> r.risk == l.risk - 10.0
    ensures l.risk <= 10.0 ==> r.risk == 0.0
  {
    l.(btc := l.btc + h.reward, reputation := l.reputation + ReputationFor(h), risk := Max(0.0, l.risk - 10.0))
  }

  /** The filter callback for one hack: advance it; a finished hack is
      credited and dropped, any other one is kept and adds its risk. */
  function Visit(l: Ledger, h: Hack, power: real, dt: real): Ledger
  {
    var a := Advanced(h, power, dt);
    if a.progress >= 1.0 then Credit(l, a)
    else l.(survivors := l.survivors + [a], risk := l.risk + a.risk * dt / 100.0)
  }

  /** The whole filter loop of `updateHacks` over `hs`, in order. */
  function Sweep(hs: seq<Hack>, start: Ledger, power: real, dt: real): Ledger
    decreases |hs|
  {
    if hs == [] then start
    else Visit(Sweep(hs[..|hs| - 1], start, power, dt), hs[|hs| - 1], power, dt)
  }

  /** No hack in the list has finished. */
  predicate AllUnfinished(hs: seq<Hack>)
  {
    forall i :: 0 <= i < |hs| ==> hs[i].progress < 1.0
  }

  /** Reference view: the advanced hacks that are not finished, in order. */
  function Unfinished(hs: seq<Hack>, power: real, dt: real): (r: seq<Hack>)
    ensures |r| <= |hs|
    ensures AllUnfinished(r)
  {
    if hs == [] then []
    else
      var a := Advanced(hs[0], power, dt);
      (if a.progress < 1.0 then [a] else []) + Unfinished(hs[1..], power, dt)
  }

  /** Reference view: the advanced hacks that are finished, in order. */
  function Finished(hs: seq<Hack>, power: real, dt: real): (r: seq<Hack>)
    ensures |r| <= |hs|
    ensures forall h :: h in r ==> h.progress >= 1.0
  {
    if hs == [] then []
    else
      var a := Advanced(hs[0], power, dt);
      (if a.progress >= 1.0 then [a] else []) + Finished(hs[1..], power, dt)
  }

  function RewardTotal(hs: seq<Hack>): (t: real)
    ensures t >= 0.0
  {
    if hs == [] then 0.0 else hs[0].reward + RewardTotal(hs[1..])
  }

  function ReputationTotal(hs: seq<Hack>): (t: int)
    ensures t >= 0
  {
    if hs == [] then 0 else ReputationFor(hs[0]) + ReputationTotal(hs[1..])
  }

  /** The risk the hacks in the list add over a tick of `dt` seconds,
      risk * dt / 100 each, summed. */
  function RiskAdded(hs: seq<Hack>, dt: real): (t: real)
    ensures dt >= 0.0 ==> t >= 0.0
  {
    if hs == [] then 0.0
    else
      assert dt >= 0.0 ==> hs[0].risk * dt >= 0.0;
      hs[0].risk * dt / 100.0 + RiskAdded(hs[1..], dt)
  }

  lemma {:induction false} RiskAddedSnoc(hs: seq<Hack>, h: Hack, dt: real)
    ensures RiskAdded(hs + [h], dt) == RiskAdded(hs, dt) + h.risk * dt / 100.0
  {
    if hs != [] {
      assert (hs + [h])[1..] == hs[1..] + [h];
      RiskAddedSnoc(hs[1..], h, dt);
    }
  }

  lemma {:induction false} UnfinishedSnoc(hs: seq<Hack>, h: Hack, power: real, dt: real)
    ensures var a := Advanced(h, power, dt);
      Unfinished(hs + [h], power, dt) == Unfinished(hs, power, dt) + (if a.progress < 1.0 then [a] else [])
  {
    if hs != [] {
      assert (hs + [h])[1..] == hs[1..] + [h];
      UnfinishedSnoc(hs[1..], h, power, dt);
    }
  }

  lemma {:induction false} FinishedSnoc(hs: seq<Hack>, h: Hack, power: real, dt: real)
    ensures var a := Advanced(h, power, dt);
      Finished(hs + [h], power, dt) == Finished(hs, power, dt) + (if a.progress >= 1.0 then [a] else [])
  {
    if hs != [] {
      assert (hs + [h])[1..] == hs[1..] + [h];
      FinishedSnoc(hs[1..], h, power, dt);
    }
  }

  lemma {:induction false} TotalsSnoc(hs: seq<Hack>, more: seq<Hack>)
    requires |more| <= 1
    ensures RewardTotal(hs + more) == RewardTotal(hs) + RewardTotal(more)
    ensures ReputationTotal(hs + more) == ReputationTotal(hs) + ReputationTotal(more)
  {
    if hs != [] {
      assert (hs + more)[1..] == hs[1..] + more;
      TotalsSnoc(hs[1..], more);
    } else {
      assert hs + more == more;
    }
  }

  /** The hacks the loop keeps are exactly the unfinished ones, in their
      original order, appended to what was kept before. */
  lemma {:induction false} SweepKeepsUnfinished(hs: seq<Hack>, start: Ledger, power: real, dt: real)
    ensures Sweep(hs, start, power, dt).survivors == start.survivors + Unfinished(hs, power, dt)
    decreases |hs|
  {
    if hs != [] {
      var init, last := hs[..|hs| - 1], hs[|hs| - 1];
      assert init + [last] == hs;
      SweepKeepsUnfinished(init, start, power, dt);
      UnfinishedSnoc(init, last, power, dt);
    }
  }

  /** The loop credits the rewards and the reputation of exactly the
      finished hacks. */
  lemma {:induction false} SweepCreditsFinished(hs: seq<Hack>, start: Ledger, power: real, dt: real)
    ensures Sweep(hs, start, power, dt).btc == start.btc + RewardTotal(Finished(hs, power, dt))
    ensures Sweep(hs, start, power, dt).reputation == start.reputation + ReputationTotal(Finished(hs, power, dt))
    decreases |hs|
  {
    if hs != [] {
      var init, last := hs[..|hs| - 1], hs[|hs| - 1];
      assert init + [last] == hs;
      SweepCreditsFinished(init, start, power, dt);
      FinishedSnoc(init, last, power, dt);
      var a := Advanced(last, power, dt);
      TotalsSnoc(Finished(init, power, dt), if a.progress >= 1.0 then [a] else []);
      if a.progress >= 1.0 {
        assert RewardTotal([a]) == a.reward;
        assert ReputationTotal([a]) == ReputationFor(a);
      }
    }
  }

  /** For a non-negative tick the loop never makes a non-negative risk
      negative. */
  lemma {:induction false} SweepRiskNonNegative(hs: seq<Hack>, start: Ledger, power: real, dt: real)
    requires start.risk >= 0.0 && dt >= 0.0
    ensures Sweep(hs, start, power, dt).risk >= 0.0
    decreases |hs|
  {
    if hs != [] {
      var init, last := hs[..|hs| - 1], hs[|hs| - 1];
      SweepRiskNonNegative(init, start, power, dt);
      var a := Advanced(last, power, dt);
      assert a.risk * dt / 100.0 >= 0.0;
    }
  }

  /** The last hack through the loop, seen by the risk and by the two
      reference views. */
  lemma SweepRiskStep(hs: seq<Hack>, start: Ledger, power: real, dt: real)
    requires hs != []
    ensures var init := hs[..|hs| - 1];
      var a := Advanced(hs[|hs| - 1], power, dt);
      var done := a.progress >= 1.0;
      && Sweep(hs, start, power, dt).risk
         == (if done then Max(0.0, Sweep(init, start, power, dt).risk - 10.0)
             else Sweep(init, start, power, dt).risk + a.risk * dt / 100.0)
      && RiskAdded(Unfinished(hs, power, dt), dt) == RiskAdded(Unfinished(init, power, dt), dt) + (if done then 0.0 else a.risk * dt / 100.0)
      && |Finished(hs, power, dt)| == |Finished(init, power, dt)| + (if done then 1 else 0)
  {
    var init, last := hs[..|hs| - 1], hs[|hs| - 1];
    assert init + [last] == hs;
    UnfinishedSnoc(init, last, power, dt);
    FinishedSnoc(init, last, power, dt);
    var a := Advanced(last, power, dt);
    if a.progress < 1.0 {
      RiskAddedSnoc(Unfinished(init, power, dt), a, dt);
    } else {
      assert Unfinished(hs, power, dt) == Unfinished(init, power, dt);
    }
  }

  /** The bounds of `SweepRiskBounds` carried over one step, with `added`
      the risk the kept hacks add and `credits` the number of completions. */
  lemma RiskBoundsStep(startRisk: real, before: real, added: real, credits: int, done: bool, gain: real, dt: real)
    requires before >= startRisk + added - 10.0 * credits as real
    requires startRisk >= 0.0 && dt >= 0.0 ==> 0.0 <= before <= startRisk + added
    requires startRisk >= 10.0 * credits as real && dt >= 0.0 ==> before == startRisk + added - 10.0 * credits as real
    requires dt >= 0.0 ==> added >= 0.0 && gain >= 0.0
    ensures var after := if done then Max(0.0, before - 10.0) else before + gain;
      var added' := added + (if done then 0.0 else gain);
      var credits' := credits + (if done then 1 else 0);
      && after >= startRisk + added' - 10.0 * credits' as real
      && (startRisk >= 0.0 && dt >= 0.0 ==> after <= startRisk + added')
      && (startRisk >= 10.0 * credits' as real && dt >= 0.0 ==> after == startRisk + added' - 10.0 * credits' as real)
  {
  }

  /** The loop's risk against the reference views: each kept hack adds
      risk * dt / 100, each finished one takes off at most 10. The floor at
      0 only ever keeps the risk above that, never above the risk without
      any completion, and never engages when the starting risk covers 10
      per finished hack. */
  lemma {:induction false} SweepRiskBounds(hs: seq<Hack>, start: Ledger, power: real, dt: real)
    ensures var r := Sweep(hs, start, power, dt).risk;
      var added := RiskAdded(Unfinished(hs, power, dt), dt);
      var credit := 10.0 * |Finished(hs, power, dt)| as real;
      && r >= start.risk + added - credit
      && (start.risk >= 0.0 && dt >= 0.0 ==> r <= start.risk + added)
      && (start.risk >= credit && dt >= 0.0 ==> r == start.risk + added - credit)
    decreases |hs|
  {
    if hs != [] {
      var init := hs[..|hs| - 1];
      SweepRiskBounds(init, start, power, dt);
      SweepRiskStep(hs, start, power, dt);
      if start.risk >= 0.0 && dt >= 0.0 {
        SweepRiskNonNegative(init, start, power, dt);
      }
      var a := Advanced(hs[|hs| - 1], power, dt);
      var gain := a.risk * dt / 100.0;
      assert dt >= 0.0 ==> gain >= 0.0 by {
        if dt >= 0.0 {
          assert a.risk * dt >= 0.0;
        }
      }
      RiskBoundsStep(start.risk, Sweep(init, start, power, dt).risk, RiskAdded(Unfinished(init, power, dt), dt),
                     |Finished(init, power, dt)|, a.progress >= 1.0, gain, dt);
    }
  }

  /** The combined contract of the `updateHacks` loop: the list never grows,
      every kept hack is unfinished, and the balances move as stated. */
  lemma SweepSummary(hs: seq<Hack>, start: Ledger, power: real, dt: real)
    requires start.survivors == []
    ensures var l := Sweep(hs, start, power, dt);
      && l.survivors == Unfinished(hs, power, dt)
      && |l.survivors| <= |hs|
      && AllUnfinished(l.survivors)
      && l.btc == start.btc + RewardTotal(Finished(hs, power, dt))
      && l.btc >= start.btc
      && l.reputation == start.reputation + ReputationTotal(Finished(hs, power, dt))
      && l.risk >= start.risk + RiskAdded(Unfinished(hs, power, dt), dt) - 10.0 * |Finished(hs, power, dt)| as real
      && (start.risk >= 0.0 && dt >= 0.0 ==> l.risk >= 0.0)
  {
    SweepRiskBounds(hs, start, power, dt);
    SweepKeepsUnfinished(hs, start, power, dt);
    SweepCreditsFinished(hs, start, power, dt);
    if start.risk >= 0.0 && dt >= 0.0 {
      SweepRiskNonNegative(hs, start, power, dt);
    }
  }

  // ---------------------------------------------------------------------
  // CPU usage

  /** `updateCPUUsage`: the share of the CPU slots in use, as a percentage
      capped at 100; it is 100 exactly when every slot is taken. */
  function CpuUsage(active: int, capacity: int): (u: real)
    requires capacity >= 1
    ensures u <= 100.0
    ensures active >= 0 ==> u >= 0.0
    ensures u == 100.0 <==> active >= capacity
  {
    var share := active as real / capacity as real;
    assert share * capacity as real == active as real;
    assert share >= 1.0 <==> active >= capacity;
    Min(100.0, share * 100.0)
  }

  /** Below capacity the usage is exactly the occupied share of the slots:
      usage * capacity == 100 * active. */
  lemma CpuUsageShare(active: int, capacity: int)
    requires 1 <= capacity && active <= capacity
    ensures CpuUsage(active, capacity) * capacity as real == 100.0 * active as real
  {
    var share := active as real / capacity as real;
    assert share * capacity as real == active as real;
    assert share * 100.0 * capacity as real == 100.0 * active as real;
  }

  /** BTC that `updateMining` credits for a tick: power BTC per hour. */
  function MiningRate(power: real, dt: real): (r: real)
    ensures power >= 0.0 && dt >= 0.0 ==> r >= 0.0
    ensures r * 3600.0 == power * dt
  {
    power * dt / 3600.0
  }

  /** The CPU usage after mining: raised by rate * 100, capped at 100. */
  function MinedCpu(cpu: real, rate: real): (u: real)
    ensures u <= 100.0
    ensures 0.0 <= cpu <= 100.0 && rate >= 0.0 ==> cpu <= u
    ensures u < 100.0 ==> u == cpu + rate * 100.0
  {
    Min(100.0, cpu + rate * 100.0)
  }

  // ---------------------------------------------------------------------
  // Random events (src/models/Game.js:198-220)

  datatype RandomEvent = SecurityScan | Vulnerability | NetworkGlitch

  const RandomEvents: seq<RandomEvent> := [SecurityScan, Vulnerability, NetworkGlitch]

  /** `generateRandomEvent` for a uniform draw in [0, 1). */
  function PickEvent(draw: real): (e: RandomEvent)
    requires 0.0 <= draw < 1.0
    ensures draw < 1.0 / 3.0 ==> e == SecurityScan
    ensures 1.0 / 3.0 <= draw < 2.0 / 3.0 ==> e == Vulnerability
    ensures 2.0 / 3.0 <= draw ==> e == NetworkGlitch
  {
    var i := (draw * 3.0).Floor;
    assert 0 <= i < 3;
    RandomEvents[i]
  }

  function EventMessage(e: RandomEvent): string
  {
    match e
    case SecurityScan => "WARNING: Security scan detected!"
    case Vulnerability => "Vulnerability discovered: +0.05 BTC"
    case NetworkGlitch => "Network glitch: CPU performance degraded"
  }

  /** The CPU usage after a network glitch: 10 points lower, floored at 0. */
  function GlitchCpu(cpu: real): (u: real)
    ensures u >= 0.0
    ensures cpu >= 0.0 ==> u <= cpu
    ensures cpu >= 10.0 ==> u == cpu - 10.0
    ensures cpu <= 10.0 ==> u == 0.0
  {
    Max(0.0, cpu + -10.0)
  }

  // ---------------------------------------------------------------------
  // Session flags: started, paused, game over

  datatype Session = Session(started: bool, paused: bool, over: bool)

  datatype Toggled = Toggled(session: Session, paused: bool)

  /** `togglePause`: refused (false, no change) before the game is started
      or once it is over; otherwise pause flips and the new value is
      returned. */
  function Toggle(s: Session): (r: Toggled)
    ensures !s.started || s.over ==> r == Toggled(s, false)
    ensures s.started && !s.over ==>
      r.session.paused == !s.paused && r.paused == r.session.paused
      && r.session.started && r.session.over == s.over
  {
    if !s.started || s.over then Toggled(s, false)
    else Toggled(s.(paused := !s.paused), !s.paused)
  }

  /** Two toggles restore the flags. */
  lemma ToggleTwice(s: Session)
    ensures Toggle(Toggle(s).session).session == s
  {
  }

  /** `startGame`: started and running; a finished game stays finished. */
  function Start(s: Session): (r: Session)
    ensures r.started && !r.paused && r.over == s.over
  {
    Session(true, false, s.over)
  }

  datatype Checked = Checked(session: Session, fired: bool)

  /** `checkGameOver`: fires once, when the risk has reached 100 and the game
      is not over yet; firing ends and pauses the game. */
  function CheckOver(s: Session, risk: real): (r: Checked)
    ensures r.fired <==> risk >= 100.0 && !s.over
    ensures r.fired ==> r.session == Session(s.started, true, true)
    ensures !r.fired ==> r.session == s
  {
    if risk >= 100.0 && !s.over then Checked(Session(s.started, true, true), true)
    else Checked(s, false)
  }

  /** Once the game is over, no later check fires or changes anything,
      whatever the risk. */
  lemma {:induction false} CheckOverOneShot(s: Session, risk: real, later: real)
    requires CheckOver(s, risk).fired
    ensures CheckOver(CheckOver(s, risk).session, later) == Checked(CheckOver(s, risk).session, false)
  {
  }

  /** Whether the tick of `update` runs, or only resets the clock. */
  predicate Ticks(s: Session)
  {
    s.started && !s.paused && !s.over
  }

  // ---------------------------------------------------------------------
  // Guarded spending: `spendBTC`, `canAfford`/`spendMoney`

  datatype Spent = Spent(ok: bool, balance: real)

  /** Deduct `amount` only when the balance covers it. */
  function Spend(balance: real, amount: real): (r: Spent)
    ensures r.ok <==> balance >= amount
    ensures r.ok ==> r.balance == balance - amount
    ensures !r.ok ==> r.balance == balance
    ensures balance >= 0.0 ==> r.balance >= 0.0
  {
    if balance >= amount then Spent(true, balance - amount) else Spent(false, balance)
  }

  /** The balance after a series of guarded spends. */
  function SpendAll(balance: real, amounts: seq<real>): real
    decreases |amounts|
  {
    if amounts == [] then balance else SpendAll(Spend(balance, amounts[0]).balance, amounts[1..])
  }

  /** No series of guarded spends makes a non-negative balance negative, and
      spending non-negative amounts never raises it. */
  lemma {:induction false} SpendAllBounds(balance: real, amounts: seq<real>)
    requires balance >= 0.0
    ensures SpendAll(balance, amounts) >= 0.0
    ensures (forall i :: 0 <= i < |amounts| ==> amounts[i] >= 0.0) ==> SpendAll(balance, amounts) <= balance
    decreases |amounts|
  {
    if amounts != [] {
      SpendAllBounds(Spend(balance, amounts[0]).balance, amounts[1..]);
      if forall i :: 0 <= i < |amounts| ==> amounts[i] >= 0.0 {
        assert forall i :: 0 <= i < |amounts[1..]| ==> amounts[1..][i] == amounts[i + 1];
      }
    }
  }

  // ---------------------------------------------------------------------
  // Daily upkeep

  /** `calculateDailyOperatingCosts`: a 0.001 BTC base plus a share per
      connection, per active hack and per security level. */
  function DailyOperatingCost(connections: int, active: int, securityLevel: int): (c: real)
    ensures connections >= 0 && securityLevel >= 0 && active >= 0 ==> c >= 0.001 + 0.0002 * active as real
    ensures c - 0.0002 * active as real == 0.001 + 0.0001 * connections as real + 0.0005 * securityLevel as real
  {
    0.001 + connections as real * 0.0001 + active as real * 0.0002 + securityLevel as real * 0.0005
  }

  /** `updateSecurityMeasures`: risk moves by 2 per active hack minus half
      the security level, and is capped at 100 (but not floored at 0). */
  function SecurityRisk(risk: real, active: int, securityLevel: int): (r: real)
    ensures r <= 100.0
    ensures r <= risk + 2.0 * active as real - 0.5 * securityLevel as real
    ensures r < 100.0 ==> r == risk + 2.0 * active as real - 0.5 * securityLevel as real
  {
    Min(100.0, risk + active as real * 2.0 - securityLevel as real * 0.5)
  }

  /** With no hack running and the initial security level, a risk below 0.5
      ends the day below zero. */
  lemma SecurityRiskCanGoNegative(risk: real)
    requires 0.0 <= risk < 0.5
    ensures SecurityRisk(risk, 0, 1) < 0.0
  {
  }

  /** The day number a clock reading in seconds falls in. */
  function DayIndex(seconds: real): int
  {
    (seconds / 86400.0).Floor
  }

  /** Followers gained on a new day: with a roll below 0.3 + reputation / 100
      the game gains floor(draw * reputation + 1) followers, otherwise none.
      For a non-negative reputation a successful roll gains at least one
      follower and at most max(reputation, 1). */
  function FollowerGain(roll: real, draw: real, reputation: int): (n: int)
    requires 0.0 <= draw < 1.0
    ensures roll >= 0.3 + reputation as real * 0.01 ==> n == 0
    ensures roll < 0.3 + reputation as real * 0.01 && reputation >= 0 ==>
      1 <= n && (n <= reputation || n == 1)
  {
    if roll < 0.3 + reputation as real * 0.01 then
      FloorShift(draw * reputation as real);
      if reputation >= 0 then
        IndexBounds(draw, reputation);
        (draw * reputation as real + 1.0).Floor
      else (draw * reputation as real + 1.0).Floor
    else 0
  }

  /** The bug roll of `update` while a project runs: with probability
      (0.05 + 0.01 * staff) * dt per tick, floor(draw * staff) + 1 new bugs
      appear, otherwise none. The count is positive exactly when the roll
      hits, and then at most max(staff, 1). */
  function BugsFound(roll: real, draw: real, staff: int, dt: real): (n: int)
    requires 0.0 <= draw < 1.0 && staff >= 0
    ensures roll >= (0.05 + staff as real * 0.01) * dt ==> n == 0
    ensures roll < (0.05 + staff as real * 0.01) * dt ==> 1 <= n && (n <= staff || n == 1)
  {
    if roll < (0.05 + staff as real * 0.01) * dt then
      IndexBounds(draw, staff);
      (draw * staff as real).Floor + 1
    else 0
  }

  // ---------------------------------------------------------------------
  // Development phases and tasks

  datatype DevPhase = Planning | Development | Testing | Polishing

  /** `updateDevPhase`: the phase a project progress (0..1) falls in. */
  function PhaseFor(progress: real): (ph: DevPhase)
    ensures ph == Planning <==> progress < 0.25
    ensures ph == Development <==> 0.25 <= progress < 0.5
    ensures ph == Testing <==> 0.5 <= progress < 0.75
    ensures ph == Polishing <==> 0.75 <= progress
  {
    if progress < 0.25 then Planning
    else if progress < 0.5 then Development
    else if progress < 0.75 then Testing
    else Polishing
  }

  function PhaseRank(ph: DevPhase): nat
  {
    match ph
    case Planning => 0
    case Development => 1
    case Testing => 2
    case Polishing => 3
  }

  /** More progress never moves the project back to an earlier phase. */
  lemma PhaseForMonotone(p: real, q: real)
    requires p <= q
    ensures PhaseRank(PhaseFor(p)) <= PhaseRank(PhaseFor(q))
  {
  }

  /** `getPhaseMultiplier`: development speeds work up, every other phase
      slows it down, polishing most. */
  function PhaseMultiplier(ph: DevPhase): (m: real)
    ensures 0.5 <= m <= 1.2
    ensures m > 1.0 <==> ph == Development
    ensures m == 0.5 <==> ph == Polishing
    ensures ph == Planning ==> m == 0.7
    ensures ph == Testing ==> m == 0.8
  {
    match ph
    case Planning => 0.7
    case Development => 1.2
    case Testing => 0.8
    case Polishing => 0.5
  }

  /** The three tasks every phase has. */
  datatype TaskName = Documentation | Implementation | QualityChecks

  /** The name a task is shown with. */
  function TaskLabel(n: TaskName): string
  {
    match n
    case Documentation => "Documentation"
    case Implementation => "Implementation"
    case QualityChecks => "Quality Checks"
  }

  /** The project progress (0..1) after `dt` seconds of `update`: it grows
      by 0.01 * (1 + staff / 2) per second, scaled by the phase multiplier,
      and is capped at 1. */
  function ProjectProgressAfter(progress: real, staff: int, phase: DevPhase, dt: real): (p: real)
    ensures p <= 1.0
    ensures progress <= 1.0 && staff >= 0 && dt >= 0.0 ==> progress <= p
    ensures p < 1.0 ==> p - progress == 0.01 * (1.0 + staff as real * 0.5) * PhaseMultiplier(phase) * dt
  {
    var rate := 0.01 * (1.0 + staff as real * 0.5) * PhaseMultiplier(phase);
    assert staff >= 0 ==> rate > 0.0;
    assert staff >= 0 && dt >= 0.0 ==> rate * dt >= 0.0;
    Min(1.0, progress + rate * dt)
  }

  datatype Task = Task(name: TaskName, progress: real)

  /** The task list a phase gets the first time it is worked on. */
  const DefaultTasks: seq<Task> := [Task(Documentation, 0.0), Task(Implementation, 0.0), Task(QualityChecks, 0.0)]

  /** One task in the `updateTaskProgress` loop: an unfinished task moves
      towards 1 by `amount`, capped at 1; a finished one is left alone. */
  function TaskStep(t: Task, amount: real): (r: Task)
    ensures r.name == t.name
    ensures amount >= 0.0 ==> r.progress >= t.progress
    ensures r.progress <= Max(1.0, t.progress)
    ensures t.progress >= 1.0 ==> r == t
  {
    if t.progress < 1.0 then t.(progress := Min(1.0, t.progress + amount)) else t
  }

  /** Progress a task gains in one tick: 0.01 per second per staff member. */
  function TaskGain(dt: real, staff: int): (g: real)
    ensures dt >= 0.0 && staff >= 0 ==> g >= 0.0
  {
    var perSecond := 0.01 * staff as real;
    assert staff >= 0 ==> perSecond >= 0.0;
    assert perSecond * dt == 0.01 * dt * staff as real;
    0.01 * dt * staff as real
  }

  /** The task list of a phase, or the default list a phase starts with. */
  function PhaseTasks(m: map<DevPhase, seq<Task>>, ph: DevPhase): seq<Task>
  {
    if ph in m then m[ph] else DefaultTasks
  }

  function AdvanceTasks(ts: seq<Task>, amount: real): (r: seq<Task>)
  {
    seq(|ts|, i requires 0 <= i < |ts| => TaskStep(ts[i], amount))
  }

  predicate TasksBounded(ts: seq<Task>)
  {
    forall i :: 0 <= i < |ts| ==> 0.0 <= ts[i].progress <= 1.0
  }

  /** Every phase's task list has its progress within [0, 1]. */
  predicate PhasesBounded(m: map<DevPhase, seq<Task>>)
  {
    forall ph :: ph in m ==> TasksBounded(m[ph])
  }

  /** Advancing tasks keeps their names and order, never lowers a task's
      progress for a non-negative amount, and keeps progress within [0, 1]. */
  lemma AdvanceTasksBounds(ts: seq<Task>, amount: real)
    requires TasksBounded(ts) && amount >= 0.0
    ensures var r := AdvanceTasks(ts, amount);
      && |r| == |ts|
      && (forall i :: 0 <= i < |ts| ==> r[i].name == ts[i].name && ts[i].progress <= r[i].progress)
      && TasksBounded(r)
  {
    var r := AdvanceTasks(ts, amount);
    forall i | 0 <= i < |ts|
      ensures r[i].name == ts[i].name && ts[i].progress <= r[i].progress <= 1.0
    {
      assert r[i] == TaskStep(ts[i], amount);
    }
  }

  // ---------------------------------------------------------------------
  // Project earnings

  /** Scaling a non-negative amount by a larger factor never gives less. */
  lemma ScaleMonotone(x: real, a: real, b: real)
    ensures x >= 0.0 && a <= b ==> x * a <= x * b
  {
    if x >= 0.0 && a <= b {
      assert x * b - x * a == x * (b - a);
    }
  }

  /** A share in [0.5, 1] of a non-negative amount lies between half the
      amount and the amount. */
  lemma ShareOfBase(base: real, share: real)
    ensures base >= 0.0 && 0.5 <= share <= 1.0 ==> base * 0.5 <= base * share <= base
  {
    ScaleMonotone(base, 0.5, share);
    ScaleMonotone(base, share, 1.0);
  }

  /** An understaffed project's share of the full earnings lies in
      [0.5, 1). */
  lemma ShareBounds(staff: int, required: int)
    ensures 0 <= staff < required ==> 0.5 <= 0.5 + staff as real / required as real * 0.5 < 1.0
  {
    if 0 <= staff < required {
      var q := staff as real / required as real;
      assert q * required as real == staff as real;
      assert q < 1.0 by {
        if q >= 1.0 {
          ScaleMonotone(required as real, 1.0, q);
        }
      }
    }
  }

  /** A fraction in [0, 1] of a non-negative amount lies between 0 and the
      amount. */
  lemma FractionBounds(d: real, x: real)
    ensures 0.0 <= d <= 1.0 && x >= 0.0 ==> 0.0 <= d * x <= x
  {
    if 0.0 <= d <= 1.0 && x >= 0.0 {
      ScaleMonotone(x, d, 1.0);
      ScaleMonotone(x, 0.0, d);
      assert d * x == x * d;
    }
  }

  /** y is hype^1.5 (the value of Math.pow(hype, 1.5) for hype >= 0). */
  ghost predicate IsPow15(x: real, y: real)
  {
    y >= 0.0 && y * y == x * x * x
  }

  /** `calculateEarnings` before rounding, from base = budget + 100 *
      hype^1.5: 1.5 * base when fully staffed, 10% more per extra head,
      and base scaled by a share between 0.5 and 1 when understaffed. */
  function EarningsAmount(base: real, required: int, staff: int): (r: real)
    requires staff >= 0
    ensures staff == required ==> r == base * 1.5
    ensures base >= 0.0 && staff > required ==> r >= base * 1.5
    ensures base >= 0.0 && staff < required ==> base * 0.5 <= r <= base
  {
    if staff >= required then
      var full := base * 1.5;
      if staff > required then
        ScaleMonotone(full, 1.0, 1.0 + (staff - required) as real * 0.1);
        full * (1.0 + (staff - required) as real * 0.1)
      else full
    else
      var share := 0.5 + staff as real / required as real * 0.5;
      ShareBounds(staff, required);
      ShareOfBase(base, share);
      base * share
  }

  /** floor(draw * n) for a draw in [0, 1), the usual way to pick one of n
      items, lies in 0 .. n - 1 (and is 0 when n is 0). */
  lemma IndexBounds(draw: real, n: int)
    requires 0.0 <= draw < 1.0 && n >= 0
    ensures 0 <= (draw * n as real).Floor <= n
    ensures n > 0 ==> (draw * n as real).Floor < n
  {
    FractionBelow(draw, n as real);
    FloorBelow(draw * n as real, n);
  }

  /** A number in [0, n], and below n when n is positive, rounds down into
      the same range. */
  lemma FloorBelow(a: real, n: int)
    requires 0.0 <= a <= n as real && (n > 0 ==> a < n as real)
    ensures 0 <= a.Floor <= n
    ensures n > 0 ==> a.Floor < n
  {
  }

  /** A fraction in [0, 1) of a positive amount lies strictly below it. */
  lemma FractionBelow(d: real, x: real)
    requires 0.0 <= d < 1.0 && x >= 0.0
    ensures 0.0 <= d * x <= x
    ensures x > 0.0 ==> d * x < x
  {
    FractionBounds(d, x);
    if x > 0.0 {
      assert x - d * x == x * (1.0 - d);
      assert x * (1.0 - d) > 0.0;
    }
  }

  /** Adding one before rounding down adds one after. */
  lemma FloorShift(a: real)
    ensures (a + 1.0).Floor == a.Floor + 1
  {
  }

  /** Rounding down keeps order. */
  lemma FloorMonotone(a: real, b: real)
    ensures a <= b ==> a.Floor <= b.Floor
  {
  }

  /** `calculateEarnings` for a project with a budget and a staff
      requirement, with `hypePow` standing for hype^1.5: the amount above,
      rounded down. */
  function Earnings(budget: real, required: int, staff: int, hypePow: real): (e: int)
    requires staff >= 0
    ensures var base := budget + hypePow * 100.0;
      && (staff == required ==> e == (base * 1.5).Floor)
      && (base >= 0.0 && staff > required ==> e >= (base * 1.5).Floor)
      && (base >= 0.0 && staff < required ==> (base * 0.5).Floor <= e <= base.Floor)
  {
    var base := budget + hypePow * 100.0;
    var amount := EarningsAmount(base, required, staff);
    FloorMonotone(base * 1.5, amount);
    FloorMonotone(base * 0.5, amount);
    FloorMonotone(amount, base);
    amount.Floor
  }
}
