/** The display helpers of src/views/UI.js: progress-bar percent and
    classes, the active-hack cards, the re-render signatures of the upgrade
    and research lists, the log-type derivation, the bounded code stream,
    the activity tail, the drain of the game's event queue and the click
    debounce. DOM nodes are modelled by the values they would show. */
module UIView {
  import opened Common
  import opened GameModel

  // ---------------------------------------------------------------------
  // Progress bars

  /** What `updateProgressBar` puts on a bar: its width and its two classes. */
  datatype BarState = BarState(percent: real, warning: bool, danger: bool)

  /** `updateProgressBar(bar, value)`: the value clamped to [0, 100]; the
      warning class from 70 on, the danger class from 90 on. */
  function ProgressBar(value: real): (b: BarState)
    ensures 0.0 <= b.percent <= 100.0
    ensures 0.0 <= value <= 100.0 ==> b.percent == value
    ensures value < 0.0 ==> b.percent == 0.0
    ensures value > 100.0 ==> b.percent == 100.0
    ensures b.warning <==> b.percent >= 70.0
    ensures b.danger <==> b.percent >= 90.0
    ensures b.danger ==> b.warning
  {
    var p := Min(Max(value, 0.0), 100.0);
    BarState(p, p >= 70.0, p >= 90.0)
  }

  // ---------------------------------------------------------------------
  // Active hack cards

  datatype Stage = Stage(name: string)

  /** The fields of a hack record the card reads. An absent `stageIndex`
      is 0, an absent `currentStageDuration` is 0 (both falsy), an absent
      `currentStageName` is the empty string. */
  datatype HackCard = HackCard(name: string, stages: Option<seq<Stage>>, stageIndex: int,
                               stageElapsed: real, stageDuration: real,
                               completed: bool, failed: bool, currentStageName: string)

  /** `hack.stages && hack.stages[currentStageIndex]`. */
  function CurrentStage(h: HackCard): (s: Option<Stage>)
    ensures s.Some? <==> h.stages.Some? && 0 <= h.stageIndex < |h.stages.value|
    ensures s.Some? ==> s.value == h.stages.value[h.stageIndex]
  {
    if h.stages.Some? && 0 <= h.stageIndex < |h.stages.value| then Some(h.stages.value[h.stageIndex]) else None
  }

  /** Whether the card shows a timed stage. */
  predicate Timed(h: HackCard)
  {
    CurrentStage(h).Some? && h.stageDuration != 0.0
  }

  /** The bar percent of a card: the elapsed share of the current stage,
      capped at 100, when a stage with a duration is under way; otherwise
      100 for a completed hack and 0 for the rest. */
  function HackPercent(h: HackCard): (p: real)
    ensures p <= 100.0
    ensures Timed(h) && h.stageElapsed / h.stageDuration <= 1.0 ==> p == h.stageElapsed / h.stageDuration * 100.0
    ensures Timed(h) && h.stageElapsed / h.stageDuration >= 1.0 ==> p == 100.0
    ensures Timed(h) && h.stageElapsed >= 0.0 && h.stageDuration > 0.0 ==> p >= 0.0
    ensures !Timed(h) ==> (p == 100.0 <==> h.completed) && (p == 0.0 <==> !h.completed)
  {
    if Timed(h) then
      var share := h.stageElapsed / h.stageDuration;
      assert share >= 0.0 ==> share * 100.0 >= 0.0;
      Min(100.0, share * 100.0)
    else if h.completed then 100.0
    else 0.0
  }

  datatype BarClass = FailedBar | CompleteBar | HighBar | MidBar | PlainBar

  /** The extra class of the card's bar: failed before complete before
      high (above 80) before mid (above 50). */
  function BarClassOf(failed: bool, completed: bool, percent: real): (c: BarClass)
    ensures c == FailedBar <==> failed
    ensures c == CompleteBar <==> !failed && completed
    ensures c == HighBar <==> !failed && !completed && percent > 80.0
    ensures c == MidBar <==> !failed && !completed && 50.0 < percent <= 80.0
    ensures c == PlainBar <==> !failed && !completed && percent <= 50.0
  {
    if failed then FailedBar
    else if completed then CompleteBar
    else if percent > 80.0 then HighBar
    else if percent > 50.0 then MidBar
    else PlainBar
  }

  datatype StageLabel = Dash | StageNumber(n: int)

  datatype Status = FailedStatus | DoneStatus | StageStatus(stage: string)

  /** The status label: failed before complete; otherwise the current stage
      name, taken from `currentStageName` when it is non-empty. */
  function StatusOf(h: HackCard): (s: Status)
    ensures s == FailedStatus <==> h.failed
    ensures s == DoneStatus <==> !h.failed && h.completed
    ensures s.StageStatus? && h.currentStageName != "" ==> s.stage == h.currentStageName
    ensures s.StageStatus? && h.currentStageName == "" && CurrentStage(h).Some? ==> s.stage == CurrentStage(h).value.name
    ensures s.StageStatus? && h.currentStageName == "" && CurrentStage(h).None? ==> s.stage == ""
  {
    if h.failed then FailedStatus
    else if h.completed then DoneStatus
    else if h.currentStageName != "" then StageStatus(h.currentStageName)
    else match CurrentStage(h)
      case Some(st) => StageStatus(st.name)
      case None => StageStatus("")
  }

  /** What one card of `updateActiveHacks` shows. */
  datatype CardView = CardView(name: string, stageLabel: StageLabel, stageCount: int, status: Status,
                               percent: real, bar: BarClass)

  function CardOf(h: HackCard): (v: CardView)
    ensures v.name == h.name && v.status == StatusOf(h) && v.percent == HackPercent(h)
    ensures v.stageLabel == Dash <==> h.failed || h.completed
    ensures v.stageLabel.StageNumber? ==> v.stageLabel.n == h.stageIndex + 1
    ensures v.stageCount == (if h.stages.Some? then |h.stages.value| else 1)
    ensures v.bar == BarClassOf(h.failed, h.completed, v.percent)
  {
    var percent := HackPercent(h);
    CardView(h.name,
             if h.failed || h.completed then Dash else StageNumber(h.stageIndex + 1),
             if h.stages.Some? then |h.stages.value| else 1,
             StatusOf(h), percent, BarClassOf(h.failed, h.completed, percent))
  }

  /** The three parts of a card agree: the stage label is a dash exactly
      when the status is final, which is exactly when the bar has the
      failed or complete class; a finished hack without a timed stage shows
      a full bar. */
  lemma CardConsistent(h: HackCard)
    ensures CardOf(h).stageLabel == Dash <==> !CardOf(h).status.StageStatus?
    ensures !CardOf(h).status.StageStatus? <==> CardOf(h).bar in {FailedBar, CompleteBar}
    ensures h.completed && !h.failed && !Timed(h) ==> CardOf(h).percent == 100.0 && CardOf(h).bar == CompleteBar
    ensures !h.failed && !h.completed && !Timed(h) ==> CardOf(h).percent == 0.0 && CardOf(h).bar == PlainBar
  {
  }

  // ---------------------------------------------------------------------
  // Re-render signatures

  /** One `id:level:cost` part of a signature; a signature is their list in
      the order of the rendered items, standing for the '|'-joined string. */
  datatype SigEntry = SigEntry(id: string, level: int, cost: real)

  datatype Upgrade = Upgrade(id: string, name: string, level: int, cost: real, description: string)
  {
    function Entry(): SigEntry
    {
      SigEntry(id, level, cost)
    }
  }

  datatype ResearchItem = ResearchItem(id: string, name: string, level: int, cost: real)
  {
    function Entry(): SigEntry
    {
      SigEntry(id, level, cost)
    }
  }

  /** `items.map(...)` of the signature builders. */
  function Signature<T>(items: seq<T>, entry: T -> SigEntry): (sig: seq<SigEntry>)
    ensures |sig| == |items|
    ensures forall i :: 0 <= i < |items| ==> sig[i] == entry(items[i])
  {
    if items == [] then [] else [entry(items[0])] + Signature(items[1..], entry)
  }

  function UpgradeSig(us: seq<Upgrade>): seq<SigEntry>
  {
    Signature(us, (u: Upgrade) => u.Entry())
  }

  /** Two upgrade lists have the same signature exactly when they agree,
      position by position, on id, level and cost; names and descriptions
      play no part. */
  lemma UpgradeSigAgrees(us: seq<Upgrade>, vs: seq<Upgrade>)
    ensures UpgradeSig(us) == UpgradeSig(vs) <==>
      |us| == |vs| && forall i :: 0 <= i < |us| ==> us[i].Entry() == vs[i].Entry()
  {
    if |us| == |vs| && forall i :: 0 <= i < |us| ==> us[i].Entry() == vs[i].Entry() {
      assert forall i :: 0 <= i < |us| ==> UpgradeSig(us)[i] == UpgradeSig(vs)[i];
    }
  }

  /** `toFixed(2)` of a number below 10^21, as the pair (minus sign,
      digits): the integer n with n / 100 nearest to |x|, the larger one on
      a tie, and a sign for a negative x. */
  datatype FixedKey = FixedKey(negative: bool, hundredths: int)

  function Fixed2(x: real): (k: FixedKey)
    ensures k.negative <==> x < 0.0
    ensures k.hundredths >= 0
    ensures k.hundredths as real - 0.5 <= (if x < 0.0 then -x else x) * 100.0 < k.hundredths as real + 0.5
  {
    var a := if x < 0.0 then -x else x;
    FixedKey(x < 0.0, (a * 100.0 + 0.5).Floor)
  }

  /** Research points that show the same two decimals differ by less than
      0.01; so points that move by 0.01 or more always change the
      signature. */
  lemma Fixed2Close(p: real, q: real)
    requires Fixed2(p) == Fixed2(q)
    ensures p - q < 0.01 && q - p < 0.01
  {
    var k := Fixed2(p).hundredths as real;
    var a := if p < 0.0 then -p else p;
    var b := if q < 0.0 then -q else q;
    assert k - 0.5 <= a * 100.0 < k + 0.5;
    assert k - 0.5 <= b * 100.0 < k + 0.5;
    assert (a - b) * 100.0 < 1.0 && (b - a) * 100.0 < 1.0;
  }

  datatype ResearchState = ResearchState(points: real, available: seq<ResearchItem>)

  /** The research signature: the item entries followed by `p:` and the
      points to two decimals. */
  datatype ResearchSig = ResearchSig(entries: seq<SigEntry>, points: FixedKey)

  function ResearchSignature(r: ResearchState): ResearchSig
  {
    ResearchSig(Signature(r.available, (it: ResearchItem) => it.Entry()), Fixed2(r.points))
  }

  /** A research signature never equals the empty signature, since it
      always ends with the `|p:` part; and two states with equal signatures
      list the same entries and points within 0.01 of each other. */
  lemma ResearchSigAgrees(r: ResearchState, s: ResearchState)
    requires ResearchSignature(r) == ResearchSignature(s)
    ensures |r.available| == |s.available|
    ensures forall i :: 0 <= i < |r.available| ==> r.available[i].Entry() == s.available[i].Entry()
    ensures r.points - s.points < 0.01 && s.points - r.points < 0.01
  {
    Fixed2Close(r.points, s.points);
    var sr := Signature(r.available, (it: ResearchItem) => it.Entry());
    var ss := Signature(s.available, (it: ResearchItem) => it.Entry());
    assert sr == ss;
    forall i | 0 <= i < |r.available|
      ensures r.available[i].Entry() == s.available[i].Entry()
    {
      assert sr[i] == r.available[i].Entry() && ss[i] == s.available[i].Entry();
    }
  }

  /** One rendered upgrade row; `affordable` is the absence of the
      `disabled` class. */
  datatype UpgradeView = UpgradeView(id: string, name: string, level: int, cost: real,
                                     description: string, affordable: bool)

  function UpgradeViewOf(u: Upgrade, btc: real): (v: UpgradeView)
    ensures v.id == u.id && v.name == u.name && v.level == u.level && v.cost == u.cost
    ensures v.affordable <==> btc >= u.cost
  {
    UpgradeView(u.id, u.name, u.level, u.cost, u.description, btc >= u.cost)
  }

  /** One rendered research row; `insufficient` is the `disabled` class. */
  datatype ResearchView = ResearchView(id: string, name: string, level: int, cost: real, insufficient: bool)

  function ResearchViewOf(it: ResearchItem, points: real): (v: ResearchView)
    ensures v.id == it.id && v.name == it.name && v.level == it.level && v.cost == it.cost
    ensures v.insufficient <==> points < it.cost
  {
    ResearchView(it.id, it.name, it.level, it.cost, points < it.cost)
  }

  // ---------------------------------------------------------------------
  // Log lines

  /** The type `log` derives: 'risk' for a message starting with "[RISK]",
      'trace' for one starting with "[TRACE]", otherwise the given type. */
  function DerivedType(message: string, kind: string): (t: string)
    ensures "[RISK]" <= message ==> t == "risk"
    ensures "[TRACE]" <= message ==> t == "trace"
    ensures !("[RISK]" <= message) && !("[TRACE]" <= message) ==> t == kind
  {
    assert "[RISK]" <= message ==> message[1] == 'R';
    assert "[TRACE]" <= message ==> message[1] == 'T';
    var t := if "[RISK]" <= message then "risk" else kind;
    if "[TRACE]" <= message then "trace" else t
  }

  /** A log line: its type class and its text (the time stamp is not
      modelled). */
  datatype LogLine = LogLine(kind: string, message: string)

  /** The lines `flushGameEvents` logs for a list of queued events. */
  function SystemLines(events: seq<string>): (r: seq<LogLine>)
    ensures |r| == |events|
    ensures forall i :: 0 <= i < |events| ==> r[i] == LogLine(DerivedType(events[i], "system"), events[i])
  {
    if events == [] then [] else [LogLine(DerivedType(events[0], "system"), events[0])] + SystemLines(events[1..])
  }

  /** Logging two batches is logging their concatenation. */
  lemma {:induction false} SystemLinesAppend(a: seq<string>, b: seq<string>)
    ensures SystemLines(a + b) == SystemLines(a) + SystemLines(b)
    decreases |a|
  {
    if a != [] {
      assert (a + b)[1..] == a[1..] + b;
      SystemLinesAppend(a[1..], b);
    }
  }

  // ---------------------------------------------------------------------
  // Activity tail

  datatype Activity = Activity(t: real, msg: string)

  /** `feed.slice(-10).reverse()`: the last ten entries, newest first. */
  function ActivityTail(feed: seq<Activity>): (r: seq<Activity>)
    ensures |r| == (if |feed| < 10 then |feed| else 10)
    ensures forall i :: 0 <= i < |r| ==> r[i] == feed[|feed| - 1 - i]
  {
    var n := if |feed| < 10 then |feed| else 10;
    Reversed(feed[|feed| - n..])
  }

  function Reversed<T>(s: seq<T>): (r: seq<T>)
    ensures |r| == |s|
    ensures forall i :: 0 <= i < |s| ==> r[i] == s[|s| - 1 - i]
  {
    if s == [] then [] else Reversed(s[1..]) + [s[0]]
  }

  /** A new feed entry appears at the top of the list and pushes the
      others down by one, the oldest of ten dropping out. */
  lemma ActivityTailPush(feed: seq<Activity>, a: Activity)
    ensures ActivityTail(feed + [a])[0] == a
    ensures ActivityTail(feed + [a])[1..] == ActivityTail(feed)[..if |feed| < 9 then |feed| else 9]
  {
    var r := ActivityTail(feed + [a]);
    var t := ActivityTail(feed);
    var m := if |feed| < 9 then |feed| else 9;
    assert |r[1..]| == |t[..m]|;
    forall i | 0 <= i < |r| - 1
      ensures r[1..][i] == t[..m][i]
    {
      assert r[i + 1] == (feed + [a])[|feed| - 1 - i];
    }
  }

  // ---------------------------------------------------------------------
  // Code stream

  /** The characters `String.prototype.trim` removes: the white space
      (tab, vertical tab, form feed, space, no-break space, byte order mark
      and the other space separators) and the line terminators, as
      sections 11.2 and 11.3 of ECMAScript 2015 list them. */
  predicate IsSpace(c: char)
  {
    || c == '\t' || c == '\U{000B}' || c == '\U{000C}' || c == ' ' || c == '\U{00A0}' || c == '\U{FEFF}'
    || c == '\U{1680}' || ('\U{2000}' <= c <= '\U{200A}') || c == '\U{202F}' || c == '\U{205F}' || c == '\U{3000}'
    || c == '\n' || c == '\r' || c == '\U{2028}' || c == '\U{2029}'
  }

  /** A line whose `trim()` is empty. */
  predicate Blank(l: string)
  {
    forall i :: 0 <= i < |l| ==> IsSpace(l[i])
  }

  /** The `filter(l => l.trim().length)` of the existing lines. */
  function NonBlank(lines: seq<string>): (r: seq<string>)
    ensures |r| <= |lines|
    ensures forall i :: 0 <= i < |r| ==> !Blank(r[i])
    ensures forall i :: 0 <= i < |lines| ==> !Blank(lines[i]) ==> lines[i] in r
    ensures (forall i :: 0 <= i < |lines| ==> !Blank(lines[i])) ==> r == lines
  {
    if lines == [] then []
    else if Blank(lines[0]) then NonBlank(lines[1..])
    else [lines[0]] + NonBlank(lines[1..])
  }

  /** The filter distributes over concatenation, so it keeps the non-blank
      lines in their order and with their repetitions. */
  lemma {:induction false} NonBlankAppend(a: seq<string>, b: seq<string>)
    ensures NonBlank(a + b) == NonBlank(a) + NonBlank(b)
    decreases |a|
  {
    if a == [] {
      assert a + b == b;
    } else {
      assert (a + b)[1..] == a[1..] + b;
      NonBlankAppend(a[1..], b);
    }
  }

  /** On one line the filter drops it exactly when it is blank. */
  lemma NonBlankSingle(l: string)
    ensures NonBlank([l]) == if Blank(l) then [] else [l]
  {
  }

  /** The last `n` elements, or all of them when there are fewer. */
  function LastN<T>(s: seq<T>, n: nat): (r: seq<T>)
    ensures |r| == (if |s| < n then |s| else n)
    ensures r == s[|s| - |r|..]
  {
    if |s| <= n then s else s[|s| - n..]
  }

  /** `updateCodeStream` on the lines of the stream and three new lines:
      the non-blank existing lines, then the new ones, keeping the last 60. */
  function NextStream(existing: seq<string>, incoming: seq<string>): (r: seq<string>)
    ensures |r| <= 60
    ensures |r| == (if |NonBlank(existing)| + |incoming| < 60 then |NonBlank(existing)| + |incoming| else 60)
    ensures r == (NonBlank(existing) + incoming)[|NonBlank(existing) + incoming| - |r|..]
    ensures |incoming| <= 60 ==> incoming == r[|r| - |incoming|..]
  {
    LastN(NonBlank(existing) + incoming, 60)
  }

  /** No line of the list is blank. */
  predicate NoBlankLines(lines: seq<string>)
  {
    forall i :: 0 <= i < |lines| ==> !Blank(lines[i])
  }

  /** Once the stream holds no blank line, each update with three non-blank
      lines grows it by three until 60 lines are reached, and it keeps
      holding no blank line. */
  lemma StreamGrows(existing: seq<string>, incoming: seq<string>)
    requires NoBlankLines(existing)
    requires |incoming| == 3 && NoBlankLines(incoming)
    ensures |NextStream(existing, incoming)| == (if |existing| + 3 < 60 then |existing| + 3 else 60)
    ensures NoBlankLines(NextStream(existing, incoming))
  {
    var all := existing + incoming;
    assert NonBlank(existing) == existing;
    var r := NextStream(existing, incoming);
    var off := |all| - |r|;
    assert r == all[off..];
    forall i | 0 <= i < |r|
      ensures !Blank(r[i])
    {
      if off + i < |existing| {
        assert r[i] == existing[off + i];
      } else {
        assert r[i] == incoming[off + i - |existing|];
      }
    }
  }

  // ---------------------------------------------------------------------
  // Click debounce

  /** The debounce window of the upgrade and research click handlers. */
  const DebounceMs: real := 120.0

  /** Whether a click at `now` passes the debounce against the stamp of the
      previous accepted click. */
  predicate PassesDebounce(stamp: real, now: real)
  {
    now - stamp >= DebounceMs
  }

  /** A button without a usable `data-upgrade-id`: absent or empty, both
      falsy. */
  predicate NoId(id: Option<string>)
  {
    id.None? || id.value == ""
  }

  /** What a click in the upgrade or research list leads to. */
  datatype ClickOutcome = Ignored | TooSoon | MissingId | NeedFunds(cost: real) | Purchase(id: Option<string>)

  /** The guards of a list click handler: not on a button or while paused
      it is ignored; within 120 ms of the stamp it is too soon; the upgrade
      handler (`needsId`) then drops a button without an id or with an
      empty one; a cost above
      the balance is refused; otherwise the purchase is requested. */
  function ClickDecision(stamp: real, paused: bool, onButton: bool, now: real, id: Option<string>,
                         needsId: bool, cost: real, balance: real): (o: ClickOutcome)
    ensures o == Ignored <==> !onButton || paused
    ensures o == TooSoon <==> onButton && !paused && !PassesDebounce(stamp, now)
    ensures o == MissingId <==> onButton && !paused && PassesDebounce(stamp, now) && needsId && NoId(id)
    ensures o.NeedFunds? ==> o.cost == cost && balance < cost
    ensures o.Purchase? <==> onButton && !paused && PassesDebounce(stamp, now) && (needsId ==> !NoId(id)) && balance >= cost
    ensures o.Purchase? ==> o.id == id
  {
    if !onButton || paused then Ignored
    else if !PassesDebounce(stamp, now) then TooSoon
    else if needsId && NoId(id) then MissingId
    else if balance < cost then NeedFunds(cost)
    else Purchase(id)
  }

  /** Whether the click moves the stamp: every click that gets past the
      debounce does, even when it is then dropped or refused. */
  lemma StampMovesPastDebounce(stamp: real, paused: bool, onButton: bool, now: real, id: Option<string>,
                               needsId: bool, cost: real, balance: real)
    ensures ClickDecision(stamp, paused, onButton, now, id, needsId, cost, balance) !in {Ignored, TooSoon}
        <==> onButton && !paused && PassesDebounce(stamp, now)
  {
  }

  /** The click times the debounce lets through, starting from a stamp. */
  function Accepted(stamp: real, times: seq<real>): (r: seq<real>)
    ensures |r| <= |times|
    decreases |times|
  {
    if times == [] then []
    else if PassesDebounce(stamp, times[0]) then [times[0]] + Accepted(times[0], times[1..])
    else Accepted(stamp, times[1..])
  }

  /** Accepted clicks are at least 120 ms after the stamp and at least
      120 ms apart from each other. */
  lemma {:induction false} AcceptedSpaced(stamp: real, times: seq<real>)
    ensures |Accepted(stamp, times)| > 0 ==> Accepted(stamp, times)[0] - stamp >= DebounceMs
    ensures forall i :: 0 < i < |Accepted(stamp, times)| ==>
      Accepted(stamp, times)[i] - Accepted(stamp, times)[i - 1] >= DebounceMs
    decreases |times|
  {
    if times != [] {
      if PassesDebounce(stamp, times[0]) {
        AcceptedSpaced(times[0], times[1..]);
        var r := Accepted(stamp, times);
        var rest := Accepted(times[0], times[1..]);
        assert r == [times[0]] + rest;
        forall i | 1 < i < |r|
          ensures r[i] - r[i - 1] >= DebounceMs
        {
          assert r[i] == rest[i - 1] && r[i - 1] == rest[i - 2];
        }
      } else {
        AcceptedSpaced(stamp, times[1..]);
      }
    }
  }

  // ---------------------------------------------------------------------
  // The UI object

  /** The warning an upgrade click logs when BTC is short. Its type is
      'warning': the message starts with neither '[RISK]' nor '[TRACE]'. */
  function UpgradeFundsWarning(costText: string): (m: string)
    ensures "[UPGRADE] " <= m
    ensures DerivedType(m, "warning") == "warning"
  {
    var m := "[UPGRADE] Need " + costText + " BTC";
    assert m[1] == 'U';
    m
  }

  /** The warning a research click logs when the points are short. */
  function ResearchFundsWarning(costText: string): (m: string)
    ensures "[RESEARCH] " <= m
    ensures DerivedType(m, "warning") == "warning"
  {
    var m := "[RESEARCH] Need " + costText + " RP";
    assert m[1] == 'R' && m[2] == 'E';
    m
  }

  /** The game's `recentEvents` list, which `Game.js` does not
      define; `null` stands for an absent list. */
  class EventQueue {
    var items: seq<string>

    constructor (items: seq<string>)
      ensures this.items == items
    {
      this.items := items;
    }
  }

  /** The state `UI` keeps across calls, with the rendered lists and bars
      as values. */
  class UI {
    const game: Game
    var lastUpgradesSig: seq<SigEntry>
    var upgradeViews: seq<UpgradeView>
    var lastResearchSig: Option<ResearchSig>
    var researchViews: seq<ResearchView>
    var upgradeStamp: real
    var researchStamp: real
    var logLines: seq<LogLine>
    var codeLines: seq<string>
    var activityView: seq<Activity>
    var hackViews: seq<CardView>
    var cpuBar: BarState
    var riskBar: BarState

    /** `new UI(game)`: empty signatures, both click stamps at 0, nothing
        rendered. */
    constructor (game: Game)
      ensures this.game == game
      ensures lastUpgradesSig == [] && lastResearchSig == None
      ensures upgradeStamp == 0.0 && researchStamp == 0.0
      ensures upgradeViews == [] && researchViews == [] && logLines == [] && codeLines == []
      ensures activityView == [] && hackViews == []
    {
      this.game := game;
      lastUpgradesSig, lastResearchSig := [], None;
      upgradeViews, researchViews := [], [];
      upgradeStamp, researchStamp := 0.0, 0.0;
      logLines, codeLines, activityView, hackViews := [], [], [], [];
      cpuBar, riskBar := ProgressBar(0.0), ProgressBar(0.0);
    }

    /** The two bars of `update`: CPU usage and detection risk. Under the
        game's invariant the CPU bar shows the usage itself. */
    method RefreshBars()
      modifies this`cpuBar, this`riskBar
      ensures cpuBar == ProgressBar(game.cpuUsage) && riskBar == ProgressBar(game.detectionRisk)
      ensures game.Valid() ==> cpuBar.percent == game.cpuUsage
    {
      cpuBar := ProgressBar(game.cpuUsage);
      riskBar := ProgressBar(game.detectionRisk);
    }

    /** `updateActiveHacks(hacks)`: one card per hack, in order. */
    method UpdateActiveHacks(hacks: seq<HackCard>)
      modifies this`hackViews
      ensures |hackViews| == |hacks|
      ensures forall i :: 0 <= i < |hacks| ==> hackViews[i] == CardOf(hacks[i])
    {
      var views: seq<CardView> := [];
      var i := 0;
      while i < |hacks|
        invariant 0 <= i <= |hacks| && |views| == i
        invariant forall k :: 0 <= k < i ==> views[k] == CardOf(hacks[k])
      {
        views := views + [CardOf(hacks[i])];
        i := i + 1;
      }
      hackViews := views;
    }

    /** `updateUpgrades(upgrades)`: nothing happens when the signature is the
        last one rendered; otherwise the signature is stored and the list
        re-rendered against the current BTC balance. Either way the stored
        signature is the list's afterwards, so a second call with the same
        list does nothing. */
    method UpdateUpgrades(upgrades: seq<Upgrade>)
      modifies this`lastUpgradesSig, this`upgradeViews
      ensures lastUpgradesSig == UpgradeSig(upgrades)
      ensures UpgradeSig(upgrades) == old(lastUpgradesSig) ==> upgradeViews == old(upgradeViews)
      ensures UpgradeSig(upgrades) != old(lastUpgradesSig) ==>
        |upgradeViews| == |upgrades| &&
        forall i :: 0 <= i < |upgrades| ==> upgradeViews[i] == UpgradeViewOf(upgrades[i], game.btc)
    {
      var sig := UpgradeSig(upgrades);
      if sig == lastUpgradesSig {
        return;
      }
      lastUpgradesSig := sig;
      var views: seq<UpgradeView> := [];
      var i := 0;
      while i < |upgrades|
        invariant 0 <= i <= |upgrades| && |views| == i
        invariant forall k :: 0 <= k < i ==> views[k] == UpgradeViewOf(upgrades[k], game.btc)
      {
        views := views + [UpgradeViewOf(upgrades[i], game.btc)];
        i := i + 1;
      }
      upgradeViews := views;
    }

    /** `updateResearch(state)`: nothing without a research state or when
        its signature is the last one rendered; otherwise the signature is
        stored and the list re-rendered against the points. */
    method UpdateResearch(research: Option<ResearchState>)
      modifies this`lastResearchSig, this`researchViews
      ensures research.None? ==> lastResearchSig == old(lastResearchSig) && researchViews == old(researchViews)
      ensures research.Some? ==> lastResearchSig == Some(ResearchSignature(research.value))
      ensures research.Some? && old(lastResearchSig) == Some(ResearchSignature(research.value)) ==>
        researchViews == old(researchViews)
      ensures research.Some? && old(lastResearchSig) != Some(ResearchSignature(research.value)) ==>
        |researchViews| == |research.value.available| &&
        forall i :: 0 <= i < |research.value.available| ==>
          researchViews[i] == ResearchViewOf(research.value.available[i], research.value.points)
    {
      if research.None? {
        return;
      }
      var state := research.value;
      var sig := Some(ResearchSignature(state));
      if sig == lastResearchSig {
        return;
      }
      lastResearchSig := sig;
      var views: seq<ResearchView> := [];
      var i := 0;
      while i < |state.available|
        invariant 0 <= i <= |state.available| && |views| == i
        invariant forall k :: 0 <= k < i ==> views[k] == ResearchViewOf(state.available[k], state.points)
      {
        views := views + [ResearchViewOf(state.available[i], state.points)];
        i := i + 1;
      }
      researchViews := views;
    }

    /** `log(message, type = 'info')`. */
    method Log(message: string, kind: string := "info")
      modifies this`logLines
      ensures logLines == old(logLines) + [LogLine(DerivedType(message, kind), message)]
    {
      logLines := logLines + [LogLine(DerivedType(message, kind), message)];
    }

    /** `flushGameEvents`: the queue is emptied and each event logged, in
        queue order, with the type 'system' (or the type its prefix
        selects). */
    method FlushGameEvents(queue: EventQueue?)
      modifies queue, this`logLines
      ensures queue == null ==> logLines == old(logLines)
      ensures queue != null ==> queue.items == [] && logLines == old(logLines) + SystemLines(old(queue.items))
    {
      if queue == null || |queue.items| == 0 {
        return;
      }
      var drained := queue.items;
      queue.items := [];
      var i := 0;
      while i < |drained|
        invariant 0 <= i <= |drained|
        invariant logLines == old(logLines) + SystemLines(drained[..i])
        invariant queue.items == []
      {
        SystemLinesAppend(drained[..i], [drained[i]]);
        assert drained[..i + 1] == drained[..i] + [drained[i]];
        Log(drained[i], "system");
        i := i + 1;
      }
      assert drained[..i] == drained;
    }

    /** The activity list of `updateAnalytics`, when the game has a feed. */
    method UpdateAnalytics(feed: Option<seq<Activity>>)
      modifies this`activityView
      ensures feed.Some? ==> activityView == ActivityTail(feed.value)
      ensures feed.None? ==> activityView == old(activityView)
    {
      if feed.Some? {
        activityView := ActivityTail(feed.value);
      }
    }

    /** `updateCodeStream`, with the three random code lines as `incoming`. */
    method UpdateCodeStream(incoming: seq<string>)
      requires |incoming| == 3
      modifies this`codeLines
      ensures codeLines == NextStream(old(codeLines), incoming)
    {
      var existing := NonBlank(codeLines);
      codeLines := LastN(existing + incoming, 60);
    }

    /** A click in the upgrade list at `now` (milliseconds), on a button
        carrying `id` and `cost`, with `costText` the cost as `toFixed(5)`
        renders it. The stamp moves for every click past the debounce; a
        click refused for lack of BTC logs a warning. The purchase itself is
        not part of this model. */
    method UpgradeClick(onButton: bool, now: real, id: Option<string>, cost: real, costText: string)
      returns (o: ClickOutcome)
      modifies this`upgradeStamp, this`logLines
      ensures o == ClickDecision(old(upgradeStamp), game.isPaused, onButton, now, id, true, cost, game.btc)
      ensures upgradeStamp == (if onButton && !game.isPaused && PassesDebounce(old(upgradeStamp), now)
                               then now else old(upgradeStamp))
      ensures o.NeedFunds? ==> logLines == old(logLines) + [LogLine("warning", UpgradeFundsWarning(costText))]
      ensures !o.NeedFunds? ==> logLines == old(logLines)
    {
      if !onButton || game.isPaused {
        return Ignored;
      }
      if now - upgradeStamp < DebounceMs {
        return TooSoon;
      }
      upgradeStamp := now;
      if NoId(id) {
        return MissingId;
      }
      if game.btc < cost {
        Log(UpgradeFundsWarning(costText), "warning");
        return NeedFunds(cost);
      }
      return Purchase(id);
    }

    /** A click in the research list at `now`, with the research points of
        the game (which `Game.js` does not define) as `points` and
        `costText` the cost as JavaScript renders it. A click refused for
        lack of points logs a warning. */
    method ResearchClick(onButton: bool, now: real, id: Option<string>, cost: real, points: real,
                         costText: string)
      returns (o: ClickOutcome)
      modifies this`researchStamp, this`logLines
      ensures o == ClickDecision(old(researchStamp), game.isPaused, onButton, now, id, false, cost, points)
      ensures researchStamp == (if onButton && !game.isPaused && PassesDebounce(old(researchStamp), now)
                                then now else old(researchStamp))
      ensures o.NeedFunds? ==> logLines == old(logLines) + [LogLine("warning", ResearchFundsWarning(costText))]
      ensures !o.NeedFunds? ==> logLines == old(logLines)
    {
      if !onButton || game.isPaused {
        return Ignored;
      }
      if now - researchStamp < DebounceMs {
        return TooSoon;
      }
      researchStamp := now;
      if points < cost {
        Log(ResearchFundsWarning(costText), "warning");
        return NeedFunds(cost);
      }
      return Purchase(id);
    }
  }
}
