/** The studio events of src/controllers/EventController.js: a fixed table of
    (chance, effect) entries tried in order, one random draw per entry, and
    at most one effect per `update`. */
module EventControl {
  import opened Common
  import opened GameModel

  /** The five entries of the event table, in table order. */
  datatype StudioEvent = BugFix | StreamerPlay | StaffQuit | PublisherBonus | NegativeReview

  datatype EventEntry = EventEntry(chance: real, event: StudioEvent)

  /** The `events` table the constructor builds. */
  const EventTable: seq<EventEntry> := [
    EventEntry(0.1, BugFix),
    EventEntry(0.15, StreamerPlay),
    EventEntry(0.1, StaffQuit),
    EventEntry(0.1, PublisherBonus),
    EventEntry(0.15, NegativeReview)
  ]

  /** The three game fields an event may touch. */
  datatype Studio = Studio(money: real, hype: real, staff: int)

  /** Events that only ever help the studio. */
  predicate Favourable(e: StudioEvent)
  {
    e == StreamerPlay || e == PublisherBonus
  }

  /** What each entry's `execute` does to the studio fields: a bug fix costs
      1000, a streamer adds 5 hype, a member quits only when more than one is
      on staff, a publisher pays 2000, a bad review takes 3 hype but not
      below 0. Each event touches one field only, favourable events never
      lower a field and the others never raise one. */
  function Effect(e: StudioEvent, s: Studio): (r: Studio)
    ensures e == BugFix ==> r == s.(money := s.money - 1000.0)
    ensures e == StreamerPlay ==> r == s.(hype := s.hype + 5.0)
    ensures e == StaffQuit ==> r.money == s.money && r.hype == s.hype
    ensures e == StaffQuit ==> (r.staff == s.staff - 1 <==> s.staff > 1) && (r.staff == s.staff <==> s.staff <= 1)
    ensures e == PublisherBonus ==> r == s.(money := s.money + 2000.0)
    ensures e == NegativeReview ==> r.money == s.money && r.staff == s.staff && r.hype == Max(0.0, s.hype - 3.0)
    ensures Favourable(e) ==> r.money >= s.money && r.hype >= s.hype && r.staff >= s.staff
    ensures !Favourable(e) ==> r.money <= s.money && r.staff <= s.staff && (s.hype >= 0.0 ==> r.hype <= s.hype)
    ensures s.hype >= 0.0 ==> r.hype >= 0.0
    ensures s.staff >= 1 ==> r.staff >= 1
  {
    match e
    case BugFix => s.(money := s.money - 1000.0)
    case StreamerPlay => s.(hype := s.hype + 5.0)
    case StaffQuit => if s.staff > 1 then s.(staff := s.staff - 1) else s
    case PublisherBonus => s.(money := s.money + 2000.0)
    case NegativeReview => s.(hype := Max(0.0, s.hype - 3.0))
  }

  /** The index of the first entry at or after `from` whose draw is below its
      chance, if any: exactly the entry the loop of `update` executes. */
  function FirstFiring(draws: seq<real>, table: seq<EventEntry>, from: nat): (r: Option<nat>)
    requires |draws| == |table| && from <= |table|
    ensures r.Some? ==> from <= r.value < |table| && draws[r.value] < table[r.value].chance
    ensures r.Some? ==> forall j :: from <= j < r.value ==> draws[j] >= table[j].chance
    ensures r.None? ==> forall j :: from <= j < |table| ==> draws[j] >= table[j].chance
    decreases |table| - from
  {
    if from == |table| then None
    else if draws[from] < table[from].chance then Some(from)
    else FirstFiring(draws, table, from + 1)
  }

  /** Conversely, an entry that fires after a run of entries that did not is
      the one `FirstFiring` picks. */
  lemma {:induction false} FirstFiringIsFirst(draws: seq<real>, table: seq<EventEntry>, from: nat, i: nat)
    requires |draws| == |table| && from <= i < |table|
    requires draws[i] < table[i].chance
    requires forall j :: from <= j < i ==> draws[j] >= table[j].chance
    ensures FirstFiring(draws, table, from) == Some(i)
    decreases i - from
  {
    if from < i {
      FirstFiringIsFirst(draws, table, from + 1, i);
    }
  }

  /** The event `update` executes for a set of draws, while the game runs. */
  function Fired(draws: seq<real>): (r: Option<StudioEvent>)
    requires |draws| == |EventTable|
    ensures r.None? <==> forall j :: 0 <= j < |EventTable| ==> draws[j] >= EventTable[j].chance
    ensures r.Some? ==> exists i :: 0 <= i < |EventTable| && FirstFiring(draws, EventTable, 0) == Some(i) && r.value == EventTable[i].event
  {
    match FirstFiring(draws, EventTable, 0)
    case None => None
    case Some(i) => Some(EventTable[i].event)
  }

  /** The studio fields after a series of events. */
  function ApplyEffects(s: Studio, es: seq<StudioEvent>): Studio
    decreases |es|
  {
    if es == [] then s else ApplyEffects(Effect(es[0], s), es[1..])
  }

  /** However many events happen, a studio with someone on staff keeps
      someone, hype never goes negative, and the money moves by at most
      2000 per event. */
  lemma {:induction false} EffectsKeepStudio(s: Studio, es: seq<StudioEvent>)
    requires s.staff >= 1 && s.hype >= 0.0
    ensures ApplyEffects(s, es).staff >= 1 && ApplyEffects(s, es).hype >= 0.0
    ensures ApplyEffects(s, es).staff <= s.staff
    ensures s.money - 1000.0 * |es| as real <= ApplyEffects(s, es).money <= s.money + 2000.0 * |es| as real
    decreases |es|
  {
    if es != [] {
      EffectsKeepStudio(Effect(es[0], s), es[1..]);
    }
  }

  function StudioOf(g: Game): Studio
    reads g
  {
    Studio(g.money, g.hype, g.staff)
  }

  /** The event controller of src/controllers/EventController.js, bound to
      one game. The log and redraw calls on the UI are not modelled. */
  class EventController {
    const game: Game
    const events: seq<EventEntry>

    constructor (game: Game)
      ensures this.game == game && events == EventTable
    {
      this.game := game;
      events := EventTable;
    }

    /** One entry's `execute`. */
    method Execute(e: StudioEvent)
      requires game.Valid()
      modifies game`money, game`hype, game`staff
      ensures game.Valid()
      ensures StudioOf(game) == Effect(e, old(StudioOf(game)))
    {
      match e
      case BugFix =>
        game.money := game.money - 1000.0;
      case StreamerPlay =>
        game.hype := game.hype + 5.0;
      case StaffQuit =>
        if game.staff > 1 {
          game.staff := game.staff - 1;
        }
      case PublisherBonus =>
        game.money := game.money + 2000.0;
      case NegativeReview =>
        game.hype := Max(0.0, game.hype - 3.0);
    }

    /** `update`, with `draws[i]` the `Math.random()` value drawn for entry
        `i`. Nothing happens unless a project runs; otherwise the first
        entry whose draw is below its chance is executed and the loop stops.
        `fired` is the executed event. */
    method Update(draws: seq<real>) returns (fired: Option<StudioEvent>)
      requires game.Valid() && events == EventTable && |draws| == |EventTable|
      modifies game`money, game`hype, game`staff
      ensures game.Valid()
      ensures fired == (if old(game.isRunning) then Fired(draws) else None)
      ensures StudioOf(game) == (if fired.Some? then Effect(fired.value, old(StudioOf(game))) else old(StudioOf(game)))
    {
      if !game.isRunning {
        return None;
      }
      fired := None;
      var i := 0;
      while i < |events|
        invariant 0 <= i <= |events|
        invariant FirstFiring(draws, events, 0) == FirstFiring(draws, events, i)
        invariant StudioOf(game) == old(StudioOf(game)) && game.Valid()
      {
        if draws[i] < events[i].chance {
          Execute(events[i].event);
          fired := Some(events[i].event);
          break;
        }
        i := i + 1;
      }
    }
  }
}
