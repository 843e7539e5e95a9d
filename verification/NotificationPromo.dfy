/**
 NotificationPromo (chrome/browser/notification_promo.cc): a promo's views, first
 view and closing persist in local state, one record per promo id. Times are
 integers, and the clock reads more than zero.
 */
module NotificationPromo {
  import opened Prelude

  type Time = int

  datatype Config = Config(id: int, text: string, start: Time, end: Time, maxViews: int, maxSeconds: int)

  /** The persisted part of a promo; a promo without a record starts from `UNSEEN`. */
  datatype Record = Record(firstView: Time, views: int, closed: bool)

  const UNSEEN := Record(0, 0, false)

  type Prefs = map<int, Record>

  /** InitFromPrefs on a fresh promo: an unset id reads nothing. */
  function Load(prefs: Prefs, id: int): Record {
    if id == -1 || id !in prefs then UNSEEN else prefs[id]
  }

  predicate ExceedsMaxViews(c: Config, r: Record) {
    if c.maxViews == 0 then false else r.views >= c.maxViews
  }

  predicate ExceedsMaxSeconds(c: Config, r: Record, now: Time) {
    if c.maxSeconds == 0 || r.firstView == 0 then false else r.firstView + c.maxSeconds < now
  }

  predicate CanShow(c: Config, r: Record, now: Time) {
    && !r.closed && c.text != "" && !ExceedsMaxViews(c, r) && !ExceedsMaxSeconds(c, r, now)
    && c.start < now && c.end > now
  }

  function Viewed(r: Record, now: Time): Record {
    Record(if r.firstView == 0 then now else r.firstView, r.views + 1, r.closed)
  }

  // ---- runs ----

  /** Each event loads a promo afresh: a visit shows it if it may be shown and records
      the view; a closing records that. */
  datatype Event = Visit(c: Config, now: Time) | Close(c: Config)

  predicate Shows(prefs: Prefs, e: Event) {
    e.Visit? && CanShow(e.c, Load(prefs, e.c.id), e.now)
  }

  function After(prefs: Prefs, e: Event): Prefs {
    var r := Load(prefs, e.c.id);
    match e
    case Visit(c, now) => if CanShow(c, r, now) then prefs[c.id := Viewed(r, now)] else prefs
    case Close(c) => if !r.closed then prefs[c.id := r.(closed := true)] else prefs
  }

  function Run(events: seq<Event>): Prefs {
    if events == [] then map[] else After(Run(events[..|events| - 1]), events[|events| - 1])
  }

  /** How often promo `id` was shown. */
  function Shown(events: seq<Event>, id: int): nat {
    if events == [] then 0
    else
      var front, last := events[..|events| - 1], events[|events| - 1];
      Shown(front, id) + if last.c.id == id && Shows(Run(front), last) then 1 else 0
  }

  /** The configured cap of `id` never changes, and the clock reads more than zero. */
  ghost predicate Steady(events: seq<Event>, id: int, cap: int) {
    forall i :: 0 <= i < |events| ==>
      && (events[i].c.id == id ==> events[i].c.maxViews == cap)
      && (events[i].Visit? ==> 0 < events[i].now)
  }

  lemma {:induction false} ViewsCountShows(events: seq<Event>, id: int, cap: int)
    requires id != -1 && 0 < cap && Steady(events, id, cap)
    ensures Load(Run(events), id).views == Shown(events, id) <= cap
    ensures Load(Run(events), id).firstView != 0 <==> 0 < Shown(events, id)
  {
    if events != [] {
      ViewsCountShows(events[..|events| - 1], id, cap);
    }
  }

  /** An event for one promo leaves every other promo's record alone. */
  lemma OthersUntouched(prefs: Prefs, e: Event, id: int)
    requires e.c.id != id
    ensures Load(After(prefs, e), id) == Load(prefs, id)
  {
  }

  /** A further stretch of events from given preferences. */
  function RunFrom(prefs: Prefs, events: seq<Event>): Prefs
    decreases |events|
  {
    if events == [] then prefs else RunFrom(After(prefs, events[0]), events[1..])
  }

  /** Once closed, never shown again; once set, the first view stays, whatever follows. */
  lemma {:induction false} ClosedAndFirstViewStick(prefs: Prefs, events: seq<Event>, id: int)
    requires id != -1
    ensures Load(prefs, id).closed ==> Load(RunFrom(prefs, events), id) == Load(prefs, id)
    ensures Load(prefs, id).firstView != 0 ==> Load(RunFrom(prefs, events), id).firstView == Load(prefs, id).firstView
    decreases |events|
  {
    if events != [] {
      var next := After(prefs, events[0]);
      if events[0].c.id != id { OthersUntouched(prefs, events[0], id); }
      ClosedAndFirstViewStick(next, events[1..], id);
    }
  }

  lemma ClosedNeverShows(prefs: Prefs, events: seq<Event>, e: Event)
    requires e.c.id != -1 && Load(prefs, e.c.id).closed
    ensures !Shows(RunFrom(prefs, events), e)
  {
    ClosedAndFirstViewStick(prefs, events, e.c.id);
  }

  function Repeat(e: Event, n: nat): seq<Event> {
    seq(n, _ => e)
  }

  lemma {:induction false} UnsetIdForgetsViews(e: Event, n: nat)
    requires e.c.id == -1 && e.Visit? && CanShow(e.c, UNSEEN, e.now)
    ensures Shown(Repeat(e, n), -1) == n
  {
    if n > 0 {
      assert Repeat(e, n)[..n - 1] == Repeat(e, n - 1);
      UnsetIdForgetsViews(e, n - 1);
    }
  }

  /** The view cap: a positive cap bounds the shows of a promo over every run, exactly
      for the promos whose id is set. */
  lemma ViewCapIffIdSet(id: int, cap: int)
    requires 0 < cap
    ensures id != -1 <==> forall events :: Steady(events, id, cap) ==> Shown(events, id) <= cap
  {
    if id != -1 {
      forall events | Steady(events, id, cap) ensures Shown(events, id) <= cap {
        ViewsCountShows(events, id, cap);
      }
    } else {
      var e := Visit(Config(-1, "promo", 0, 2, cap, 0), 1);
      var events := Repeat(e, cap + 1);
      UnsetIdForgetsViews(e, cap + 1);
      assert Steady(events, id, cap);
    }
  }

  /** When promo `id` was first shown. */
  function FirstShown(events: seq<Event>, id: int): Option<Time> {
    if events == [] then None
    else
      var front, last := events[..|events| - 1], events[|events| - 1];
      if FirstShown(front, id).Some? then FirstShown(front, id)
      else if last.Visit? && last.c.id == id && Shows(Run(front), last) then Some(last.now)
      else None
  }

  predicate WasClosed(events: seq<Event>, id: int) {
    exists i :: 0 <= i < |events| && events[i].Close? && events[i].c.id == id
  }

  ghost predicate ClockRuns(events: seq<Event>) {
    forall i :: 0 <= i < |events| && events[i].Visit? ==> 0 < events[i].now
  }

  lemma WasClosedSnoc(events: seq<Event>, id: int)
    requires events != []
    ensures var front, last := events[..|events| - 1], events[|events| - 1];
      WasClosed(events, id) <==> WasClosed(front, id) || (last.Close? && last.c.id == id)
  {
    var front := events[..|events| - 1];
    if i :| 0 <= i < |front| && front[i].Close? && front[i].c.id == id {
      assert events[i].Close? && events[i].c.id == id;
    }
    if i :| 0 <= i < |events| && events[i].Close? && events[i].c.id == id {
      assert i < |front| ==> front[i].Close? && front[i].c.id == id;
    }
  }

  /** The record of a promo is its history: first show, number of shows, closing. */
  lemma {:induction false} RecordIsHistory(events: seq<Event>, id: int)
    requires id != -1 && ClockRuns(events)
    ensures Load(Run(events), id) ==
      Record(if FirstShown(events, id).Some? then FirstShown(events, id).value else 0,
             Shown(events, id), WasClosed(events, id))
    ensures FirstShown(events, id).Some? <==> 0 < Shown(events, id)
    ensures FirstShown(events, id).Some? ==> 0 < FirstShown(events, id).value
  {
    if events != [] {
      RecordIsHistory(events[..|events| - 1], id);
      WasClosedSnoc(events, id);
    }
  }

  /** When a visit shows a promo, read off the events: it has a text, was never closed, the
      time lies strictly between start and end, it was shown fewer than the maximal times
      unless there is no maximum, and not more than the maximal seconds have passed since
      its first show unless there is no maximum or no show. */
  lemma ShowsIff(events: seq<Event>, c: Config, now: Time)
    requires c.id != -1 && ClockRuns(events)
    ensures Shows(Run(events), Visit(c, now)) <==>
      && c.text != "" && c.start < now < c.end
      && !WasClosed(events, c.id)
      && (c.maxViews == 0 || Shown(events, c.id) < c.maxViews)
      && (c.maxSeconds == 0 || FirstShown(events, c.id).None? || now <= FirstShown(events, c.id).value + c.maxSeconds)
  {
    RecordIsHistory(events, c.id);
  }

  // ---- the object ----

  /** The pref service's promo dictionary. */
  class LocalState {
    var promos: Prefs

    constructor ()
      ensures promos == map[]
    {
      promos := map[];
    }
  }

  class Promo {
    const localState: LocalState
    const config: Config
    var firstViewTime: Time
    var views: int
    var closed: bool

    function Fields(): Record
      reads this
    {
      Record(firstViewTime, views, closed)
    }

    constructor (localState: LocalState, config: Config)
      ensures this.localState == localState && this.config == config && Fields() == UNSEEN
    {
      this.localState, this.config := localState, config;
      firstViewTime, views, closed := 0, 0, false;
    }

    method InitFromPrefs()
      modifies this
      ensures Fields() == if config.id == -1 || config.id !in localState.promos then old(Fields())
                          else localState.promos[config.id]
      ensures old(Fields()) == UNSEEN ==> Fields() == Load(localState.promos, config.id)
    {
      if config.id == -1 || config.id !in localState.promos {
        return;
      }
      var r := localState.promos[config.id];
      firstViewTime, views, closed := r.firstView, r.views, r.closed;
    }

    method WritePrefs(firstView: Time, viewCount: int, isClosed: bool)
      modifies localState
      ensures localState.promos == old(localState.promos)[config.id := Record(firstView, viewCount, isClosed)]
    {
      localState.promos := localState.promos[config.id := Record(firstView, viewCount, isClosed)];
    }

    /** Called after the promo was shown. */
    method HandleViewed(now: Time)
      modifies localState
      ensures localState.promos == old(localState.promos)[config.id := Viewed(Fields(), now)]
      ensures Fields() == Load(old(localState.promos), config.id) && CanShow(config, Fields(), now)
        ==> localState.promos == After(old(localState.promos), Visit(config, now))
    {
      var first := firstViewTime;
      if first == 0 {
        first := now;
      }
      WritePrefs(first, views + 1, closed);
    }

    method HandleClosed()
      modifies localState
      ensures localState.promos ==
        if closed then old(localState.promos) else old(localState.promos)[config.id := Fields().(closed := true)]
      ensures Fields() == Load(old(localState.promos), config.id)
        ==> localState.promos == After(old(localState.promos), Close(config))
    {
      if !closed {
        WritePrefs(firstViewTime, views, true);
      }
    }
  }
}
