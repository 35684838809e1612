/** The per-tab message rate limiter of the background worker. */
module RateLimiter {
  const LIMIT: nat := 30
  const WINDOW: int := 5000

  datatype Tab = Tab(id: int)
  type Tracker = map<Tab, seq<int>>

  /** `timestamps.filter(t => now - t < WINDOW)` */
  function Recent(times: seq<int>, now: int): (r: seq<int>) {
    if times == [] then []
    else
      var last := times[|times| - 1];
      var rest := Recent(times[..|times| - 1], now);
      if now - last < WINDOW then rest + [last] else rest
  }

  function TimesOf(tracker: Tracker, tab: Tab): (times: seq<int>) {
    if tab in tracker then tracker[tab] else []
  }

  function AfterMessage(tracker: Tracker, tab: Tab, now: int): (r: Tracker) {
    tracker[tab := Recent(TimesOf(tracker, tab), now) + [now]]
  }

  function AfterCleanup(tracker: Tracker, now: int): (r: Tracker) {
    map tab | tab in tracker && Recent(tracker[tab], now) != [] :: Recent(tracker[tab], now)
  }

  // ------------------------------------------------------------ whole histories

  datatype Event = Message(tab: Tab, time: int) | Tidy(time: int)

  /** The clock never runs backwards. */
  predicate Ordered(events: seq<Event>) {
    forall i, j :: 0 <= i < j < |events| ==> events[i].time <= events[j].time
  }

  function Last<T>(s: seq<T>): (t: T)
    requires s != []
  {
    s[|s| - 1]
  }

  function Front<T>(s: seq<T>): (r: seq<T>)
    requires s != []
  {
    s[..|s| - 1]
  }

  function TrackerAfter(events: seq<Event>): (tracker: Tracker) {
    if events == [] then map[]
    else match Last(events)
      case Message(tab, time) => AfterMessage(TrackerAfter(Front(events)), tab, time)
      case Tidy(time) => AfterCleanup(TrackerAfter(Front(events)), time)
  }

  /** Every message a tab ever sent, accepted or not. */
  function Sent(events: seq<Event>, tab: Tab): (times: seq<int>) {
    if events == [] then []
    else
      var before := Sent(Front(events), tab);
      if Last(events).Message? && Last(events).tab == tab then before + [Last(events).time] else before
  }

  /** What the limiter answers to a message that arrives after `events`. */
  predicate Limited(events: seq<Event>, tab: Tab, time: int) {
    |Recent(TimesOf(TrackerAfter(events), tab), time)| + 1 > LIMIT
  }

  lemma {:induction false} RecentAppend(times: seq<int>, more: seq<int>, now: int)
    ensures Recent(times + more, now) == Recent(times, now) + Recent(more, now)
  {
    if more == [] {
      assert times + more == times;
    } else {
      RecentAppend(times, Front(more), now);
      assert (times + more)[..|times + more| - 1] == times + Front(more);
    }
  }

  /** Filtering early loses nothing that a later filter would keep. */
  lemma {:induction false} RecentTwice(times: seq<int>, early: int, late: int)
    requires early <= late
    ensures Recent(Recent(times, early), late) == Recent(times, late)
  {
    if times != [] {
      RecentTwice(Front(times), early, late);
      RecentAppend(Recent(Front(times), early), [Last(times)], late);
      assert Recent([Last(times)], late) == if late - Last(times) < WINDOW then [Last(times)] else [];
    }
  }

  predicate EndsBy(events: seq<Event>, now: int) {
    forall i :: 0 <= i < |events| ==> events[i].time <= now
  }

  /** The pruned tracker shows, at any later time, what the full history shows. */
  lemma {:induction false} PrunedIsFull(events: seq<Event>, tab: Tab, now: int)
    requires Ordered(events) && EndsBy(events, now)
    ensures Recent(TimesOf(TrackerAfter(events), tab), now) == Recent(Sent(events, tab), now)
  {
    if events != [] {
      var before, time := TrackerAfter(Front(events)), Last(events).time;
      PrunedIsFull(Front(events), tab, now);
      RecentTwice(TimesOf(before, tab), time, now);
      match Last(events) {
        case Message(t, _) =>
          if t == tab {
            RecentAppend(Recent(TimesOf(before, tab), time), [time], now);
            RecentAppend(Sent(Front(events), tab), [time], now);
          }
        case Tidy(_) =>
      }
    }
  }

  predicate SentBy(event: Event, tab: Tab) { event.Message? && event.tab == tab }

  /** The positions in the history of the tab's messages of the last five seconds, accepted or not. */
  function Latest(events: seq<Event>, tab: Tab, now: int): (latest: set<nat>) {
    set i: nat | i < |events| && SentBy(events[i], tab) && now - events[i].time < 5000
  }

  lemma {:induction false} LatestIsRecent(events: seq<Event>, tab: Tab, now: int)
    ensures |Latest(events, tab, now)| == |Recent(Sent(events, tab), now)|
  {
    if events != [] {
      var front, last := Front(events), Last(events);
      LatestIsRecent(front, tab, now);
      var more := if SentBy(last, tab) && now - last.time < 5000 then {|front|} else {};
      assert Latest(events, tab, now) == Latest(front, tab, now) + more;
      if SentBy(last, tab) { RecentAppend(Sent(front, tab), [last.time], now); }
    }
  }

  /** The limiter decides exactly as the full message history would, wherever cleanups fall: a message is turned
      away when thirty others of its tab lie in the last five seconds. */
  lemma LimiterIsExact(events: seq<Event>, tab: Tab, now: int)
    requires Ordered(events) && EndsBy(events, now)
    ensures Limited(events, tab, now) <==> |Latest(events, tab, now)| >= 30
  {
    PrunedIsFull(events, tab, now);
    LatestIsRecent(events, tab, now);
  }

  /** The positions of the tab's messages that were let through in the five seconds from `from`. */
  function AcceptedInSpan(events: seq<Event>, tab: Tab, from: int): (accepted: set<nat>) {
    set i: nat | i < |events| && AcceptedAt(events, tab, i) && from <= events[i].time < from + 5000
  }

  predicate AcceptedAt(events: seq<Event>, tab: Tab, i: nat)
    requires i < |events|
  {
    SentBy(events[i], tab) && !Limited(events[..i], tab, events[i].time)
  }

  lemma {:induction false} SubsetIsSmaller(a: set<nat>, b: set<nat>)
    requires a <= b
    ensures |a| <= |b|
  {
    if a != {} {
      var x :| x in a;
      SubsetIsSmaller(a - {x}, b - {x});
    }
  }

  lemma SpanOfFront(events: seq<Event>, tab: Tab, from: int)
    requires events != []
    ensures var last := |events| - 1;
            AcceptedInSpan(events, tab, from) - {last} == AcceptedInSpan(Front(events), tab, from)
  {
    var front := Front(events);
    forall i: nat | i < |front| ensures AcceptedAt(events, tab, i) == AcceptedAt(front, tab, i) {
      assert front[..i] == events[..i] && front[i] == events[i];
    }
  }

  /** No span of five seconds ever holds more than thirty accepted messages of one tab. */
  lemma {:induction false} NoBurst(events: seq<Event>, tab: Tab, from: int)
    requires Ordered(events)
    ensures |AcceptedInSpan(events, tab, from)| <= 30
  {
    if events != [] {
      var front, last := Front(events), |events| - 1;
      NoBurst(front, tab, from);
      SpanOfFront(events, tab, from);
      if last in AcceptedInSpan(events, tab, from) {
        assert events[..last] == front;
        LimiterIsExact(front, tab, events[last].time);
        SubsetIsSmaller(AcceptedInSpan(front, tab, from), Latest(front, tab, events[last].time));
      }
    }
  }

  function Zeros(n: nat): (times: seq<int>) { seq(n, _ => 0) }

  function Burst(tab: Tab, n: nat): (events: seq<Event>) { seq(n, _ => Message(tab, 0)) }

  lemma {:induction false} ZerosRecent(n: nat, now: int)
    ensures Recent(Zeros(n), now) == if now < WINDOW then Zeros(n) else []
  {
    if n > 0 {
      assert Zeros(n)[..n - 1] == Zeros(n - 1);
      ZerosRecent(n - 1, now);
      assert Zeros(n) == Zeros(n - 1) + [0];
    }
  }

  lemma BurstFront(tab: Tab, n: nat)
    requires n > 0
    ensures Burst(tab, n) != [] && Front(Burst(tab, n)) == Burst(tab, n - 1) && Last(Burst(tab, n)) == Message(tab, 0)
    ensures Zeros(n) == Zeros(n - 1) + [0]
  {}

  lemma {:induction false} BurstSent(tab: Tab, n: nat)
    ensures Sent(Burst(tab, n), tab) == Zeros(n)
  {
    if n > 0 {
      BurstFront(tab, n);
      BurstSent(tab, n - 1);
    }
  }

  lemma {:induction false} BurstLeaves(tab: Tab, n: nat)
    ensures TrackerAfter(Burst(tab, n)) == if n == 0 then map[] else map[tab := Zeros(n)]
  {
    if n > 0 {
      BurstFront(tab, n);
      BurstLeaves(tab, n - 1);
      BurstGrows(TrackerAfter(Burst(tab, n - 1)), tab, n - 1);
    }
  }

  lemma BurstGrows(tracker: Tracker, tab: Tab, n: nat)
    requires tracker == if n == 0 then map[] else map[tab := Zeros(n)]
    ensures AfterMessage(tracker, tab, 0) == map[tab := Zeros(n + 1)]
  {
    ZerosRecent(n, 0);
    assert TimesOf(tracker, tab) == Zeros(n) && Zeros(n) + [0] == Zeros(n + 1);
  }

  /** With a clock that steps back the decision changes: thirty messages, a cleanup at the end of their window,
      and a message from before it is let through although the history counts thirty in its window. */
  lemma BackwardClockForgets(tab: Tab)
    ensures var events := Burst(tab, 30) + [Tidy(5000)];
            !Limited(events, tab, 4999) && |Latest(events, tab, 4999)| >= 30
  {
    var burst := Burst(tab, LIMIT);
    var events := burst + [Tidy(WINDOW)];
    assert Front(events) == burst && Last(events) == Tidy(WINDOW);
    BurstLeaves(tab, LIMIT);
    BurstSent(tab, LIMIT);
    ZerosRecent(LIMIT, WINDOW);
    ZerosRecent(LIMIT, WINDOW - 1);
    assert TrackerAfter(events) == AfterCleanup(TrackerAfter(burst), WINDOW) == map[];
    LatestIsRecent(events, tab, WINDOW - 1);
  }

  /** `messageRateTracker` with the two pieces of code that update it; `history` is everything that happened. */
  class MessageRates {
    var tracker: Tracker
    ghost var history: seq<Event>

    ghost predicate Valid()
      reads this
    {
      Ordered(history) && tracker == TrackerAfter(history)
    }

    constructor ()
      ensures Valid() && history == []
    {
      tracker, history := map[], [];
    }

    /** The answer is the one the whole history gives. */
    method IsMessageRateLimited(tab: Tab, now: int) returns (limited: bool)
      requires Valid() && EndsBy(history, now)
      modifies this
      ensures Valid() && history == old(history) + [Message(tab, now)]
      ensures limited <==> |Latest(old(history), tab, now)| >= 30
    {
      LimiterIsExact(history, tab, now);
      var recent := Recent(TimesOf(tracker, tab), now);
      recent := recent + [now];
      tracker := tracker[tab := recent];
      limited := |recent| > LIMIT;
      assert Front(history + [Message(tab, now)]) == history;
      history := history + [Message(tab, now)];
    }

    /** The periodic cleanup: every entry is filtered, and dropped when nothing is left. */
    method Cleanup(now: int)
      requires Valid() && EndsBy(history, now)
      modifies this
      ensures Valid() && history == old(history) + [Tidy(now)]
    {
      FilterAll(now);
      assert Front(history + [Tidy(now)]) == history;
      history := history + [Tidy(now)];
    }

    /** The loop over the entries. */
    method FilterAll(now: int)
      modifies this`tracker
      ensures tracker == AfterCleanup(old(tracker), now)
    {
      ghost var before := tracker;
      var todo := tracker.Keys;
      while todo != {}
        invariant todo <= before.Keys && tracker.Keys <= before.Keys
        invariant forall tab :: tab in todo ==> tab in tracker && tracker[tab] == before[tab]
        invariant forall tab :: tab in before && tab !in todo ==>
                    (tab in tracker <==> Recent(before[tab], now) != [])
        invariant forall tab :: tab in tracker && tab !in todo ==> tracker[tab] == Recent(before[tab], now)
        decreases todo
      {
        var tab :| tab in todo;
        var recent := Recent(tracker[tab], now);
        if |recent| == 0 {
          tracker := tracker - {tab};
        } else {
          tracker := tracker[tab := recent];
        }
        todo := todo - {tab};
      }
      assert tracker == AfterCleanup(before, now);
    }
  }
}

/** The de-duplication map of save-notification requests, the same code in two scripts. */
module RequestDedup {
  import opened Wrappers

  const WINDOW: int := 4000

  function Prune(recent: map<string, int>, now: int): (r: map<string, int>) {
    map key | key in recent && now - recent[key] <= WINDOW :: recent[key]
  }

  function AfterRequest(recent: map<string, int>, key: string, now: int): (r: map<string, int>) {
    Prune(recent, now)[key := now]
  }

  // ------------------------------------------------------------ whole histories

  datatype Request = Request(key: string, time: int)

  predicate Ordered(history: seq<Request>) {
    forall i, j :: 0 <= i < j < |history| ==> history[i].time <= history[j].time
  }

  function MapAfter(history: seq<Request>): (recent: map<string, int>) {
    if history == [] then map[]
    else
      var last := history[|history| - 1];
      AfterRequest(MapAfter(history[..|history| - 1]), last.key, last.time)
  }

  /** When the key was last asked for, over the whole history. */
  function Previous(history: seq<Request>, key: string): (time: Option<int>) {
    if history == [] then None
    else if history[|history| - 1].key == key then Some(history[|history| - 1].time)
    else Previous(history[..|history| - 1], key)
  }

  /** Whether the `k`-th request is suppressed. */
  predicate Suppressed(history: seq<Request>, k: nat)
    requires k < |history|
  {
    var recent, r := MapAfter(history[..k]), history[k];
    r.key in recent && r.time - recent[r.key] < WINDOW
  }

  /** The map holds the last request of a key, or that request is out of the window for good. */
  lemma {:induction false} MapIsHistory(history: seq<Request>, key: string, now: int)
    requires Ordered(history) && forall i :: 0 <= i < |history| ==> history[i].time <= now
    ensures var recent := MapAfter(history);
            if key in recent then Previous(history, key) == Some(recent[key])
            else Previous(history, key).Some? ==> now - Previous(history, key).value > WINDOW
  {
    if history != [] {
      var last := history[|history| - 1];
      MapIsHistory(history[..|history| - 1], key, last.time);
    }
  }

  /** The last request for a key is a request for it, and none is later. */
  lemma {:induction false} PreviousIsLatest(history: seq<Request>, i: nat)
    requires Ordered(history) && i < |history|
    ensures var previous := Previous(history, history[i].key); previous.Some? && history[i].time <= previous.value
  {
    var last := |history| - 1;
    if history[last].key != history[i].key {
      assert history[..last][i] == history[i];
      PreviousIsLatest(history[..last], i);
    }
  }

  lemma {:induction false} PreviousIsOne(history: seq<Request>, key: string) returns (i: nat)
    requires Previous(history, key).Some?
    ensures i < |history| && history[i].key == key && history[i].time == Previous(history, key).value
  {
    var last := |history| - 1;
    if history[last].key == key { i := last; } else { i := PreviousIsOne(history[..last], key); }
  }

  /** Some request for the key lies less than four seconds back. */
  predicate AskedRecently(history: seq<Request>, key: string, now: int) {
    exists i :: 0 <= i < |history| && history[i].key == key && now - history[i].time < 4000
  }

  /** What the map says of a key is what the history says. */
  lemma Decides(history: seq<Request>, key: string, now: int)
    requires Ordered(history) && forall i :: 0 <= i < |history| ==> history[i].time <= now
    ensures var recent := MapAfter(history);
            key in recent && now - recent[key] < WINDOW <==> AskedRecently(history, key, now)
  {
    MapIsHistory(history, key, now);
    if Previous(history, key).Some? { var i := PreviousIsOne(history, key); }
    forall i | 0 <= i < |history| && history[i].key == key
      ensures Previous(history, key).Some? && history[i].time <= Previous(history, key).value
    {
      PreviousIsLatest(history, i);
    }
  }

  /** A request is suppressed exactly when one with its key lies less than four seconds back. */
  lemma DedupIsExact(history: seq<Request>, k: nat)
    requires Ordered(history) && k < |history|
    ensures Suppressed(history, k) <==> AskedRecently(history[..k], history[k].key, history[k].time)
  {
    Decides(history[..k], history[k].key, history[k].time);
  }

  /** Two requests with one key that both get through are at least four seconds apart. */
  lemma UnsuppressedAreApart(history: seq<Request>, i: nat, k: nat)
    requires Ordered(history) && i < k < |history| && history[i].key == history[k].key
    requires !Suppressed(history, k)
    ensures history[k].time - history[i].time >= 4000
  {
    DedupIsExact(history, k);
    assert history[..k][i] == history[i];
  }

  lemma MapAppended(history: seq<Request>, r: Request)
    ensures MapAfter(history + [r]) == AfterRequest(MapAfter(history), r.key, r.time)
  {
    var longer := history + [r];
    assert longer[|longer| - 1] == r && longer[..|longer| - 1] == history;
  }

  lemma OrderedAppended(history: seq<Request>, r: Request)
    requires Ordered(history) && forall i :: 0 <= i < |history| ==> history[i].time <= r.time
    ensures Ordered(history + [r])
  {}

  /** `recentSaveNotificationRequests`; `history` is every request there was. */
  class RecentRequests {
    var recent: map<string, int>
    ghost var history: seq<Request>

    ghost predicate Valid()
      reads this
    {
      Ordered(history) && recent == MapAfter(history)
    }

    constructor ()
      ensures Valid() && history == []
    {
      recent, history := map[], [];
    }

    /** The answer is the one the whole history gives. */
    method IsDuplicate(key: string, now: int) returns (duplicate: bool)
      requires Valid() && forall i :: 0 <= i < |history| ==> history[i].time <= now
      modifies this
      ensures Valid() && history == old(history) + [Request(key, now)]
      ensures duplicate <==> AskedRecently(old(history), key, now)
    {
      Decides(history, key, now);
      MapAppended(history, Request(key, now));
      OrderedAppended(history, Request(key, now));
      DropStale(now);
      var previous := if key in recent then Some(recent[key]) else None;
      recent := recent[key := now];
      duplicate := previous.Some? && now - previous.value < WINDOW;
      history := history + [Request(key, now)];
    }

    /** The loop that deletes what is out of the window. */
    method DropStale(now: int)
      modifies this`recent
      ensures recent == Prune(old(recent), now)
    {
      ghost var before := recent;
      var todo := recent.Keys;
      while todo != {}
        invariant todo <= before.Keys && recent.Keys <= before.Keys
        invariant forall k :: k in recent ==> recent[k] == before[k]
        invariant forall k :: k in before ==> (k in recent <==> k in todo || now - before[k] <= WINDOW)
        decreases todo
      {
        var k :| k in todo;
        if now - recent[k] > WINDOW {
          recent := recent - {k};
        }
        todo := todo - {k};
      }
      assert recent == Prune(before, now);
    }
  }
}
