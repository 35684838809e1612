/** The clipboard expiry controller and the backend it talks to, as an asynchronous system.

    `copySecret` splits at its `await`: the request travels, the backend answers, the continuation
    runs later.  Calls, timer ticks and backend replies interleave freely. */
module Clipboard {
  import opened Wrappers

  /** The controller's only variable, and the timers the runtime holds for it. */
  datatype Timers = Timers(handle: Option<nat>, live: set<nat>, next: nat)

  function Cancelled(t: Timers): (r: Timers) {
    if t.handle.Some? then t.(handle := None, live := t.live - {t.handle.value}) else t
  }

  function Armed(t: Timers): (r: Timers) {
    t.(handle := Some(t.next), live := t.live + {t.next}, next := t.next + 1)
  }

  /** The handle names the one live timer, or there is none. */
  predicate OneTimer(t: Timers) {
    && t.live == (if t.handle.Some? then {t.handle.value} else {})
    && (t.handle.Some? ==> t.handle.value < t.next)
  }

  /** `createClipboardManager`: each method is one stretch of code between awaits. */
  class Manager {
    var expiryHandle: Option<nat>
    var live: set<nat>     // the timers the runtime holds
    var next: nat

    function View(): (t: Timers)
      reads this
    {
      Timers(expiryHandle, live, next)
    }

    ghost predicate Valid()
      reads this
    {
      OneTimer(View())
    }

    constructor ()
      ensures Valid() && live == {}
    {
      expiryHandle, live, next := None, {}, 0;
    }

    /** No timer is left, and the system's step is taken. */
    method CancelExpiry()
      requires Valid()
      modifies this
      ensures Valid() && live == {} && View() == Cancelled(old(View()))
    {
      if expiryHandle != None {
        live := live - {expiryHandle.value};
        expiryHandle := None;
      }
    }

    /** What `copySecret` does once the backend has answered: one timer is left, and it is a new one. */
    method ResumeCopy()
      requires Valid()
      modifies this
      ensures Valid() && |live| == 1 && live !! old(live) && View() == Armed(Cancelled(old(View())))
    {
      CancelExpiry();
      expiryHandle, live, next := Some(next), live + {next}, next + 1;
    }

    /** The callback of a live timer: it was the only one, and none is left. */
    method TimerTick(timer: nat)
      requires Valid() && timer in live
      modifies this
      ensures Valid() && live == {} && old(live) == {timer}
      ensures View() == old(View()).(handle := None, live := old(live) - {timer})
    {
      live := live - {timer};
      expiryHandle := None;
    }

    /** Reports whether the runtime holds a timer. */
    method HasPendingExpiry() returns (pending: bool)
      requires Valid()
      ensures pending <==> live != {}
    {
      pending := expiryHandle != None;
      assert pending ==> expiryHandle.value in live;
    }
  }

  // --------------------------------------------------------------- the system

  /** `ours` tells a secret the app put there from a text that came from elsewhere; no step reads it. */
  datatype Content = Empty | Text(text: string, ours: bool)

  datatype System = System(
    timers: Timers,
    sent: map<nat, string>,        // copy requests the backend has not handled
    replied: map<nat, bool>,       // answers whose continuation has not run
    expiring: set<nat>,            // expire requests the backend has not handled
    registered: Option<string>,    // the digest the backend keeps, as the text it stands for
    clearing: Option<string>,      // the backend has read this text, found it to be its own, and will now clear
    clipboard: Content,
    excused: bool,                 // expiry was cancelled by hand, or an expire request failed
    missed: bool)                  // an expiry met the secret that is still there and could not remove it

  /** An expiry in the backend is two native calls, a read and, if the text read is the registered one, a clear.
      The backend's commands run one after the other; everybody else may act between the two. */
  datatype Event =
    | Copy(id: nat, text: string)
    | BackendCopy(id: nat, written: bool)
    | Resume(id: nat)
    | Tick(timer: nat, request: nat)
    | ExpireNow(request: nat)
    | CancelByHand
    | BackendRead(request: nat, reached: bool, readable: bool)
    | BackendClear(cleared: bool)
    | UserCopies(text: string)

  predicate Holds(content: Content, text: string) { content.Text? && content.text == text }

  predicate HoldsSecret(content: Content) { content.Text? && content.ours }

  predicate Enabled(s: System, event: Event) {
    match event
    case Copy(id, _) => id !in s.sent && id !in s.replied
    case BackendCopy(id, _) => id in s.sent && s.clearing.None?
    case Resume(id) => id in s.replied
    case Tick(timer, request) => timer in s.timers.live && request !in s.expiring
    case ExpireNow(request) => request !in s.expiring
    case CancelByHand => true
    case BackendRead(request, _, _) => request in s.expiring && s.clearing.None?
    case BackendClear(_) => s.clearing.Some?
    case UserCopies(_) => true
  }

  /** `matches_clipboard`: a clipboard that is empty or cannot be read never matches. */
  predicate Matches(s: System, readable: bool) {
    readable && s.registered.Some? && Holds(s.clipboard, s.registered.value)
  }

  /** The clipboard holds the registered secret, as the app put it there. */
  predicate AtStake(s: System) {
    HoldsSecret(s.clipboard) && s.registered == Some(s.clipboard.text)
  }

  function Apply(s: System, event: Event): (s': System)
    requires Enabled(s, event)
  {
    match event
    case Copy(id, text) => if text == "" then s else s.(sent := s.sent[id := text])
    case BackendCopy(id, written) =>
      var s1 := s.(sent := s.sent - {id}, replied := s.replied[id := written]);
      if written then s1.(clipboard := Text(s.sent[id], true), registered := Some(s.sent[id]), missed := false) else s1
    case Resume(id) =>
      var s1 := s.(replied := s.replied - {id});
      if s.replied[id] then s1.(timers := Armed(Cancelled(s.timers)), excused := false) else s1
    case Tick(timer, request) =>
      s.(timers := s.timers.(handle := None, live := s.timers.live - {timer}), expiring := s.expiring + {request})
    case ExpireNow(request) => s.(timers := Cancelled(s.timers), expiring := s.expiring + {request})
    case CancelByHand => s.(timers := Cancelled(s.timers), excused := true)
    case BackendRead(request, reached, readable) =>
      var s1 := s.(expiring := s.expiring - {request});
      if !reached then s1.(excused := true)
      else s1.(registered := None, clearing := if Matches(s, readable) then s.registered else None, excused := false,
               missed := s.missed || (AtStake(s) && !readable))
    case BackendClear(cleared) =>
      s.(clearing := None, clipboard := if cleared then Empty else s.clipboard,
         missed := !cleared && (s.missed || HoldsSecret(s.clipboard)))
    case UserCopies(text) => s.(clipboard := Text(text, false), missed := false)
  }

  predicate Initial(s: System) {
    && s.timers == Timers(None, {}, 0) && s.sent == map[] && s.replied == map[] && s.expiring == {}
    && s.registered == None && s.clearing == None && !HoldsSecret(s.clipboard) && !s.excused && !s.missed
  }

  ghost predicate Run(run: seq<System>, events: seq<Event>) {
    && |run| == |events| + 1 && Initial(run[0])
    && (forall k :: 0 <= k < |events| ==> StepOf(run, events, k))
  }

  ghost predicate StepOf(run: seq<System>, events: seq<Event>, k: nat)
    requires |run| == |events| + 1 && k < |events|
  {
    Enabled(run[k], events[k]) && run[k + 1] == Apply(run[k], events[k])
  }

  /** A registered secret has something on its way that will clear it. */
  predicate Covered(s: System) {
    s.registered.Some? ==>
      s.timers.live != {} || (exists id :: id in s.replied && s.replied[id]) || s.expiring != {} || s.excused
  }

  /** A copy request has been answered or it has not. */
  predicate CopiesApart(s: System) { s.sent.Keys !! s.replied.Keys }

  /** A secret on the clipboard is the registered one, or is about to be cleared, or an expiry has missed it. */
  predicate Traced(s: System) {
    && (s.clearing.Some? ==> s.registered.None? && !s.missed)
    && (HoldsSecret(s.clipboard) ==>
          if s.registered.Some? then s.clipboard.text == s.registered.value
          else if s.clearing.Some? then s.clipboard.text == s.clearing.value
          else s.missed)
    && (s.missed ==> HoldsSecret(s.clipboard) && s.registered.None?)
  }

  lemma StepKeepsTrace(s: System, event: Event)
    requires Traced(s) && Enabled(s, event)
    ensures Traced(Apply(s, event))
  {}

  lemma StepKeepsTimer(s: System, event: Event)
    requires OneTimer(s.timers) && Enabled(s, event)
    ensures OneTimer(Apply(s, event).timers)
  {}

  lemma StepKeepsCover(s: System, event: Event)
    requires OneTimer(s.timers) && CopiesApart(s) && Covered(s) && Enabled(s, event)
    ensures CopiesApart(Apply(s, event)) && Covered(Apply(s, event))
  {
    var s' := Apply(s, event);
    if s'.registered.Some? {
      match event {
        case BackendCopy(id, written) =>
          if written { assert id in s'.replied && s'.replied[id]; }
          else if id' :| id' in s.replied && s.replied[id'] { assert id' in s'.replied && s'.replied[id']; }
        case Resume(id) =>
          if s.replied[id] { assert s'.timers.handle.value in s'.timers.live; }
          else if id' :| id' in s.replied && s.replied[id'] { assert id' in s'.replied && s'.replied[id']; }
        case Tick(_, request) => assert request in s'.expiring;
        case ExpireNow(request) => assert request in s'.expiring;
        case _ =>
      }
    }
  }

  lemma {:induction false} RunInv(run: seq<System>, events: seq<Event>, k: nat)
    requires Run(run, events) && k < |run|
    ensures OneTimer(run[k].timers) && CopiesApart(run[k]) && Covered(run[k]) && Traced(run[k])
  {
    if k > 0 {
      RunInv(run, events, k - 1);
      assert StepOf(run, events, k - 1);
      StepKeepsTimer(run[k - 1], events[k - 1]);
      StepKeepsCover(run[k - 1], events[k - 1]);
      StepKeepsTrace(run[k - 1], events[k - 1]);
    }
  }

  /** At most one timer is live, and `hasPendingExpiry` reports it exactly. */
  lemma PendingIsExact(run: seq<System>, events: seq<Event>, k: nat)
    requires Run(run, events) && k < |run|
    ensures |run[k].timers.live| <= 1
    ensures run[k].timers.handle.Some? <==> run[k].timers.live != {}
  {
    RunInv(run, events, k);
    var t := run[k].timers;
    if t.handle.Some? { assert t.handle.value in t.live; }
  }

  /** What an event does to the timers: after an expiry now, a cancellation or a tick none is live, a copy that
      succeeded leaves one new one, and nothing else touches them. */
  predicate MovesTimers(s: System, event: Event, s': System) {
    match event
    case ExpireNow(request) => s'.timers.live == {} && request in s'.expiring
    case CancelByHand => s'.timers.live == {} && s'.expiring == s.expiring
    case Tick(timer, request) => s.timers.live == {timer} && s'.timers.live == {} && request in s'.expiring
    case Resume(id) =>
      && id in s.replied
      && if s.replied[id] then |s'.timers.live| == 1 && s'.timers.live !! s.timers.live
         else s'.timers.live == s.timers.live
    case _ => s'.timers.live == s.timers.live
  }

  lemma StepMovesTimers(s: System, event: Event)
    requires OneTimer(s.timers) && Enabled(s, event)
    ensures MovesTimers(s, event, Apply(s, event))
  {}

  /** So it is at every event of every run. */
  lemma TimersMove(run: seq<System>, events: seq<Event>, k: nat)
    requires Run(run, events) && k < |events|
    ensures MovesTimers(run[k], events[k], run[k + 1])
  {
    RunInv(run, events, k);
    assert StepOf(run, events, k);
    StepMovesTimers(run[k], events[k]);
  }

  /** The backend is never asked to copy an empty secret, and never keeps or clears one. */
  predicate NoEmptySecret(s: System) {
    && (forall id :: id in s.sent ==> s.sent[id] != "") && s.registered != Some("") && s.clearing != Some("")
  }

  /** The empty text stays with the controller. */
  lemma {:induction false} EmptyIsNeverCopied(run: seq<System>, events: seq<Event>, k: nat)
    requires Run(run, events) && k < |run|
    ensures NoEmptySecret(run[k])
  {
    if k > 0 {
      EmptyIsNeverCopied(run, events, k - 1);
      assert StepOf(run, events, k - 1);
    }
  }

  /** Nothing is on its way any more. */
  predicate Settled(s: System) {
    s.timers.live == {} && s.replied == map[] && s.expiring == {} && s.clearing == None
  }

  /** When everything has settled, no secret is left registered unless expiry was cancelled by hand
      or an expire request failed after the last copy. */
  lemma NothingIsForgotten(run: seq<System>, events: seq<Event>, k: nat)
    requires Run(run, events) && k < |run| && Settled(run[k]) && !run[k].excused
    ensures run[k].registered == None
  {
    RunInv(run, events, k);
  }

  // ----------------------------------------------------- when a secret stays behind

  /** Event `m` is the native call, of an expiry that met its secret, that failed: the read, or else the clear. */
  ghost predicate FailsToRemove(run: seq<System>, events: seq<Event>, m: nat)
    requires |run| == |events| + 1
  {
    && m < |events| && HoldsSecret(run[m].clipboard)
    && match events[m] {
         case BackendRead(_, reached, readable) => reached && !readable && AtStake(run[m])
         case BackendClear(cleared) => !cleared
         case _ => false
       }
  }

  predicate Overwrites(event: Event) { event.UserCopies? || (event.BackendCopy? && event.written) }

  /** Such a call has failed, and nothing has been copied over the secret since. */
  ghost predicate MissedSince(run: seq<System>, events: seq<Event>, k: nat)
    requires |run| == |events| + 1 && k < |run|
  {
    exists m: nat :: m < k && FailsToRemove(run, events, m) && forall j :: m < j < k ==> !Overwrites(events[j])
  }

  lemma {:induction false} MissedIsThat(run: seq<System>, events: seq<Event>, k: nat)
    requires Run(run, events) && k < |run|
    ensures run[k].missed <==> MissedSince(run, events, k)
  {
    if k > 0 {
      MissedIsThat(run, events, k - 1);
      RunInv(run, events, k - 1);
      assert StepOf(run, events, k - 1);
      if FailsToRemove(run, events, k - 1) {
        assert MissedSince(run, events, k);
      } else if run[k].missed {
        var m: nat :| m < k - 1 && FailsToRemove(run, events, m)
                      && forall j :: m < j < k - 1 ==> !Overwrites(events[j]);
        assert forall j :: m < j < k ==> !Overwrites(events[j]);
      }
    }
  }

  /** Once nothing is registered and no clear is under way, a copied secret is still on the clipboard exactly
      when the read or the clear of an expiry that met it failed and nothing has been copied over it since. */
  lemma SecretStaysIffMissed(run: seq<System>, events: seq<Event>, k: nat)
    requires Run(run, events) && k < |run| && run[k].registered == None && run[k].clearing == None
    ensures HoldsSecret(run[k].clipboard) <==> MissedSince(run, events, k)
  {
    MissedIsThat(run, events, k);
    RunInv(run, events, k);
  }

  /** So it is when everything has settled and nothing excuses it. */
  lemma SettledSecretStaysIffMissed(run: seq<System>, events: seq<Event>, k: nat)
    requires Run(run, events) && k < |run| && Settled(run[k]) && !run[k].excused
    ensures HoldsSecret(run[k].clipboard) <==> MissedSince(run, events, k)
  {
    NothingIsForgotten(run, events, k);
    SecretStaysIffMissed(run, events, k);
  }

  /** A copy of `text` up to the timer that asks for its expiry. */
  lemma CopyAndTick(text: string) returns (run: seq<System>, events: seq<Event>)
    requires text != ""
    ensures Run(run, events) && |events| == 4 && forall k :: 0 <= k < 4 ==> !events[k].BackendClear?
    ensures run[4] == System(Timers(None, {}, 1), map[], map[], {0}, Some(text), None, Text(text, true), false, false)
  {
    var s0 := System(Timers(None, {}, 0), map[], map[], {}, None, None, Empty, false, false);
    events := [Copy(0, text), BackendCopy(0, true), Resume(0), Tick(0, 0)];
    var s1 := Apply(s0, events[0]);
    var s2 := Apply(s1, events[1]);
    var s3 := Apply(s2, events[2]);
    run := [s0, s1, s2, s3, Apply(s3, events[3])];
    assert StepOf(run, events, 0) && StepOf(run, events, 1) && StepOf(run, events, 2) && StepOf(run, events, 3);
  }

  lemma RunOn(run: seq<System>, events: seq<Event>, event: Event)
    requires Run(run, events) && Enabled(run[|events|], event)
    ensures Run(run + [Apply(run[|events|], event)], events + [event])
  {
    var run', events' := run + [Apply(run[|events|], event)], events + [event];
    forall k | 0 <= k < |events'| ensures StepOf(run', events', k) {
      if k < |events| { assert StepOf(run, events, k); }
    }
  }

  /** A failed clear does leave the secret behind, in a settled and unexcused run. */
  lemma FailedClearLeavesTheSecret(text: string) returns (run: seq<System>, events: seq<Event>)
    requires text != ""
    ensures Run(run, events) && events != [] && events[|events| - 1] == BackendClear(false)
    ensures var end := run[|events|];
            Settled(end) && !end.excused && end.registered == None && end.clipboard == Text(text, true)
  {
    run, events := CopyAndTick(text);
    RunOn(run, events, BackendRead(0, true, true));
    run, events := run + [Apply(run[|events|], BackendRead(0, true, true))], events + [BackendRead(0, true, true)];
    RunOn(run, events, BackendClear(false));
    run, events := run + [Apply(run[|events|], BackendClear(false))], events + [BackendClear(false)];
  }

  /** So does a failed read, after which no clear is tried. */
  lemma FailedReadLeavesTheSecret(text: string) returns (run: seq<System>, events: seq<Event>)
    requires text != ""
    ensures Run(run, events) && forall k :: 0 <= k < |events| ==> !events[k].BackendClear?
    ensures var end := run[|events|];
            Settled(end) && !end.excused && end.registered == None && end.clipboard == Text(text, true)
  {
    run, events := CopyAndTick(text);
    RunOn(run, events, BackendRead(0, true, false));
    run, events := run + [Apply(run[|events|], BackendRead(0, true, false))], events + [BackendRead(0, true, false)];
  }

  // ------------------------------------------------------- what an expiry wipes

  predicate InBackend(event: Event) { event.BackendCopy? || event.BackendRead? || event.BackendClear? }

  /** Event `r` is a read that matched `text`, and the backend has done nothing between it and event `m`. */
  ghost predicate ReadFor(run: seq<System>, events: seq<Event>, r: nat, m: nat, text: string)
    requires |run| == |events| + 1
  {
    && r < m <= |events| && events[r].BackendRead? && events[r].reached && events[r].readable
    && run[r].registered == Some(text) && Holds(run[r].clipboard, text) && run[r + 1].registered == None
    && (forall j :: r < j < m ==> !InBackend(events[j]))
  }

  /** While a clear is due, the read that decided it is behind it. */
  lemma {:induction false} ClearHasItsRead(run: seq<System>, events: seq<Event>, m: nat) returns (r: nat)
    requires Run(run, events) && m < |run| && run[m].clearing.Some?
    ensures ReadFor(run, events, r, m, run[m].clearing.value)
  {
    if m == 0 { assert false; }
    assert StepOf(run, events, m - 1);
    if events[m - 1].BackendRead? {
      r := m - 1;
    } else {
      r := ClearHasItsRead(run, events, m - 1);
    }
  }

  /** The last text copied between the read and event `m` is another one. */
  ghost predicate Overtaken(events: seq<Event>, r: nat, m: nat, text: string)
    requires m <= |events|
  {
    exists j: nat :: r < j < m && CopiesOther(events[j], text) && forall i :: j < i < m ==> !events[i].UserCopies?
  }

  predicate CopiesOther(event: Event, text: string) { event.UserCopies? && event.text != text }

  lemma {:induction false} HeldUnlessOvertaken(run: seq<System>, events: seq<Event>, r: nat, m: nat, text: string)
    requires Run(run, events) && r < m <= |events| && Holds(run[r + 1].clipboard, text)
    requires forall j :: r < j < m ==> !InBackend(events[j])
    ensures Holds(run[m].clipboard, text) <==> !Overtaken(events, r, m, text)
    ensures run[m].clipboard.Text?
    decreases m
  {
    if r + 1 < m {
      HeldUnlessOvertaken(run, events, r, m - 1, text);
      assert StepOf(run, events, m - 1);
      if CopiesOther(events[m - 1], text) {
        assert Overtaken(events, r, m, text);
      } else if !events[m - 1].UserCopies? && Overtaken(events, r, m - 1, text) {
        var j: nat :| r < j < m - 1 && CopiesOther(events[j], text)
                      && forall i :: j < i < m - 1 ==> !events[i].UserCopies?;
        assert forall i :: j < i < m ==> !events[i].UserCopies?;
      }
    }
  }

  /** A clipboard is emptied only by the clear of an expiry that had read the registered text there.  What it
      wipes is another text exactly when one was copied between that read and the clear. */
  lemma WipesAnotherIffOvertaken(run: seq<System>, events: seq<Event>, m: nat) returns (r: nat, text: string)
    requires Run(run, events) && m < |events| && run[m].clipboard.Text? && run[m + 1].clipboard == Empty
    ensures events[m] == BackendClear(true) && ReadFor(run, events, r, m, text)
    ensures !Holds(run[m].clipboard, text) <==> Overtaken(events, r, m, text)
  {
    assert StepOf(run, events, m);
    text := run[m].clearing.value;
    r := ClearHasItsRead(run, events, m);
    assert StepOf(run, events, r);
    HeldUnlessOvertaken(run, events, r, m, text);
  }

  /** That does happen: a text copied between the read and the clear is wiped. */
  lemma OvertakenTextIsWiped(secret: string, other: string) returns (run: seq<System>, events: seq<Event>)
    requires secret != "" && other != secret
    ensures Run(run, events) && |events| > 0 && events[|events| - 1] == BackendClear(true)
    ensures run[|events| - 1].clipboard == Text(other, false) && run[|events|].clipboard == Empty
  {
    run, events := CopyAndTick(secret);
    RunOn(run, events, BackendRead(0, true, true));
    run, events := run + [Apply(run[|events|], BackendRead(0, true, true))], events + [BackendRead(0, true, true)];
    RunOn(run, events, UserCopies(other));
    run, events := run + [Apply(run[|events|], UserCopies(other))], events + [UserCopies(other)];
    RunOn(run, events, BackendClear(true));
    run, events := run + [Apply(run[|events|], BackendClear(true))], events + [BackendClear(true)];
  }
}
