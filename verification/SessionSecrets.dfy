/** Which session-storage keys hold secrets and how long an entry may live. */
module SessionSecretPolicy {
  import opened Wrappers

  const PENDING_CREDENTIAL_KEY := "pendingCredential"
  const PENDING_SAVE_PREFIX := "pendingSaveCredential:"
  const PENDING_INLINE_PREFIX := "pendingInlinePrompt:"
  const PENDING_UNLOCK_RETRY_KEY := "pendingUnlockRetry"
  const PENDING_CREDENTIAL_TTL_MS := 30_000
  const PENDING_SAVE_TTL_MS := 600_000
  const PENDING_UNLOCK_RETRY_TTL_MS := 120_000

  predicate IsSecretKey(key: string) {
    || key == PENDING_CREDENTIAL_KEY
    || key == PENDING_UNLOCK_RETRY_KEY
    || PENDING_SAVE_PREFIX <= key
    || PENDING_INLINE_PREFIX <= key
  }

  function TtlMs(key: string): (ttl: Option<nat>) {
    if key == PENDING_CREDENTIAL_KEY then Some(PENDING_CREDENTIAL_TTL_MS)
    else if PENDING_SAVE_PREFIX <= key || PENDING_INLINE_PREFIX <= key then Some(PENDING_SAVE_TTL_MS)
    else if key == PENDING_UNLOCK_RETRY_KEY then Some(PENDING_UNLOCK_RETRY_TTL_MS)
    else None
  }

  function Expiry(key: string, now: int): (expiresAt: Option<int>) {
    var ttl := TtlMs(key);
    if ttl.None? then None else Some(now + ttl.value)
  }

  /** What `typeof` and `Number.isFinite` see of a property. */
  datatype Value = Number(ms: int) | NotFinite | NoNumber
  type Record = map<string, Value>
  /** A stored value: a plain object with its properties, or anything else. */
  datatype Stored = Object(entries: Record) | NoObject

  const EXPIRES_AT := "expiresAt"

  function StampOf(value: Stored): (stamp: Option<int>) {
    if value.Object? && EXPIRES_AT in value.entries && value.entries[EXPIRES_AT].Number?
    then Some(value.entries[EXPIRES_AT].ms) else None
  }

  /** Fail closed: no usable stamp on a secret key counts as expired. */
  predicate IsExpired(key: string, value: Stored, now: int) {
    IsSecretKey(key) && (StampOf(value).None? || StampOf(value).value <= now)
  }

  function ExpiredKeys(all: map<string, Stored>, now: int): (keys: set<string>) {
    set key | key in all && IsExpired(key, all[key], now)
  }

  function SecretKeys(all: map<string, Stored>): (keys: set<string>) {
    set key | key in all && IsSecretKey(key)
  }

  /** The four places that store a secret, with the data they are handed. */
  datatype Writer =
    | CaptureLogin(data: Record)
    | HoldInline(id: string, data: Record)
    | HoldSave(id: string, data: Record, insecureHttp: Value, tab: Value)
    | QueueRetry(payload: Value, createdAt: int)

  function KeyOf(writer: Writer): (key: string)
    ensures IsSecretKey(key)
  {
    match writer
    case CaptureLogin(_) => PENDING_CREDENTIAL_KEY
    case HoldInline(id, _) => PENDING_INLINE_PREFIX + id
    case HoldSave(id, _, _, _) => PENDING_SAVE_PREFIX + id
    case QueueRetry(_, _) => PENDING_UNLOCK_RETRY_KEY
  }

  /** `{ ...base, ...over }`: a property of both is the one of `over`. */
  function Overlay(base: Record, over: Record): (r: Record)
    ensures forall p :: p in r <==> p in base || p in over
    ensures forall p :: p in r ==> r[p] == if p in over then over[p] else base[p]
  {
    base + over
  }

  /** The `expiresAt` property a writer adds; `null` if the key had no lifetime. */
  function StampRecord(key: string, now: int): (stamp: Record) {
    var expiresAt := Expiry(key, now);
    map[EXPIRES_AT := if expiresAt.Some? then Number(expiresAt.value) else NoNumber]
  }

  /** What each writer stores.  Three spread what they are handed, which may carry any `expiresAt` of its own;
      the retry builds its record anew. */
  function Written(writer: Writer, now: int): (value: Stored) {
    var stamp := StampRecord(KeyOf(writer), now);
    match writer
    case CaptureLogin(data) => Object(Overlay(data, stamp))
    case HoldInline(_, data) => Object(Overlay(data, stamp))
    case HoldSave(_, data, insecureHttp, tab) =>
      Object(Overlay(Overlay(data, map["insecure_http" := insecureHttp, "_sender_tab_id" := tab]), stamp))
    case QueueRetry(payload, createdAt) =>
      Object(Overlay(map["action" := NoNumber, "data" := payload, "createdAt" := Number(createdAt)], stamp))
  }

  /** The names under which secrets are kept. */
  predicate SecretName(key: string) {
    || key == "pendingCredential" || key == "pendingUnlockRetry"
    || "pendingSaveCredential:" <= key || "pendingInlinePrompt:" <= key
  }

  /** A secret under such a name may live for 30 seconds, two minutes or ten minutes. */
  function Lifetime(key: string): (ms: nat) {
    if key == "pendingCredential" then 30_000 else if key == "pendingUnlockRetry" then 120_000 else 600_000
  }

  /** The value carries a finite number `expiresAt` that is still ahead. */
  predicate LivesOn(value: Stored, now: int) {
    && value.Object? && "expiresAt" in value.entries
    && value.entries["expiresAt"].Number? && value.entries["expiresAt"].ms > now
  }

  /** The policy, name by name. */
  lemma PolicyMeans(key: string)
    ensures IsSecretKey(key) <==> SecretName(key)
    ensures TtlMs(key) == if SecretName(key) then Some(Lifetime(key)) else None
  {}

  /** A secret without a usable stamp counts as expired at any time, and nothing else ever does. */
  lemma ExpiredMeans(key: string, value: Stored, now: int)
    ensures IsExpired(key, value, now) <==> SecretName(key) && !LivesOn(value, now)
  {
    PolicyMeans(key);
  }

  /** The keys with a bounded lifetime are exactly the keys that hold secrets. */
  lemma SecretHasTtl(key: string)
    ensures TtlMs(key).Some? <==> IsSecretKey(key)
  {}

  /** Whatever `expiresAt` a payload carries, the stamp that is stored is the writer's. */
  lemma StampWins(writer: Writer, now: int)
    ensures TtlMs(KeyOf(writer)).Some? && StampOf(Written(writer, now)) == Some(now + TtlMs(KeyOf(writer)).value)
  {
    SecretHasTtl(KeyOf(writer));
    assert EXPIRES_AT in StampRecord(KeyOf(writer), now);
  }

  /** A stored secret expires exactly when its lifetime is over, whatever stamp its payload carried. */
  lemma StampBoundsLifetime(writer: Writer, written: int, now: int)
    ensures IsExpired(KeyOf(writer), Written(writer, written), now) <==>
              now >= written + match writer
                               case CaptureLogin(_) => 30_000
                               case HoldInline(_, _) => 600_000
                               case HoldSave(_, _, _, _) => 600_000
                               case QueueRetry(_, _) => 120_000
  {
    StampWins(writer, written);
    LifetimeOfWriter(writer);
  }

  lemma LifetimeOfWriter(writer: Writer)
    ensures TtlMs(KeyOf(writer)) == Some(match writer
                                         case CaptureLogin(_) => 30_000
                                         case HoldInline(_, _) => 600_000
                                         case HoldSave(_, _, _, _) => 600_000
                                         case QueueRetry(_, _) => 120_000)
  {
    match writer
    case CaptureLogin(_) =>
    case HoldInline(id, _) => assert KeyOf(writer)[7] == 'I' && PENDING_CREDENTIAL_KEY[7] == 'C';
    case HoldSave(id, _, _, _) => assert KeyOf(writer)[7] == 'S' && PENDING_CREDENTIAL_KEY[7] == 'C';
    case QueueRetry(_, _) => assert KeyOf(writer)[7] == 'U' && PENDING_CREDENTIAL_KEY[7] == 'C';
      assert PENDING_SAVE_PREFIX[7] == 'S' && PENDING_INLINE_PREFIX[7] == 'I';
  }

  /** Everything else a payload carries is kept. */
  lemma PayloadIsKept(writer: Writer, now: int, p: string)
    requires !writer.QueueRetry? && p in writer.data && p != EXPIRES_AT
    requires writer.HoldSave? ==> p != "insecure_http" && p != "_sender_tab_id"
    ensures Written(writer, now).Object? && p in Written(writer, now).entries
    ensures Written(writer, now).entries[p] == writer.data[p]
  {}
}

/** The lifecycle of session secrets in time: writers, sweeps and purges that interleave at their awaits.

    Sweeps start at least every `period` and finish within `duration`; both are guards on the clock. */
module SessionSecretLifecycle {
  import opened SessionSecretPolicy

  /** `written`, `sweepsBefore` and `serial` record when an entry was written; no step reads them. */
  datatype Entry = Entry(value: Stored, written: int, sweepsBefore: nat, serial: nat)
  /** `seen` counts the writes that had happened when the store was read. */
  datatype Phase = Started | Fetched(all: map<string, Stored>, seen: nat) | Chosen(keys: set<string>, seen: nat)
  datatype Sweep = Sweep(start: int, phase: Phase)
  datatype Purge = Purge(keys: set<string>, seen: nat)
  datatype World = World(
    period: nat, duration: nat,
    clock: int,
    store: map<string, Entry>,
    writes: nat,
    sweeps: map<nat, Sweep>,         // sweeps that have not finished
    started: nat, lastStart: int,
    purges: map<nat, Purge>)   // purges between their get and their remove

  datatype Event =
    | Tick(time: int)
    | WriteSecret(writer: Writer, stampedAt: int)             // a writer's set() lands
    | WriteOther(key: string, value: Stored)
    | Discard(key: string)                                    // a handler removes one secret
    | StartSweep
    | Fetch(sweep: nat) | Choose(sweep: nat) | Remove(sweep: nat)
    | StartPurge(purge: nat) | FinishPurge(purge: nat)

  function Values(store: map<string, Entry>): (all: map<string, Stored>) {
    map key | key in store :: store[key].value
  }

  predicate Enabled(w: World, event: Event) {
    match event
    case Tick(time) =>
      && w.clock <= time <= w.lastStart + w.period
      && (forall i :: i in w.sweeps ==> time <= w.sweeps[i].start + w.duration)
    case WriteSecret(_, stampedAt) => stampedAt <= w.clock
    case WriteOther(key, _) => !IsSecretKey(key)
    case Discard(key) => IsSecretKey(key)
    case StartSweep => true
    case Fetch(i) => i in w.sweeps && w.sweeps[i].phase.Started?
    case Choose(i) => i in w.sweeps && w.sweeps[i].phase.Fetched?
    case Remove(i) => i in w.sweeps && w.sweeps[i].phase.Chosen?
    case StartPurge(p) => p !in w.purges
    case FinishPurge(p) => p in w.purges
  }

  function Apply(w: World, event: Event): (w': World)
    requires Enabled(w, event)
  {
    match event
    case Tick(time) => w.(clock := time)
    case WriteSecret(writer, stampedAt) =>
      w.(store := w.store[KeyOf(writer) := Entry(Written(writer, stampedAt), w.clock, w.started, w.writes)],
         writes := w.writes + 1)
    case WriteOther(key, value) =>
      w.(store := w.store[key := Entry(value, w.clock, w.started, w.writes)], writes := w.writes + 1)
    case Discard(key) => w.(store := w.store - {key})
    case StartSweep =>
      w.(sweeps := w.sweeps[w.started := Sweep(w.clock, Started)], started := w.started + 1, lastStart := w.clock)
    case Fetch(i) => w.(sweeps := w.sweeps[i := w.sweeps[i].(phase := Fetched(Values(w.store), w.writes))])
    case Choose(i) =>
      var sweep := w.sweeps[i];
      w.(sweeps := w.sweeps[i := sweep.(phase := Chosen(ExpiredKeys(sweep.phase.all, w.clock), sweep.phase.seen))])
    case Remove(i) => w.(store := w.store - w.sweeps[i].phase.keys, sweeps := w.sweeps - {i})
    case StartPurge(p) => w.(purges := w.purges[p := Purge(SecretKeys(Values(w.store)), w.writes)])
    case FinishPurge(p) => w.(store := w.store - w.purges[p].keys, purges := w.purges - {p})
  }

  /** The browser session starts with empty session storage. */
  predicate Initial(w: World) {
    && w.store == map[] && w.sweeps == map[] && w.purges == map[]
    && w.started == 0 && w.lastStart == w.clock && w.writes == 0
  }

  ghost predicate Run(run: seq<World>, events: seq<Event>) {
    && |run| == |events| + 1 && Initial(run[0])
    && (forall k :: 0 <= k < |events| ==> StepOf(run, events, k))
  }

  ghost predicate StepOf(run: seq<World>, events: seq<Event>, k: nat)
    requires |run| == |events| + 1 && k < |events|
  {
    Enabled(run[k], events[k]) && run[k + 1] == Apply(run[k], events[k])
  }

  // ---------------------------------------------------------------- invariant

  function Max(a: int, b: int): (m: int) { if a < b then b else a }

  /** The sweep began after the entry was written and not before it expired. */
  predicate Due(w: World, key: string, i: nat)
    requires key in w.store && StampOf(w.store[key].value).Some?
  {
    i in w.sweeps && w.store[key].sweepsBefore <= i && StampOf(w.store[key].value).value <= w.sweeps[i].start
  }

  predicate WillRemove(w: World, key: string, i: nat)
    requires key in w.store && i in w.sweeps
  {
    match w.sweeps[i].phase
    case Started => true
    case Fetched(all, _) => key in all && all[key] == w.store[key].value
    case Chosen(keys, _) => key in keys
  }

  /** Either no due sweep has begun, or one that began in time is still at work. */
  ghost predicate EntryOk(w: World, key: string)
    requires key in w.store
  {
    var e := w.store[key];
    && TtlMs(key).Some? && StampOf(e.value).Some?
    && var expires := StampOf(e.value).value;
    && expires <= e.written + TtlMs(key).value && e.written <= w.clock && e.sweepsBefore <= w.started
    && (e.sweepsBefore == w.started ==> w.lastStart <= e.written)
    && (forall i :: Due(w, key, i) ==> WillRemove(w, key, i))
    && (|| e.sweepsBefore == w.started
        || w.lastStart < expires
        || (exists i :: Due(w, key, i) && w.sweeps[i].start <= Max(e.written, expires) + w.period))
  }

  ghost predicate Inv(w: World) {
    && w.lastStart <= w.clock <= w.lastStart + w.period
    && (forall i :: i in w.sweeps ==> i < w.started && w.sweeps[i].start <= w.clock <= w.sweeps[i].start + w.duration)
    && (forall i :: i in w.sweeps && w.sweeps[i].phase.Chosen? ==>
          forall key :: key in w.sweeps[i].phase.keys ==> IsSecretKey(key))
    && (forall p :: p in w.purges ==> forall key :: key in w.purges[p].keys ==> IsSecretKey(key))
    && (forall key :: key in w.store && IsSecretKey(key) ==> EntryOk(w, key))
  }

  lemma DueKept(w: World, w': World, key: string)
    requires key in w.store && key in w'.store && w'.store[key] == w.store[key] && EntryOk(w, key)
    requires w'.sweeps == w.sweeps && w'.started == w.started && w'.lastStart == w.lastStart && w'.period == w.period
    requires w.clock <= w'.clock
    ensures EntryOk(w', key)
  {
    forall i | Due(w', key, i) ensures WillRemove(w', key, i) { assert Due(w, key, i); }
    var e := w.store[key];
    if i :| Due(w, key, i) && w.sweeps[i].start <= Max(e.written, StampOf(e.value).value) + w.period {
      assert Due(w', key, i);
    }
  }

  lemma StoreStepKeeps(w: World, event: Event)
    requires Inv(w) && Enabled(w, event)
    requires !event.StartSweep? && !event.Fetch? && !event.Choose? && !event.Remove?
    ensures Inv(Apply(w, event))
  {
    var w' := Apply(w, event);
    forall key | key in w'.store && IsSecretKey(key) ensures EntryOk(w', key) {
      if event.WriteSecret? && KeyOf(event.writer) == key { StampWins(event.writer, event.stampedAt); }
      else { DueKept(w, w', key); }
    }
  }

  lemma StartSweepKeeps(w: World)
    requires Inv(w)
    ensures Inv(Apply(w, StartSweep))
  {
    var w' := Apply(w, StartSweep);
    forall key | key in w'.store && IsSecretKey(key) ensures EntryOk(w', key) {
      assert EntryOk(w, key);
      var e := w.store[key];
      forall i | Due(w', key, i) ensures WillRemove(w', key, i) { if i != w.started { assert Due(w, key, i); } }
      if i :| Due(w, key, i) && w.sweeps[i].start <= Max(e.written, StampOf(e.value).value) + w.period {
        assert Due(w', key, i);
      } else if StampOf(e.value).value <= w.clock {
        assert Due(w', key, w.started);
      }
    }
  }

  lemma SweepStepKeeps(w: World, event: Event)
    requires Inv(w) && Enabled(w, event) && (event.Fetch? || event.Choose?)
    ensures Inv(Apply(w, event))
  {
    var w' := Apply(w, event);
    forall key | key in w'.store && IsSecretKey(key) ensures EntryOk(w', key) {
      assert EntryOk(w, key);
      var e := w.store[key];
      forall i | Due(w', key, i) ensures WillRemove(w', key, i) { assert Due(w, key, i) && WillRemove(w, key, i); }
      if i :| Due(w, key, i) && w.sweeps[i].start <= Max(e.written, StampOf(e.value).value) + w.period {
        assert Due(w', key, i);
      }
    }
  }

  lemma RemoveKeeps(w: World, i: nat)
    requires Inv(w) && Enabled(w, Remove(i))
    ensures Inv(Apply(w, Remove(i)))
  {
    var w' := Apply(w, Remove(i));
    forall key | key in w'.store && IsSecretKey(key) ensures EntryOk(w', key) {
      assert EntryOk(w, key);
      var e := w.store[key];
      assert Due(w, key, i) ==> WillRemove(w, key, i);
      forall j | Due(w', key, j) ensures WillRemove(w', key, j) { assert Due(w, key, j) && WillRemove(w, key, j); }
      if j :| Due(w, key, j) && w.sweeps[j].start <= Max(e.written, StampOf(e.value).value) + w.period {
        assert Due(w', key, j);
      }
    }
  }

  lemma StepKeeps(w: World, event: Event)
    requires Inv(w) && Enabled(w, event)
    ensures Inv(Apply(w, event))
  {
    if event.StartSweep? { StartSweepKeeps(w); }
    else if event.Fetch? || event.Choose? { SweepStepKeeps(w, event); }
    else if event.Remove? { RemoveKeeps(w, event.sweep); }
    else { StoreStepKeeps(w, event); }
  }

  lemma {:induction false} RunInv(run: seq<World>, events: seq<Event>, k: nat)
    requires Run(run, events) && k < |run|
    ensures Inv(run[k])
  {
    if k > 0 {
      RunInv(run, events, k - 1);
      assert StepOf(run, events, k - 1);
      StepKeeps(run[k - 1], events[k - 1]);
    }
  }

  /** A stored secret never outlives its lifetime by more than one sweep period and one sweep. */
  lemma BoundedResidency(run: seq<World>, events: seq<Event>, k: nat, key: string)
    requires Run(run, events) && k < |run| && key in run[k].store && SecretName(key)
    ensures run[k].clock <= run[k].store[key].written + Lifetime(key) + run[k].period + run[k].duration
  {
    RunInv(run, events, k);
    PolicyMeans(key);
    assert EntryOk(run[k], key);
  }

  /** Sweeps, purges and discards never take a key that holds no secret. */
  lemma OthersAreKept(run: seq<World>, events: seq<Event>, k: nat, key: string)
    requires Run(run, events) && k < |events| && key in run[k].store && !SecretName(key)
    ensures key in run[k + 1].store
    ensures !events[k].WriteOther? ==> run[k + 1].store[key] == run[k].store[key]
  {
    PolicyMeans(key);
    RunInv(run, events, k);
    assert StepOf(run, events, k);
  }

  // ---------------------------------------------------- what a reader has seen

  /** What a sweep knows of the entries that were there when it read the store. */
  predicate SweepSeen(w: World, phase: Phase) {
    match phase
    case Started => true
    case Fetched(all, seen) =>
      seen <= w.writes
      && forall key :: key in w.store && w.store[key].serial < seen ==> key in all && all[key] == w.store[key].value
    case Chosen(keys, seen) =>
      seen <= w.writes
      && forall key :: key in w.store && w.store[key].serial < seen && key in keys ==>
           IsExpired(key, w.store[key].value, w.clock)
  }

  predicate PurgeSeen(w: World, purge: Purge) {
    && purge.seen <= w.writes
    && (forall key :: key in w.store && w.store[key].serial < purge.seen && IsSecretKey(key) ==> key in purge.keys)
  }

  predicate SeenOk(w: World) {
    && (forall key :: key in w.store ==> w.store[key].serial < w.writes)
    && (forall i :: i in w.sweeps ==> SweepSeen(w, w.sweeps[i].phase))
    && (forall p :: p in w.purges ==> PurgeSeen(w, w.purges[p]))
  }

  /** Entries are only removed, or written with a new serial, and the clock moves on. */
  predicate Later(w: World, w': World) {
    && w.clock <= w'.clock && w.writes <= w'.writes
    && (forall key :: key in w'.store ==>
          (key in w.store && w'.store[key] == w.store[key]) || w.writes <= w'.store[key].serial)
  }

  lemma SweepSeenStays(w: World, w': World, phase: Phase)
    requires SweepSeen(w, phase) && Later(w, w')
    ensures SweepSeen(w', phase)
  {}

  lemma PurgeSeenStays(w: World, w': World, purge: Purge)
    requires PurgeSeen(w, purge) && Later(w, w')
    ensures PurgeSeen(w', purge)
  {}

  lemma StepIsLater(w: World, event: Event)
    requires Enabled(w, event)
    ensures Later(w, Apply(w, event))
  {}

  lemma StepSees(w: World, event: Event)
    requires SeenOk(w) && Enabled(w, event)
    ensures SeenOk(Apply(w, event))
  {
    var w' := Apply(w, event);
    StepIsLater(w, event);
    forall i | i in w'.sweeps ensures SweepSeen(w', w'.sweeps[i].phase) {
      if i in w.sweeps { SweepSeenStays(w, w', w.sweeps[i].phase); }
    }
    forall p | p in w'.purges ensures PurgeSeen(w', w'.purges[p]) {
      if p in w.purges { PurgeSeenStays(w, w', w.purges[p]); }
    }
  }

  lemma {:induction false} RunSees(run: seq<World>, events: seq<Event>, k: nat)
    requires Run(run, events) && k < |run|
    ensures SeenOk(run[k])
  {
    if k > 0 {
      RunSees(run, events, k - 1);
      assert StepOf(run, events, k - 1);
      StepSees(run[k - 1], events[k - 1]);
    }
  }

  /** A purge leaves no secret but those written after it read the store. */
  lemma PurgeLeavesOnlyNewer(run: seq<World>, events: seq<Event>, k: nat, key: string)
    requires Run(run, events) && k < |events| && events[k].FinishPurge?
    requires key in run[k + 1].store && SecretName(key)
    ensures events[k].purge in run[k].purges && run[k + 1].store[key].serial >= run[k].purges[events[k].purge].seen
  {
    RunSees(run, events, k);
    PolicyMeans(key);
    assert StepOf(run, events, k);
    assert PurgeSeen(run[k], run[k].purges[events[k].purge]);
  }

  /** A sweep takes a secret that has not expired exactly when the key was on its list and has been
      written again since the sweep read the store. */
  lemma SweptEarlyIffRewritten(run: seq<World>, events: seq<Event>, k: nat, key: string)
    requires Run(run, events) && k < |events| && events[k].Remove?
    requires key in run[k].store && !IsExpired(key, run[k].store[key].value, run[k].clock)
    ensures events[k].sweep in run[k].sweeps && run[k].sweeps[events[k].sweep].phase.Chosen?
    ensures var phase := run[k].sweeps[events[k].sweep].phase;
            key !in run[k + 1].store <==> key in phase.keys && run[k].store[key].serial >= phase.seen
  {
    RunSees(run, events, k);
    assert StepOf(run, events, k);
    assert SweepSeen(run[k], run[k].sweeps[events[k].sweep].phase);
  }

  /** What a sweep chooses: of what it has read, the secrets that have no usable stamp or whose time is over. */
  lemma ChoiceIsExact(w: World, i: nat, key: string)
    requires Enabled(w, Choose(i))
    ensures i in Apply(w, Choose(i)).sweeps && Apply(w, Choose(i)).sweeps[i].phase.Chosen?
    ensures var all := w.sweeps[i].phase.all;
            key in Apply(w, Choose(i)).sweeps[i].phase.keys <==>
              key in all && SecretName(key) && !LivesOn(all[key], w.clock)
  {
    var all := w.sweeps[i].phase.all;
    if key in all { ExpiredMeans(key, all[key], w.clock); }
  }

  lemma RunOn(run: seq<World>, events: seq<Event>, event: Event) returns (run': seq<World>, events': seq<Event>)
    requires Run(run, events) && Enabled(run[|events|], event)
    ensures run' == run + [Apply(run[|events|], event)] && events' == events + [event] && Run(run', events')
  {
    run', events' := run + [Apply(run[|events|], event)], events + [event];
    forall k | 0 <= k < |events'| ensures StepOf(run', events', k) {
      if k < |events| { assert StepOf(run, events, k); }
    }
  }

  /** A run in which a sweep starts 40 seconds after a login was captured, when that login has expired. */
  lemma LateSweepStarts(login: Writer) returns (run: seq<World>, events: seq<Event>)
    requires login.CaptureLogin?
    ensures Run(run, events) && |events| == 3 && run[3].clock == 40_000 && run[3].started == 1
    ensures 0 in run[3].sweeps && run[3].sweeps[0].phase.Started? && KeyOf(login) in run[3].store
    ensures IsExpired(KeyOf(login), run[3].store[KeyOf(login)].value, 40_000)
  {
    run, events := [World(60_000, 1_000, 0, map[], 0, map[], 0, 0, map[])], [];
    run, events := RunOn(run, events, WriteSecret(login, 0));
    run, events := RunOn(run, events, Tick(40_000));
    run, events := RunOn(run, events, StartSweep);
    StampBoundsLifetime(login, 0, 40_000);
  }

  /** A sweep over an expired secret puts its key on the list. */
  lemma SweepLists(run: seq<World>, events: seq<Event>, key: string) returns (run': seq<World>, events': seq<Event>)
    requires Run(run, events) && 0 in run[|events|].sweeps && run[|events|].sweeps[0].phase.Started?
    requires key in run[|events|].store && IsExpired(key, run[|events|].store[key].value, run[|events|].clock)
    ensures Run(run', events') && |events'| == |events| + 2
    ensures var w := run'[|events'|];
            && w.clock == run[|events|].clock && 0 in w.sweeps
            && w.sweeps[0].phase.Chosen? && key in w.sweeps[0].phase.keys
  {
    var w := run[|events|];
    run', events' := RunOn(run, events, Fetch(0));
    var all := run'[|events'|].sweeps[0].phase.all;
    assert key in all && all[key] == w.store[key].value;
    run', events' := RunOn(run', events', Choose(0));
  }

  /** A secret written once its key is on the list is lost, although it has not expired. */
  lemma ListedSecretIsLost(run: seq<World>, events: seq<Event>, writer: Writer)
    returns (run': seq<World>, events': seq<Event>)
    requires Run(run, events) && 0 in run[|events|].sweeps && run[|events|].sweeps[0].phase.Chosen?
    requires KeyOf(writer) in run[|events|].sweeps[0].phase.keys
    ensures Run(run', events') && |events'| == |events| + 2 && events'[|events| + 1] == Remove(0)
    ensures var key, w := KeyOf(writer), run'[|events| + 1];
            && key in w.store && !IsExpired(key, w.store[key].value, w.clock)
            && key !in run'[|events'|].store
  {
    var now := run[|events|].clock;
    StampBoundsLifetime(writer, now, now);
    run', events' := RunOn(run, events, WriteSecret(writer, now));
    run', events' := RunOn(run', events', Remove(0));
  }

  /** A sweep removes by key, so a login captured again between its choice and its removal is lost early. */
  lemma FreshSecretCanBeSwept(data: Record) returns (run: seq<World>, events: seq<Event>)
    ensures Run(run, events) && |events| == 7 && events[6] == Remove(0)
    ensures var key := KeyOf(CaptureLogin(data));
            && key in run[6].store && !IsExpired(key, run[6].store[key].value, run[6].clock)
            && key !in run[7].store
  {
    run, events := LateSweepStarts(CaptureLogin(data));
    run, events := SweepLists(run, events, KeyOf(CaptureLogin(data)));
    run, events := ListedSecretIsLost(run, events, CaptureLogin(data));
  }
}
