/** `Busy` is answered only when 128 temporaries in a row were taken, or when somebody holds the lock. */
module PublicationBusy {
  import opened Publication
  import opened PublicationInvariant
  import opened PublicationSteps
  import opened PublicationTheorems
  import opened PublicationAnswers

  /** Where the tries for a temporary come from and go to. */
  predicate TryStep(s: State, s': State, c: CallId) {
    && c in s.calls && c in s'.calls && s.calls[c].pid in s.procs
    && var call, pc := s.calls[c], s'.calls[c].pc;
    && (pc.Wr? && pc.w.TakeTicket? ==>
          || pc.w.tries == 0
          || (&& call.pc.Wr? && call.pc.w.CreateTemp? && call.pc.w.tries + 1 == pc.w.tries
              && Temp(call.pid, call.pc.w.serial) in s.temps && s'.procs == s.procs))
    && (pc.Wr? && pc.w.CreateTemp? ==>
          call.pc == Wr(TakeTicket(pc.w.tries)) && pc.w.serial == s.procs[call.pid].counter)
    && (pc == Leaving(Err(Busy)) ==>
          || (call.op.Write? && call.pc.Wr? && call.pc.w.CreateTemp? && call.pc.w.tries == 127
              && Temp(call.pid, call.pc.w.serial) in s.temps)
          || (call.op.Lock? && call.pc.Lk? && call.pc.l.TryLock? && call.pc.l.ino in s.flocks))
    && (pc == Done(Err(Busy)) ==> call.pc == Leaving(Err(Busy)))
  }

  lemma OtherTryStep(s: State, s': State, c: CallId)
    requires c in s.calls && c in s'.calls && s.calls[c].pid in s.procs
    requires var pc := s'.calls[c].pc; pc != Leaving(Err(Busy)) && pc != Done(Err(Busy)) && !pc.Wr?
    ensures TryStep(s, s', c)
  {}

  lemma CheckingTries(s: State, c: CallId, w: WritePc, fault: bool)
    requires Runnable(s, c) && Bindings(s) && s.calls[c].pc == Wr(w) && s.calls[c].op.Write?
    ensures w == PreDir ==> TryStep(s, CheckDirStep(s, c, fault, Wr(PreOpen)), c)
    ensures w == PreOpen ==> TryStep(s, PreOpenStep(s, c, fault), c)
    ensures w.PreStat? && w.ino in s.inodes ==> TryStep(s, StatStep(s, c, w.ino, fault, true, Wr(TakeTicket(0))), c)
  {}

  lemma TakeTicketTries(s: State, c: CallId, tries: nat)
    requires Runnable(s, c) && s.calls[c].pc == Wr(TakeTicket(tries))
    ensures TryStep(s, TakeTicketStep(s, c, tries), c)
  {}

  lemma CreateTempTries(s: State, c: CallId, tries: nat, serial: nat, choice: Choice)
    requires Runnable(s, c) && s.calls[c].op.Write? && s.calls[c].pc == Wr(CreateTemp(tries, serial))
              && tries < TEMP_TRIES
    ensures TryStep(s, CreateTempStep(s, c, tries, serial, choice), c)
  {
    var s' := CreateTempStep(s, c, tries, serial, choice);
    if choice.fault || Temp(s.calls[c].pid, serial) !in s.temps {
      assert s'.calls[c].pc == if choice.fault then Leaving(Err(Io)) else Wr(TempStat(serial, choice.newIno));
    } else {
      assert s' == With(s, c, s'.calls[c].pc);
    }
  }

  lemma FillingTries(s: State, c: CallId, w: WritePc, choice: Choice)
    requires Runnable(s, c) && s.calls[c].pc == Wr(w) && s.calls[c].op.Write?
    requires w.TempStat? || w.WriteAll? || w.SyncFile?
    requires w.ino in s.inodes && (w.WriteAll? ==> w.written < |s.calls[c].op.payload|)
    ensures w.TempStat? ==> TryStep(s, TempStatStep(s, c, w.serial, w.ino, choice.fault), c)
    ensures w.WriteAll? ==> TryStep(s, WriteAllStep(s, c, w.serial, w.ino, w.written, choice), c)
    ensures w.SyncFile? ==> TryStep(s, SyncFileStep(s, c, w.serial, w.ino, choice.fault), c)
  {}

  lemma RenameTries(s: State, c: CallId, serial: nat, i: Ino, fault: bool)
    requires Runnable(s, c) && Bindings(s) && s.calls[c].op.Write? && s.calls[c].pc == Wr(Rename(serial, i))
    ensures TryStep(s, RenameStep(s, c, serial, i, fault), c)
  {
    var s', op := RenameStep(s, c, serial, i, fault), s.calls[c].op;
    if fault || (op.publish != CreateNew && op.name in s.names && s.inodes[s.names[op.name]].kind == Directory) {
      assert s' == With(s, c, Wr(Unlink(serial, Io)));
    } else if op.publish == CreateNew && op.name in s.names {
      assert s' == WithEffect(s, c, Wr(Unlink(serial, AlreadyExists)), Failed(AlreadyExists));
    } else {
      assert s'.calls == WithEffect(s, c, Wr(SyncDir(serial)), Published(|s.log|)).calls;
    }
  }

  lemma EndingTries(s: State, c: CallId, w: WritePc, fault: bool)
    requires Runnable(s, c) && Bindings(s) && s.calls[c].pc == Wr(w)
    ensures w.SyncDir? ==> TryStep(s, SyncDirStep(s, c, w.serial, fault), c)
    ensures w.Unlink? && w.error != Busy ==> TryStep(s, UnlinkStep(s, c, w.serial, w.error, fault), c)
  {
    if w.Unlink? { assert UnlinkStep(s, c, w.serial, w.error, fault).calls[c].pc == Leaving(Err(w.error)); }
  }

  lemma LateTries(s: State, c: CallId, choice: Choice)
    requires CanGo(s, c, choice) && s.calls[c].pc.Wr? && CallOk(s, c, s.calls[c])
    requires var w := s.calls[c].pc.w; w.TempStat? || w.WriteAll? || w.SyncFile? || w.Rename? || w.SyncDir? || w.Unlink?
    ensures TryStep(s, AdvanceWriter(s, c, s.calls[c].pc.w, choice), c)
  {
    var w := s.calls[c].pc.w;
    if w.Rename? { RenameTries(s, c, w.serial, w.ino, choice.fault); }
    else if w.SyncDir? || w.Unlink? { EndingTries(s, c, w, choice.fault); }
    else { FillingTries(s, c, w, choice); }
  }

  lemma EarlyTries(s: State, c: CallId, choice: Choice)
    requires CanGo(s, c, choice) && s.calls[c].pc.Wr? && CallOk(s, c, s.calls[c])
    requires var w := s.calls[c].pc.w; w.PreDir? || w.PreOpen? || w.PreStat? || w.TakeTicket? || w.CreateTemp?
    ensures TryStep(s, AdvanceWriter(s, c, s.calls[c].pc.w, choice), c)
  {
    var w := s.calls[c].pc.w;
    if w.TakeTicket? { TakeTicketTries(s, c, w.tries); }
    else if w.CreateTemp? { CreateTempTries(s, c, w.tries, w.serial, choice); }
    else { CheckingTries(s, c, w, choice.fault); }
  }

  lemma WriterTries(s: State, c: CallId, choice: Choice)
    requires CanGo(s, c, choice) && s.calls[c].pc.Wr? && CallOk(s, c, s.calls[c])
    ensures TryStep(s, AdvanceWriter(s, c, s.calls[c].pc.w, choice), c)
  {
    var w := s.calls[c].pc.w;
    if w.PreDir? || w.PreOpen? || w.PreStat? || w.TakeTicket? || w.CreateTemp? { EarlyTries(s, c, choice); }
    else { LateTries(s, c, choice); }
  }

  lemma OpenReadTries(s: State, c: CallId, fault: bool)
    requires Runnable(s, c) && Bindings(s) && s.calls[c].op.Read? && s.calls[c].pc == Rd(OpenRead)
    ensures TryStep(s, OpenReadStep(s, c, fault), c)
  {}

  lemma ReaderTries(s: State, c: CallId, choice: Choice)
    requires CanGo(s, c, choice) && s.calls[c].pc.Rd?
    ensures TryStep(s, AdvanceReader(s, c, s.calls[c].pc.r, choice), c)
  {
    var r := s.calls[c].pc.r;
    match r {
      case OpenRead => OpenReadTries(s, c, choice.fault);
      case ReadStat(i) => OtherTryStep(s, StatStep(s, c, i, choice.fault, true, Rd(ReadLen(i))), c);
      case ReadLen(i) => OtherTryStep(s, ReadLenStep(s, c, i, choice.fault), c);
      case ReadChunk(i, buffer) => OtherTryStep(s, ReadChunkStep(s, c, i, buffer, choice), c);
    }
  }

  lemma OpenLockTries(s: State, c: CallId, choice: Choice)
    requires Runnable(s, c) && Bindings(s) && s.calls[c].op.Lock? && s.calls[c].pc == Lk(OpenLock)
    ensures TryStep(s, OpenLockStep(s, c, choice), c)
  {
    OtherTryStep(s, OpenLockStep(s, c, choice), c);
  }

  lemma TryLockTries(s: State, c: CallId, i: Ino, fault: bool)
    requires Runnable(s, c) && s.calls[c].op.Lock? && s.calls[c].pc == Lk(TryLock(i))
    ensures TryStep(s, TryLockStep(s, c, i, fault), c)
  {}

  lemma LockerTries(s: State, c: CallId, choice: Choice)
    requires CanGo(s, c, choice) && s.calls[c].pc.Lk?
    ensures TryStep(s, AdvanceLocker(s, c, s.calls[c].pc.l, choice), c)
  {
    var l := s.calls[c].pc.l;
    match l {
      case OpenLock => OpenLockTries(s, c, choice);
      case LockStat(i) => OtherTryStep(s, StatStep(s, c, i, choice.fault, false, Lk(TryLock(i))), c);
      case TryLock(i) => TryLockTries(s, c, i, choice.fault);
      case Holding(i) => OtherTryStep(s, DropHandleStep(s, c, i), c);
    }
  }

  lemma OuterTries(s: State, c: CallId, choice: Choice)
    requires CanGo(s, c, choice) && !s.calls[c].pc.Wr? && !s.calls[c].pc.Rd? && !s.calls[c].pc.Lk?
    ensures TryStep(s, Advance(s, c, choice), c)
  {
    match s.calls[c].pc {
      case Enter => OtherTryStep(s, EnterStep(s, c), c);
      case CheckDir => CheckDirTries(s, c, choice.fault);
      case Leaving(_) =>
    }
  }

  lemma CheckDirTries(s: State, c: CallId, fault: bool)
    requires Runnable(s, c) && s.calls[c].pc == CheckDir
    ensures TryStep(s, CheckDirStep(s, c, fault, AfterCheckDir(s.calls[c].op)), c)
  {}

  lemma GoTries(s: State, c: CallId, choice: Choice)
    requires CanGo(s, c, choice) && CallOk(s, c, s.calls[c])
    ensures TryStep(s, Advance(s, c, choice), c)
  {
    if s.calls[c].pc.Wr? { WriterTries(s, c, choice); }
    else if s.calls[c].pc.Rd? { ReaderTries(s, c, choice); }
    else if s.calls[c].pc.Lk? { LockerTries(s, c, choice); }
    else { OuterTries(s, c, choice); }
  }

  // --------------------------------------------------------------------- counters

  /** A step lets the counters of all processes stand or rise. */
  predicate CountersRise(s: State, s': State) {
    forall p :: p in s.procs && p in s'.procs ==> s.procs[p].counter <= s'.procs[p].counter
  }

  lemma TakeTicketRises(s: State, c: CallId, tries: nat)
    requires Runnable(s, c)
    ensures CountersRise(s, TakeTicketStep(s, c, tries)) && TakeTicketStep(s, c, tries).procs.Keys == s.procs.Keys
  {}

  lemma EarlyProcs(s: State, c: CallId, w: WritePc, choice: Choice)
    requires Runnable(s, c) && Bindings(s) && s.calls[c].op.Write? && WriterPlaced(s, s.calls[c].op, w)
    requires w.PreDir? || w.PreOpen? || w.PreStat? || w.CreateTemp? || w.TempStat? || w.WriteAll?
    ensures AdvanceWriter(s, c, w, choice).procs == s.procs
  {}

  lemma LateProcs(s: State, c: CallId, w: WritePc, choice: Choice)
    requires Runnable(s, c) && Bindings(s) && s.calls[c].op.Write? && WriterPlaced(s, s.calls[c].op, w)
    requires w.SyncFile? || w.Rename? || w.SyncDir? || w.Unlink?
    ensures AdvanceWriter(s, c, w, choice).procs == s.procs
  {
    if w.Rename? { RenameProcs(s, c, w.serial, w.ino, choice.fault); }
    else if w.Unlink? { UnlinkProcs(s, c, w.serial, w.error, choice.fault); }
  }

  lemma RenameProcs(s: State, c: CallId, serial: nat, i: Ino, fault: bool)
    requires Runnable(s, c) && Bindings(s) && s.calls[c].op.Write?
    ensures RenameStep(s, c, serial, i, fault).procs == s.procs
  {}

  lemma UnlinkProcs(s: State, c: CallId, serial: nat, error: Error, fault: bool)
    requires c in s.calls && Bindings(s)
    ensures UnlinkStep(s, c, serial, error, fault).procs == s.procs
  {}

  lemma WriterProcs(s: State, c: CallId, choice: Choice)
    requires CanGo(s, c, choice) && s.calls[c].pc.Wr?
    ensures var s' := AdvanceWriter(s, c, s.calls[c].pc.w, choice); CountersRise(s, s') && s'.procs.Keys == s.procs.Keys
  {
    var w := s.calls[c].pc.w;
    if w.TakeTicket? { TakeTicketRises(s, c, w.tries); }
    else if w.SyncFile? || w.Rename? || w.SyncDir? || w.Unlink? { LateProcs(s, c, w, choice); }
    else { EarlyProcs(s, c, w, choice); }
  }

  lemma OthersProcs(s: State, c: CallId, choice: Choice)
    requires CanGo(s, c, choice) && !s.calls[c].pc.Wr?
    ensures Advance(s, c, choice).procs == s.procs
  {
    if s.calls[c].pc.Rd? { ReaderProcs(s, c, choice); }
    else if s.calls[c].pc.Lk? { LockerProcs(s, c, choice); }
  }

  lemma ReaderProcs(s: State, c: CallId, choice: Choice)
    requires CanGo(s, c, choice) && s.calls[c].pc.Rd?
    ensures AdvanceReader(s, c, s.calls[c].pc.r, choice).procs == s.procs
  {
    var r := s.calls[c].pc.r;
    if !r.OpenRead? { ReaderCounts(s, c, choice); }
  }

  lemma LockerProcs(s: State, c: CallId, choice: Choice)
    requires CanGo(s, c, choice) && s.calls[c].pc.Lk?
    ensures AdvanceLocker(s, c, s.calls[c].pc.l, choice).procs == s.procs
  {
    var l := s.calls[c].pc.l;
    match l {
      case OpenLock => assert OpenLockStep(s, c, choice).procs == s.procs;
      case LockStat(i) =>
      case TryLock(i) => assert TryLockStep(s, c, i, choice.fault).procs == s.procs;
      case Holding(i) =>
    }
  }

  lemma EventRises(s: State, event: Event, p: Pid)
    requires Enabled(s, event) && p in s.procs && event != Kill(p)
    ensures p in Apply(s, event).procs && s.procs[p].counter <= Apply(s, event).procs[p].counter
  {
    if event.Go? {
      if s.calls[event.call].pc.Wr? { WriterProcs(s, event.call, event.choice); }
      else { OthersProcs(s, event.call, event.choice); }
    }
  }

  // ---------------------------------------------------------------- taken temporaries

  /** A try for a temporary that was taken: when, and under which number. */
  datatype Hit = Hit(at: nat, serial: nat)

  /** In step `h.at` call `c` made its try number `n` and found the name taken. */
  ghost predicate HitAt(run: seq<State>, events: seq<Event>, k: nat, c: CallId, n: nat, h: Hit) {
    && |run| == |events| + 1 && h.at < k && StepOf(events, h.at, c) && c in run[h.at].calls
    && run[h.at].calls[c].pc == Wr(CreateTemp(n, h.serial))
    && Temp(run[h.at].calls[c].pid, h.serial) in run[h.at].temps
  }

  /** Tries one after the other, each under a new number. */
  ghost predicate Hits(run: seq<State>, events: seq<Event>, k: nat, c: CallId, hits: seq<Hit>) {
    && (forall n :: 0 <= n < |hits| ==> HitAt(run, events, k, c, n, hits[n]))
    && (forall m, n :: 0 <= m < n < |hits| ==> hits[m].serial < hits[n].serial)
  }

  predicate Below(hits: seq<Hit>, bound: nat) { forall n :: 0 <= n < |hits| ==> hits[n].serial < bound }

  /** The hits a call must have behind it where it stands. */
  ghost predicate Tallied(s: State, c: CallId, hits: seq<Hit>) {
    && c in s.calls
    && var call := s.calls[c];
    && (call.pc.Wr? && call.pc.w.TakeTicket? ==>
          |hits| == call.pc.w.tries && call.pid in s.procs && Below(hits, s.procs[call.pid].counter))
    && (call.pc.Wr? && call.pc.w.CreateTemp? ==> |hits| == call.pc.w.tries && Below(hits, call.pc.w.serial))
    && (call.op.Write? && (call.pc == Leaving(Err(Busy)) || call.pc == Done(Err(Busy))) ==> |hits| == 128)
  }

  lemma HitsLast(run: seq<State>, events: seq<Event>, k: nat, c: CallId, hits: seq<Hit>, h: Hit)
    requires Hits(run, events, k, c, hits) && Below(hits, h.serial) && HitAt(run, events, k + 1, c, |hits|, h)
    ensures Hits(run, events, k + 1, c, hits + [h])
  {
    forall n | 0 <= n < |hits + [h]| ensures HitAt(run, events, k + 1, c, n, (hits + [h])[n]) {
      if n < |hits| { assert HitAt(run, events, k, c, n, hits[n]); }
    }
  }

  lemma HitsKept(run: seq<State>, events: seq<Event>, k: nat, c: CallId, hits: seq<Hit>)
    requires Hits(run, events, k, c, hits)
    ensures Hits(run, events, k + 1, c, hits)
  {
    forall n | 0 <= n < |hits| ensures HitAt(run, events, k + 1, c, n, hits[n]) {
      assert HitAt(run, events, k, c, n, hits[n]);
    }
  }

  /** The number a writer tries was drawn before. */
  lemma SerialIsDrawn(s: State, c: CallId)
    requires Inv(s) && c in s.calls && s.calls[c].pc.Wr? && s.calls[c].pc.w.CreateTemp?
    ensures s.calls[c].pid in s.procs && s.calls[c].pc.w.serial < s.procs[s.calls[c].pid].counter
    ensures s.calls[c].pc.w.tries < 128
  {
    assert CallOk(s, c, s.calls[c]);
  }

  /** A step of the call itself, as the tally sees it. */
  ghost predicate OwnTry(s: State, s': State, c: CallId) {
    && TryStep(s, s', c) && s'.calls[c].op == s.calls[c].op && s'.calls[c].pid == s.calls[c].pid
    && var pc := s.calls[c].pc;
    && (pc.Wr? && pc.w.CreateTemp? ==> pc.w.serial < s.procs[s.calls[c].pid].counter && pc.w.tries < 128)
    && s.calls[c].pid in s'.procs
  }

  lemma StepIsTry(run: seq<State>, events: seq<Event>, k: nat, c: CallId)
    requires Labelled(run, events) && k < |events| && StepOf(events, k, c) && c in run[k].calls
    ensures OwnTry(run[k], run[k + 1], c)
  {
    LabelledIsRun(run, events);
    RunInv(run, k);
    var s := run[k];
    assert EventAt(run, events, k) && CallOk(s, c, s.calls[c]);
    GoTries(s, c, events[k].choice);
    GoGrows(s, c, events[k].choice);
    EventRises(s, events[k], s.calls[c].pid);
    if s.calls[c].pc.Wr? && s.calls[c].pc.w.CreateTemp? { SerialIsDrawn(s, c); }
  }

  predicate TriesTaken(s: State, c: CallId)
    requires c in s.calls
  {
    s.calls[c].pc.Wr? && s.calls[c].pc.w.CreateTemp? && Temp(s.calls[c].pid, s.calls[c].pc.w.serial) in s.temps
  }

  /** The hits after a step in state `k`. */
  function MoreHits(s: State, s': State, c: CallId, k: nat, hits: seq<Hit>): (more: seq<Hit>)
    requires c in s.calls && c in s'.calls
  {
    var pc := s'.calls[c].pc;
    if pc.Wr? && pc.w.TakeTicket? && pc.w.tries == 0 then []
    else if TriesTaken(s, c) then hits + [Hit(k, s.calls[c].pc.w.serial)]
    else hits
  }

  lemma TalliedNext(s: State, s': State, c: CallId, k: nat, hits: seq<Hit>)
    requires OwnTry(s, s', c) && Tallied(s, c, hits)
    ensures Tallied(s', c, MoreHits(s, s', c, k, hits))
  {}

  lemma OwnTally(run: seq<State>, events: seq<Event>, k: nat, c: CallId, hits: seq<Hit>) returns (more: seq<Hit>)
    requires Labelled(run, events) && k < |events| && StepOf(events, k, c)
    requires Hits(run, events, k, c, hits) && Tallied(run[k], c, hits)
    ensures Hits(run, events, k + 1, c, more) && Tallied(run[k + 1], c, more)
  {
    StepIsTry(run, events, k, c);
    more := MoreHits(run[k], run[k + 1], c, k, hits);
    TalliedNext(run[k], run[k + 1], c, k, hits);
    HitsKept(run, events, k, c, hits);
    if TriesTaken(run[k], c) { HitsLast(run, events, k, c, hits, Hit(k, run[k].calls[c].pc.w.serial)); }
  }

  lemma OtherTally(run: seq<State>, events: seq<Event>, k: nat, c: CallId, hits: seq<Hit>)
    requires Labelled(run, events) && k < |events| && !StepOf(events, k, c)
    requires Hits(run, events, k, c, hits) && Tallied(run[k], c, hits)
    ensures Hits(run, events, k + 1, c, hits) && Tallied(run[k + 1], c, hits)
  {
    OthersFit(run, events, k, c);
    HitsKept(run, events, k, c, hits);
    var call := run[k].calls[c];
    if run[k + 1].calls[c] == call && call.pc.Wr? && call.pc.w.TakeTicket? { CounterOf(run, events, k, c); }
  }

  lemma CounterOf(run: seq<State>, events: seq<Event>, k: nat, c: CallId)
    requires Labelled(run, events) && k < |events| && c in run[k].calls && run[k].calls[c].pid in run[k].procs
    requires c in run[k + 1].calls && run[k + 1].calls[c] == run[k].calls[c] && Live(run[k].calls[c])
    ensures run[k].calls[c].pid in run[k + 1].procs
    ensures run[k].procs[run[k].calls[c].pid].counter <= run[k + 1].procs[run[k].calls[c].pid].counter
  {
    assert EventAt(run, events, k);
    EventRises(run[k], events[k], run[k].calls[c].pid);
  }

  lemma {:induction false} Tally(run: seq<State>, events: seq<Event>, k: nat, c: CallId) returns (hits: seq<Hit>)
    requires Labelled(run, events) && k < |run| && c in run[k].calls
    ensures Hits(run, events, k, c, hits) && Tallied(run[k], c, hits)
  {
    if k == 0 { assert false; }
    if c !in run[k - 1].calls {
      NewCallFits(run, events, k - 1, c);
      hits := [];
    } else {
      hits := Tally(run, events, k - 1, c);
      if StepOf(events, k - 1, c) {
        hits := OwnTally(run, events, k - 1, c, hits);
      } else {
        OtherTally(run, events, k - 1, c, hits);
      }
    }
  }

  /** A write answers `Busy` only after 128 tries under 128 different numbers, each of which found a temporary of
      this name already there. */
  lemma BusyWriteTried128(run: seq<State>, events: seq<Event>, k: nat, c: CallId) returns (hits: seq<Hit>)
    requires Labelled(run, events) && k < |run| && c in run[k].calls && run[k].calls[c].op.Write?
    requires run[k].calls[c].pc == Done(Err(Busy))
    ensures |hits| == 128 && Hits(run, events, k, c, hits)
  {
    hits := Tally(run, events, k, c);
  }

  // ------------------------------------------------------------------- taken locks

  /** In step `j` call `c` tried for the lock on its file and found it held by another call. */
  ghost predicate FoundLocked(run: seq<State>, events: seq<Event>, j: nat, c: CallId) {
    && |run| == |events| + 1 && StepOf(events, j, c) && c in run[j].calls
    && run[j].calls[c].pc.Lk? && run[j].calls[c].pc.l.TryLock?
    && var i := run[j].calls[c].pc.l.ino;
    && i in run[j].flocks && run[j].flocks[i] in run[j].calls && run[j].flocks[i] != c
    && run[j].calls[run[j].flocks[i]].pc == Lk(Holding(i))
  }

  lemma BusyStep(run: seq<State>, events: seq<Event>, k: nat, c: CallId)
    requires Labelled(run, events) && k < |events| && StepOf(events, k, c) && c in run[k].calls
              && run[k].calls[c].op.Lock?
    requires c in run[k + 1].calls
    requires run[k + 1].calls[c].pc == Leaving(Err(Busy)) || run[k + 1].calls[c].pc == Done(Err(Busy))
    ensures run[k].calls[c].pc == Leaving(Err(Busy)) || FoundLocked(run, events, k, c)
  {
    LabelledIsRun(run, events);
    RunInv(run, k);
    assert EventAt(run, events, k) && CallOk(run[k], c, run[k].calls[c]);
    GoTries(run[k], c, events[k].choice);
  }

  /** `lock` answers `Busy` only after it found its file locked by another live handle. */
  lemma {:induction false} BusyLockWasHeld(run: seq<State>, events: seq<Event>, k: nat, c: CallId) returns (j: nat)
    requires Labelled(run, events) && k < |run| && c in run[k].calls && run[k].calls[c].op.Lock?
    requires run[k].calls[c].pc == Leaving(Err(Busy)) || run[k].calls[c].pc == Done(Err(Busy))
    ensures j < k && FoundLocked(run, events, j, c)
  {
    if k == 0 { assert false; }
    if c !in run[k - 1].calls { NewCallFits(run, events, k - 1, c); }
    if StepOf(events, k - 1, c) {
      OwnStepKeepsOp(run, events, k - 1, c);
      BusyStep(run, events, k - 1, c);
      if FoundLocked(run, events, k - 1, c) {
        j := k - 1;
        return;
      }
    } else {
      OthersFit(run, events, k - 1, c);
    }
    j := BusyLockWasHeld(run, events, k - 1, c);
  }

  lemma OwnStepKeepsOp(run: seq<State>, events: seq<Event>, k: nat, c: CallId)
    requires Labelled(run, events) && k < |events| && c in run[k].calls && StepOf(events, k, c)
    ensures c in run[k + 1].calls && run[k + 1].calls[c].op == run[k].calls[c].op
  {
    LabelledIsRun(run, events);
    RunGrows(run, k, k + 1);
  }
}
