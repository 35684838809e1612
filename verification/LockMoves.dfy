/** Locks over all runs in which any name may be locked and any name may be written: a second call comes to hold
    a lock name exactly because the name was written after the first had opened it. */
module LockMoves {
  import opened Publication
  import opened LockDiscipline
  import opened Wrappers

  ghost predicate LooseStep(s: State, s': State) {
    exists event :: LooseEnabled(s, event) && s' == LooseApply(s, event)
  }

  ghost predicate LooseStepAt(run: seq<State>, k: nat)
    requires k + 1 < |run|
  {
    LooseStep(run[k], run[k + 1])
  }

  ghost predicate LooseRun(run: seq<State>) {
    && |run| > 0 && Initial(run[0])
    && (forall k: nat :: k + 1 < |run| ==> LooseStepAt(run, k))
  }

  /** The file a writer is preparing under a temporary name. */
  function PrepIno(pc: Pc): (i: Option<Ino>) {
    if pc.Wr? && (pc.w.TempStat? || pc.w.WriteAll? || pc.w.SyncFile? || pc.w.Rename?) then Some(pc.w.ino) else None
  }

  /** The file a lock call has opened. */
  function LockIno(pc: Pc): (i: Option<Ino>) {
    if pc.Lk? && !pc.l.OpenLock? then Some(pc.l.ino) else None
  }

  predicate HoldsLock(pc: Pc) { pc.Lk? && pc.l.Holding? }

  // ---------------------------------------------------------------- what a step does

  /** Call `w` commits its write to `n` in this step. */
  predicate CommitsTo(s: State, s': State, w: CallId, n: string) {
    && w in s.calls && s.calls[w].op.Write? && s.calls[w].op.name == n && s.calls[w].pc.Wr? && s.calls[w].pc.w.Rename?
    && s'.names == s.names[n := s.calls[w].pc.w.ino]
  }

  predicate OneCall(s: State, s': State, c: CallId) {
    c in s.calls && c in s'.calls && s'.calls == s.calls[c := s'.calls[c]] && s'.calls[c].op == s.calls[c].op
  }

  /** The call goes on with the file it has, or drops it. */
  predicate GoesOn(s: State, s': State, c: CallId) {
    && OneCall(s, s', c) && s'.names == s.names && s'.inodes.Keys == s.inodes.Keys
    && (PrepIno(s'.calls[c].pc) == None || PrepIno(s'.calls[c].pc) == PrepIno(s.calls[c].pc))
    && (LockIno(s'.calls[c].pc) == None || LockIno(s'.calls[c].pc) == LockIno(s.calls[c].pc))
  }

  /** The call makes a new temporary. */
  predicate Makes(s: State, s': State, c: CallId, x: Ino) {
    && OneCall(s, s', c) && s'.names == s.names && x !in s.inodes && s'.inodes.Keys == s.inodes.Keys + {x}
    && PrepIno(s'.calls[c].pc) == Some(x) && LockIno(s'.calls[c].pc) == None
  }

  /** The call commits. */
  predicate Commits(s: State, s': State, c: CallId) {
    && OneCall(s, s', c) && s'.inodes.Keys == s.inodes.Keys
    && s.calls[c].op.Write? && CommitsTo(s, s', c, s.calls[c].op.name)
    && PrepIno(s'.calls[c].pc) == None && LockIno(s'.calls[c].pc) == None
  }

  /** The lock call opens its name, which is there or is made. */
  predicate Opens(s: State, s': State, c: CallId) {
    && OneCall(s, s', c) && s.calls[c].op.Lock? && s.calls[c].pc == Lk(OpenLock) && PrepIno(s'.calls[c].pc) == None
    && var n := s.calls[c].op.name;
    && n in s'.names && LockIno(s'.calls[c].pc) == Some(s'.names[n])
    && if n in s.names then s'.names == s.names && s'.inodes.Keys == s.inodes.Keys
       else s'.names[n] !in s.inodes && s'.names == s.names[n := s'.names[n]]
            && s'.inodes.Keys == s.inodes.Keys + {s'.names[n]}
  }

  /** Locks are taken when free and given up by their holders. */
  predicate LocksStep(s: State, s': State, c: CallId)
    requires c in s.calls && c in s'.calls
  {
    var pc, pc' := s.calls[c].pc, s'.calls[c].pc;
    || (s'.flocks == s.flocks && !HoldsLock(pc) && !HoldsLock(pc'))
    || (HoldsLock(pc') && !HoldsLock(pc) && pc'.l.ino !in s.flocks && s'.flocks == s.flocks[pc'.l.ino := c])
    || (HoldsLock(pc) && !HoldsLock(pc') && s'.flocks == s.flocks - {pc.l.ino})
  }

  ghost predicate CallStep(s: State, s': State, c: CallId) {
    && (GoesOn(s, s', c) || (exists x :: Makes(s, s', c, x)) || Commits(s, s', c) || Opens(s, s', c))
    && c in s.calls && c in s'.calls && LocksStep(s, s', c)
  }

  lemma CounterCalls(s: State, c: CallId, pc: Pc)
    requires c in s.calls && !HoldsLock(s.calls[c].pc) && !HoldsLock(pc)
    requires PrepIno(pc) == None || PrepIno(pc) == PrepIno(s.calls[c].pc)
    requires LockIno(pc) == None || LockIno(pc) == LockIno(s.calls[c].pc)
    ensures CallStep(s, With(s, c, pc), c)
  {
    assert GoesOn(s, With(s, c, pc), c);
  }

  lemma CheckingCalls(s: State, c: CallId, w: WritePc, fault: bool)
    requires Runnable(s, c) && Bindings(s) && s.calls[c].pc == Wr(w) && s.calls[c].op.Write?
    ensures w == PreDir ==> CallStep(s, CheckDirStep(s, c, fault, Wr(PreOpen)), c)
    ensures w == PreOpen ==> CallStep(s, PreOpenStep(s, c, fault), c)
    ensures w.PreStat? && w.ino in s.inodes ==> CallStep(s, StatStep(s, c, w.ino, fault, true, Wr(TakeTicket(0))), c)
  {
    if w == PreDir { assert GoesOn(s, CheckDirStep(s, c, fault, Wr(PreOpen)), c); }
    if w == PreOpen { assert GoesOn(s, PreOpenStep(s, c, fault), c); }
    if w.PreStat? && w.ino in s.inodes { assert GoesOn(s, StatStep(s, c, w.ino, fault, true, Wr(TakeTicket(0))), c); }
  }

  lemma TakeTicketCalls(s: State, c: CallId, tries: nat)
    requires Runnable(s, c) && s.calls[c].pc == Wr(TakeTicket(tries))
    ensures CallStep(s, TakeTicketStep(s, c, tries), c)
  {
    assert GoesOn(s, TakeTicketStep(s, c, tries), c);
  }

  lemma CreateTempCalls(s: State, c: CallId, tries: nat, serial: nat, choice: Choice)
    requires Runnable(s, c) && s.calls[c].pc == Wr(CreateTemp(tries, serial)) && choice.newIno !in s.inodes
    ensures CallStep(s, CreateTempStep(s, c, tries, serial, choice), c)
  {
    var s' := CreateTempStep(s, c, tries, serial, choice);
    if choice.fault || Temp(s.calls[c].pid, serial) in s.temps { CounterCalls(s, c, s'.calls[c].pc); }
    else { assert Makes(s, s', c, choice.newIno); }
  }

  lemma TempStatCalls(s: State, c: CallId, serial: nat, i: Ino, fault: bool)
    requires Runnable(s, c) && s.calls[c].op.Write? && s.calls[c].pc == Wr(TempStat(serial, i)) && i in s.inodes
    ensures CallStep(s, TempStatStep(s, c, serial, i, fault), c)
  {
    CounterCalls(s, c, TempStatStep(s, c, serial, i, fault).calls[c].pc);
  }

  lemma WriteAllCalls(s: State, c: CallId, serial: nat, i: Ino, written: nat, choice: Choice)
    requires Runnable(s, c) && s.calls[c].op.Write? && s.calls[c].pc == Wr(WriteAll(serial, i, written))
    requires i in s.inodes && written < |s.calls[c].op.payload|
    ensures CallStep(s, WriteAllStep(s, c, serial, i, written, choice), c)
  {
    assert GoesOn(s, WriteAllStep(s, c, serial, i, written, choice), c);
  }

  lemma SyncFileCalls(s: State, c: CallId, serial: nat, i: Ino, fault: bool)
    requires Runnable(s, c) && s.calls[c].pc == Wr(SyncFile(serial, i)) && i in s.inodes
    ensures CallStep(s, SyncFileStep(s, c, serial, i, fault), c)
  {
    assert GoesOn(s, SyncFileStep(s, c, serial, i, fault), c);
  }

  lemma RenameCalls(s: State, c: CallId, serial: nat, i: Ino, fault: bool)
    requires Runnable(s, c) && Bindings(s) && s.calls[c].op.Write? && s.calls[c].pc == Wr(Rename(serial, i))
    ensures CallStep(s, RenameStep(s, c, serial, i, fault), c)
  {
    var s', op := RenameStep(s, c, serial, i, fault), s.calls[c].op;
    if fault || (op.publish != CreateNew && op.name in s.names && s.inodes[s.names[op.name]].kind == Directory) {
      CounterCalls(s, c, s'.calls[c].pc);
    } else if op.publish == CreateNew && op.name in s.names {
      assert GoesOn(s, s', c);
    } else {
      assert s'.calls == s.calls[c := s'.calls[c]];
      assert Commits(s, s', c);
    }
  }

  lemma SyncDirCalls(s: State, c: CallId, serial: nat, fault: bool)
    requires Runnable(s, c) && s.calls[c].pc == Wr(SyncDir(serial))
    ensures CallStep(s, SyncDirStep(s, c, serial, fault), c)
  {
    assert GoesOn(s, SyncDirStep(s, c, serial, fault), c);
  }

  lemma UnlinkCalls(s: State, c: CallId, serial: nat, error: Error, fault: bool)
    requires Runnable(s, c) && Bindings(s) && s.calls[c].pc == Wr(Unlink(serial, error))
    ensures CallStep(s, UnlinkStep(s, c, serial, error, fault), c)
  {
    assert GoesOn(s, UnlinkStep(s, c, serial, error, fault), c);
  }

  lemma WriterCalls(s: State, c: CallId, choice: Choice)
    requires CanGo(s, c, choice) && s.calls[c].pc.Wr?
    ensures CallStep(s, AdvanceWriter(s, c, s.calls[c].pc.w, choice), c)
  {
    var w := s.calls[c].pc.w;
    match w {
      case TakeTicket(tries) => TakeTicketCalls(s, c, tries);
      case CreateTemp(tries, serial) => CreateTempCalls(s, c, tries, serial, choice);
      case TempStat(serial, i) => TempStatCalls(s, c, serial, i, choice.fault);
      case WriteAll(serial, i, written) => WriteAllCalls(s, c, serial, i, written, choice);
      case SyncFile(serial, i) => SyncFileCalls(s, c, serial, i, choice.fault);
      case Rename(serial, i) => RenameCalls(s, c, serial, i, choice.fault);
      case SyncDir(serial) => SyncDirCalls(s, c, serial, choice.fault);
      case Unlink(serial, error) => UnlinkCalls(s, c, serial, error, choice.fault);
      case _ => CheckingCalls(s, c, w, choice.fault);
    }
  }

  lemma OpenReadCalls(s: State, c: CallId, fault: bool)
    requires Runnable(s, c) && Bindings(s) && s.calls[c].op.Read? && s.calls[c].pc == Rd(OpenRead)
    ensures CallStep(s, OpenReadStep(s, c, fault), c)
  {
    assert GoesOn(s, OpenReadStep(s, c, fault), c);
  }

  lemma ReadingCalls(s: State, c: CallId, r: ReadPc, choice: Choice)
    requires Runnable(s, c) && s.calls[c].pc == Rd(r) && s.calls[c].op.Read? && !r.OpenRead? && r.ino in s.inodes
    ensures r.ReadStat? ==> CallStep(s, StatStep(s, c, r.ino, choice.fault, true, Rd(ReadLen(r.ino))), c)
    ensures r.ReadLen? ==> CallStep(s, ReadLenStep(s, c, r.ino, choice.fault), c)
    ensures r.ReadChunk? ==> CallStep(s, ReadChunkStep(s, c, r.ino, r.buffer, choice), c)
  {
    match r {
      case ReadStat(i) => CounterCalls(s, c, StatStep(s, c, i, choice.fault, true, Rd(ReadLen(i))).calls[c].pc);
      case ReadLen(i) => CounterCalls(s, c, ReadLenStep(s, c, i, choice.fault).calls[c].pc);
      case ReadChunk(i, buffer) => CounterCalls(s, c, ReadChunkStep(s, c, i, buffer, choice).calls[c].pc);
    }
  }

  lemma ReaderCalls(s: State, c: CallId, choice: Choice)
    requires CanGo(s, c, choice) && s.calls[c].pc.Rd?
    ensures CallStep(s, AdvanceReader(s, c, s.calls[c].pc.r, choice), c)
  {
    var r := s.calls[c].pc.r;
    if r.OpenRead? { OpenReadCalls(s, c, choice.fault); } else { ReadingCalls(s, c, r, choice); }
  }

  lemma OpenLockCalls(s: State, c: CallId, choice: Choice)
    requires Runnable(s, c) && Bindings(s) && s.calls[c].op.Lock? && s.calls[c].pc == Lk(OpenLock)
    requires choice.newIno !in s.inodes
    ensures CallStep(s, OpenLockStep(s, c, choice), c)
  {
    var s', n := OpenLockStep(s, c, choice), s.calls[c].op.name;
    if choice.fault || (n in s.names && LockOpenFailure(s.inodes[s.names[n]].kind).Some?) {
      CounterCalls(s, c, s'.calls[c].pc);
    } else {
      assert Opens(s, s', c);
    }
  }

  lemma LockingCalls(s: State, c: CallId, l: LockPc, fault: bool)
    requires Runnable(s, c) && s.calls[c].pc == Lk(l) && s.calls[c].op.Lock? && !l.OpenLock? && l.ino in s.inodes
    ensures l.LockStat? ==> CallStep(s, StatStep(s, c, l.ino, fault, false, Lk(TryLock(l.ino))), c)
    ensures l.TryLock? ==> CallStep(s, TryLockStep(s, c, l.ino, fault), c)
    ensures l.Holding? ==> CallStep(s, DropHandleStep(s, c, l.ino), c)
  {
    match l {
      case LockStat(i) => CounterCalls(s, c, StatStep(s, c, i, fault, false, Lk(TryLock(i))).calls[c].pc);
      case TryLock(i) => TryLockCalls(s, c, i, fault);
      case Holding(i) => DropHandleCalls(s, c, i);
    }
  }

  lemma TryLockCalls(s: State, c: CallId, i: Ino, fault: bool)
    requires c in s.calls && s.calls[c].pc == Lk(TryLock(i))
    ensures CallStep(s, TryLockStep(s, c, i, fault), c)
  {
    if fault { CounterCalls(s, c, Leaving(Err(Io))); }
    else if i in s.flocks { CounterCalls(s, c, Leaving(Err(Busy))); }
    else { assert GoesOn(s, TryLockStep(s, c, i, fault), c); }
  }

  lemma DropHandleCalls(s: State, c: CallId, i: Ino)
    requires c in s.calls && s.calls[c].pc == Lk(Holding(i))
    ensures CallStep(s, DropHandleStep(s, c, i), c)
  {
    assert GoesOn(s, DropHandleStep(s, c, i), c);
  }

  lemma LockerCalls(s: State, c: CallId, choice: Choice)
    requires CanGo(s, c, choice) && s.calls[c].pc.Lk?
    ensures CallStep(s, AdvanceLocker(s, c, s.calls[c].pc.l, choice), c)
  {
    var l := s.calls[c].pc.l;
    if l.OpenLock? { OpenLockCalls(s, c, choice); } else { LockingCalls(s, c, l, choice.fault); }
  }

  lemma OuterCalls(s: State, c: CallId, choice: Choice)
    requires CanGo(s, c, choice) && !s.calls[c].pc.Wr? && !s.calls[c].pc.Rd? && !s.calls[c].pc.Lk?
    ensures CallStep(s, Advance(s, c, choice), c)
  {
    match s.calls[c].pc {
      case Enter => CounterCalls(s, c, EnterStep(s, c).calls[c].pc);
      case CheckDir => CheckDirCalls(s, c, choice.fault);
      case Leaving(answer) => CounterCalls(s, c, Done(answer));
    }
  }

  lemma CheckDirCalls(s: State, c: CallId, fault: bool)
    requires Runnable(s, c) && s.calls[c].pc == CheckDir
    ensures CallStep(s, CheckDirStep(s, c, fault, AfterCheckDir(s.calls[c].op)), c)
  {
    CounterCalls(s, c, CheckDirStep(s, c, fault, AfterCheckDir(s.calls[c].op)).calls[c].pc);
  }

  lemma GoCalls(s: State, c: CallId, choice: Choice)
    requires CanGo(s, c, choice)
    ensures CallStep(s, Advance(s, c, choice), c)
  {
    if s.calls[c].pc.Wr? { WriterCalls(s, c, choice); }
    else if s.calls[c].pc.Rd? { ReaderCalls(s, c, choice); }
    else if s.calls[c].pc.Lk? { LockerCalls(s, c, choice); }
    else { OuterCalls(s, c, choice); }
  }

  /** Processes come and go, calls are made and die, and no file or name is touched. */
  predicate Around(s: State, s': State) {
    && s'.names == s.names && s'.inodes == s.inodes
    && (forall c :: c in s.calls ==> c in s'.calls && s'.calls[c].op == s.calls[c].op
                                     && (s'.calls[c].pc == s.calls[c].pc || s'.calls[c].pc == Killed))
    && (forall c :: c in s'.calls && c !in s.calls ==> s'.calls[c].pc == Enter)
    && (forall i :: i in s'.flocks ==> i in s.flocks && s'.flocks[i] == s.flocks[i])
    && (forall i :: i in s'.flocks && s.flocks[i] in s.calls ==> s'.calls[s.flocks[i]].pc == s.calls[s.flocks[i]].pc)
    && (forall i :: i in s.flocks && s.flocks[i] in s.calls && s'.calls[s.flocks[i]].pc == Lk(Holding(i)) ==>
          i in s'.flocks)
  }

  lemma EventCalls(s: State, event: Event)
    requires LooseEnabled(s, event)
    ensures Around(s, LooseApply(s, event)) || (event.Go? && CallStep(s, LooseApply(s, event), event.call))
  {
    if event.Go? { GoCalls(s, event.call, event.choice); }
  }

  // -------------------------------------------------------------------- invariant

  /** A file under preparation is known, has no name yet and is one writer's. */
  predicate PrepOk(s: State, c: CallId)
    requires c in s.calls
  {
    var i := PrepIno(s.calls[c].pc);
    i.Some? ==>
      && i.value in s.inodes && (forall n :: n in s.names ==> s.names[n] != i.value)
      && (forall d :: d in s.calls && d != c ==> PrepIno(s.calls[d].pc) != i)
  }

  predicate LockOk(s: State) {
    && (forall i :: i in s.flocks ==> s.flocks[i] in s.calls && s.calls[s.flocks[i]].pc == Lk(Holding(i)))
    && (forall c :: c in s.calls && HoldsLock(s.calls[c].pc) ==>
          s.calls[c].pc.l.ino in s.flocks && s.flocks[s.calls[c].pc.l.ino] == c)
  }

  predicate NamesOk(s: State) { forall n :: n in s.names ==> s.names[n] in s.inodes }

  predicate PrepsOk(s: State) { forall c :: c in s.calls ==> PrepOk(s, c) }

  predicate LooseInv(s: State) { NamesOk(s) && PrepsOk(s) && LockOk(s) }

  lemma LocksStay(s: State, s': State, c: CallId)
    requires LockOk(s) && OneCall(s, s', c) && LocksStep(s, s', c)
    ensures LockOk(s')
  {
    forall i | i in s'.flocks ensures s'.flocks[i] in s'.calls && s'.calls[s'.flocks[i]].pc == Lk(Holding(i)) {
      if i in s.flocks { assert s.calls[s.flocks[i]].pc == Lk(Holding(i)); }
    }
    forall d | d in s'.calls && HoldsLock(s'.calls[d].pc)
      ensures s'.calls[d].pc.l.ino in s'.flocks && s'.flocks[s'.calls[d].pc.l.ino] == d
    {
      assert d != c ==> s'.calls[d] == s.calls[d];
    }
  }

  lemma NamesStay(s: State, s': State, c: CallId)
    requires NamesOk(s) && PrepsOk(s) && CallStep(s, s', c)
    ensures NamesOk(s')
  {
    if Commits(s, s', c) { assert PrepOk(s, c) && PrepIno(s.calls[c].pc) == Some(s.calls[c].pc.w.ino); }
  }

  lemma PrepStays(s: State, s': State, c: CallId, d: CallId)
    requires NamesOk(s) && PrepsOk(s) && CallStep(s, s', c) && d in s'.calls
    ensures PrepOk(s', d)
  {
    assert PrepOk(s, d) && PrepOk(s, c);
    if Commits(s, s', c) { assert PrepIno(s.calls[c].pc) == Some(s.calls[c].pc.w.ino); }
  }

  lemma CallStepKeeps(s: State, s': State, c: CallId)
    requires LooseInv(s) && CallStep(s, s', c)
    ensures LooseInv(s')
  {
    NamesStay(s, s', c);
    forall d | d in s'.calls ensures PrepOk(s', d) { PrepStays(s, s', c, d); }
    LocksStay(s, s', c);
  }

  lemma AroundKeeps(s: State, s': State)
    requires LooseInv(s) && Around(s, s')
    ensures LooseInv(s')
  {
    forall c | c in s'.calls ensures PrepOk(s', c) { if c in s.calls { assert PrepOk(s, c); } }
    AroundLocks(s, s');
  }

  lemma AroundLocks(s: State, s': State)
    requires LockOk(s) && Around(s, s')
    ensures LockOk(s')
  {
    forall i | i in s'.flocks ensures s'.flocks[i] in s'.calls && s'.calls[s'.flocks[i]].pc == Lk(Holding(i)) {
      assert s.calls[s.flocks[i]].pc == Lk(Holding(i));
    }
    forall c | c in s'.calls && HoldsLock(s'.calls[c].pc)
      ensures s'.calls[c].pc.l.ino in s'.flocks && s'.flocks[s'.calls[c].pc.l.ino] == c
    {
      assert c in s.calls && s'.calls[c].pc == s.calls[c].pc;
    }
  }

  /** A step of a loose run: something around, or one call's step. */
  lemma StepKind(run: seq<State>, k: nat) returns (c: Option<CallId>)
    requires LooseRun(run) && k + 1 < |run|
    ensures if c.Some? then CallStep(run[k], run[k + 1], c.value) else Around(run[k], run[k + 1])
  {
    assert LooseStepAt(run, k);
    var event :| LooseEnabled(run[k], event) && run[k + 1] == LooseApply(run[k], event);
    EventCalls(run[k], event);
    c := if Around(run[k], run[k + 1]) then None else Some(event.call);
  }

  lemma {:induction false} RunLooseInv(run: seq<State>, k: nat)
    requires LooseRun(run) && k < |run|
    ensures LooseInv(run[k])
  {
    if k > 0 {
      RunLooseInv(run, k - 1);
      var c := StepKind(run, k - 1);
      if c.Some? { CallStepKeeps(run[k - 1], run[k], c.value); } else { AroundKeeps(run[k - 1], run[k]); }
    }
  }

  // ------------------------------------------------------------------ names that move

  /** A write to `n` commits between these two states. */
  ghost predicate Writes(s: State, s': State, n: string) { exists w :: CommitsTo(s, s', w, n) }

  /** A write to `n` commits in step `k`. */
  ghost predicate CommitAt(run: seq<State>, k: nat, n: string)
    requires k + 1 < |run|
  {
    Writes(run[k], run[k + 1], n)
  }

  /** A write to `n` commits in one of the steps from `from` up to state `k`. */
  ghost predicate WrittenBetween(run: seq<State>, from: nat, k: nat, n: string)
    requires k < |run|
  {
    exists r: nat :: from <= r < k && CommitAt(run, r, n)
  }

  /** A file that is known and that no writer is preparing. */
  predicate Past(s: State, i: Ino) {
    i in s.inodes && forall c :: c in s.calls ==> PrepIno(s.calls[c].pc) != Some(i)
  }

  lemma PastStays(run: seq<State>, k: nat, i: Ino)
    requires LooseRun(run) && k + 1 < |run| && Past(run[k], i)
    ensures Past(run[k + 1], i)
  {
    var c := StepKind(run, k);
  }

  /** In a step a bound name stays bound, and leads elsewhere only by a write's commit to a file under preparation. */
  lemma NameMoves(run: seq<State>, k: nat, n: string)
    requires LooseRun(run) && k + 1 < |run| && n in run[k].names
    ensures n in run[k + 1].names
    ensures !CommitAt(run, k, n) ==> run[k + 1].names[n] == run[k].names[n]
    ensures CommitAt(run, k, n) ==> !Past(run[k], run[k + 1].names[n])
  {
    var c := StepKind(run, k);
    var s, s' := run[k], run[k + 1];
    if w :| CommitsTo(s, s', w, n) {
      assert PrepIno(s.calls[w].pc) == Some(s'.names[n]);
    } else if c.Some? && Commits(run[k], run[k + 1], c.value) {
      assert CommitsTo(run[k], run[k + 1], c.value, run[k].calls[c.value].op.name);
    }
  }

  /** A name that led to `i` leads elsewhere exactly when a write to it has committed since; it never comes back. */
  lemma {:induction false} MovedIffWritten(run: seq<State>, from: nat, k: nat, n: string, i: Ino)
    requires LooseRun(run) && from <= k < |run| && n in run[from].names && run[from].names[n] == i
    ensures n in run[k].names && Past(run[k], i)
    ensures run[k].names[n] != i <==> WrittenBetween(run, from, k, n)
    decreases k
  {
    if from == k {
      RunLooseInv(run, k);
      forall c | c in run[k].calls ensures PrepIno(run[k].calls[c].pc) != Some(i) { assert PrepOk(run[k], c); }
    } else {
      MovedIffWritten(run, from, k - 1, n, i);
      PastStays(run, k - 1, i);
      NameMoves(run, k - 1, n);
      if CommitAt(run, k - 1, n) {
        assert WrittenBetween(run, from, k, n);
      } else if WrittenBetween(run, from, k - 1, n) {
        var r: nat :| from <= r < k - 1 && CommitAt(run, r, n);
        assert WrittenBetween(run, from, k, n);
      }
    }
  }

  // ----------------------------------------------------------------------- handles

  /** Call `c` opened its lock file in step `p` and has had it open up to state `k`. */
  ghost predicate OpenSince(run: seq<State>, p: nat, k: nat, c: CallId, i: Ino) {
    && p < k < |run| && c in run[p].calls && run[p].calls[c].pc == Lk(OpenLock)
    && c in run[p + 1].calls && run[p + 1].calls[c].op.name in run[p + 1].names
    && run[p + 1].names[run[p + 1].calls[c].op.name] == i
    && (forall j :: p < j <= k ==> c in run[j].calls && run[j].calls[c].op == run[p + 1].calls[c].op
                                   && LockIno(run[j].calls[c].pc) == Some(i))
  }

  lemma OpenStep(run: seq<State>, k: nat, c: CallId)
    requires LooseRun(run) && k + 1 < |run| && c in run[k + 1].calls && LockIno(run[k + 1].calls[c].pc).Some?
    ensures c in run[k].calls && run[k].calls[c].op == run[k + 1].calls[c].op
    ensures || LockIno(run[k].calls[c].pc) == LockIno(run[k + 1].calls[c].pc)
            || (run[k].calls[c].pc == Lk(OpenLock) && run[k].calls[c].op.name in run[k + 1].names
                && LockIno(run[k + 1].calls[c].pc) == Some(run[k + 1].names[run[k].calls[c].op.name]))
  {
    var d := StepKind(run, k);
  }

  lemma {:induction false} OpenedAt(run: seq<State>, k: nat, c: CallId) returns (p: nat)
    requires LooseRun(run) && k < |run| && c in run[k].calls && LockIno(run[k].calls[c].pc).Some?
    ensures OpenSince(run, p, k, c, LockIno(run[k].calls[c].pc).value)
  {
    if k == 0 { assert false; }
    OpenStep(run, k - 1, c);
    if LockIno(run[k - 1].calls[c].pc) == LockIno(run[k].calls[c].pc) {
      p := OpenedAt(run, k - 1, c);
    } else {
      p := k - 1;
    }
  }

  predicate Holder(s: State, c: CallId, n: string) {
    c in s.calls && s.calls[c].op == Lock(n) && HoldsLock(s.calls[c].pc)
  }

  /** A holder's lock is still the lock of the name exactly when no write to the name has committed since the
      holder opened it. */
  lemma LockIsCurrentIffUnwritten(run: seq<State>, k: nat, c: CallId, n: string) returns (p: nat)
    requires LooseRun(run) && k < |run| && Holder(run[k], c, n)
    ensures OpenSince(run, p, k, c, run[k].calls[c].pc.l.ino) && n in run[k].names
    ensures run[k].names[n] == run[k].calls[c].pc.l.ino <==> !WrittenBetween(run, p + 1, k, n)
  {
    p := OpenedAt(run, k, c);
    MovedIffWritten(run, p + 1, k, n, run[k].calls[c].pc.l.ino);
  }

  /** If two calls hold one lock name, a write to that name committed while one of them had it open and before
      the other opened it. */
  lemma TwoHoldersNeedAWrite(run: seq<State>, k: nat, c: CallId, d: CallId, n: string)
    returns (first: CallId, p: nat, q: nat)
    requires LooseRun(run) && k < |run| && c != d && Holder(run[k], c, n) && Holder(run[k], d, n)
    ensures first == c || first == d
    ensures OpenSince(run, p, k, first, run[k].calls[first].pc.l.ino)
    ensures var second := if first == c then d else c;
            p < q && OpenSince(run, q, k, second, run[k].calls[second].pc.l.ino)
    ensures WrittenBetween(run, p + 1, q + 1, n)
  {
    RunLooseInv(run, k);
    var a := OpenedAt(run, k, c);
    var b := OpenedAt(run, k, d);
    var i, j := run[k].calls[c].pc.l.ino, run[k].calls[d].pc.l.ino;
    assert i != j;
    if a < b {
      first, p, q := c, a, b;
      MovedIffWritten(run, a + 1, b + 1, n, i);
    } else {
      first, p, q := d, b, a;
      MovedIffWritten(run, b + 1, a + 1, n, j);
    }
  }

  /** Beside a holder, an attempt on the name comes away with `Busy` as long as no write to the name has committed
      since the holder opened it; once one has, it gets the lock unless a later attempt got it first. */
  lemma AttemptBesideHolder(run: seq<State>, k: nat, c: CallId, e: CallId, pid: Pid, n: string, x: Ino)
    returns (p: nat, events: seq<Event>)
    requires LooseRun(run) && k < |run| && Holder(run[k], c, n)
    requires Ready(run[k], pid, n) && e !in run[k].calls && x !in run[k].inodes
    ensures OpenSince(run, p, k, c, run[k].calls[c].pc.l.ino)
    ensures Leads(run[k], events, Attempted(run[k], e, pid, n))
    ensures !WrittenBetween(run, p + 1, k, n) ==> Attempted(run[k], e, pid, n).calls[e].pc == Leaving(Err(Busy))
    ensures WrittenBetween(run, p + 1, k, n) ==>
              (Holder(Attempted(run[k], e, pid, n), e, n) <==> run[k].names[n] !in run[k].flocks)
  {
    RunLooseInv(run, k);
    p := LockIsCurrentIffUnwritten(run, k, c, n);
    events := AttemptGetsIffUnlocked(run[k], e, pid, n, x);
  }
}
