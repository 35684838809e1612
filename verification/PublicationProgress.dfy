/** Every call of the publication protocol finishes within a bounded number of its own steps. */
module PublicationProgress {
  import opened Publication
  import opened PublicationInvariant
  import opened PublicationSteps
  import opened PublicationTheorems

  function WriterRank(payload: nat, w: WritePc): (rank: int) {
    match w
    case PreDir => 265 + payload
    case PreOpen => 264 + payload
    case PreStat(_) => 263 + payload
    case TakeTicket(tries) => 6 + payload + 2 * (TEMP_TRIES - tries)
    case CreateTemp(tries, _) => 5 + payload + 2 * (TEMP_TRIES - tries)
    case TempStat(_, _) => 6 + payload
    case WriteAll(_, _, written) => 5 + payload - written
    case SyncFile(_, _) => 5
    case Rename(_, _) => 4
    case SyncDir(_) => 3
    case Unlink(_, _) => 2
  }

  function ReaderRank(limit: nat, r: ReadPc): (rank: int) {
    match r
    case OpenRead => 6 + limit
    case ReadStat(_) => 5 + limit
    case ReadLen(_) => 4 + limit
    case ReadChunk(_, buffer) => 3 + limit - |buffer|
  }

  function LockerRank(l: LockPc): (rank: int) {
    match l
    case OpenLock => 4
    case LockStat(_) => 3
    case TryLock(_) => 2
    case Holding(_) => 1
  }

  function Size(op: Op): (n: nat) {
    match op
    case Write(_, payload, _) => |payload|
    case Read(_, limit) => limit
    case Lock(_) => 0
  }

  /** How many steps of its own a call has left at most. */
  function Rank(op: Op, pc: Pc): (rank: int) {
    match pc
    case Enter => 267 + Size(op)
    case CheckDir => 266 + Size(op)
    case Wr(w) => WriterRank(Size(op), w)
    case Rd(r) => ReaderRank(Size(op), r)
    case Lk(l) => LockerRank(l)
    case Leaving(_) => 1
    case Done(_) => 0
    case Killed => 0
  }

  /** The call has moved nearer to its return. */
  predicate Descends(s: State, s': State, c: CallId) {
    && c in s.calls && c in s'.calls && s'.calls[c].op == s.calls[c].op
    && 0 <= Rank(s.calls[c].op, s'.calls[c].pc) < Rank(s.calls[c].op, s.calls[c].pc)
  }

  lemma CounterDescends(s: State, c: CallId, pc: Pc)
    requires c in s.calls && 0 <= Rank(s.calls[c].op, pc) < Rank(s.calls[c].op, s.calls[c].pc)
    ensures Descends(s, With(s, c, pc), c)
  {}

  lemma CheckingDescends(s: State, c: CallId, w: WritePc, fault: bool)
    requires Runnable(s, c) && Bindings(s) && s.calls[c].pc == Wr(w) && s.calls[c].op.Write?
    ensures w == PreDir ==> Descends(s, CheckDirStep(s, c, fault, Wr(PreOpen)), c)
    ensures w == PreOpen ==> Descends(s, PreOpenStep(s, c, fault), c)
    ensures w.PreStat? && w.ino in s.inodes ==> Descends(s, StatStep(s, c, w.ino, fault, true, Wr(TakeTicket(0))), c)
  {}

  lemma TakeTicketDescends(s: State, c: CallId, tries: nat)
    requires Runnable(s, c) && s.calls[c].pc == Wr(TakeTicket(tries)) && tries < TEMP_TRIES
    ensures Descends(s, TakeTicketStep(s, c, tries), c)
  {}

  lemma CreateTempDescends(s: State, c: CallId, tries: nat, serial: nat, choice: Choice)
    requires Runnable(s, c) && s.calls[c].pc == Wr(CreateTemp(tries, serial)) && tries < TEMP_TRIES
    ensures Descends(s, CreateTempStep(s, c, tries, serial, choice), c)
  {
    if choice.fault {
      CounterDescends(s, c, Leaving(Err(Io)));
    } else if Temp(s.calls[c].pid, serial) in s.temps {
      CounterDescends(s, c, if tries + 1 < TEMP_TRIES then Wr(TakeTicket(tries + 1)) else Leaving(Err(Busy)));
    } else {
      CounterDescends(s, c, Wr(TempStat(serial, choice.newIno)));
    }
  }

  lemma FillingDescends(s: State, c: CallId, w: WritePc, choice: Choice)
    requires Runnable(s, c) && s.calls[c].pc == Wr(w) && s.calls[c].op.Write?
    requires w.TempStat? || w.WriteAll? || w.SyncFile?
    requires w.ino in s.inodes && (w.WriteAll? ==> w.written < |s.calls[c].op.payload|)
    ensures w.TempStat? ==> Descends(s, TempStatStep(s, c, w.serial, w.ino, choice.fault), c)
    ensures w.WriteAll? ==> Descends(s, WriteAllStep(s, c, w.serial, w.ino, w.written, choice), c)
    ensures w.SyncFile? ==> Descends(s, SyncFileStep(s, c, w.serial, w.ino, choice.fault), c)
  {}

  lemma RenameDescends(s: State, c: CallId, serial: nat, i: Ino, fault: bool)
    requires Runnable(s, c) && Bindings(s) && s.calls[c].pc == Wr(Rename(serial, i)) && s.calls[c].op.Write?
    ensures Descends(s, RenameStep(s, c, serial, i, fault), c)
  {
    RenameStops(s, c, serial, i, fault);
  }

  lemma RenameStops(s: State, c: CallId, serial: nat, i: Ino, fault: bool)
    requires Runnable(s, c) && Bindings(s) && s.calls[c].op.Write?
    ensures var s' := RenameStep(s, c, serial, i, fault);
            && c in s'.calls && s'.calls[c].op == s.calls[c].op
            && s'.calls[c].pc.Wr? && (s'.calls[c].pc.w.Unlink? || s'.calls[c].pc.w.SyncDir?)
  {
    var s' := RenameStep(s, c, serial, i, fault);
    var op := s.calls[c].op;
    if fault {
      assert s' == With(s, c, Wr(Unlink(serial, Io)));
    } else if op.publish == CreateNew && op.name in s.names {
      assert s' == WithEffect(s, c, Wr(Unlink(serial, AlreadyExists)), Failed(AlreadyExists));
    } else if op.name in s.names && s.inodes[s.names[op.name]].kind == Directory {
      assert s' == With(s, c, Wr(Unlink(serial, Io)));
    } else {
      assert s'.calls == WithEffect(s, c, Wr(SyncDir(serial)), Published(|s.log|)).calls;
    }
  }

  lemma SyncDirDescends(s: State, c: CallId, serial: nat, fault: bool)
    requires Runnable(s, c) && s.calls[c].pc == Wr(SyncDir(serial))
    ensures Descends(s, SyncDirStep(s, c, serial, fault), c)
  {}

  lemma UnlinkDescends(s: State, c: CallId, w: WritePc, fault: bool)
    requires Runnable(s, c) && Bindings(s) && s.calls[c].pc == Wr(w)
    ensures w.Unlink? ==> Descends(s, UnlinkStep(s, c, w.serial, w.error, fault), c)
  {}

  lemma WriterDescends(s: State, c: CallId, choice: Choice)
    requires CanGo(s, c, choice) && s.calls[c].pc.Wr? && CallOk(s, c, s.calls[c])
    ensures Descends(s, AdvanceWriter(s, c, s.calls[c].pc.w, choice), c)
  {
    var w := s.calls[c].pc.w;
    if w.TakeTicket? { TakeTicketDescends(s, c, w.tries); }
    else if w.CreateTemp? { CreateTempDescends(s, c, w.tries, w.serial, choice); }
    else if w.TempStat? || w.WriteAll? || w.SyncFile? { FillingDescends(s, c, w, choice); }
    else if w.Rename? { RenameDescends(s, c, w.serial, w.ino, choice.fault); }
    else if w.SyncDir? { SyncDirDescends(s, c, w.serial, choice.fault); }
    else if w.Unlink? { UnlinkDescends(s, c, w, choice.fault); }
    else { CheckingDescends(s, c, w, choice.fault); }
  }

  lemma OpenReadDescends(s: State, c: CallId, fault: bool)
    requires Runnable(s, c) && Bindings(s) && s.calls[c].pc == Rd(OpenRead) && s.calls[c].op.Read?
    ensures Descends(s, OpenReadStep(s, c, fault), c)
  {}

  lemma ReadChunkDescends(i: Ino, bytes: Bytes, op: Op, buffer: Bytes, choice: Choice)
    requires op.Read? && |buffer| <= |bytes| <= op.limit
    ensures 0 <= Rank(op, ReadChunkPc(i, bytes, op.limit, buffer, choice)) < Rank(op, Rd(ReadChunk(i, buffer)))
  {}

  lemma ReadingDescends(s: State, c: CallId, r: ReadPc, choice: Choice)
    requires Runnable(s, c) && s.calls[c].pc == Rd(r) && s.calls[c].op.Read? && !r.OpenRead? && r.ino in s.inodes
    requires r.ReadChunk? ==> |r.buffer| <= |s.inodes[r.ino].bytes| <= s.calls[c].op.limit
    ensures r.ReadStat? ==> Descends(s, StatStep(s, c, r.ino, choice.fault, true, Rd(ReadLen(r.ino))), c)
    ensures r.ReadLen? ==> Descends(s, ReadLenStep(s, c, r.ino, choice.fault), c)
    ensures r.ReadChunk? ==> Descends(s, ReadChunkStep(s, c, r.ino, r.buffer, choice), c)
  {
    if r.ReadChunk? { ReadChunkDescends(r.ino, s.inodes[r.ino].bytes, s.calls[c].op, r.buffer, choice); }
  }

  lemma ReaderDescends(s: State, c: CallId, choice: Choice)
    requires CanGo(s, c, choice) && s.calls[c].pc.Rd? && CallOk(s, c, s.calls[c])
    ensures Descends(s, AdvanceReader(s, c, s.calls[c].pc.r, choice), c)
  {
    var r := s.calls[c].pc.r;
    if r.OpenRead? { OpenReadDescends(s, c, choice.fault); }
    else { ReadingDescends(s, c, r, choice); }
  }

  lemma OpenLockDescends(s: State, c: CallId, choice: Choice)
    requires Runnable(s, c) && Bindings(s) && s.calls[c].pc == Lk(OpenLock) && s.calls[c].op.Lock?
    ensures Descends(s, OpenLockStep(s, c, choice), c)
  {}

  lemma LockingDescends(s: State, c: CallId, l: LockPc, fault: bool)
    requires Runnable(s, c) && s.calls[c].pc == Lk(l) && s.calls[c].op.Lock? && !l.OpenLock? && l.ino in s.inodes
    ensures l.LockStat? ==> Descends(s, StatStep(s, c, l.ino, fault, false, Lk(TryLock(l.ino))), c)
    ensures l.TryLock? ==> Descends(s, TryLockStep(s, c, l.ino, fault), c)
    ensures l.Holding? ==> Descends(s, DropHandleStep(s, c, l.ino), c)
  {
    match l {
      case LockStat(i) => CounterDescends(s, c, StatStep(s, c, i, fault, false, Lk(TryLock(i))).calls[c].pc);
      case TryLock(i) => TryLockDescends(s, c, i, fault);
      case Holding(i) => CounterDescends(s, c, Done(Ok([])));
    }
  }

  lemma TryLockDescends(s: State, c: CallId, i: Ino, fault: bool)
    requires c in s.calls && s.calls[c].pc == Lk(TryLock(i))
    ensures Descends(s, TryLockStep(s, c, i, fault), c)
  {
    if fault { CounterDescends(s, c, Leaving(Err(Io))); }
    else if i in s.flocks { CounterDescends(s, c, Leaving(Err(Busy))); }
    else { CounterDescends(s, c, Lk(Holding(i))); }
  }

  lemma LockerDescends(s: State, c: CallId, choice: Choice)
    requires CanGo(s, c, choice) && s.calls[c].pc.Lk?
    ensures Descends(s, AdvanceLocker(s, c, s.calls[c].pc.l, choice), c)
  {
    var l := s.calls[c].pc.l;
    if l.OpenLock? { OpenLockDescends(s, c, choice); } else { LockingDescends(s, c, l, choice.fault); }
  }

  lemma OuterDescends(s: State, c: CallId, choice: Choice)
    requires CanGo(s, c, choice) && !s.calls[c].pc.Wr? && !s.calls[c].pc.Rd? && !s.calls[c].pc.Lk?
    ensures Descends(s, Advance(s, c, choice), c)
  {
    match s.calls[c].pc {
      case Enter => EnterDescends(s, c);
      case CheckDir => CheckDirDescends(s, c, choice.fault);
      case Leaving(answer) => CounterDescends(s, c, Done(answer));
    }
  }

  lemma EnterDescends(s: State, c: CallId)
    requires c in s.calls && s.calls[c].pc == Enter
    ensures Descends(s, EnterStep(s, c), c)
  {
    CounterDescends(s, c, EnterStep(s, c).calls[c].pc);
  }

  lemma CheckDirDescends(s: State, c: CallId, fault: bool)
    requires Runnable(s, c) && s.calls[c].pc == CheckDir
    ensures Descends(s, CheckDirStep(s, c, fault, AfterCheckDir(s.calls[c].op)), c)
  {
    AfterCheckDirRank(s.calls[c].op);
    CounterDescends(s, c, CheckDirStep(s, c, fault, AfterCheckDir(s.calls[c].op)).calls[c].pc);
  }

  lemma AfterCheckDirRank(op: Op)
    ensures 1 < Rank(op, AfterCheckDir(op)) < Rank(op, CheckDir)
  {}

  /** Every step a call takes, failed or not, brings it nearer to its return. */
  lemma StepDescends(s: State, c: CallId, choice: Choice)
    requires CanGo(s, c, choice) && CallOk(s, c, s.calls[c])
    ensures Descends(s, Advance(s, c, choice), c)
  {
    if s.calls[c].pc.Wr? { WriterDescends(s, c, choice); }
    else if s.calls[c].pc.Rd? { ReaderDescends(s, c, choice); }
    else if s.calls[c].pc.Lk? { LockerDescends(s, c, choice); }
    else { OuterDescends(s, c, choice); }
  }

  lemma LiveHasSteps(s: State, c: CallId, call: Call)
    requires Live(call) && CallOk(s, c, call)
    ensures Rank(call.op, call.pc) >= 1
  {}

  /** The call stands still or is nearer to its end. */
  predicate NotBack(s: State, s': State, c: CallId) {
    c in s.calls && c in s'.calls && (s'.calls[c] == s.calls[c] || Descends(s, s', c))
  }

  lemma GoNotBack(s: State, d: CallId, choice: Choice, c: CallId)
    requires CanGo(s, d, choice) && CallOk(s, d, s.calls[d]) && s.durable <= |s.log| && c in s.calls
    ensures NotBack(s, Advance(s, d, choice), c)
  {
    if d == c { StepDescends(s, c, choice); } else { GoGrows(s, d, choice); }
  }

  lemma OtherNotBack(s: State, event: Event, c: CallId)
    requires Enabled(s, event) && !event.Go? && c in s.calls && CallOk(s, c, s.calls[c])
    ensures NotBack(s, Apply(s, event), c)
  {
    if Live(s.calls[c]) { LiveHasSteps(s, c, s.calls[c]); }
  }

  /** Whatever happens, no call ever moves back. */
  lemma EventNotBack(s: State, event: Event, c: CallId)
    requires Inv(s) && Enabled(s, event) && c in s.calls
    ensures NotBack(s, Apply(s, event), c)
  {
    assert CallOk(s, c, s.calls[c]);
    if event.Go? { GoNotBack(s, event.call, event.choice, c); } else { OtherNotBack(s, event, c); }
  }

  lemma StepRank(run: seq<State>, k: nat, c: CallId)
    requires Run(run) && k + 1 < |run| && c in run[k].calls
    ensures NotBack(run[k], run[k + 1], c)
  {
    var event := RunEvent(run, k);
    EventNotBack(run[k], event, c);
  }

  /** How often call `c` moves between two states of a run: its own steps, and being killed.  An interrupted
      system call that the standard library repeats moves nothing. */
  ghost function Moves(run: seq<State>, k: nat, m: nat, c: CallId): (n: nat)
    requires k <= m < |run|
    requires forall j :: k <= j <= m ==> c in run[j].calls
    decreases m
  {
    if k == m then 0
    else Moves(run, k, m - 1, c) + if run[m].calls[c] == run[m - 1].calls[c] then 0 else 1
  }

  lemma {:induction false} CallsRemain(run: seq<State>, k: nat, m: nat, c: CallId)
    requires Run(run) && k <= m < |run| && c in run[k].calls
    ensures forall j :: k <= j <= m ==> c in run[j].calls
    decreases m
  {
    if k < m {
      CallsRemain(run, k, m - 1, c);
      StepRank(run, m - 1, c);
    }
  }

  /** Whatever the other calls do, a call moves no more often than its rank says. */
  lemma {:induction false} MovesAreBounded(run: seq<State>, k: nat, m: nat, c: CallId)
    requires Run(run) && k <= m < |run| && c in run[k].calls
    ensures forall j :: k <= j <= m ==> c in run[j].calls
    ensures run[m].calls[c].op == run[k].calls[c].op
    ensures Moves(run, k, m, c) + Rank(run[m].calls[c].op, run[m].calls[c].pc) <=
              Rank(run[k].calls[c].op, run[k].calls[c].pc)
    decreases m
  {
    CallsRemain(run, k, m, c);
    if k < m {
      MovesAreBounded(run, k, m - 1, c);
      StepRank(run, m - 1, c);
    }
  }

  /** No call waits for another: 267 steps and one for each byte always end it, and until then it can step. */
  lemma CallsAreWaitFree(run: seq<State>, k: nat, m: nat, c: CallId)
    requires Run(run) && k <= m < |run| && c in run[k].calls && run[k].calls[c].pc == Enter
    ensures forall j :: k <= j <= m ==> c in run[j].calls
    ensures Moves(run, k, m, c) <= 267 + Size(run[k].calls[c].op)
    ensures Moves(run, k, m, c) == 267 + Size(run[k].calls[c].op) ==> !Live(run[m].calls[c])
    ensures Live(run[m].calls[c]) ==>
              forall choice: Choice :: choice.newIno !in run[m].inodes ==> CanGo(run[m], c, choice)
  {
    MovesAreBounded(run, k, m, c);
    RunInv(run, m);
    assert CallOk(run[m], c, run[m].calls[c]);
    if Live(run[m].calls[c]) {
      LiveHasSteps(run[m], c, run[m].calls[c]);
      NeverStuck(run[m], c);
    } else {
      NoRankLeft(run[m].calls[c]);
    }
  }

  lemma NoRankLeft(call: Call)
    requires !Live(call)
    ensures Rank(call.op, call.pc) == 0
  {}
}
