/** What callers of the private directory may believe: one register per name, on which
    every call acts at most once, at one instant between its invocation and its return. */
module AtomicRegister {
  import opened Publication

  /** A name holds a private file, or something every call refuses with the same error. */
  datatype Cell = File(bytes: Bytes) | Refused(error: Error)
  datatype Outcome = Stored | Seen(bytes: Bytes) | Rejected(error: Error)
  datatype Phase = Asked | Acted(outcome: Outcome) | Answered(answer: Answer) | Gone
  datatype Caller = Caller(op: Op, phase: Phase)
  datatype Register = Register(cells: map<string, Cell>, callers: map<CallId, Caller>)

  /** The one atomic action of an operation. */
  function Perform(cells: map<string, Cell>, op: Op): (r: (map<string, Cell>, Outcome)) {
    match op
    case Write(name, payload, publish) => (
      var stored := (cells[name := File(payload)], Stored);
      if name !in cells then
        if publish == ReplaceExisting then (cells, Rejected(Missing)) else stored
      else if publish == CreateNew then (cells, Rejected(AlreadyExists))
      else match cells[name]
        case File(_) => stored
        case Refused(error) => (cells, Rejected(error)))
    case Read(name, _) =>
      if name !in cells then (cells, Rejected(Missing))
      else (match cells[name]
        case File(bytes) => (cells, Seen(bytes))
        case Refused(error) => (cells, Rejected(error)))
    case Lock(name) =>
      if name !in cells then (cells[name := File([])], Stored) else (cells, Stored)
  }

  /** The answers a call may give after its action, or without having acted. */
  predicate Allowed(op: Op, phase: Phase, answer: Answer) {
    match op
    case Write(_, _, _) => (
      match phase
      case Acted(Stored) => answer == Ok([]) || answer == Err(CommitUncertain)
      case Acted(Rejected(error)) => answer == Err(error) || answer == Err(Io)
      case Asked => answer.Err? && !RegisterError(answer)
      case _ => false)
    case Read(_, limit) => (
      match phase
      case Acted(Seen(bytes)) =>
        answer == Err(Io) || answer == if |bytes| <= limit then Ok(bytes) else Err(TooLarge)
      case Acted(Rejected(error)) => answer == Err(error) || answer == Err(Io)
      case Asked => answer.Err? && !RegisterError(answer)
      case _ => false)
    case Lock(_) =>
      (phase.Asked? || phase == Acted(Stored)) && !RegisterError(answer)
  }

  /** An answer that says something about what the name holds. */
  predicate RegisterError(answer: Answer) {
    answer == Err(Missing) || answer == Err(AlreadyExists) || answer == Err(CommitUncertain)
  }

  predicate Ask(a: Register, a': Register, c: CallId) {
    && c !in a.callers && c in a'.callers && a'.callers[c].phase == Asked
    && a' == a.(callers := a.callers[c := a'.callers[c]])
  }

  predicate Act(a: Register, a': Register, c: CallId) {
    && c in a.callers && a.callers[c].phase == Asked
    && var op := a.callers[c].op;
    && var (cells, outcome) := Perform(a.cells, op);
    && a' == Register(cells, a.callers[c := Caller(op, Acted(outcome))])
  }

  predicate Reply(a: Register, a': Register, c: CallId) {
    && c in a.callers && c in a'.callers && a'.callers[c].phase.Answered?
    && Allowed(a.callers[c].op, a.callers[c].phase, a'.callers[c].phase.answer)
    && a' == a.(callers := a.callers[c := Caller(a.callers[c].op, a'.callers[c].phase)])
  }

  /** Some calls die; what they have done stays done.  An answered call can only lose a lock handle. */
  predicate Crash(a: Register, a': Register) {
    && a'.cells == a.cells && a'.callers.Keys == a.callers.Keys
    && (forall c :: c in a.callers ==>
          || a'.callers[c] == a.callers[c]
          || (&& a'.callers[c] == Caller(a.callers[c].op, Gone)
              && (a.callers[c].phase.Answered? ==> a.callers[c].op.Lock?)))
  }

  ghost predicate Next(a: Register, a': Register) {
    || a' == a
    || Crash(a, a')
    || (exists c :: Ask(a, a', c))
    || (exists c :: Act(a, a', c))
    || (exists c :: Reply(a, a', c))
  }
}

/** Every run of the system-call protocol is a run of the atomic registers. */
module Refinement {
  import opened Publication
  import opened PublicationInvariant
  import opened PublicationSteps
  import opened AtomicRegister

  function CellOf(s: State, i: Ino): (cell: Cell)
    requires i in s.inodes
  {
    var failure := Failure(s, i);
    if failure.Some? then Refused(failure.value) else File(s.inodes[i].bytes)
  }

  function Cells(s: State): (cells: map<string, Cell>)
    requires Bindings(s)
  {
    map n | n in s.names :: CellOf(s, s.names[n])
  }

  predicate Ongoing(pc: Pc) {
    !pc.Done? && !pc.Killed? && !(pc.Lk? && pc.l.Holding?)
  }

  function EffectPhase(effect: Effect): (phase: Phase) {
    match effect
    case Waiting => Asked
    case Published(_) => Acted(Stored)
    case Got(bytes) => Acted(Seen(bytes))
    case Failed(error) => Acted(Rejected(error))
  }

  function PhaseOf(call: Call): (phase: Phase) {
    if Ongoing(call.pc) then EffectPhase(call.effect)
    else if call.pc.Killed? then Gone
    else Answered(if call.pc.Done? then call.pc.answer else Ok([]))
  }

  function Abs(s: State): (a: Register)
    requires Bindings(s)
  {
    Register(Cells(s), map c | c in s.calls :: Caller(s.calls[c].op, PhaseOf(s.calls[c])))
  }

  lemma CallersUpdate(s: State, s': State, c: CallId)
    requires Bindings(s) && Bindings(s') && c in s.calls && c in s'.calls && s'.calls == s.calls[c := s'.calls[c]]
    ensures Abs(s').callers == Abs(s).callers[c := Caller(s'.calls[c].op, PhaseOf(s'.calls[c]))]
  {}

  // -------------------------------------------- steps that leave the registers alone

  predicate LooksSame(a: Inode, b: Inode) {
    && b.kind == a.kind && b.uid == a.uid && b.mode == a.mode && (a.nlink <= 1 <==> b.nlink <= 1)
    && (Frozen(a) ==> b.bytes == a.bytes)
  }

  /** No name changes hands and no published file changes. */
  predicate SameCells(s: State, s': State) {
    && s'.names == s.names && s'.meta == s.meta
    && (forall i :: i in s.inodes ==> i in s'.inodes && LooksSame(s.inodes[i], s'.inodes[i]))
  }

  lemma CellsStay(s: State, s': State)
    requires FilesOk(s) && Bindings(s') && SameCells(s, s')
    ensures Cells(s') == Cells(s)
  {
    forall n | n in s.names ensures CellOf(s', s.names[n]) == CellOf(s, s.names[n]) {
      assert LooksSame(s.inodes[s.names[n]], s'.inodes[s.names[n]]);
    }
  }

  /** What an operation that changes nothing learns from the name it works on. */
  predicate Learns(s: State, op: Op, outcome: Outcome)
    requires Bindings(s)
  {
    match op
    case Write(name, _, publish) =>
      if name !in s.names then publish == ReplaceExisting && outcome == Rejected(Missing)
      else if publish == CreateNew then outcome == Rejected(AlreadyExists)
      else Failure(s, s.names[name]).Some? && outcome == Rejected(Failure(s, s.names[name]).value)
    case Read(name, _) =>
      if name !in s.names then outcome == Rejected(Missing)
      else if Failure(s, s.names[name]).None? then outcome == Seen(s.inodes[s.names[name]].bytes)
      else outcome == Rejected(Failure(s, s.names[name]).value)
    case Lock(_) => false
  }

  lemma LearnsPerforms(s: State, op: Op, outcome: Outcome)
    requires Bindings(s) && Learns(s, op, outcome)
    ensures Perform(Cells(s), op) == (Cells(s), outcome)
  {}

  /** One call moves and the registers stand still. */
  predicate Idle(s: State, s': State, c: CallId) {
    && c in s.calls && c in s'.calls && s'.calls == s.calls[c := s'.calls[c]]
    && s'.calls[c].op == s.calls[c].op
    && SameCells(s, s')
  }

  lemma StutterRefines(s: State, s': State, c: CallId)
    requires FilesOk(s) && Bindings(s') && Idle(s, s', c)
    requires PhaseOf(s'.calls[c]) == PhaseOf(s.calls[c])
    ensures Next(Abs(s), Abs(s'))
  {
    CellsStay(s, s');
    CallersUpdate(s, s', c);
    assert Abs(s').callers == Abs(s).callers;
  }

  lemma LearnRefines(s: State, s': State, c: CallId, outcome: Outcome)
    requires FilesOk(s) && Bindings(s') && Idle(s, s', c)
    requires PhaseOf(s.calls[c]) == Asked && PhaseOf(s'.calls[c]) == Acted(outcome)
    requires Learns(s, s.calls[c].op, outcome)
    ensures Next(Abs(s), Abs(s'))
  {
    CellsStay(s, s');
    CallersUpdate(s, s', c);
    LearnsPerforms(s, s.calls[c].op, outcome);
    assert Act(Abs(s), Abs(s'), c);
  }

  lemma ReplyRefines(s: State, s': State, c: CallId, answer: Answer)
    requires FilesOk(s) && Bindings(s') && Idle(s, s', c)
    requires PhaseOf(s'.calls[c]) == Answered(answer) && Allowed(s.calls[c].op, PhaseOf(s.calls[c]), answer)
    ensures Next(Abs(s), Abs(s'))
  {
    CellsStay(s, s');
    CallersUpdate(s, s', c);
    assert Reply(Abs(s), Abs(s'), c);
  }

  /** The step keeps the moving call's phase. */
  predicate Stutters(s: State, s': State, c: CallId) {
    Idle(s, s', c) && PhaseOf(s'.calls[c]) == PhaseOf(s.calls[c])
  }

  lemma CounterStutters(s: State, c: CallId, pc: Pc)
    requires c in s.calls && Ongoing(s.calls[c].pc) && Ongoing(pc)
    ensures Stutters(s, With(s, c, pc), c)
  {}

  lemma PreOpenRefines(s: State, s': State, c: CallId, fault: bool)
    requires FilesOk(s) && c in s.calls && s.calls[c].op.Write?
    requires s.calls[c].pc == Wr(PreOpen) && s.calls[c].effect == Waiting && s.calls[c].op.publish != CreateNew
    requires s' == PreOpenStep(s, c, fault) && Bindings(s')
    ensures Next(Abs(s), Abs(s'))
  {
    if s'.calls[c].effect == Waiting {
      StutterRefines(s, s', c);
    } else {
      LearnRefines(s, s', c, Rejected(s'.calls[c].effect.error));
    }
  }

  lemma OpenReadRefines(s: State, s': State, c: CallId, fault: bool)
    requires FilesOk(s) && c in s.calls && s.calls[c].op.Read?
    requires s.calls[c].pc == Rd(OpenRead) && s.calls[c].effect == Waiting
    requires s' == OpenReadStep(s, c, fault) && Bindings(s')
    ensures Next(Abs(s), Abs(s'))
  {
    match s'.calls[c].effect {
      case Waiting => StutterRefines(s, s', c);
      case Got(bytes) => LearnRefines(s, s', c, Seen(bytes));
      case Failed(error) => LearnRefines(s, s', c, Rejected(error));
    }
  }

  lemma TakeTicketStutters(s: State, c: CallId, tries: nat)
    requires Runnable(s, c) && s.calls[c].pc == Wr(TakeTicket(tries))
    ensures Stutters(s, TakeTicketStep(s, c, tries), c)
  {}

  lemma CreateTempStutters(s: State, c: CallId, tries: nat, serial: nat, choice: Choice)
    requires Runnable(s, c) && choice.newIno !in s.inodes && s.calls[c].pc == Wr(CreateTemp(tries, serial))
    ensures Stutters(s, CreateTempStep(s, c, tries, serial, choice), c)
  {
    var s' := CreateTempStep(s, c, tries, serial, choice);
    if choice.fault || Temp(s.calls[c].pid, serial) in s.temps { CounterStutters(s, c, s'.calls[c].pc); }
  }

  lemma WriteAllStutters(s: State, c: CallId, serial: nat, i: Ino, written: nat, choice: Choice)
    requires Runnable(s, c) && s.calls[c].op.Write? && s.calls[c].pc == Wr(WriteAll(serial, i, written))
    requires i in s.inodes && written < |s.calls[c].op.payload| && !Frozen(s.inodes[i])
    ensures Stutters(s, WriteAllStep(s, c, serial, i, written, choice), c)
  {}

  lemma SyncFileStutters(s: State, c: CallId, serial: nat, i: Ino, fault: bool)
    requires Runnable(s, c) && s.calls[c].pc == Wr(SyncFile(serial, i)) && i in s.inodes
    ensures Stutters(s, SyncFileStep(s, c, serial, i, fault), c)
  {}

  lemma SyncDirStutters(s: State, c: CallId, serial: nat, fault: bool)
    requires c in s.calls && s.calls[c].pc == Wr(SyncDir(serial))
    ensures Stutters(s, SyncDirStep(s, c, serial, fault), c)
  {}

  lemma UnlinkStutters(s: State, c: CallId, serial: nat, error: Error, fault: bool)
    requires Bindings(s) && c in s.calls && s.calls[c].pc == Wr(Unlink(serial, error))
    requires Temp(s.calls[c].pid, serial) in s.temps ==> s.inodes[s.temps[Temp(s.calls[c].pid, serial)]].nlink == 1
    ensures Stutters(s, UnlinkStep(s, c, serial, error, fault), c)
  {}

  lemma RenameFailsRefines(s: State, c: CallId, serial: nat, i: Ino, fault: bool)
    requires FilesOk(s) && Runnable(s, c) && s.calls[c].op.Write? && s.calls[c].pc == Wr(Rename(serial, i))
    requires s.calls[c].effect == Waiting
    requires fault || (s.calls[c].op.name in s.names && s.calls[c].op.publish == CreateNew)
    ensures Next(Abs(s), Abs(RenameStep(s, c, serial, i, fault)))
  {
    var s' := RenameStep(s, c, serial, i, fault);
    if fault { StutterRefines(s, s', c); } else { LearnRefines(s, s', c, Rejected(AlreadyExists)); }
  }

  lemma TryLockIdles(s: State, c: CallId, i: Ino, fault: bool)
    requires c in s.calls && s.calls[c].pc == Lk(TryLock(i))
    ensures var s' := TryLockStep(s, c, i, fault);
            && Idle(s, s', c)
            && PhaseOf(s'.calls[c]) == if fault || i in s.flocks then PhaseOf(s.calls[c]) else Answered(Ok([]))
  {}

  lemma LockAllowed(call: Call, answer: Answer)
    requires call.op.Lock? && (call.effect.Waiting? || call.effect.Published?) && Ongoing(call.pc) && answer.Ok?
    ensures Allowed(call.op, PhaseOf(call), answer)
  {}

  lemma TryLockRefines(s: State, s': State, c: CallId, i: Ino, fault: bool)
    requires FilesOk(s) && c in s.calls && s.calls[c].pc == Lk(TryLock(i)) && s.calls[c].op.Lock?
    requires s.calls[c].effect.Waiting? || s.calls[c].effect.Published?
    requires s' == TryLockStep(s, c, i, fault) && Bindings(s')
    ensures Next(Abs(s), Abs(s'))
  {
    TryLockIdles(s, c, i, fault);
    if fault || i in s.flocks {
      StutterRefines(s, s', c);
    } else {
      LockAllowed(s.calls[c], Ok([]));
      ReplyRefines(s, s', c, Ok([]));
    }
  }

  lemma LeavingAllowed(s: State, c: CallId, call: Call)
    requires CallOk(s, c, call) && call.pc.Leaving?
    ensures Allowed(call.op, PhaseOf(call), call.pc.answer)
  {}

  lemma LeavingRefines(s: State, c: CallId, answer: Answer)
    requires FilesOk(s) && c in s.calls && CallOk(s, c, s.calls[c]) && s.calls[c].pc == Leaving(answer)
    ensures Next(Abs(s), Abs(With(s, c, Done(answer))))
  {
    LeavingAllowed(s, c, s.calls[c]);
    ReplyRefines(s, With(s, c, Done(answer)), c, answer);
  }

  /** Writer steps other than the two that look at the name. */
  lemma WriterStutters(s: State, c: CallId, choice: Choice)
    requires CanGo(s, c, choice) && s.calls[c].pc.Wr? && CallOk(s, c, s.calls[c])
    requires !s.calls[c].pc.w.PreOpen? && !s.calls[c].pc.w.Rename?
    ensures Stutters(s, Advance(s, c, choice), c)
  {
    var fault := choice.fault;
    match s.calls[c].pc.w {
      case TakeTicket(tries) => TakeTicketStutters(s, c, tries);
      case CreateTemp(tries, serial) => CreateTempStutters(s, c, tries, serial, choice);
      case WriteAll(serial, i, written) => WriteAllStutters(s, c, serial, i, written, choice);
      case SyncFile(serial, i) => SyncFileStutters(s, c, serial, i, fault);
      case SyncDir(serial) => SyncDirStutters(s, c, serial, fault);
      case Unlink(serial, error) => UnlinkStutters(s, c, serial, error, fault);
      case PreDir => LookingStutters(s, c, choice);
      case PreStat(_) => LookingStutters(s, c, choice);
      case TempStat(_, _) => LookingStutters(s, c, choice);
    }
  }

  lemma LookingStutters(s: State, c: CallId, choice: Choice)
    requires CanGo(s, c, choice) && s.calls[c].pc.Wr?
    requires var w := s.calls[c].pc.w; w.PreDir? || w.PreStat? || w.TempStat?
    ensures Stutters(s, AdvanceWriter(s, c, s.calls[c].pc.w, choice), c)
  {
    CounterStutters(s, c, AdvanceWriter(s, c, s.calls[c].pc.w, choice).calls[c].pc);
  }

  // -------------------------------------------------- steps that write a register

  /** One name is put on a private file and every other name keeps its inode. */
  lemma CellsPut(s: State, s': State, name: string, i: Ino)
    requires Bindings(s) && Bindings(s') && s'.names == s.names[name := i] && s'.meta == s.meta
    requires i in s'.inodes && Failure(s', i).None?
    requires forall n :: n in s.names && n != name ==>
               s.names[n] in s'.inodes && s'.inodes[s.names[n]] == s.inodes[s.names[n]]
    ensures Cells(s') == Cells(s)[name := File(s'.inodes[i].bytes)]
  {}

  /** The rename is where a write happens. */
  lemma RenameCells(s: State, s': State, c: CallId, serial: nat, i: Ino)
    requires FilesOk(s) && Renames(s, c, serial, i)
    requires s' == RenameStep(s, c, serial, i, false) && Bindings(s')
    ensures Cells(s') == Cells(s)[s.calls[c].op.name := File(s.inodes[i].bytes)]
  {
    assert MadeOk(s, i);
    OwnTempIsUnnamed(s, c, serial, i);
    if s.calls[c].op.name in s.names { ReplacedIsUnnamed(s, c, serial, i); }
    CellsPut(s, s', s.calls[c].op.name, i);
  }

  lemma WritePerforms(s: State, op: Op)
    requires Bindings(s) && op.Write? && TargetReady(s, op) && (op.publish == CreateNew ==> op.name !in s.names)
    ensures Perform(Cells(s), op) == (Cells(s)[op.name := File(op.payload)], Stored)
  {
    if op.name in s.names { assert CellOf(s, s.names[op.name]).File?; }
  }

  lemma RenameActs(s: State, s': State, c: CallId, serial: nat, i: Ino)
    requires FilesOk(s) && Renames(s, c, serial, i) && WriterOk(s, c, s.calls[c], Rename(serial, i))
    requires s' == RenameStep(s, c, serial, i, false) && Bindings(s')
    ensures Act(Abs(s), Abs(s'), c)
  {
    RenameCells(s, s', c, serial, i);
    CallersUpdate(s, s', c);
    RenamePhases(s, s', c, serial, i);
    RenamePerforms(s, c, serial, i);
    ActOf(Abs(s), Abs(s'), c, Stored);
  }

  lemma RenamePerforms(s: State, c: CallId, serial: nat, i: Ino)
    requires Renames(s, c, serial, i) && WriterOk(s, c, s.calls[c], Rename(serial, i))
    ensures var op := s.calls[c].op; Perform(Cells(s), op) == (Cells(s)[op.name := File(op.payload)], Stored)
  {
    WritePerforms(s, s.calls[c].op);
  }

  lemma RenamePhases(s: State, s': State, c: CallId, serial: nat, i: Ino)
    requires Renames(s, c, serial, i) && WriterOk(s, c, s.calls[c], Rename(serial, i))
    requires s' == RenameStep(s, c, serial, i, false)
    ensures c in s'.calls && s'.calls[c].op == s.calls[c].op && PhaseOf(s.calls[c]) == Asked
    ensures PhaseOf(s'.calls[c]) == Acted(Stored) && s.inodes[i].bytes == s.calls[c].op.payload
  {
    assert s'.calls == WithEffect(s, c, Wr(SyncDir(serial)), Published(|s.log|)).calls;
  }

  lemma ActOf(a: Register, a': Register, c: CallId, outcome: Outcome)
    requires c in a.callers && a.callers[c].phase == Asked
    requires Perform(a.cells, a.callers[c].op) == (a'.cells, outcome)
    requires a'.callers == a.callers[c := Caller(a.callers[c].op, Acted(outcome))]
    ensures Act(a, a', c)
  {}

  lemma LockActs(s: State, s': State, c: CallId, choice: Choice)
    requires CreatesLock(s, c, choice) && CallOk(s, c, s.calls[c])
    requires s' == OpenLockStep(s, c, choice) && Bindings(s')
    ensures Act(Abs(s), Abs(s'), c)
  {
    CellsPut(s, s', s.calls[c].op.name, choice.newIno);
    CallersUpdate(s, s', c);
  }

  // ------------------------------------------------------------------ events

  lemma WriterRefines(s: State, s': State, c: CallId, choice: Choice)
    requires FilesOk(s) && CanGo(s, c, choice) && CallOk(s, c, s.calls[c]) && s.calls[c].pc.Wr?
    requires s' == AdvanceWriter(s, c, s.calls[c].pc.w, choice) && Bindings(s')
    ensures Next(Abs(s), Abs(s'))
  {
    var w := s.calls[c].pc.w;
    if w.PreOpen? {
      PreOpenRefines(s, s', c, choice.fault);
    } else if !w.Rename? {
      WriterStutters(s, c, choice);
      StutterRefines(s, s', c);
    } else if choice.fault || (s.calls[c].op.name in s.names && s.calls[c].op.publish == CreateNew) {
      RenameFailsRefines(s, c, w.serial, w.ino, choice.fault);
    } else {
      RenameActs(s, s', c, w.serial, w.ino);
    }
  }

  lemma ReaderStutters(s: State, c: CallId, choice: Choice)
    requires CanGo(s, c, choice) && s.calls[c].pc.Rd? && !s.calls[c].pc.r.OpenRead?
    ensures Stutters(s, AdvanceReader(s, c, s.calls[c].pc.r, choice), c)
  {
    var r := s.calls[c].pc.r;
    var s' := AdvanceReader(s, c, r, choice);
    assert s' == With(s, c, s'.calls[c].pc) by {
      if r.ReadChunk? { assert s' == ReadChunkStep(s, c, r.ino, r.buffer, choice); }
    }
    CounterStutters(s, c, s'.calls[c].pc);
  }

  lemma ReaderRefines(s: State, s': State, c: CallId, choice: Choice)
    requires FilesOk(s) && CanGo(s, c, choice) && CallOk(s, c, s.calls[c]) && s.calls[c].pc.Rd?
    requires s' == AdvanceReader(s, c, s.calls[c].pc.r, choice) && Bindings(s')
    ensures Next(Abs(s), Abs(s'))
  {
    if s.calls[c].pc.r.OpenRead? {
      OpenReadRefines(s, s', c, choice.fault);
    } else {
      ReaderStutters(s, c, choice);
      StutterRefines(s, s', c);
    }
  }

  lemma LockerStutters(s: State, c: CallId, choice: Choice)
    requires CanGo(s, c, choice) && s.calls[c].pc.Lk? && !s.calls[c].pc.l.TryLock? && !CreatesLock(s, c, choice)
    ensures Stutters(s, AdvanceLocker(s, c, s.calls[c].pc.l, choice), c)
  {
    if !s.calls[c].pc.l.Holding? { CounterStutters(s, c, AdvanceLocker(s, c, s.calls[c].pc.l, choice).calls[c].pc); }
  }

  lemma LockerRefines(s: State, s': State, c: CallId, choice: Choice)
    requires FilesOk(s) && CanGo(s, c, choice) && CallOk(s, c, s.calls[c]) && s.calls[c].pc.Lk?
    requires s' == AdvanceLocker(s, c, s.calls[c].pc.l, choice) && Bindings(s')
    ensures Next(Abs(s), Abs(s'))
  {
    if CreatesLock(s, c, choice) {
      LockActs(s, s', c, choice);
    } else if s.calls[c].pc.l.TryLock? {
      TryLockRefines(s, s', c, s.calls[c].pc.l.ino, choice.fault);
    } else {
      LockerStutters(s, c, choice);
      StutterRefines(s, s', c);
    }
  }

  lemma StartStutters(s: State, c: CallId, choice: Choice)
    requires CanGo(s, c, choice) && (s.calls[c].pc.Enter? || s.calls[c].pc.CheckDir?)
    ensures Stutters(s, Advance(s, c, choice), c)
  {
    CounterStutters(s, c, Advance(s, c, choice).calls[c].pc);
  }

  lemma GoRefines(s: State, s': State, c: CallId, choice: Choice)
    requires FilesOk(s) && CanGo(s, c, choice) && CallOk(s, c, s.calls[c])
    requires s' == Advance(s, c, choice) && Bindings(s')
    ensures Next(Abs(s), Abs(s'))
  {
    if s.calls[c].pc.Wr? {
      WriterRefines(s, s', c, choice);
    } else if s.calls[c].pc.Rd? {
      ReaderRefines(s, s', c, choice);
    } else if s.calls[c].pc.Lk? {
      LockerRefines(s, s', c, choice);
    } else if s.calls[c].pc.Leaving? {
      LeavingRefines(s, c, s.calls[c].pc.answer);
    } else {
      StartStutters(s, c, choice);
      StutterRefines(s, s', c);
    }
  }

  lemma KillRefines(s: State, pid: Pid)
    requires FilesOk(s)
    requires forall c :: c in s.calls && s.calls[c].pc.Lk? ==> s.calls[c].op.Lock?
    ensures Next(Abs(s), Abs(KillStep(s, pid)))
  {
    var s' := KillStep(s, pid);
    CellsStay(s, s');
    assert Crash(Abs(s), Abs(s'));
  }

  lemma InvokeRefines(s: State, s': State, c: CallId, pid: Pid, op: Op)
    requires FilesOk(s) && Enabled(s, Invoke(c, pid, op))
    requires s' == Apply(s, Invoke(c, pid, op)) && Bindings(s')
    ensures Next(Abs(s), Abs(s'))
  {
    CellsStay(s, s');
    CallersGrow(s, s', c);
    assert Ask(Abs(s), Abs(s'), c);
  }

  lemma CallersGrow(s: State, s': State, c: CallId)
    requires Bindings(s) && Bindings(s') && c !in s.calls && c in s'.calls && s'.calls == s.calls[c := s'.calls[c]]
    ensures Abs(s').callers == Abs(s).callers[c := Caller(s'.calls[c].op, PhaseOf(s'.calls[c]))]
  {}

  lemma EventRefines(s: State, s': State, event: Event)
    requires FilesOk(s) && Enabled(s, event) && s' == Apply(s, event) && Bindings(s')
    requires event.Go? ==> CallOk(s, event.call, s.calls[event.call])
    requires forall c :: c in s.calls && s.calls[c].pc.Lk? ==> s.calls[c].op.Lock?
    ensures Next(Abs(s), Abs(s'))
  {
    match event {
      case Spawn(_, _, _) => CellsStay(s, s');
      case Kill(pid) => KillRefines(s, pid);
      case Invoke(c, pid, op) => InvokeRefines(s, s', c, pid, op);
      case Go(c, choice) => GoRefines(s, s', c, choice);
      case Interrupt(_) =>
    }
  }

  lemma RunBindings(run: seq<State>, k: nat)
    requires Run(run) && k < |run|
    ensures Bindings(run[k])
  {
    RunInv(run, k);
  }

  /** The event of a step, with what its refinement needs. */
  lemma RefinedEvent(run: seq<State>, k: nat) returns (event: Event)
    requires Run(run) && k + 1 < |run|
    ensures FilesOk(run[k]) && Enabled(run[k], event) && run[k + 1] == Apply(run[k], event)
    ensures event.Go? ==> CallOk(run[k], event.call, run[k].calls[event.call])
    ensures forall c :: c in run[k].calls && run[k].calls[c].pc.Lk? ==> run[k].calls[c].op.Lock?
  {
    var s := run[k];
    event := RunEvent(run, k);
    forall c | c in s.calls && s.calls[c].pc.Lk? ensures s.calls[c].op.Lock? { assert CallOk(s, c, s.calls[c]); }
  }

  lemma RunStepRefines(run: seq<State>, k: nat)
    requires Run(run) && k + 1 < |run| && Bindings(run[k]) && Bindings(run[k + 1])
    ensures Next(Abs(run[k]), Abs(run[k + 1]))
  {
    var event := RefinedEvent(run, k);
    EventRefines(run[k], run[k + 1], event);
  }

  /** Any number of writers, readers and lockers, interleaved one system call at a time, with kills at
      any point and failures anywhere, behave as atomic registers: a write takes effect at its rename,
      a read at its open. */
  lemma RunsRefineAtomicRegisters(run: seq<State>, k: nat)
    requires Run(run) && k + 1 < |run|
    ensures Bindings(run[k]) && Bindings(run[k + 1]) && Next(Abs(run[k]), Abs(run[k + 1]))
  {
    RunBindings(run, k);
    RunBindings(run, k + 1);
    RunStepRefines(run, k);
  }
}
