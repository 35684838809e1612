/** Which answer a call gives.

    The theorems above say what an answer means; this module says which one comes.  What the answer must be is
    written out here by the fields of files and directories and by literal numbers, apart from the checks that
    the protocol itself makes: `Verdict` is what a caller reads in the documentation. */
module PublicationAnswers {
  import opened Publication
  import opened PublicationInvariant
  import opened PublicationSteps
  import opened PublicationTheorems
  import opened Wrappers

  // --------------------------------------------------------- what the answer must be

  predicate BadName(name: string) { name == "" || name == "." || name == ".." || '/' in name }

  /** Names are single components, payloads have at most 16 MiB, limits lie between one byte and 16 MiB. */
  function ArgumentError(op: Op): (error: Option<Error>) {
    match op
    case Write(name, payload, _) =>
      if BadName(name) then Some(UnsafePath) else if |payload| > 16_777_216 then Some(TooLarge) else None
    case Read(name, limit) =>
      if limit < 1 || limit > 16_777_216 then Some(TooLarge) else if BadName(name) then Some(UnsafePath) else None
    case Lock(name) => if BadName(name) then Some(UnsafePath) else None
  }

  /** The directory is the user's own and nobody else's. */
  function DirError(meta: DirMeta, uid: nat): (error: Option<Error>) {
    if !meta.isDir then Some(UnsafePath)
    else if meta.uid == uid && meta.mode.special == 0 && meta.mode.group == 0 && meta.mode.other == 0 then None
    else Some(NotPrivate)
  }

  /** A regular file of the user, with no set-uid, set-gid or sticky bit and nothing for group and others. */
  predicate OwnersOnly(inode: Inode, uid: nat) {
    && inode.kind == Regular && inode.uid == uid
    && inode.mode.special == 0 && inode.mode.group == 0 && inode.mode.other == 0
  }

  /** What stands in the way of reading or replacing a file. */
  function FileError(inode: Inode, uid: nat): (error: Option<Error>) {
    if inode.kind == Symlink then Some(UnsafePath)
    else if inode.kind == Socket then Some(Io)
    else if OwnersOnly(inode, uid) && inode.nlink <= 1 then None
    else Some(NotPrivate)
  }

  /** What stands in the way of locking a file. */
  function LockError(inode: Inode, uid: nat): (error: Option<Error>) {
    if inode.kind == Symlink then Some(UnsafePath)
    else if inode.kind == Socket || inode.kind == Directory then Some(Io)
    else if OwnersOnly(inode, uid) && inode.nlink == 1 then None
    else Some(NotPrivate)
  }

  /** What a name holds. */
  datatype Look = Absent | Bound(ino: Ino, inode: Inode)

  function LookAt(s: State, name: string): (look: Look) {
    if name in s.names && s.names[name] in s.inodes then Bound(s.names[name], s.inodes[s.names[name]]) else Absent
  }

  function Unless(error: Option<Error>, good: Answer): (answer: Answer) {
    if error.Some? then Err(error.value) else good
  }

  /** The answer of a call to which nothing happens, from what its name holds when it looks. */
  function Verdict(op: Op, uid: nat, look: Look): (answer: Answer) {
    match op
    case Write(_, _, publish) => (
      match look
      case Absent => if publish == ReplaceExisting then Err(Missing) else Ok([])
      case Bound(_, inode) =>
        if publish == CreateNew then Err(AlreadyExists) else Unless(FileError(inode, uid), Ok([])))
    case Read(_, limit) => (
      match look
      case Absent => Err(Missing)
      case Bound(_, inode) =>
        Unless(FileError(inode, uid), if |inode.bytes| > limit then Err(TooLarge) else Ok(inode.bytes)))
    case Lock(_) => (
      match look
      case Absent => Ok([])
      case Bound(_, inode) => Unless(LockError(inode, uid), Ok([])))
  }

  // ------------------------------------------------------------ runs with their events

  ghost predicate EventAt(run: seq<State>, events: seq<Event>, k: nat)
    requires |run| == |events| + 1 && k < |events|
  {
    Enabled(run[k], events[k]) && run[k + 1] == Apply(run[k], events[k])
  }

  ghost predicate Happened(run: seq<State>, events: seq<Event>)
    requires |run| == |events| + 1
  {
    forall k: nat :: k < |events| ==> EventAt(run, events, k)
  }

  /** A run with the events that made it. */
  ghost predicate Labelled(run: seq<State>, events: seq<Event>) {
    |run| == |events| + 1 && Initial(run[0]) && Happened(run, events)
  }

  lemma EventSteps(run: seq<State>, events: seq<Event>, k: nat)
    requires |run| == |events| + 1 && k < |events| && EventAt(run, events, k)
    ensures StepAt(run, k)
  {}

  lemma LabelledSteps(run: seq<State>, events: seq<Event>)
    requires |run| == |events| + 1 && Happened(run, events)
    ensures Steps(run)
  {
    forall k: nat | k + 1 < |run| ensures StepAt(run, k) {
      assert EventAt(run, events, k);
      EventSteps(run, events, k);
    }
  }

  lemma LabelledIsRun(run: seq<State>, events: seq<Event>)
    requires Labelled(run, events)
    ensures Run(run)
  {
    LabelledSteps(run, events);
  }

  /** Event `j` is a step of call `c`. */
  predicate StepOf(events: seq<Event>, j: nat, c: CallId) {
    j < |events| && events[j].Go? && events[j].call == c
  }

  /** A system call of `c` has failed before state `k`. */
  ghost predicate Faulted(events: seq<Event>, k: nat, c: CallId) {
    exists j: nat :: j < k && StepOf(events, j, c) && events[j].choice.fault
  }

  /** Where a call looks at what its name holds: `CreateNew` at the rename, everyone else at the open. */
  predicate AtLook(call: Call) {
    match call.op
    case Write(_, _, publish) => if publish == CreateNew then call.pc.Wr?
        && call.pc.w.Rename? else call.pc == Wr(PreOpen)
    case Read(_, _) => call.pc == Rd(OpenRead)
    case Lock(_) => call.pc == Lk(OpenLock)
  }

  /** Call `c` looks in step `j`. */
  ghost predicate Looks(run: seq<State>, events: seq<Event>, j: nat, c: CallId) {
    && |run| == |events| + 1 && StepOf(events, j, c)
    && c in run[j].calls && AtLook(run[j].calls[c])
  }

  // ------------------------------------------------------------- following one call

  predicate Clear(call: Call, meta: DirMeta) {
    ArgumentError(call.op).None? && DirError(meta, call.euid).None?
  }

  /** A writer that has been let through. */
  predicate Granted(call: Call, look: Option<Look>)
    requires call.op.Write?
  {
    if call.op.publish == CreateNew then look.None?
    else look.Some? && Verdict(call.op, call.euid, look.value) == Ok([])
  }

  /** The open succeeded, and the file check will find what the look found. */
  predicate Awaits(call: Call, look: Option<Look>, good: Effect) {
    && look.Some? && look.value.Bound?
    && look.value.inode.kind != Symlink && look.value.inode.kind != Socket
    && call.effect == if FileError(look.value.inode, call.euid).None? then good else Failed(NotPrivate)
  }

  predicate WriterFits(call: Call, look: Option<Look>, f: bool, w: WritePc)
    requires call.op.Write?
  {
    match w
    case PreDir => look.None? && call.op.publish != CreateNew
    case PreOpen => look.None? && call.op.publish != CreateNew
    case PreStat(_) => call.op.publish != CreateNew && Awaits(call, look, Waiting)
    case TakeTicket(_) => Granted(call, look)
    case CreateTemp(_, _) => Granted(call, look)
    case TempStat(_, _) => Granted(call, look)
    case WriteAll(_, _, _) => Granted(call, look)
    case SyncFile(_, _) => Granted(call, look)
    case Rename(_, _) => Granted(call, look)
    case SyncDir(_) => look.Some? && Verdict(call.op, call.euid, look.value) == Ok([])
    case Unlink(_, error) =>
      || (f && error == Io)
      || (f && error == CommitUncertain)
      || (error == AlreadyExists && look.Some? && Verdict(call.op, call.euid, look.value) == Err(AlreadyExists))
  }

  predicate ReaderFits(call: Call, look: Option<Look>, r: ReadPc)
    requires call.op.Read?
  {
    match r
    case OpenRead => look.None?
    case ReadStat(_) => Awaits(call, look, if look.Some?
        && look.value.Bound? then Got(look.value.inode.bytes) else Waiting)
    case ReadLen(_) => ReadsOn(call, look)
    case ReadChunk(_, _) => ReadsOn(call, look)
  }

  predicate ReadsOn(call: Call, look: Option<Look>) {
    && look.Some? && look.value.Bound? && FileError(look.value.inode, call.euid).None?
    && call.effect == Got(look.value.inode.bytes)
  }

  predicate LockerFits(call: Call, look: Option<Look>, l: LockPc)
    requires call.op.Lock?
  {
    match l
    case OpenLock => look.None?
    case LockStat(i) =>
      && look.Some?
      && match look.value {
           case Absent => call.effect.Published?
           case Bound(ino, inode) =>
             ino == i && inode.kind != Symlink && inode.kind != Socket && inode.kind != Directory
         }
    case TryLock(_) => look.Some? && Verdict(call.op, call.euid, look.value) == Ok([])
    case Holding(_) => look.Some? && Verdict(call.op, call.euid, look.value) == Ok([])
  }

  /** An answer that comes only from a failed system call, or only where others are in the way. */
  predicate Excused(call: Call, look: Option<Look>, f: bool, answer: Answer) {
    || (f && answer == Err(Io))
    || (f && answer == Err(CommitUncertain) && call.op.Write?)
    || (answer == Err(Busy) && PassedLook(call, look))
  }

  predicate PassedLook(call: Call, look: Option<Look>) {
    match call.op
    case Write(_, _, _) => Granted(call, look)
    case Read(_, _) => false
    case Lock(_) => look.Some? && Verdict(call.op, call.euid, look.value) == Ok([])
  }

  predicate AnswerFits(call: Call, meta: DirMeta, look: Option<Look>, f: bool, answer: Answer) {
    if ArgumentError(call.op).Some? then answer == Err(ArgumentError(call.op).value)
    else if DirError(meta, call.euid).Some? then answer == Err(DirError(meta, call.euid).value) || (f
        && answer == Err(Io))
    else Excused(call, look, f, answer) || (look.Some? && answer == Verdict(call.op, call.euid, look.value))
  }

  /** Where the call stands agrees with its look, and with whether one of its system calls has failed. */
  predicate Fits(call: Call, meta: DirMeta, look: Option<Look>, f: bool) {
    && (call.leaked ==> f)
    && match call.pc {
         case Enter => look.None?
         case CheckDir => look.None? && ArgumentError(call.op).None?
         case Wr(w) => call.op.Write? && Clear(call, meta) && WriterFits(call, look, f, w)
         case Rd(r) => call.op.Read? && Clear(call, meta) && ReaderFits(call, look, r)
         case Lk(l) => call.op.Lock? && Clear(call, meta) && LockerFits(call, look, l)
         case Leaving(answer) => AnswerFits(call, meta, look, f, answer)
         case Done(answer) => AnswerFits(call, meta, look, f, answer)
         case Killed => true
       }
  }

  // ------------------------------------------- the protocol's own checks say the same

  lemma ArgumentsAgree(op: Op)
    ensures ArgumentFailure(op) == ArgumentError(op)
  {}

  lemma DirAgrees(meta: DirMeta, uid: nat)
    ensures CheckPrivateDir(meta, uid) == DirError(meta, uid)
  {}

  lemma FileAgrees(inode: Inode, uid: nat)
    ensures FileError(inode, uid) == if OpenFailure(inode.kind).Some? then OpenFailure(inode.kind)
                                     else if CheckFile(inode, uid, true) then None else Some(NotPrivate)
  {}

  lemma LockAgrees(inode: Inode, uid: nat)
    ensures LockError(inode, uid) == if LockOpenFailure(inode.kind).Some? then LockOpenFailure(inode.kind)
                                     else if CheckFile(inode, uid, false) then None else Some(NotPrivate)
  {}

  // ------------------------------------------------------------------- one step

  function NextLook(s: State, c: CallId, look: Option<Look>): (next: Option<Look>)
    requires c in s.calls
  {
    if AtLook(s.calls[c]) then Some(LookAt(s, s.calls[c].op.name)) else look
  }

  predicate FitsNext(s: State, s': State, c: CallId, look: Option<Look>, f: bool) {
    c in s.calls && c in s'.calls && Fits(s'.calls[c], s.meta, NextLook(s, c, look), f)
  }

  /** What is known before a step. */
  predicate FitsNow(s: State, c: CallId, look: Option<Look>, f: bool) {
    && Runnable(s, c) && Bindings(s) && CallOk(s, c, s.calls[c]) && Fits(s.calls[c], s.meta, look, f)
  }

  lemma CounterFits(s: State, c: CallId, pc: Pc, look: Option<Look>, f: bool)
    requires c in s.calls && Fits(s.calls[c].(pc := pc), s.meta, NextLook(s, c, look), f)
    ensures FitsNext(s, With(s, c, pc), c, look, f)
  {}

  lemma EnterFits(s: State, c: CallId, look: Option<Look>, f: bool, fault: bool)
    requires FitsNow(s, c, look, f) && s.calls[c].pc == Enter
    ensures FitsNext(s, EnterStep(s, c), c, look, f || fault)
  {
    ArgumentsAgree(s.calls[c].op);
    CounterFits(s, c, EnterStep(s, c).calls[c].pc, look, f || fault);
  }

  lemma CheckDirFits(s: State, c: CallId, fault: bool, look: Option<Look>, f: bool)
    requires FitsNow(s, c, look, f) && s.calls[c].pc == CheckDir
    ensures FitsNext(s, CheckDirStep(s, c, fault, AfterCheckDir(s.calls[c].op)), c, look, f || fault)
  {
    DirAgrees(s.meta, s.calls[c].euid);
    CounterFits(s, c, CheckDirStep(s, c, fault, AfterCheckDir(s.calls[c].op)).calls[c].pc, look, f || fault);
  }

  lemma PreDirFits(s: State, c: CallId, fault: bool, look: Option<Look>, f: bool)
    requires FitsNow(s, c, look, f) && s.calls[c].pc == Wr(PreDir)
    ensures FitsNext(s, CheckDirStep(s, c, fault, Wr(PreOpen)), c, look, f || fault)
  {
    DirAgrees(s.meta, s.calls[c].euid);
    CounterFits(s, c, CheckDirStep(s, c, fault, Wr(PreOpen)).calls[c].pc, look, f || fault);
  }

  lemma DirPassUid(s: State, call: Call)
    requires DirPass(s, call)
    ensures s.meta.uid == call.euid
  {}

  lemma PreOpenFits(s: State, c: CallId, fault: bool, look: Option<Look>, f: bool)
    requires FitsNow(s, c, look, f) && s.calls[c].pc == Wr(PreOpen)
    ensures FitsNext(s, PreOpenStep(s, c, fault), c, look, f || fault)
  {
    DirPassUid(s, s.calls[c]);
    var name := s.calls[c].op.name;
    if name in s.names { FileAgrees(s.inodes[s.names[name]], s.meta.uid); }
  }

  lemma PreStatFits(s: State, c: CallId, i: Ino, fault: bool, look: Option<Look>, f: bool)
    requires FitsNow(s, c, look, f) && s.calls[c].pc == Wr(PreStat(i)) && i in s.inodes
    ensures FitsNext(s, StatStep(s, c, i, fault, true, Wr(TakeTicket(0))), c, look, f || fault)
  {
    DirPassUid(s, s.calls[c]);
    CounterFits(s, c, StatStep(s, c, i, fault, true, Wr(TakeTicket(0))).calls[c].pc, look, f || fault);
  }

  lemma TakeTicketFits(s: State, c: CallId, tries: nat, look: Option<Look>, f: bool)
    requires FitsNow(s, c, look, f) && s.calls[c].pc == Wr(TakeTicket(tries))
    ensures FitsNext(s, TakeTicketStep(s, c, tries), c, look, f)
  {}

  lemma CreateTempFits(s: State, c: CallId, tries: nat, serial: nat, choice: Choice, look: Option<Look>, f: bool)
    requires FitsNow(s, c, look, f) && s.calls[c].pc == Wr(CreateTemp(tries, serial))
    ensures FitsNext(s, CreateTempStep(s, c, tries, serial, choice), c, look, f || choice.fault)
  {
    if choice.fault {
      CounterFits(s, c, Leaving(Err(Io)), look, true);
    } else if Temp(s.calls[c].pid, serial) in s.temps {
      CounterFits(s, c, if tries + 1 < TEMP_TRIES then Wr(TakeTicket(tries + 1)) else Leaving(Err(Busy)), look, f);
    } else {
      CounterFits(s, c, Wr(TempStat(serial, choice.newIno)), look, f);
    }
  }

  lemma TempStatFits(s: State, c: CallId, serial: nat, i: Ino, fault: bool, look: Option<Look>, f: bool)
    requires FitsNow(s, c, look, f) && s.calls[c].pc == Wr(TempStat(serial, i)) && i in s.inodes
    requires MadeOk(s, i)
    ensures FitsNext(s, TempStatStep(s, c, serial, i, fault), c, look, f || fault)
  {
    DirPassUid(s, s.calls[c]);
    CounterFits(s, c, TempStatStep(s, c, serial, i, fault).calls[c].pc, look, f || fault);
  }

  lemma WriteAllFits(s: State, c: CallId, serial: nat, i: Ino, written: nat, choice: Choice, look: Option<Look>,
      f: bool)
    requires FitsNow(s, c, look, f) && s.calls[c].pc == Wr(WriteAll(serial, i, written)) && i in s.inodes
    requires written < |s.calls[c].op.payload|
    ensures FitsNext(s, WriteAllStep(s, c, serial, i, written, choice), c, look, f || choice.fault)
  {
    var s' := WriteAllStep(s, c, serial, i, written, choice);
    assert s'.calls[c] == s.calls[c].(pc := s'.calls[c].pc);
  }

  lemma SyncFileFits(s: State, c: CallId, serial: nat, i: Ino, fault: bool, look: Option<Look>, f: bool)
    requires FitsNow(s, c, look, f) && s.calls[c].pc == Wr(SyncFile(serial, i)) && i in s.inodes
    ensures FitsNext(s, SyncFileStep(s, c, serial, i, fault), c, look, f || fault)
  {
    var s' := SyncFileStep(s, c, serial, i, fault);
    assert s'.calls[c] == s.calls[c].(pc := s'.calls[c].pc);
  }

  lemma RenameFits(s: State, c: CallId, serial: nat, i: Ino, fault: bool, look: Option<Look>, f: bool)
    requires FitsNow(s, c, look, f) && s.calls[c].pc == Wr(Rename(serial, i))
    ensures FitsNext(s, RenameStep(s, c, serial, i, fault), c, look, f || fault)
  {
    var s', call := RenameStep(s, c, serial, i, fault), s.calls[c];
    if fault {
      CounterFits(s, c, Wr(Unlink(serial, Io)), look, true);
    } else if call.op.publish == CreateNew && call.op.name in s.names {
      assert s' == WithEffect(s, c, Wr(Unlink(serial, AlreadyExists)), Failed(AlreadyExists));
    } else {
      assert s'.calls == WithEffect(s, c, Wr(SyncDir(serial)), Published(|s.log|)).calls;
    }
  }

  lemma SyncDirFits(s: State, c: CallId, serial: nat, fault: bool, look: Option<Look>, f: bool)
    requires FitsNow(s, c, look, f) && s.calls[c].pc == Wr(SyncDir(serial))
    ensures FitsNext(s, SyncDirStep(s, c, serial, fault), c, look, f || fault)
  {}

  lemma UnlinkFits(s: State, c: CallId, serial: nat, error: Error, fault: bool, look: Option<Look>, f: bool)
    requires FitsNow(s, c, look, f) && s.calls[c].pc == Wr(Unlink(serial, error))
    ensures FitsNext(s, UnlinkStep(s, c, serial, error, fault), c, look, f || fault)
  {
    var s' := UnlinkStep(s, c, serial, error, fault);
    assert s'.calls[c].pc == Leaving(Err(error)) && (s'.calls[c].leaked ==> s.calls[c].leaked || fault);
  }

  lemma EarlyFitsNext(s: State, c: CallId, choice: Choice, look: Option<Look>, f: bool)
    requires CanGo(s, c, choice) && FilesOk(s) && FitsNow(s, c, look, f) && s.calls[c].pc.Wr?
    requires var w := s.calls[c].pc.w; w.PreDir? || w.PreOpen? || w.PreStat? || w.TakeTicket? || w.CreateTemp?
    ensures FitsNext(s, AdvanceWriter(s, c, s.calls[c].pc.w, choice), c, look, f || choice.fault)
  {
    var w, fault := s.calls[c].pc.w, choice.fault;
    if w.PreDir? { PreDirFits(s, c, fault, look, f); }
    else if w.PreOpen? { PreOpenFits(s, c, fault, look, f); }
    else if w.PreStat? { PreStatFits(s, c, w.ino, fault, look, f); }
    else if w.CreateTemp? { CreateTempFits(s, c, w.tries, w.serial, choice, look, f); }
    else {
      FitsMore(s, c, look, f, fault);
      TakeTicketFits(s, c, w.tries, look, f || fault);
    }
  }

  lemma LateFitsNext(s: State, c: CallId, choice: Choice, look: Option<Look>, f: bool)
    requires CanGo(s, c, choice) && FilesOk(s) && FitsNow(s, c, look, f) && s.calls[c].pc.Wr?
    requires var w := s.calls[c].pc.w; w.TempStat? || w.WriteAll? || w.SyncFile? || w.Rename? || w.SyncDir? || w.Unlink?
    ensures FitsNext(s, AdvanceWriter(s, c, s.calls[c].pc.w, choice), c, look, f || choice.fault)
  {
    var w, fault := s.calls[c].pc.w, choice.fault;
    if w.TempStat? {
      assert MadeOk(s, w.ino);
      TempStatFits(s, c, w.serial, w.ino, fault, look, f);
    }
    else if w.WriteAll? { WriteAllFits(s, c, w.serial, w.ino, w.written, choice, look, f); }
    else if w.SyncFile? { SyncFileFits(s, c, w.serial, w.ino, fault, look, f); }
    else if w.Rename? { RenameFits(s, c, w.serial, w.ino, fault, look, f); }
    else if w.SyncDir? { SyncDirFits(s, c, w.serial, fault, look, f); }
    else { UnlinkFits(s, c, w.serial, w.error, fault, look, f); }
  }

  lemma WriterFitsNext(s: State, c: CallId, choice: Choice, look: Option<Look>, f: bool)
    requires CanGo(s, c, choice) && FilesOk(s) && FitsNow(s, c, look, f) && s.calls[c].pc.Wr?
    ensures FitsNext(s, AdvanceWriter(s, c, s.calls[c].pc.w, choice), c, look, f || choice.fault)
  {
    var w := s.calls[c].pc.w;
    if w.PreDir? || w.PreOpen? || w.PreStat? || w.TakeTicket? || w.CreateTemp? { EarlyFitsNext(s, c, choice, look, f); }
    else { LateFitsNext(s, c, choice, look, f); }
  }

  lemma FitsMore(s: State, c: CallId, look: Option<Look>, f: bool, g: bool)
    requires FitsNow(s, c, look, f)
    ensures FitsNow(s, c, look, f || g)
  {}

  lemma OpenReadFits(s: State, c: CallId, fault: bool, look: Option<Look>, f: bool)
    requires FitsNow(s, c, look, f) && s.calls[c].pc == Rd(OpenRead)
    ensures FitsNext(s, OpenReadStep(s, c, fault), c, look, f || fault)
  {
    DirPassUid(s, s.calls[c]);
    var name := s.calls[c].op.name;
    if name in s.names { FileAgrees(s.inodes[s.names[name]], s.meta.uid); }
  }

  lemma ReadStatFits(s: State, c: CallId, i: Ino, fault: bool, look: Option<Look>, f: bool)
    requires FitsNow(s, c, look, f) && s.calls[c].pc == Rd(ReadStat(i)) && i in s.inodes
    ensures FitsNext(s, StatStep(s, c, i, fault, true, Rd(ReadLen(i))), c, look, f || fault)
  {
    DirPassUid(s, s.calls[c]);
    CounterFits(s, c, StatStep(s, c, i, fault, true, Rd(ReadLen(i))).calls[c].pc, look, f || fault);
  }

  lemma ReadLenFits(s: State, c: CallId, i: Ino, fault: bool, look: Option<Look>, f: bool)
    requires FitsNow(s, c, look, f) && s.calls[c].pc == Rd(ReadLen(i)) && i in s.inodes
    ensures FitsNext(s, ReadLenStep(s, c, i, fault), c, look, f || fault)
  {
    CounterFits(s, c, ReadLenStep(s, c, i, fault).calls[c].pc, look, f || fault);
  }

  lemma ReadChunkFits(s: State, c: CallId, i: Ino, buffer: Bytes, choice: Choice, look: Option<Look>, f: bool)
    requires FitsNow(s, c, look, f) && s.calls[c].pc == Rd(ReadChunk(i, buffer)) && i in s.inodes
    ensures FitsNext(s, ReadChunkStep(s, c, i, buffer, choice), c, look, f || choice.fault)
  {
    var pc := ReadChunkStep(s, c, i, buffer, choice).calls[c].pc;
    ReadChunkLeads(i, s.inodes[i].bytes, s.calls[c].op.limit, buffer, choice);
    CounterFits(s, c, pc, look, f || choice.fault);
  }

  /** A read that is not disturbed goes on to the end of the file and then returns all of it. */
  lemma ReadChunkLeads(i: Ino, bytes: Bytes, limit: nat, buffer: Bytes, choice: Choice)
    requires |buffer| <= |bytes| <= limit && buffer == bytes[..|buffer|]
    ensures var pc := ReadChunkPc(i, bytes, limit, buffer, choice);
            || (choice.fault && pc == Leaving(Err(Io)))
            || (pc.Rd? && pc.r.ReadChunk?)
            || pc == Leaving(Ok(bytes))
  {
    if !choice.fault && |buffer| == |bytes| { assert bytes[..|bytes|] == bytes; }
  }

  lemma ReaderFitsNext(s: State, c: CallId, choice: Choice, look: Option<Look>, f: bool)
    requires CanGo(s, c, choice) && FitsNow(s, c, look, f) && s.calls[c].pc.Rd?
    ensures FitsNext(s, AdvanceReader(s, c, s.calls[c].pc.r, choice), c, look, f || choice.fault)
  {
    match s.calls[c].pc.r {
      case OpenRead => OpenReadFits(s, c, choice.fault, look, f);
      case ReadStat(i) => ReadStatFits(s, c, i, choice.fault, look, f);
      case ReadLen(i) => ReadLenFits(s, c, i, choice.fault, look, f);
      case ReadChunk(i, buffer) => ReadChunkFits(s, c, i, buffer, choice, look, f);
    }
  }

  lemma OpenLockFits(s: State, c: CallId, choice: Choice, look: Option<Look>, f: bool)
    requires FitsNow(s, c, look, f) && s.calls[c].pc == Lk(OpenLock)
    ensures FitsNext(s, OpenLockStep(s, c, choice), c, look, f || choice.fault)
  {
    var name := s.calls[c].op.name;
    if name in s.names {
      LockAgrees(s.inodes[s.names[name]], s.calls[c].euid);
      CounterFits(s, c, OpenLockStep(s, c, choice).calls[c].pc, look, f || choice.fault);
    }
  }

  /** The file check of `lock` finds what the look found. */
  predicate StillAs(s: State, call: Call, look: Look, i: Ino)
    requires i in s.inodes
  {
    CheckFile(s.inodes[i], call.euid, false) <==> Verdict(call.op, call.euid, look) == Ok([])
  }

  lemma LockStatFits(s: State, c: CallId, i: Ino, fault: bool, look: Option<Look>, f: bool)
    requires FitsNow(s, c, look, f) && s.calls[c].pc == Lk(LockStat(i)) && i in s.inodes
    requires look.Some? && StillAs(s, s.calls[c], look.value, i)
    ensures FitsNext(s, StatStep(s, c, i, fault, false, Lk(TryLock(i))), c, look, f || fault)
  {
    CounterFits(s, c, StatStep(s, c, i, fault, false, Lk(TryLock(i))).calls[c].pc, look, f || fault);
  }

  lemma TryLockFits(s: State, c: CallId, i: Ino, fault: bool, look: Option<Look>, f: bool)
    requires FitsNow(s, c, look, f) && s.calls[c].pc == Lk(TryLock(i))
    ensures FitsNext(s, TryLockStep(s, c, i, fault), c, look, f || fault)
  {
    if fault { CounterFits(s, c, Leaving(Err(Io)), look, true); }
    else if i in s.flocks { CounterFits(s, c, Leaving(Err(Busy)), look, f); }
    else { CounterFits(s, c, Lk(Holding(i)), look, f); }
  }

  lemma HoldingFits(s: State, c: CallId, i: Ino, look: Option<Look>, f: bool)
    requires FitsNow(s, c, look, f) && s.calls[c].pc == Lk(Holding(i))
    ensures FitsNext(s, DropHandleStep(s, c, i), c, look, f)
  {
    CounterFits(s, c, Done(Ok([])), look, f);
  }

  lemma LockerFitsNext(s: State, c: CallId, choice: Choice, look: Option<Look>, f: bool)
    requires CanGo(s, c, choice) && FitsNow(s, c, look, f) && s.calls[c].pc.Lk?
    requires s.calls[c].pc.l.LockStat? ==> look.Some? && StillAs(s, s.calls[c], look.value, s.calls[c].pc.l.ino)
    ensures FitsNext(s, AdvanceLocker(s, c, s.calls[c].pc.l, choice), c, look, f || choice.fault)
  {
    match s.calls[c].pc.l {
      case OpenLock => OpenLockFits(s, c, choice, look, f);
      case LockStat(i) => LockStatFits(s, c, i, choice.fault, look, f);
      case TryLock(i) => TryLockFits(s, c, i, choice.fault, look, f);
      case Holding(i) => FitsMore(s, c, look, f, choice.fault); HoldingFits(s, c, i, look, f || choice.fault);
    }
  }

  lemma OuterFitsNext(s: State, c: CallId, choice: Choice, look: Option<Look>, f: bool)
    requires CanGo(s, c, choice) && FitsNow(s, c, look, f)
    requires !s.calls[c].pc.Wr? && !s.calls[c].pc.Rd? && !s.calls[c].pc.Lk?
    ensures FitsNext(s, Advance(s, c, choice), c, look, f || choice.fault)
  {
    match s.calls[c].pc {
      case Enter => EnterFits(s, c, look, f, choice.fault);
      case CheckDir => CheckDirFits(s, c, choice.fault, look, f);
      case Leaving(answer) => CounterFits(s, c, Done(answer), look, f || choice.fault);
    }
  }

  lemma GoFits(s: State, c: CallId, choice: Choice, look: Option<Look>, f: bool)
    requires CanGo(s, c, choice) && FilesOk(s) && FitsNow(s, c, look, f)
    requires s.calls[c].pc.Lk? && s.calls[c].pc.l.LockStat? ==>
               look.Some? && StillAs(s, s.calls[c], look.value, s.calls[c].pc.l.ino)
    ensures FitsNext(s, Advance(s, c, choice), c, look, f || choice.fault)
  {
    if s.calls[c].pc.Wr? { WriterFitsNext(s, c, choice, look, f); }
    else if s.calls[c].pc.Rd? { ReaderFitsNext(s, c, choice, look, f); }
    else if s.calls[c].pc.Lk? { LockerFitsNext(s, c, choice, look, f); }
    else { OuterFitsNext(s, c, choice, look, f); }
  }

  // ------------------------------------------------------------------ whole runs

  /** What call `c` saw in step `j`, if it looked there and that was before state `k`. */
  ghost function Seen(run: seq<State>, events: seq<Event>, j: nat, k: nat, c: CallId): (look: Option<Look>)
    requires |run| == |events| + 1
  {
    if j < k && Looks(run, events, j, c) then Some(LookAt(run[j], run[j].calls[c].op.name)) else None
  }

  lemma FaultedStep(events: seq<Event>, k: nat, c: CallId)
    requires k < |events|
    ensures Faulted(events, k + 1, c) <==> Faulted(events, k, c) || (StepOf(events, k, c) && events[k].choice.fault)
  {}

  /** A lock file that was there is checked as it was when it was opened. */
  lemma LockFileStays(run: seq<State>, j: nat, k: nat, n: string, i: Ino, uid: nat)
    requires Run(run) && j <= k < |run| && n in run[j].names && run[j].names[n] == i && i in run[j].inodes
    requires n in run[k].names && run[k].names[n] == i
    ensures i in run[k].inodes && (CheckFile(run[k].inodes[i], uid, false) <==> CheckFile(run[j].inodes[i], uid, false))
  {
    RunInv(run, k);
    RunGrows(run, j, k);
    assert InodeGrows(run[j].inodes[i], run[k].inodes[i]);
    assert run[k].inodes[i].nlink >= 1;
  }

  /** A lock file that the call made passes. */
  lemma MadeLockPasses(s: State, c: CallId, i: Ino)
    requires Inv(s) && c in s.calls && s.calls[c].op.Lock? && s.calls[c].pc == Lk(LockStat(i))
    requires s.calls[c].effect.Published? && s.meta.uid == s.calls[c].euid
    ensures i in s.inodes && CheckFile(s.inodes[i], s.calls[c].euid, false)
  {
    var call := s.calls[c];
    assert CallOk(s, c, call);
    var slot, n := call.effect.slot, call.op.name;
    assert EntryOk(s, slot);
    assert s.log[..slot + 1][..slot] == s.log[..slot];
    assert BindingAt(s.origin, s.log[..slot + 1], n) == Some(s.log[slot].ino);
    LockBindingStays(s.log[..slot + 1], s, n);
    assert Lookup(s.names, n) == BindingAt(s.origin, s.log, n);
    assert MadeOk(s, i) && s.inodes[i].nlink >= 1;
  }

  lemma LockStatStillAs(run: seq<State>, events: seq<Event>, j: nat, k: nat, c: CallId)
    requires Labelled(run, events) && k < |run| && c in run[k].calls && run[k].calls[c].op.Lock?
    requires run[k].calls[c].pc.Lk? && run[k].calls[c].pc.l.LockStat?
    requires Fits(run[k].calls[c], run[k].meta, Seen(run, events, j, k, c), Faulted(events, k, c))
    ensures Seen(run, events, j, k, c).Some? && run[k].calls[c].pc.l.ino in run[k].inodes
    ensures StillAs(run[k], run[k].calls[c], Seen(run, events, j, k, c).value, run[k].calls[c].pc.l.ino)
  {
    LabelledIsRun(run, events);
    RunInv(run, k);
    var s, call := run[k], run[k].calls[c];
    assert CallOk(s, c, call);
    var look, i := Seen(run, events, j, k, c).value, call.pc.l.ino;
    RunGrows(run, j, k);
    assert CallGrows(run[j].calls[c], call);
    if look.Absent? {
      DirAgrees(s.meta, call.euid);
      MadeLockPasses(s, c, i);
    } else {
      LockFileStays(run, j, k, call.op.name, i, call.euid);
      LockAgrees(look.inode, call.euid);
    }
  }

  lemma OthersFit(run: seq<State>, events: seq<Event>, k: nat, c: CallId)
    requires Labelled(run, events) && k < |events| && c in run[k].calls && !StepOf(events, k, c)
    ensures c in run[k + 1].calls && run[k + 1].meta == run[k].meta
    ensures run[k + 1].calls[c] == run[k].calls[c] || run[k + 1].calls[c] == run[k].calls[c].(pc := Killed)
  {
    LabelledIsRun(run, events);
    RunInv(run, k);
    assert EventAt(run, events, k);
    EventLeavesCall(run[k], events[k], c);
  }

  lemma EventLeavesCall(s: State, event: Event, c: CallId)
    requires Inv(s) && Enabled(s, event) && c in s.calls && !(event.Go? && event.call == c)
    ensures var s' := Apply(s, event);
            && c in s'.calls && s'.meta == s.meta
            && (s'.calls[c] == s.calls[c] || s'.calls[c] == s.calls[c].(pc := Killed))
  {
    if event.Go? {
      assert CallOk(s, event.call, s.calls[event.call]);
      GoGrows(s, event.call, event.choice);
    }
  }

  lemma OwnStepFits(run: seq<State>, events: seq<Event>, j: nat, k: nat, c: CallId)
    requires Labelled(run, events) && k < |events| && c in run[k].calls && StepOf(events, k, c)
    requires Fits(run[k].calls[c], run[k].meta, Seen(run, events, j, k, c), Faulted(events, k, c))
    ensures c in run[k + 1].calls && run[k + 1].meta == run[k].meta
    ensures Fits(run[k + 1].calls[c], run[k].meta, NextLook(run[k], c, Seen(run, events, j, k, c)),
                 Faulted(events, k + 1, c))
  {
    LabelledIsRun(run, events);
    RunInv(run, k);
    var s := run[k];
    assert EventAt(run, events, k) && CallOk(s, c, s.calls[c]);
    FaultedStep(events, k, c);
    if s.calls[c].pc.Lk? && s.calls[c].pc.l.LockStat? { LockStatStillAs(run, events, j, k, c); }
    GoFits(s, c, events[k].choice, Seen(run, events, j, k, c), Faulted(events, k, c));
    GoGrows(s, c, events[k].choice);
  }

  lemma NewCallFits(run: seq<State>, events: seq<Event>, k: nat, c: CallId)
    requires Labelled(run, events) && k < |events| && c !in run[k].calls && c in run[k + 1].calls
    ensures run[k + 1].calls[c].pc == Enter && !run[k + 1].calls[c].leaked
  {
    LabelledIsRun(run, events);
    RunInv(run, k);
    assert EventAt(run, events, k);
    EventMakesCall(run[k], events[k], c);
  }

  lemma EventMakesCall(s: State, event: Event, c: CallId)
    requires Inv(s) && Enabled(s, event) && c !in s.calls
    ensures var s' := Apply(s, event); c in s'.calls ==> s'.calls[c].pc == Enter && !s'.calls[c].leaked
  {
    if event.Go? {
      assert CallOk(s, event.call, s.calls[event.call]);
      GoGrows(s, event.call, event.choice);
    }
  }

  /** Every call, in every state of every run, stands where its look and its failures put it. */
  lemma {:induction false} Tracks(run: seq<State>, events: seq<Event>, k: nat, c: CallId) returns (j: nat)
    requires Labelled(run, events) && k < |run| && c in run[k].calls
    ensures Fits(run[k].calls[c], run[k].meta, Seen(run, events, j, k, c), Faulted(events, k, c))
  {
    if k == 0 { assert false; }
    if c !in run[k - 1].calls {
      NewCallFits(run, events, k - 1, c);
      j := k;
    } else {
      j := Tracks(run, events, k - 1, c);
      FaultedStep(events, k - 1, c);
      if StepOf(events, k - 1, c) {
        OwnStepFits(run, events, j, k - 1, c);
        j := if AtLook(run[k - 1].calls[c]) then k - 1 else if j < k - 1 then j else k;
      } else {
        OthersFit(run, events, k - 1, c);
        j := if j < k - 1 then j else k;
      }
    }
  }

  // -------------------------------------------------------------------- the results

  /** A returned call's answer is the one its arguments, the directory and its look in step `j` call for; or it is
      `Busy`, and the call had been let through. */
  ghost predicate Exact(run: seq<State>, events: seq<Event>, j: nat, k: nat, c: CallId) {
    && |run| == |events| + 1 && k < |run| && c in run[k].calls && run[k].calls[c].pc.Done?
    && var call := run[k].calls[c];
    && var answer, badDir := call.pc.answer, DirError(run[k].meta, call.euid);
    && if ArgumentError(call.op).Some? then answer == Err(ArgumentError(call.op).value)
       else if badDir.Some? then answer == Err(badDir.value)
       else if answer == Err(Busy) then PassedLook(call, Seen(run, events, j, k, c))
       else && j < k && Looks(run, events, j, c)
            && answer == Verdict(call.op, call.euid, LookAt(run[j], call.op.name))
  }

  /** The answer of a call none of whose system calls failed is fixed by its arguments, by the directory and by
      what its name held at the moment it looked.  The one other answer is `Busy`, for a write or a lock that
      was let through (`PublicationBusy` says what makes it). */
  lemma AnswersAreExact(run: seq<State>, events: seq<Event>, k: nat, c: CallId) returns (j: nat)
    requires Labelled(run, events) && k < |run| && c in run[k].calls && run[k].calls[c].pc.Done?
    requires !Faulted(events, k, c)
    ensures Exact(run, events, j, k, c)
  {
    j := Tracks(run, events, k, c);
    SeenIsOfTheName(run, events, j, k, c);
  }

  lemma SeenIsOfTheName(run: seq<State>, events: seq<Event>, j: nat, k: nat, c: CallId)
    requires Labelled(run, events) && k < |run| && c in run[k].calls
    ensures j < k && Looks(run, events, j, c) ==> run[j].calls[c].op == run[k].calls[c].op
  {
    if j < k && Looks(run, events, j, c) {
      LabelledIsRun(run, events);
      RunGrows(run, j, k);
      assert CallGrows(run[j].calls[c], run[k].calls[c]);
    }
  }

  /** Failed system calls add two answers and no others: `Io`, and for a write `CommitUncertain`. */
  lemma FailuresAddOnlyIo(run: seq<State>, events: seq<Event>, k: nat, c: CallId) returns (j: nat)
    requires Labelled(run, events) && k < |run| && c in run[k].calls && run[k].calls[c].pc.Done?
    requires run[k].calls[c].pc.answer != Err(Io) && run[k].calls[c].pc.answer != Err(CommitUncertain)
    ensures Exact(run, events, j, k, c)
  {
    j := Tracks(run, events, k, c);
    SeenIsOfTheName(run, events, j, k, c);
  }

  predicate PastPreCheck(w: WritePc) { !w.PreDir? && !w.PreOpen? && !w.PreStat? && !w.Unlink? }

  /** A write past its pre-check found its name free, or found there a regular file of the user with one link at
      most and nothing for anybody else; a `ReplaceExisting` found such a file. */
  lemma WritersPassPrivateFiles(run: seq<State>, events: seq<Event>, k: nat, c: CallId) returns (j: nat)
    requires Labelled(run, events) && k < |run| && c in run[k].calls && run[k].calls[c].op.Write?
    requires run[k].calls[c].op.publish != CreateNew && run[k].calls[c].pc.Wr? && PastPreCheck(run[k].calls[c].pc.w)
    ensures j < k && Looks(run, events, j, c)
    ensures match LookAt(run[j], run[k].calls[c].op.name) {
              case Absent => run[k].calls[c].op.publish == Upsert
              case Bound(_, inode) =>
                && inode.kind == Regular && inode.uid == run[k].calls[c].euid && inode.nlink <= 1
                && inode.mode.special == 0 && inode.mode.group == 0 && inode.mode.other == 0
            }
  {
    j := Tracks(run, events, k, c);
    SeenIsOfTheName(run, events, j, k, c);
  }

  /** A call that holds a lock made its file, or opened there a regular file of the user with exactly one link and
      nothing for anybody else. */
  lemma HoldersPassPrivateFiles(run: seq<State>, events: seq<Event>, k: nat, c: CallId) returns (j: nat)
    requires Labelled(run, events) && k < |run| && c in run[k].calls
    requires run[k].calls[c].pc.Lk? && run[k].calls[c].pc.l.Holding?
    ensures j < k && Looks(run, events, j, c)
    ensures match LookAt(run[j], run[k].calls[c].op.name) {
              case Absent => true
              case Bound(_, inode) =>
                && inode.kind == Regular && inode.uid == run[k].calls[c].euid && inode.nlink == 1
                && inode.mode.special == 0 && inode.mode.group == 0 && inode.mode.other == 0
            }
  {
    j := Tracks(run, events, k, c);
    SeenIsOfTheName(run, events, j, k, c);
  }

  /** A write none of whose system calls failed leaves no temporary behind, whatever it answered. */
  lemma CleanWritesLeaveNothing(run: seq<State>, events: seq<Event>, k: nat, c: CallId, t: Temp)
    requires Labelled(run, events) && k < |run| && c in run[k].calls && run[k].calls[c].pc.Done?
    requires !Faulted(events, k, c) && t in run[k].temps
    ensures run[k].temps[t] in run[k].inodes && run[k].inodes[run[k].temps[t]].maker != Writer(c)
  {
    LabelledIsRun(run, events);
    var j := Tracks(run, events, k, c);
    ResidueIsExplained(run, k, t);
  }

  /** `0600` loses to the umask only what the umask takes from the owner. */
  lemma CreatedModeIs(umask: Mode)
    ensures CreatedMode(umask).special == 0 && CreatedMode(umask).group == 0 && CreatedMode(umask).other == 0
    ensures umask.user == 0 || umask.user == 1 ==> CreatedMode(umask).user == 6
    ensures umask.user == 2 || umask.user == 3 ==> CreatedMode(umask).user == 4
    ensures umask.user == 4 || umask.user == 5 ==> CreatedMode(umask).user == 2
    ensures umask.user == 6 || umask.user == 7 ==> CreatedMode(umask).user == 0
  {}
}
