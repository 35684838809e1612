/** The invariant of the publication protocol, proved step by step.

    `Inv` is a condition on the shared state (`Global`) and one condition per call
    (`CallOk`).  A step is checked once for the call that takes it, and against
    every other call through `Rely`, the change a bystander tolerates. */
module PublicationInvariant {
  import opened Publication
  import opened Wrappers

  // ------------------------------------------------------------- invariant

  /** Nobody writes to such an inode any more. */
  predicate Frozen(inode: Inode) { inode.synced || inode.maker == Locker }

  predicate Plain(s: State, i: Ino) { i in s.inodes && CheckFile(s.inodes[i], s.meta.uid, true) }

  function Lookup(m: map<string, Ino>, n: string): (r: Option<Ino>) {
    if n in m then Some(m[n]) else None
  }

  /** The binding of `n` after the commits of `log`. */
  function BindingAt(origin: map<string, Ino>, log: seq<Commit>, n: string): (r: Option<Ino>) {
    if log == [] then Lookup(origin, n)
    else if log[|log| - 1].name == n then Some(log[|log| - 1].ino)
    else BindingAt(origin, log[..|log| - 1], n)
  }

  /** A commit belongs to one call and binds what that call was asked to publish. */
  predicate EntryOk(s: State, j: nat)
    requires j < |s.log|
  {
    var e := s.log[j];
    && e.call in s.calls && e.ino in s.inodes
    && var call := s.calls[e.call];
    && call.effect == Published(j) && call.op.name == e.name
    && match call.op {
         case Write(_, payload, publish) =>
           && s.inodes[e.ino].synced && s.inodes[e.ino].bytes == payload && s.inodes[e.ino].maker == Writer(e.call)
           && (publish == CreateNew ==> BindingAt(s.origin, s.log[..j], e.name).None?)
           && (publish == ReplaceExisting ==> BindingAt(s.origin, s.log[..j], e.name).Some?)
         case Read(_, _) => false
         case Lock(_) => s.inodes[e.ino].maker == Locker && BindingAt(s.origin, s.log[..j], e.name).None?
       }
  }

  /** An inode made by the crate. */
  predicate MadeOk(s: State, i: Ino)
    requires i in s.inodes
  {
    var inode := s.inodes[i];
    match inode.maker
    case Foreign => inode.synced
    case Writer(_) => CheckFile(inode, s.meta.uid, true)
    case Locker => CheckFile(inode, s.meta.uid, true) && inode.bytes == []
  }

  /** A temporary still in the directory belongs to a writer that is using it, was killed, or could not unlink it. */
  predicate TempOk(s: State, t: Temp)
    requires t in s.temps && s.temps[t] in s.inodes
  {
    var maker := s.inodes[s.temps[t]].maker;
    maker != Locker && (maker.Writer? ==>
      && maker.call in s.calls
      && var call := s.calls[maker.call];
      && call.pid == t.pid
      && (call.pc.Killed? || call.leaked || HoldsTemp(call.pc, t.serial)))
  }

  predicate HoldsTemp(pc: Pc, serial: nat) {
    && pc.Wr?
    && (pc.w.TempStat? || pc.w.WriteAll? || pc.w.SyncFile? || pc.w.Rename?
        || (pc.w.Unlink? && pc.w.error != CommitUncertain))
    && pc.w.serial == serial
  }

  /** Links are counted, published files are frozen, and what the crate made is private. */
  predicate FilesOk(s: State) {
    && Bindings(s)
    && LinksCounted(s)
    && (forall n :: n in s.names ==> Frozen(s.inodes[s.names[n]]))
    && (forall i :: i in s.inodes ==> MadeOk(s, i))
  }

  predicate TempsOk(s: State) {
    forall t :: t in s.temps ==> s.temps[t] in s.inodes && TempOk(s, t)
  }

  /** The caller's names are the starting names overwritten by the commits, in order. */
  ghost predicate LogOk(s: State) {
    && s.durable <= |s.log|
    && (forall j :: 0 <= j < |s.log| ==> EntryOk(s, j))
    && (forall n :: Lookup(s.names, n) == BindingAt(s.origin, s.log, n))
  }

  predicate TicketsOk(s: State) {
    forall p, k :: p in s.procs && k in s.procs[p].tickets ==> k < s.procs[p].counter
  }

  predicate FlocksOk(s: State) {
    forall i :: i in s.flocks ==> s.flocks[i] in s.calls && s.calls[s.flocks[i]].pc == Lk(Holding(i))
  }

  ghost predicate Named(s: State, i: Ino) {
    (exists n :: n in s.names && s.names[n] == i) || (exists t :: t in s.temps && s.temps[t] == i)
  }

  /** A link that is counted is a name of this directory. */
  ghost predicate NamedOk(s: State) {
    forall i :: i in s.inodes && s.inodes[i].maker != Foreign && s.inodes[i].nlink >= 1 ==> Named(s, i)
  }

  ghost predicate Global(s: State) {
    FilesOk(s) && NamedOk(s) && TempsOk(s) && LogOk(s) && TicketsOk(s) && FlocksOk(s)
  }

  predicate DirPass(s: State, call: Call) { CheckPrivateDir(s.meta, call.euid).None? }

  predicate HasTicket(s: State, c: CallId, pid: Pid, serial: nat) {
    pid in s.procs && serial in s.procs[pid].tickets && s.procs[pid].tickets[serial] == c
  }

  /** `open_file` found the name fit to be replaced, and so it still is. */
  predicate TargetReady(s: State, op: Op)
    requires op.Write?
  {
    op.publish != CreateNew ==>
      && (op.publish == ReplaceExisting ==> op.name in s.names)
      && (op.name in s.names ==> Plain(s, s.names[op.name]))
  }

  /** The writer's temporary: bound to the inode it made, and to nothing else. */
  predicate OwnTemp(s: State, c: CallId, pid: Pid, serial: nat, i: Ino) {
    && HasTicket(s, c, pid, serial)
    && Temp(pid, serial) in s.temps && s.temps[Temp(pid, serial)] == i
    && i in s.inodes && s.inodes[i].maker == Writer(c) && s.inodes[i].nlink == 1
  }

  predicate ArgsOk(op: Op) { ArgumentFailure(op).None? }

  predicate Writing(s: State, call: Call)
    requires call.op.Write?
  {
    && call.effect == Waiting && !call.leaked
    && DirPass(s, call) && ArgsOk(call.op) && TargetReady(s, call.op)
  }

  predicate Reading(s: State, call: Call, i: Ino)
    requires call.op.Read?
  {
    && ArgsOk(call.op) && DirPass(s, call)
    && Plain(s, i) && Frozen(s.inodes[i]) && call.effect == Got(s.inodes[i].bytes)
  }

  predicate Locking(s: State, call: Call, i: Ino)
    requires call.op.Lock?
  {
    call.op.name in s.names && s.names[call.op.name] == i && i in s.inodes
  }

  /** The error of a call that has not looked at its name; refusals come from the arguments or the directory. */
  predicate Blameless(s: State, call: Call, error: Error) {
    && error != Missing && error != AlreadyExists && error != CommitUncertain
    && (error == NotPrivate || error == UnsafePath ==> !(DirPass(s, call) && ArgsOk(call.op)))
  }

  /** What the answer of a call says about what the call did. */
  predicate Honest(s: State, call: Call, answer: Answer) {
    match call.op
    case Write(_, _, _) =>
      && (call.effect.Published? <==> (answer == Ok([]) || answer == Err(CommitUncertain)))
      && (answer.Ok? ==> call.effect.Published? && call.effect.slot < s.durable)
      && (call.effect.Failed? ==> answer == Err(call.effect.error) || answer == Err(Io))
      && (call.effect.Waiting? ==> answer.Err? && Blameless(s, call, answer.error))
      && !call.effect.Got?
    case Read(_, limit) =>
      && (answer.Ok? ==> call.effect == Got(answer.bytes) && |answer.bytes| <= limit)
      && (call.effect.Got? ==> answer == Ok(call.effect.bytes) || answer == Err(Io)
                               || (answer == Err(TooLarge) && |call.effect.bytes| > limit))
      && (call.effect.Failed? ==> answer == Err(call.effect.error) || answer == Err(Io))
      && (call.effect.Waiting? ==> answer.Err? && Blameless(s, call, answer.error))
      && !call.effect.Published?
    case Lock(_) => answer != Err(Missing) && answer != Err(AlreadyExists) && answer != Err(CommitUncertain)
  }

  predicate WriterOk(s: State, c: CallId, call: Call, w: WritePc)
    requires call.op.Write?
  {
    match w
    case PreDir =>
      call.effect == Waiting && ArgsOk(call.op) && !call.leaked && call.op.publish != CreateNew && DirPass(s, call)
    case PreOpen =>
      call.effect == Waiting && ArgsOk(call.op) && !call.leaked && call.op.publish != CreateNew && DirPass(s, call)
    case PreStat(i) =>
      && DirPass(s, call) && ArgsOk(call.op) && i in s.inodes && !call.leaked && call.op.publish != CreateNew
      && (Plain(s, i) ==> call.effect == Waiting && TargetReady(s, call.op))
      && (!Plain(s, i) ==> call.effect == Failed(NotPrivate))
    case TakeTicket(tries) => Writing(s, call) && tries < TEMP_TRIES
    case CreateTemp(tries, serial) => Writing(s, call) && tries < TEMP_TRIES && HasTicket(s, c, call.pid, serial)
    case TempStat(serial, i) =>
      Writing(s, call) && OwnTemp(s, c, call.pid, serial, i) && !s.inodes[i].synced && s.inodes[i].bytes == []
    case WriteAll(serial, i, written) =>
      && Writing(s, call) && OwnTemp(s, c, call.pid, serial, i) && !s.inodes[i].synced
      && written < |call.op.payload| && s.inodes[i].bytes == call.op.payload[..written]
    case SyncFile(serial, i) =>
      && Writing(s, call) && OwnTemp(s, c, call.pid, serial, i) && !s.inodes[i].synced
      && s.inodes[i].bytes == call.op.payload
    case Rename(serial, i) =>
      && Writing(s, call) && OwnTemp(s, c, call.pid, serial, i) && s.inodes[i].synced
      && s.inodes[i].bytes == call.op.payload
    case SyncDir(serial) =>
      && call.effect.Published? && !call.leaked && HasTicket(s, c, call.pid, serial)
      && Temp(call.pid, serial) !in s.temps
    case Unlink(serial, error) =>
      && !call.leaked && HasTicket(s, c, call.pid, serial)
      && if error == CommitUncertain then call.effect.Published? && Temp(call.pid, serial) !in s.temps
         else
           && Temp(call.pid, serial) in s.temps
           && OwnTemp(s, c, call.pid, serial, s.temps[Temp(call.pid, serial)])
           && (error == Io || error == AlreadyExists)
           && call.effect == if error == AlreadyExists then Failed(AlreadyExists) else Waiting
  }

  predicate ReaderOk(s: State, call: Call, r: ReadPc)
    requires call.op.Read?
  {
    match r
    case OpenRead => call.effect == Waiting && ArgsOk(call.op) && DirPass(s, call)
    case ReadStat(i) =>
      && ArgsOk(call.op) && DirPass(s, call) && i in s.inodes
      && (Plain(s, i) ==> Reading(s, call, i))
      && (!Plain(s, i) ==> call.effect == Failed(NotPrivate))
    case ReadLen(i) => Reading(s, call, i)
    case ReadChunk(i, buffer) =>
      && Reading(s, call, i)
      && |s.inodes[i].bytes| <= call.op.limit
      && |buffer| <= |s.inodes[i].bytes| && buffer == s.inodes[i].bytes[..|buffer|]
  }

  predicate LockerOk(s: State, c: CallId, call: Call, l: LockPc)
    requires call.op.Lock?
  {
    match l
    case OpenLock => call.effect == Waiting && ArgsOk(call.op) && DirPass(s, call)
    case LockStat(i) => Locking(s, call, i)
    case TryLock(i) => Locking(s, call, i)
    case Holding(i) => Locking(s, call, i) && i in s.flocks && s.flocks[i] == c
  }

  predicate PcOk(s: State, c: CallId, call: Call) {
    match call.pc
    case Enter => call.effect == Waiting && !call.leaked
    case CheckDir => call.effect == Waiting && ArgsOk(call.op) && !call.leaked
    case Wr(w) => call.op.Write? && WriterOk(s, c, call, w)
    case Rd(r) => call.op.Read? && ReaderOk(s, call, r)
    case Lk(l) => call.op.Lock? && LockerOk(s, c, call, l)
    case Leaving(answer) => Honest(s, call, answer)
    case Done(answer) => Honest(s, call, answer)
    case Killed => true
  }

  predicate CallBase(s: State, c: CallId, call: Call) {
    && (call.effect.Published? ==> call.effect.slot < |s.log| && s.log[call.effect.slot].call == c)
    && (call.op.Write? ==> call.op.name !in s.lockNames)
    && (call.op.Lock? ==> call.op.name in s.lockNames && (call.effect.Waiting? || call.effect.Published?))
    && (Live(call) ==> call.pid in s.procs)
  }

  predicate CallOk(s: State, c: CallId, call: Call) {
    CallBase(s, c, call) && PcOk(s, c, call)
  }

  ghost predicate Inv(s: State) {
    && Global(s)
    && (forall c :: c in s.calls ==> CallOk(s, c, s.calls[c]))
  }

  // ------------------------------------------------------------ bystanders

  predicate InodeRely(a: Inode, b: Inode, c: CallId) {
    && b.kind == a.kind && b.uid == a.uid && b.mode == a.mode && b.maker == a.maker
    && (Frozen(a) || a.maker == Writer(c) ==> b.bytes == a.bytes && b.synced == a.synced)
    && b.nlink <= a.nlink
    && (a.nlink > 1 ==> b.nlink == a.nlink)
  }

  predicate RelyInodes(s: State, s': State, c: CallId) {
    forall i :: i in s.inodes ==> i in s'.inodes && InodeRely(s.inodes[i], s'.inodes[i], c)
  }

  /** Names stay bound, and only to private files do they move; a bound lock name does not. */
  predicate RelyNames(s: State, s': State) {
    && (forall n :: n in s.names ==> n in s'.names)
    && (forall n :: n in s'.names && (n !in s.names || s'.names[n] != s.names[n])
                    ==> Plain(s', s'.names[n]) && (n in s.lockNames ==> n !in s.names))
  }

  /** The call's own temporaries are let alone. */
  ghost predicate RelyTemps(s: State, s': State, c: CallId, pid: Pid) {
    && pid in s'.procs
    && (forall k :: HasTicket(s, c, pid, k) ==>
          && HasTicket(s', c, pid, k)
          && (Temp(pid, k) in s.temps <==> Temp(pid, k) in s'.temps)
          && (Temp(pid, k) in s.temps ==> s'.temps[Temp(pid, k)] == s.temps[Temp(pid, k)]))
  }

  /** What the rest of the system may do while call `c` stands still. */
  ghost predicate Rely(s: State, s': State, c: CallId)
    requires c in s.calls
  {
    var call := s.calls[c];
    && s'.meta == s.meta && s'.lockNames == s.lockNames && s'.origin == s.origin
    && s.log <= s'.log && s.durable <= s'.durable
    && RelyInodes(s, s', c) && RelyNames(s, s')
    && (Live(call) && call.pid in s.procs ==> RelyTemps(s, s', c, call.pid))
    && (forall i :: i in s.flocks && s.flocks[i] == c && Live(call) ==> i in s'.flocks && s'.flocks[i] == c)
  }

  lemma PlainStays(s: State, s': State, c: CallId, i: Ino)
    requires c in s.calls && Rely(s, s', c) && i in s.inodes
    ensures Plain(s, i) <==> Plain(s', i)
  {
    assert InodeRely(s.inodes[i], s'.inodes[i], c);
  }

  lemma TargetStays(s: State, s': State, c: CallId, op: Op)
    requires c in s.calls && Rely(s, s', c) && Bindings(s)
    requires op.Write? && TargetReady(s, op)
    ensures TargetReady(s', op)
  {
    if op.name in s.names { PlainStays(s, s', c, s.names[op.name]); }
  }

  lemma TempStays(s: State, s': State, c: CallId, serial: nat, i: Ino)
    requires c in s.calls && Rely(s, s', c) && Live(s.calls[c])
    requires OwnTemp(s, c, s.calls[c].pid, serial, i)
    requires Bindings(s') && LinksCounted(s')
    ensures OwnTemp(s', c, s.calls[c].pid, serial, i)
    ensures s'.inodes[i].bytes == s.inodes[i].bytes && s'.inodes[i].synced == s.inodes[i].synced
  {
    assert InodeRely(s.inodes[i], s'.inodes[i], c);
    var t := Temp(s.calls[c].pid, serial);
    assert t in s'.temps && s'.temps[t] == i;
  }

  lemma ReadingStays(s: State, s': State, c: CallId, i: Ino)
    requires c in s.calls && Rely(s, s', c) && Live(s.calls[c])
    requires s.calls[c].op.Read? && Reading(s, s.calls[c], i)
    ensures Reading(s', s.calls[c], i)
    ensures s'.inodes[i].bytes == s.inodes[i].bytes
  {
    PlainStays(s, s', c, i);
    assert InodeRely(s.inodes[i], s'.inodes[i], c);
  }

  lemma WriterStays(s: State, s': State, c: CallId, w: WritePc)
    requires c in s.calls && s.calls[c].op.Write? && Live(s.calls[c]) && WriterOk(s, c, s.calls[c], w)
    requires Rely(s, s', c) && Bindings(s)
    requires Bindings(s') && LinksCounted(s')
    ensures WriterOk(s', c, s.calls[c], w)
  {
    var call := s.calls[c];
    if w.PreStat? {
      PlainStays(s, s', c, w.ino);
      if Plain(s, w.ino) { TargetStays(s, s', c, call.op); }
    } else if w.TakeTicket? || w.CreateTemp? {
      TargetStays(s, s', c, call.op);
    } else if w.TempStat? || w.WriteAll? || w.SyncFile? || w.Rename? {
      TempStays(s, s', c, w.serial, w.ino);
      TargetStays(s, s', c, call.op);
    } else if w.Unlink? && w.error != CommitUncertain {
      TempStays(s, s', c, w.serial, s.temps[Temp(call.pid, w.serial)]);
    }
  }

  lemma ReaderStays(s: State, s': State, c: CallId, r: ReadPc)
    requires c in s.calls && s.calls[c].op.Read? && Live(s.calls[c]) && ReaderOk(s, s.calls[c], r)
    requires Rely(s, s', c)
    ensures ReaderOk(s', s.calls[c], r)
  {
    if !r.OpenRead? {
      PlainStays(s, s', c, r.ino);
      if Plain(s, r.ino) { ReadingStays(s, s', c, r.ino); }
    }
  }

  lemma LockerStays(s: State, s': State, c: CallId, l: LockPc)
    requires c in s.calls && s.calls[c].op.Lock? && Live(s.calls[c]) && LockerOk(s, c, s.calls[c], l)
    requires Rely(s, s', c) && s.calls[c].op.name in s.lockNames
    ensures LockerOk(s', c, s.calls[c], l)
  {}

  /** A call that stands still keeps its own condition. */
  lemma CallStays(s: State, s': State, c: CallId)
    requires c in s.calls && CallOk(s, c, s.calls[c]) && Rely(s, s', c) && Bindings(s)
    requires Bindings(s') && LinksCounted(s')
    ensures CallOk(s', c, s.calls[c])
  {
    match s.calls[c].pc {
      case Wr(w) => WriterStays(s, s', c, w);
      case Rd(r) => ReaderStays(s, s', c, r);
      case Lk(l) => LockerStays(s, s', c, l);
      case _ =>
    }
  }
}
