/** The private-file protocol of `PrivateDir` on Linux, as a transition system.

    Any number of processes run any number of `write`, `read` and `lock` calls on
    one directory.  Every call carries a program counter, and one event of the
    system is one system call of one call (or a process being started or killed).
    Every system call may fail; a failed system call changes nothing.

    The directory is kept as two maps, `names` for the names callers use and
    `temps` for the writers' temporaries; `Names.SpellingIsInjective` shows that
    the two never meet.

    Auxiliary state, which no step of the program reads: `Inode.maker`,
    `Call.effect`, `Call.leaked`, `Proc.tickets`, `log` and `origin`. */
module Publication {
  import opened Wrappers

  type Bytes = seq<bv8>
  type Ino = nat
  type CallId = nat
  type Pid = nat

  const MAX_BYTES: nat := 16 * 1024 * 1024
  const TEMP_TRIES: nat := 128

  datatype Error = Missing | AlreadyExists | UnsafePath | NotPrivate | TooLarge | Busy | Io | CommitUncertain
  datatype Answer = Ok(bytes: Bytes) | Err(error: Error)
  datatype Publish = CreateNew | ReplaceExisting | Upsert

  /** Permission bits as four octal digits; `special` holds set-uid, set-gid and sticky. */
  datatype Mode = Mode(special: nat, user: nat, group: nat, other: nat)

  datatype Kind = Regular | Symlink | Directory | Fifo | Socket
  datatype Maker = Foreign | Writer(call: CallId) | Locker
  datatype Inode = Inode(kind: Kind, uid: nat, mode: Mode, nlink: nat, bytes: Bytes, synced: bool, maker: Maker)
  datatype Temp = Temp(pid: Pid, serial: nat)
  datatype DirMeta = DirMeta(isDir: bool, uid: nat, mode: Mode)

  datatype Op =
    | Write(name: string, payload: Bytes, publish: Publish)
    | Read(name: string, limit: nat)
    | Lock(name: string)

  /** What a call has already done to, or seen of, the name it works on. */
  datatype Effect = Waiting | Published(slot: nat) | Got(bytes: Bytes) | Failed(error: Error)

  datatype WritePc =
    | PreDir | PreOpen | PreStat(ino: Ino)               // open_file inside write
    | TakeTicket(tries: nat)                             // TEMP_ID.fetch_add
    | CreateTemp(tries: nat, serial: nat)                // openat with O_EXCL
    | TempStat(serial: nat, ino: Ino)                    // check_file on the temporary
    | WriteAll(serial: nat, ino: Ino, written: nat)      // one write() of write_all
    | SyncFile(serial: nat, ino: Ino)
    | Rename(serial: nat, ino: Ino)
    | SyncDir(serial: nat)
    | Unlink(serial: nat, error: Error)

  datatype ReadPc =
    | OpenRead | ReadStat(ino: Ino) | ReadLen(ino: Ino)
    | ReadChunk(ino: Ino, buffer: Bytes)                 // one read() of read_to_end

  datatype LockPc =
    | OpenLock | LockStat(ino: Ino) | TryLock(ino: Ino)
    | Holding(ino: Ino)                                  // lock() returned, its handle is alive

  datatype Pc =
    | Enter                                              // argument checks
    | CheckDir                                           // fstat on the directory handle
    | Wr(w: WritePc) | Rd(r: ReadPc) | Lk(l: LockPc)
    | Leaving(answer: Answer)                            // result computed, not yet returned
    | Done(answer: Answer)
    | Killed

  datatype Call = Call(pid: Pid, euid: nat, op: Op, pc: Pc, effect: Effect, leaked: bool)
  datatype Proc = Proc(euid: nat, umask: Mode, counter: nat, tickets: map<nat, CallId>)
  /** One binding of a caller's name to a file made by this crate. */
  datatype Commit = Commit(call: CallId, name: string, ino: Ino)

  datatype State = State(
    meta: DirMeta,                    // the directory itself
    lockNames: set<string>,           // names used with lock(), never with write()
    origin: map<string, Ino>,         // the names found when the run started
    names: map<string, Ino>,
    temps: map<Temp, Ino>,
    inodes: map<Ino, Inode>,
    flocks: map<Ino, CallId>,         // advisory locks
    log: seq<Commit>,
    durable: nat,                     // log[..durable] is covered by a directory fsync
    procs: map<Pid, Proc>,
    calls: map<CallId, Call>)

  // ---------------------------------------------------------------- checks

  /** `mode & 0o7077 == 0` */
  predicate PrivateMode(mode: Mode) { mode.special == 0 && mode.group == 0 && mode.other == 0 }

  predicate Bit(digit: nat, weight: nat)
    requires weight > 0
  {
    digit / weight % 2 == 1
  }

  /** `digit & !mask`, bit by bit. */
  function AndNot(digit: nat, mask: nat): (r: nat) {
    (if Bit(digit, 4) && !Bit(mask, 4) then 4 else 0)
    + (if Bit(digit, 2) && !Bit(mask, 2) then 2 else 0)
    + (if Bit(digit, 1) && !Bit(mask, 1) then 1 else 0)
  }

  /** The mode of something created with `mode` under a umask, which has no say over the special bits. */
  function Masked(mode: Mode, umask: Mode): (r: Mode) {
    Mode(mode.special, AndNot(mode.user, umask.user), AndNot(mode.group, umask.group), AndNot(mode.other, umask.other))
  }

  /** `0o600` under the process's umask. */
  function CreatedMode(umask: Mode): (mode: Mode)
    ensures PrivateMode(mode)
  {
    Masked(Mode(0, 6, 0, 0), umask)
  }

  /** `check_dir(_, true)`. */
  function CheckPrivateDir(meta: DirMeta, euid: nat): (failure: Option<Error>) {
    if !meta.isDir then Some(UnsafePath)
    else if meta.uid != euid || !PrivateMode(meta.mode) then Some(NotPrivate)
    else None
  }

  /** `check_file`. */
  predicate CheckFile(inode: Inode, euid: nat, allowUnlinked: bool) {
    && inode.kind == Regular
    && inode.uid == euid
    && PrivateMode(inode.mode)
    && (inode.nlink == 1 || (allowUnlinked && inode.nlink == 0))
  }

  /** What opening an inode without following links answers. */
  function OpenFailure(kind: Kind): (failure: Option<Error>) {
    match kind
    case Symlink => Some(UnsafePath)  // ELOOP
    case Socket => Some(Io)           // ENXIO
    case _ => None
  }

  function LockOpenFailure(kind: Kind): (failure: Option<Error>) {
    match kind
    case Symlink => Some(UnsafePath)
    case Socket => Some(Io)
    case Directory => Some(Io)        // EISDIR: opened for writing
    case _ => None
  }

  /** `Path::components` yields exactly one `Normal`; a name spelled with a slash is left out of the model. */
  predicate Leaf(name: string) {
    name != "" && name != "." && name != ".." && '/' !in name
  }

  // ----------------------------------------------------------------- steps

  /** What the kernel decides in one step: whether the call fails, how many bytes move, which inode number is new. */
  datatype Choice = Choice(fault: bool, amount: nat, newIno: Ino)

  function Clamp(amount: nat, most: nat): (k: nat)
    requires 0 < most
    ensures 1 <= k <= most
  {
    if amount == 0 then 1 else if amount > most then most else amount
  }

  function With(s: State, c: CallId, pc: Pc): (s': State)
    requires c in s.calls
  {
    s.(calls := s.calls[c := s.calls[c].(pc := pc)])
  }

  function WithEffect(s: State, c: CallId, pc: Pc, effect: Effect): (s': State)
    requires c in s.calls
  {
    s.(calls := s.calls[c := s.calls[c].(pc := pc, effect := effect)])
  }

  predicate Live(call: Call) { !call.pc.Done? && !call.pc.Killed? }

  /** A call can take a step when its process is alive. */
  predicate Runnable(s: State, c: CallId) {
    c in s.calls && Live(s.calls[c]) && s.calls[c].pid in s.procs
  }

  /** The argument checks, in the order each operation makes them. */
  function ArgumentFailure(op: Op): (failure: Option<Error>) {
    match op
    case Write(name, payload, _) =>
      if !Leaf(name) then Some(UnsafePath) else if |payload| > MAX_BYTES then Some(TooLarge) else None
    case Read(name, limit) =>
      if limit == 0 || limit > MAX_BYTES then Some(TooLarge) else if !Leaf(name) then Some(UnsafePath) else None
    case Lock(name) => if !Leaf(name) then Some(UnsafePath) else None
  }

  function EnterStep(s: State, c: CallId): (s': State)
    requires c in s.calls
  {
    var failure := ArgumentFailure(s.calls[c].op);
    With(s, c, if failure.Some? then Leaving(Err(failure.value)) else CheckDir)
  }

  function CheckDirStep(s: State, c: CallId, fault: bool, next: Pc): (s': State)
    requires Runnable(s, c)
  {
    var failure := if fault then Some(Io) else CheckPrivateDir(s.meta, s.calls[c].euid);
    With(s, c, if failure.Some? then Leaving(Err(failure.value)) else next)
  }

  function AfterCheckDir(op: Op): (pc: Pc) {
    match op
    case Write(_, _, publish) => if publish == CreateNew then Wr(TakeTicket(0)) else Wr(PreDir)
    case Read(_, _) => Rd(OpenRead)
    case Lock(_) => Lk(OpenLock)
  }

  /** How the name looks to `open_file`: a private file, or the error it answers. */
  function Failure(s: State, i: Ino): (failure: Option<Error>)
    requires i in s.inodes
  {
    var inode := s.inodes[i];
    if OpenFailure(inode.kind).Some? then OpenFailure(inode.kind)
    else if CheckFile(inode, s.meta.uid, true) then None
    else Some(NotPrivate)
  }

  function OpenedEffect(s: State, i: Ino, good: Effect): (effect: Effect)
    requires i in s.inodes
  {
    var failure := Failure(s, i);
    if failure.Some? then Failed(failure.value) else good
  }

  /** `openat` of an existing name: refused, or on to `check_file`. */
  function OpenedPc(s: State, i: Ino, next: Pc): (pc: Pc)
    requires i in s.inodes
  {
    var refused := OpenFailure(s.inodes[i].kind);
    if refused.Some? then Leaving(Err(refused.value)) else next
  }

  function PreOpenStep(s: State, c: CallId, fault: bool): (s': State)
    requires c in s.calls && s.calls[c].op.Write?
    requires forall n :: n in s.names ==> s.names[n] in s.inodes
  {
    var op := s.calls[c].op;
    var (pc, effect) :=
      if fault then (Leaving(Err(Io)), s.calls[c].effect)
      else if op.name in s.names then
        (OpenedPc(s, s.names[op.name], Wr(PreStat(s.names[op.name]))),
         OpenedEffect(s, s.names[op.name], s.calls[c].effect))
      else if op.publish == Upsert then (Wr(TakeTicket(0)), s.calls[c].effect)
      else (Leaving(Err(Missing)), Failed(Missing));
    WithEffect(s, c, pc, effect)
  }

  function StatStep(s: State, c: CallId, i: Ino, fault: bool, allowUnlinked: bool, next: Pc): (s': State)
    requires Runnable(s, c) && i in s.inodes
  {
    With(s, c, if fault then Leaving(Err(Io))
               else if !CheckFile(s.inodes[i], s.calls[c].euid, allowUnlinked) then Leaving(Err(NotPrivate))
               else next)
  }

  /** The counter is shared by the process; the step is one atomic fetch-and-add. */
  function TakeTicketStep(s: State, c: CallId, tries: nat): (s': State)
    requires Runnable(s, c)
  {
    var pid := s.calls[c].pid;
    var proc := s.procs[pid];
    With(s, c, Wr(CreateTemp(tries, proc.counter)))
      .(procs := s.procs[pid := proc.(counter := proc.counter + 1, tickets := proc.tickets[proc.counter := c])])
  }

  function CreateTempStep(s: State, c: CallId, tries: nat, serial: nat, choice: Choice): (s': State)
    requires Runnable(s, c)
  {
    var pid := s.calls[c].pid;
    var proc := s.procs[pid];
    if choice.fault then With(s, c, Leaving(Err(Io)))
    else if Temp(pid, serial) in s.temps then
      With(s, c, if tries + 1 < TEMP_TRIES then Wr(TakeTicket(tries + 1)) else Leaving(Err(Busy)))
    else
      With(s, c, Wr(TempStat(serial, choice.newIno)))
        .(temps := s.temps[Temp(pid, serial) := choice.newIno],
          inodes := s.inodes[choice.newIno :=
                               Inode(Regular, s.calls[c].euid, CreatedMode(proc.umask), 1, [], false, Writer(c))])
  }

  function TempStatStep(s: State, c: CallId, serial: nat, i: Ino, fault: bool): (s': State)
    requires Runnable(s, c) && i in s.inodes && s.calls[c].op.Write?
  {
    With(s, c, if fault then Wr(Unlink(serial, Io))
               else if !CheckFile(s.inodes[i], s.calls[c].euid, false) then Wr(Unlink(serial, NotPrivate))
               else if s.calls[c].op.payload == [] then Wr(SyncFile(serial, i))
               else Wr(WriteAll(serial, i, 0)))
  }

  function WriteAllStep(s: State, c: CallId, serial: nat, i: Ino, written: nat, choice: Choice): (s': State)
    requires Runnable(s, c) && i in s.inodes && s.calls[c].op.Write? && written < |s.calls[c].op.payload|
  {
    if choice.fault then With(s, c, Wr(Unlink(serial, Io)))
    else
      var payload := s.calls[c].op.payload;
      var end := written + Clamp(choice.amount, |payload| - written);
      With(s, c, if end == |payload| then Wr(SyncFile(serial, i)) else Wr(WriteAll(serial, i, end)))
        .(inodes := s.inodes[i := s.inodes[i].(bytes := s.inodes[i].bytes + payload[written..end], synced := false)])
  }

  function SyncFileStep(s: State, c: CallId, serial: nat, i: Ino, fault: bool): (s': State)
    requires Runnable(s, c) && i in s.inodes
  {
    if fault then With(s, c, Wr(Unlink(serial, Io)))
    else With(s, c, Wr(Rename(serial, i))).(inodes := s.inodes[i := s.inodes[i].(synced := true)])
  }

  function DropLink(inode: Inode): (r: Inode) {
    if inode.nlink == 0 then inode else inode.(nlink := inode.nlink - 1)
  }

  /** `renameat` of the temporary over the name: one atomic step. */
  function RenameStep(s: State, c: CallId, serial: nat, i: Ino, fault: bool): (s': State)
    requires Runnable(s, c) && s.calls[c].op.Write?
    requires forall n :: n in s.names ==> s.names[n] in s.inodes
  {
    var op := s.calls[c].op;
    if fault then With(s, c, Wr(Unlink(serial, Io)))
    else if op.publish == CreateNew && op.name in s.names then
      WithEffect(s, c, Wr(Unlink(serial, AlreadyExists)), Failed(AlreadyExists))
    else if op.name in s.names && s.inodes[s.names[op.name]].kind == Directory then
      With(s, c, Wr(Unlink(serial, Io)))  // EISDIR
    else
      var inodes := if op.name in s.names
                    then s.inodes[s.names[op.name] := DropLink(s.inodes[s.names[op.name]])]
                    else s.inodes;
      WithEffect(s, c, Wr(SyncDir(serial)), Published(|s.log|))
        .(names := s.names[op.name := i], temps := s.temps - {Temp(s.calls[c].pid, serial)},
          inodes := inodes, log := s.log + [Commit(c, op.name, i)])
  }

  function SyncDirStep(s: State, c: CallId, serial: nat, fault: bool): (s': State)
    requires c in s.calls
  {
    if fault then With(s, c, Wr(Unlink(serial, CommitUncertain)))
    else With(s, c, Leaving(Ok([]))).(durable := |s.log|)
  }

  /** The failure path of `write`: the result of `unlinkat` is ignored. */
  function UnlinkStep(s: State, c: CallId, serial: nat, error: Error, fault: bool): (s': State)
    requires c in s.calls
    requires forall t :: t in s.temps ==> s.temps[t] in s.inodes
  {
    var t := Temp(s.calls[c].pid, serial);
    var left := s.calls[c].(pc := Leaving(Err(error)));
    if fault then s.(calls := s.calls[c := left.(leaked := t in s.temps)])
    else if t !in s.temps then s.(calls := s.calls[c := left])  // ENOENT
    else s.(calls := s.calls[c := left], temps := s.temps - {t},
            inodes := s.inodes[s.temps[t] := DropLink(s.inodes[s.temps[t]])])
  }

  function OpenReadStep(s: State, c: CallId, fault: bool): (s': State)
    requires c in s.calls && s.calls[c].op.Read?
    requires forall n :: n in s.names ==> s.names[n] in s.inodes
  {
    var name := s.calls[c].op.name;
    var (pc, effect) :=
      if fault then (Leaving(Err(Io)), s.calls[c].effect)
      else if name in s.names then
        (OpenedPc(s, s.names[name], Rd(ReadStat(s.names[name]))),
         OpenedEffect(s, s.names[name], Got(s.inodes[s.names[name]].bytes)))
      else (Leaving(Err(Missing)), Failed(Missing));
    WithEffect(s, c, pc, effect)
  }

  function ReadLenStep(s: State, c: CallId, i: Ino, fault: bool): (s': State)
    requires c in s.calls && s.calls[c].op.Read? && i in s.inodes
  {
    With(s, c, if fault then Leaving(Err(Io))
               else if |s.inodes[i].bytes| > s.calls[c].op.limit then Leaving(Err(TooLarge))
               else Rd(ReadChunk(i, [])))
  }

  /** One `read` of `take(limit + 1).read_to_end`; an empty read ends it. */
  function ReadChunkPc(i: Ino, bytes: Bytes, limit: nat, buffer: Bytes, choice: Choice): (pc: Pc) {
    if choice.fault then Leaving(Err(Io))
    else if |buffer| > limit then Leaving(Err(TooLarge))
    else if |buffer| >= |bytes| then Leaving(Ok(buffer))
    else
      var rest := |bytes| - |buffer|;
      var room := limit + 1 - |buffer|;
      var k := Clamp(choice.amount, if rest < room then rest else room);
      Rd(ReadChunk(i, buffer + bytes[|buffer|..|buffer| + k]))
  }

  function ReadChunkStep(s: State, c: CallId, i: Ino, buffer: Bytes, choice: Choice): (s': State)
    requires c in s.calls && s.calls[c].op.Read? && i in s.inodes
  {
    With(s, c, ReadChunkPc(i, s.inodes[i].bytes, s.calls[c].op.limit, buffer, choice))
  }

  /** `openat` with `O_CREAT` and without `O_EXCL`. */
  function OpenLockStep(s: State, c: CallId, choice: Choice): (s': State)
    requires Runnable(s, c) && s.calls[c].op.Lock?
    requires forall n :: n in s.names ==> s.names[n] in s.inodes
  {
    var name := s.calls[c].op.name;
    var proc := s.procs[s.calls[c].pid];
    if choice.fault then With(s, c, Leaving(Err(Io)))
    else if name in s.names then
      var refused := LockOpenFailure(s.inodes[s.names[name]].kind);
      With(s, c, if refused.Some? then Leaving(Err(refused.value)) else Lk(LockStat(s.names[name])))
    else
      WithEffect(s, c, Lk(LockStat(choice.newIno)), Published(|s.log|))
        .(names := s.names[name := choice.newIno],
          inodes := s.inodes[choice.newIno :=
                               Inode(Regular, s.calls[c].euid, CreatedMode(proc.umask), 1, [], false, Locker)],
          log := s.log + [Commit(c, name, choice.newIno)])
  }

  function TryLockStep(s: State, c: CallId, i: Ino, fault: bool): (s': State)
    requires c in s.calls
  {
    if fault then With(s, c, Leaving(Err(Io)))
    else if i in s.flocks then With(s, c, Leaving(Err(Busy)))
    else With(s, c, Lk(Holding(i))).(flocks := s.flocks[i := c])
  }

  /** Dropping the returned handle closes it, which releases the lock. */
  function DropHandleStep(s: State, c: CallId, i: Ino): (s': State)
    requires c in s.calls
  {
    With(s, c, Done(Ok([]))).(flocks := s.flocks - {i})
  }

  /** The inode a program counter works on exists, and the counter belongs to the operation. */
  predicate WellPlaced(s: State, call: Call) {
    match call.pc
    case Wr(w) => call.op.Write? && WriterPlaced(s, call.op, w)
    case Rd(r) => call.op.Read? && (!r.OpenRead? ==> r.ino in s.inodes)
    case Lk(l) => call.op.Lock? && (!l.OpenLock? ==> l.ino in s.inodes)
    case _ => true
  }

  predicate WriterPlaced(s: State, op: Op, w: WritePc)
    requires op.Write?
  {
    && (w.PreStat? || w.TempStat? || w.WriteAll? || w.SyncFile? || w.Rename? ==> w.ino in s.inodes)
    && (w.WriteAll? ==> w.written < |op.payload|)
  }

  predicate Bindings(s: State) {
    && (forall n :: n in s.names ==> s.names[n] in s.inodes)
    && (forall t :: t in s.temps ==> s.temps[t] in s.inodes)
  }

  predicate CanGo(s: State, c: CallId, choice: Choice) {
    Runnable(s, c) && choice.newIno !in s.inodes && Bindings(s) && WellPlaced(s, s.calls[c])
  }

  function AdvanceWriter(s: State, c: CallId, w: WritePc, choice: Choice): (s': State)
    requires Runnable(s, c) && Bindings(s) && s.calls[c].op.Write? && WriterPlaced(s, s.calls[c].op, w)
  {
    var fault := choice.fault;
    match w
    case PreDir => CheckDirStep(s, c, fault, Wr(PreOpen))
    case PreOpen => PreOpenStep(s, c, fault)
    case PreStat(i) => StatStep(s, c, i, fault, true, Wr(TakeTicket(0)))
    case TakeTicket(tries) => TakeTicketStep(s, c, tries)
    case CreateTemp(tries, serial) => CreateTempStep(s, c, tries, serial, choice)
    case TempStat(serial, i) => TempStatStep(s, c, serial, i, fault)
    case WriteAll(serial, i, written) => WriteAllStep(s, c, serial, i, written, choice)
    case SyncFile(serial, i) => SyncFileStep(s, c, serial, i, fault)
    case Rename(serial, i) => RenameStep(s, c, serial, i, fault)
    case SyncDir(serial) => SyncDirStep(s, c, serial, fault)
    case Unlink(serial, error) => UnlinkStep(s, c, serial, error, fault)
  }

  function AdvanceReader(s: State, c: CallId, r: ReadPc, choice: Choice): (s': State)
    requires Runnable(s, c) && Bindings(s) && s.calls[c].op.Read? && (!r.OpenRead? ==> r.ino in s.inodes)
  {
    match r
    case OpenRead => OpenReadStep(s, c, choice.fault)
    case ReadStat(i) => StatStep(s, c, i, choice.fault, true, Rd(ReadLen(i)))
    case ReadLen(i) => ReadLenStep(s, c, i, choice.fault)
    case ReadChunk(i, buffer) => ReadChunkStep(s, c, i, buffer, choice)
  }

  function AdvanceLocker(s: State, c: CallId, l: LockPc, choice: Choice): (s': State)
    requires Runnable(s, c) && Bindings(s) && s.calls[c].op.Lock? && (!l.OpenLock? ==> l.ino in s.inodes)
  {
    match l
    case OpenLock => OpenLockStep(s, c, choice)
    case LockStat(i) => StatStep(s, c, i, choice.fault, false, Lk(TryLock(i)))
    case TryLock(i) => TryLockStep(s, c, i, choice.fault)
    case Holding(i) => DropHandleStep(s, c, i)
  }

  /** One step of one call. */
  function Advance(s: State, c: CallId, choice: Choice): (s': State)
    requires CanGo(s, c, choice)
  {
    var call := s.calls[c];
    match call.pc
    case Enter => EnterStep(s, c)
    case CheckDir => CheckDirStep(s, c, choice.fault, AfterCheckDir(call.op))
    case Wr(w) => AdvanceWriter(s, c, w, choice)
    case Rd(r) => AdvanceReader(s, c, r, choice)
    case Lk(l) => AdvanceLocker(s, c, l, choice)
    case Leaving(answer) => With(s, c, Done(answer))
  }

  // ---------------------------------------------------------------- events

  datatype Event =
    | Spawn(pid: Pid, euid: nat, umask: Mode)
    | Kill(pid: Pid)
    | Invoke(call: CallId, pid: Pid, op: Op)
    | Go(call: CallId, choice: Choice)
    | Interrupt(call: CallId)           // a signal ends a system call that the standard library then repeats

  /** Lock names are never `write` targets: the discipline the crate asks of its callers. */
  predicate Disciplined(s: State, op: Op) {
    match op
    case Write(name, _, _) => name !in s.lockNames
    case Read(_, _) => true
    case Lock(name) => name in s.lockNames
  }

  /** `write_all`, `sync_all` and `read_to_end` repeat a system call that answers `EINTR`. */
  predicate Repeated(pc: Pc) {
    (pc.Wr? && (pc.w.WriteAll? || pc.w.SyncFile?)) || (pc.Rd? && pc.r.ReadChunk?)
  }

  predicate Enabled(s: State, event: Event) {
    match event
    case Spawn(pid, _, _) => pid !in s.procs
    case Kill(pid) => pid in s.procs
    case Invoke(c, pid, op) => c !in s.calls && pid in s.procs && Disciplined(s, op)
    case Go(c, choice) => CanGo(s, c, choice)
    case Interrupt(c) => Runnable(s, c) && Repeated(s.calls[c].pc)
  }

  function Slain(call: Call, pid: Pid): (r: Call) {
    if call.pid == pid && Live(call) then call.(pc := Killed) else call
  }

  /** A dying process takes all its calls with it, and the kernel closes its handles. */
  function KillStep(s: State, pid: Pid): (s': State) {
    s.(procs := s.procs - {pid},
       calls := map c | c in s.calls :: Slain(s.calls[c], pid),
       flocks := map i | i in s.flocks && (s.flocks[i] in s.calls ==> s.calls[s.flocks[i]].pid != pid) :: s.flocks[i])
  }

  function Apply(s: State, event: Event): (s': State)
    requires Enabled(s, event)
  {
    match event
    case Spawn(pid, euid, umask) => s.(procs := s.procs[pid := Proc(euid, umask, 0, map[])])
    case Kill(pid) => KillStep(s, pid)
    case Invoke(c, pid, op) => s.(calls := s.calls[c := Call(pid, s.procs[pid].euid, op, Enter, Waiting, false)])
    case Go(c, choice) => Advance(s, c, choice)
    case Interrupt(_) => s
  }

  ghost predicate Step(s: State, s': State) {
    exists event :: Enabled(s, event) && s' == Apply(s, event)
  }

  /** A run starts in any directory nobody is working on: whatever files, links, hard links
      and stale temporaries it holds, their link counts are right and they are on disk. */
  predicate Initial(s: State) {
    && Bindings(s)
    && s.origin == s.names && s.log == [] && s.durable == 0
    && s.procs == map[] && s.calls == map[] && s.flocks == map[]
    && (forall i :: i in s.inodes ==> s.inodes[i].maker == Foreign && s.inodes[i].synced)
    && LinksCounted(s)
  }

  predicate LinksCounted(s: State)
    requires Bindings(s)
  {
    Links(s.names, s.temps, s.inodes)
  }

  /** A bound inode has a link, and an inode with one link has one name. */
  predicate Links(names: map<string, Ino>, temps: map<Temp, Ino>, inodes: map<Ino, Inode>)
    requires forall n :: n in names ==> names[n] in inodes
    requires forall t :: t in temps ==> temps[t] in inodes
  {
    && (forall n :: n in names ==> inodes[names[n]].nlink >= 1)
    && (forall t :: t in temps ==> inodes[temps[t]].nlink >= 1)
    && (forall m, n :: m in names && n in names && m != n && names[m] == names[n] ==> inodes[names[n]].nlink > 1)
    && (forall t, u :: t in temps && u in temps && t != u && temps[t] == temps[u] ==> inodes[temps[u]].nlink > 1)
    && (forall n, t :: n in names && t in temps && names[n] == temps[t] ==> inodes[temps[t]].nlink > 1)
  }

  ghost predicate StepAt(run: seq<State>, k: nat)
    requires k + 1 < |run|
  {
    Step(run[k], run[k + 1])
  }

  /** Every state follows from the one before by one event. */
  ghost predicate Steps(run: seq<State>) {
    forall k: nat :: k + 1 < |run| ==> StepAt(run, k)
  }

  /** Finite runs. */
  ghost predicate Run(run: seq<State>) {
    |run| > 0 && Initial(run[0]) && Steps(run)
  }
}
