/** `write`, `read` and `lock` as the code that runs them.

    The code sees only what its system calls answer and decides from that alone what to do next; between any
    two of its system calls the others take any number of steps.  Every system call is one step of the
    transition system, whose program counter (`pc`, a ghost here) must agree with where the code stands:
    the code and the transition system are two accounts of one program, and each method below is checked
    to keep them together. */
module PrivateDirCalls {
  import opened Publication
  import opened PublicationInvariant
  import opened PublicationSteps
  import opened PublicationTheorems
  import opened PublicationAnswers

  // -------------------------------------------------- what system calls answer

  /** A call, the process that makes it, what it was asked to do, and whether all its system calls succeed. */
  datatype Job = Job(c: CallId, pid: Pid, euid: nat, op: Op, calm: bool)

  datatype Errno = NOENT | EXIST | LOOP | OTHER

  /** `errno` */
  function ErrorOf(errno: Errno): (error: Error) {
    match errno
    case NOENT => Missing
    case EXIST => AlreadyExists
    case LOOP => UnsafePath
    case OTHER => Io
  }

  datatype Sys<+T> = Val(value: T) | Fail(errno: Errno)
  datatype Locked = Acquired | WouldBlock | LockFailed
  datatype Result<+T> = Success(value: T) | Failure(error: Error)

  function OpenAnswer(s: State, name: string, fault: bool): (r: Sys<Ino>)
    requires Bindings(s)
  {
    if fault then Fail(OTHER)
    else if name !in s.names then Fail(NOENT)
    else match s.inodes[s.names[name]].kind
      case Symlink => Fail(LOOP)
      case Socket => Fail(OTHER)
      case _ => Val(s.names[name])
  }

  function CreateAnswer(s: State, t: Temp, choice: Choice): (r: Sys<Ino>) {
    if choice.fault then Fail(OTHER) else if t in s.temps then Fail(EXIST) else Val(choice.newIno)
  }

  function RenameAnswer(s: State, name: string, noReplace: bool, fault: bool): (r: Sys<()>)
    requires Bindings(s)
  {
    if fault then Fail(OTHER)
    else if noReplace && name in s.names then Fail(EXIST)
    else if name in s.names && s.inodes[s.names[name]].kind == Directory then Fail(OTHER)
    else Val(())
  }

  function OpenLockAnswer(s: State, name: string, choice: Choice): (r: Sys<Ino>)
    requires Bindings(s)
  {
    if choice.fault then Fail(OTHER)
    else if name !in s.names then Val(choice.newIno)
    else match s.inodes[s.names[name]].kind
      case Symlink => Fail(LOOP)
      case Socket => Fail(OTHER)
      case Directory => Fail(OTHER)
      case _ => Val(s.names[name])
  }

  /** What `read` gives from an offset, up to `room` bytes; nothing at the end of the file. */
  function ReadAnswer(bytes: Bytes, offset: nat, room: nat, choice: Choice): (r: Sys<Bytes>)
    requires room > 0
    ensures r.Val? ==> |r.value| <= room
  {
    if choice.fault then Fail(OTHER)
    else if offset >= |bytes| then Val([])
    else
      var rest := |bytes| - offset;
      Val(bytes[offset..offset + Clamp(choice.amount, if rest < room then rest else room)])
  }

  // ---------------------------------------------------------------- other callers

  /** Everything the code does not decide: which events of others happen before its next system call,
      how that call goes, and which inode number is free. */
  datatype World = World(pauses: nat -> nat, event: (nat, nat) -> Event, choice: nat -> Choice, newIno: State -> Ino)


  ghost predicate Suits(world: World, job: Job) {
    (forall s :: world.newIno(s) !in s.inodes) && (job.calm ==> forall t :: !world.choice(t).fault)
  }

  /** The event is another call's, a process coming or going, or an interrupted system call that the standard
      library repeats; not a step of `c` and not its death. */
  predicate Elsewhere(event: Event, c: CallId, pid: Pid) {
    match event
    case Kill(p) => p != pid
    case Go(d, _) => d != c
    case Invoke(d, _, _) => d != c
    case Spawn(_, _, _) => true
    case Interrupt(_) => true
  }

  lemma ElsewhereKeepsCall(s: State, event: Event, c: CallId)
    requires Inv(s) && Enabled(s, event) && c in s.calls && Elsewhere(event, c, s.calls[c].pid)
    ensures c in Apply(s, event).calls && Apply(s, event).calls[c] == s.calls[c]
  {
    if event.Go? {
      assert CallOk(s, event.call, s.calls[event.call]);
      GoGrows(s, event.call, event.choice);
    }
  }

  lemma OthersKeepCall(run: seq<State>, k: nat, event: Event, c: CallId)
    requires Run(run) && k < |run| && Enabled(run[k], event)
    requires c in run[k].calls && Elsewhere(event, c, run[k].calls[c].pid)
    ensures c in Apply(run[k], event).calls && Apply(run[k], event).calls[c] == run[k].calls[c]
  {
    RunInv(run, k);
    ElsewhereKeepsCall(run[k], event, c);
  }

  // ---------------------------------------------------------------------- runs

  lemma EventIsStep(s: State, event: Event)
    requires Enabled(s, event)
    ensures Step(s, Apply(s, event))
  {}

  lemma OldStepStays(run: seq<State>, s': State, k: nat)
    requires k + 1 < |run| && StepAt(run, k)
    ensures StepAt(run + [s'], k)
  {
    assert (run + [s'])[k] == run[k] && (run + [s'])[k + 1] == run[k + 1];
  }

  lemma NewStepIsLast(run: seq<State>, s': State)
    requires run != [] && Step(run[|run| - 1], s')
    ensures StepAt(run + [s'], |run| - 1)
  {
    assert (run + [s'])[|run| - 1] == run[|run| - 1] && (run + [s'])[|run|] == s';
  }

  lemma StepsAppend(run: seq<State>, s': State)
    requires run != [] && Steps(run) && StepAt(run + [s'], |run| - 1)
    ensures Steps(run + [s'])
  {
    forall k: nat | k + 1 < |run + [s']| ensures StepAt(run + [s'], k) {
      if k + 1 < |run| { OldStepStays(run, s', k); }
    }
  }

  lemma RunExtends(run: seq<State>, event: Event)
    requires Run(run) && Enabled(run[|run| - 1], event)
    ensures Run(run + [Apply(run[|run| - 1], event)])
  {
    EventIsStep(run[|run| - 1], event);
    NewStepIsLast(run, Apply(run[|run| - 1], event));
    StepsAppend(run, Apply(run[|run| - 1], event));
  }

  lemma OldEventStays(run: seq<State>, events: seq<Event>, event: Event, s': State, k: nat)
    requires |run| == |events| + 1 && k < |events| && EventAt(run, events, k)
    ensures EventAt(run + [s'], events + [event], k)
  {
    assert (run + [s'])[k] == run[k] && (run + [s'])[k + 1] == run[k + 1] && (events + [event])[k] == events[k];
  }

  lemma NewEventIsLast(run: seq<State>, events: seq<Event>, event: Event)
    requires |run| == |events| + 1 && Enabled(run[|events|], event)
    ensures EventAt(run + [Apply(run[|events|], event)], events + [event], |events|)
  {}

  lemma HappenedAppend(run: seq<State>, events: seq<Event>, event: Event, s': State)
    requires |run| == |events| + 1 && Happened(run, events) && EventAt(run + [s'], events + [event], |events|)
    ensures Happened(run + [s'], events + [event])
  {
    forall k: nat | k < |events + [event]| ensures EventAt(run + [s'], events + [event], k) {
      if k < |events| { OldEventStays(run, events, event, s', k); }
    }
  }

  lemma LabelExtends(run: seq<State>, events: seq<Event>, event: Event)
    requires Labelled(run, events) && Enabled(run[|events|], event)
    ensures Labelled(run + [Apply(run[|events|], event)], events + [event])
  {
    NewEventIsLast(run, events, event);
    HappenedAppend(run, events, event, Apply(run[|events|], event));
  }

  lemma FaultedAppend(events: seq<Event>, event: Event, c: CallId)
    ensures Faulted(events + [event], |events| + 1, c) <==>
              Faulted(events, |events|, c) || (event.Go? && event.call == c && event.choice.fault)
  {
    var more := events + [event];
    if j: nat :| j < |events| && StepOf(events, j, c) && events[j].choice.fault {
      assert StepOf(more, j, c) && more[j].choice.fault;
    }
    if j: nat :| j < |events| + 1 && StepOf(more, j, c) && more[j].choice.fault {
      if j < |events| { assert StepOf(events, j, c) && events[j].choice.fault; }
    }
    if event.Go? && event.call == c && event.choice.fault { assert StepOf(more, |events|, c); }
  }

  lemma MayStep(run: seq<State>, k: nat, c: CallId, choice: Choice)
    requires Run(run) && k < |run| && c in run[k].calls && Live(run[k].calls[c]) && choice.newIno !in run[k].inodes
    ensures CanGo(run[k], c, choice)
    ensures var s' := Advance(run[k], c, choice); c in s'.calls && CallGrows(run[k].calls[c], s'.calls[c])
  {
    RunInv(run, k);
    NeverStuck(run[k], c);
    assert CallOk(run[k], c, run[k].calls[c]);
    GoGrows(run[k], c, choice);
  }

  lemma HolderHolds(run: seq<State>, k: nat, c: CallId)
    requires Run(run) && k < |run| && c in run[k].calls && run[k].calls[c].pc.Lk? && run[k].calls[c].pc.l.Holding?
    ensures var i := run[k].calls[c].pc.l.ino; i in run[k].flocks && run[k].flocks[i] == c
  {
    RunInv(run, k);
    assert CallOk(run[k], c, run[k].calls[c]);
  }

  /** The temporary is bound to the call's own inode, which has that one name and is a private file. */
  predicate HasTemp(s: State, job: Job, serial: nat, i: Ino) {
    var t := Temp(job.pid, serial);
    && t in s.temps && s.temps[t] == i && i in s.inodes && s.inodes[i].maker == Writer(job.c)
    && s.inodes[i].nlink == 1 && s.inodes[i].kind == Regular && s.inodes[i].uid == s.meta.uid
    && s.inodes[i].mode.special == 0 && s.inodes[i].mode.group == 0 && s.inodes[i].mode.other == 0
  }

  lemma ClaimedIsOwn(run: seq<State>, k: nat, job: Job, serial: nat, i: Ino)
    requires Run(run) && k < |run| && job.c in run[k].calls && run[k].calls[job.c].pid == job.pid
    requires run[k].calls[job.c].pc == Wr(TempStat(serial, i)) || run[k].calls[job.c].pc == Wr(Rename(serial, i))
    ensures HasTemp(run[k], job, serial, i)
    ensures run[k].calls[job.c].pc == Wr(Rename(serial, i)) && run[k].calls[job.c].op.Write? ==>
              run[k].inodes[i].synced && run[k].inodes[i].bytes == run[k].calls[job.c].op.payload
  {
    RunInv(run, k);
    assert CallOk(run[k], job.c, run[k].calls[job.c]);
    assert MadeOk(run[k], i);
  }

  lemma OkIsSynced(run: seq<State>, k: nat, c: CallId)
    requires Run(run) && k < |run| && c in run[k].calls && run[k].calls[c].op.Write? && run[k].calls[c].pc.Done?
    ensures run[k].calls[c].pc.answer.Ok? ==>
              run[k].calls[c].effect.Published? && run[k].calls[c].effect.slot < run[k].durable
  {
    RunInv(run, k);
    assert CallOk(run[k], c, run[k].calls[c]);
  }

  // ------------------------------------------- where a step leads, by its answer

  function AfterArguments(op: Op): (pc: Pc) {
    var failure := ArgumentFailure(op);
    if failure.Some? then Leaving(Err(failure.value)) else CheckDir
  }

  function AfterStatDir(r: Sys<DirMeta>, euid: nat, next: Pc): (pc: Pc) {
    if r.Fail? then Leaving(Err(Io))
    else if CheckPrivateDir(r.value, euid).Some? then Leaving(Err(CheckPrivateDir(r.value, euid).value))
    else next
  }

  function AfterStat(r: Sys<Inode>, euid: nat, allowUnlinked: bool, next: Pc): (pc: Pc) {
    if r.Fail? then Leaving(Err(Io))
    else if !CheckFile(r.value, euid, allowUnlinked) then Leaving(Err(NotPrivate))
    else next
  }

  function AfterPreOpen(publish: Publish, r: Sys<Ino>): (pc: Pc) {
    match r
    case Val(i) => Wr(PreStat(i))
    case Fail(errno) =>
      if errno == NOENT && publish == Upsert then Wr(TakeTicket(0)) else Leaving(Err(ErrorOf(errno)))
  }

  function AfterOpenRead(r: Sys<Ino>): (pc: Pc) {
    match r
    case Val(i) => Rd(ReadStat(i))
    case Fail(errno) => Leaving(Err(ErrorOf(errno)))
  }

  function AfterCreate(tries: nat, serial: nat, r: Sys<Ino>): (pc: Pc) {
    match r
    case Val(i) => Wr(TempStat(serial, i))
    case Fail(errno) =>
      if errno != EXIST then Leaving(Err(ErrorOf(errno)))
      else if tries + 1 < TEMP_TRIES then Wr(TakeTicket(tries + 1))
      else Leaving(Err(Busy))
  }

  /** Where the writer stands with `written` bytes of its payload written. */
  function WrittenPc(payload: Bytes, serial: nat, i: Ino, written: nat): (pc: Pc) {
    if written == |payload| then Wr(SyncFile(serial, i)) else Wr(WriteAll(serial, i, written))
  }

  function AfterTempStat(payload: Bytes, serial: nat, i: Ino, r: Sys<Inode>, euid: nat): (pc: Pc) {
    if r.Fail? then Wr(Unlink(serial, Io))
    else if !CheckFile(r.value, euid, false) then Wr(Unlink(serial, NotPrivate))
    else WrittenPc(payload, serial, i, 0)
  }

  lemma PreOpenLeads(s: State, c: CallId, fault: bool)
    requires Bindings(s) && c in s.calls && s.calls[c].op.Write? && s.calls[c].pc == Wr(PreOpen)
    ensures PreOpenStep(s, c, fault).calls[c].pc ==
              AfterPreOpen(s.calls[c].op.publish, OpenAnswer(s, s.calls[c].op.name, fault))
  {}

  lemma OpenReadLeads(s: State, c: CallId, fault: bool)
    requires Bindings(s) && c in s.calls && s.calls[c].op.Read? && s.calls[c].pc == Rd(OpenRead)
    ensures OpenReadStep(s, c, fault).calls[c].pc == AfterOpenRead(OpenAnswer(s, s.calls[c].op.name, fault))
  {}

  lemma RenameLeads(s: State, c: CallId, serial: nat, i: Ino, fault: bool)
    requires Bindings(s) && Runnable(s, c) && s.calls[c].op.Write? && s.calls[c].pc == Wr(Rename(serial, i))
    ensures var r := RenameAnswer(s, s.calls[c].op.name, s.calls[c].op.publish == CreateNew, fault);
            RenameStep(s, c, serial, i, fault).calls[c].pc ==
              if r.Val? then Wr(SyncDir(serial)) else Wr(Unlink(serial, ErrorOf(r.errno)))
  {
    var s', op := RenameStep(s, c, serial, i, fault), s.calls[c].op;
    if fault {
      assert s' == With(s, c, Wr(Unlink(serial, Io)));
    } else if op.publish == CreateNew && op.name in s.names {
      assert s' == WithEffect(s, c, Wr(Unlink(serial, AlreadyExists)), Failed(AlreadyExists));
    } else if op.name in s.names && s.inodes[s.names[op.name]].kind == Directory {
      assert s' == With(s, c, Wr(Unlink(serial, Io)));
    } else {
      assert s'.calls == WithEffect(s, c, Wr(SyncDir(serial)), Published(|s.log|)).calls;
    }
  }

  lemma CreateLeads(s: State, c: CallId, tries: nat, serial: nat, choice: Choice)
    requires Runnable(s, c)
    ensures CreateTempStep(s, c, tries, serial, choice).calls[c].pc ==
              AfterCreate(tries, serial, CreateAnswer(s, Temp(s.calls[c].pid, serial), choice))
  {
    var s' := CreateTempStep(s, c, tries, serial, choice);
    if choice.fault {
      assert s' == With(s, c, Leaving(Err(Io)));
    } else if Temp(s.calls[c].pid, serial) !in s.temps {
      assert s'.calls == With(s, c, Wr(TempStat(serial, choice.newIno))).calls;
    }
  }

  lemma UnlinkLeads(s: State, c: CallId, serial: nat, error: Error, fault: bool)
    requires Bindings(s) && Runnable(s, c)
    ensures UnlinkStep(s, c, serial, error, fault).calls[c].pc == Leaving(Err(error))
  {}

  lemma OpenLockLeads(s: State, c: CallId, choice: Choice)
    requires Bindings(s) && Runnable(s, c) && s.calls[c].op.Lock? && s.calls[c].pc == Lk(OpenLock)
    ensures var r := OpenLockAnswer(s, s.calls[c].op.name, choice);
            OpenLockStep(s, c, choice).calls[c].pc ==
              if r.Val? then Lk(LockStat(r.value)) else Leaving(Err(ErrorOf(r.errno)))
  {}

  lemma ReadLeads(s: State, c: CallId, i: Ino, buffer: Bytes, choice: Choice)
    requires Runnable(s, c) && s.calls[c].op.Read? && i in s.inodes && |buffer| <= s.calls[c].op.limit
    ensures var r := ReadAnswer(s.inodes[i].bytes, |buffer|, s.calls[c].op.limit + 1 - |buffer|, choice);
            ReadChunkStep(s, c, i, buffer, choice).calls[c].pc ==
              if r.Fail? then Leaving(Err(Io))
              else if r.value == [] then Leaving(Ok(buffer))
              else Rd(ReadChunk(i, buffer + r.value))
  {}

  lemma ReadAdvances(s: State, c: CallId, i: Ino, buffer: Bytes, choice: Choice)
    requires CanGo(s, c, choice) && s.calls[c].pc == Rd(ReadChunk(i, buffer))
    ensures Advance(s, c, choice) == ReadChunkStep(s, c, i, buffer, choice)
  {}

  // ------------------------------------------------------------------ the code

  /** The two places that check the directory, and where each goes on. */
  predicate AtDirCheck(op: Op, pc: Pc, next: Pc) {
    (pc == CheckDir && next == AfterCheckDir(op)) || (pc == Wr(PreDir) && next == Wr(PreOpen) && op.Write?)
  }

  /** The three places that check an open file, whether a file without links passes, and where each goes on. */
  predicate AtFileCheck(i: Ino, pc: Pc, next: Pc, allowUnlinked: bool) {
    || (pc == Wr(PreStat(i)) && next == Wr(TakeTicket(0)) && allowUnlinked)
    || (pc == Rd(ReadStat(i)) && next == Rd(ReadLen(i)) && allowUnlinked)
    || (pc == Lk(LockStat(i)) && next == Lk(TryLock(i)) && !allowUnlinked)
  }

  predicate Alive(pc: Pc) { !pc.Done? && !pc.Killed? }

  class Directory {
    var state: State
    var turn: nat
    ghost var run: seq<State>
    ghost var events: seq<Event>

    ghost predicate Valid()
      reads this
    {
      Run(run) && Labelled(run, events) && state == run[|run| - 1]
    }

    /** The job's call stands at `pc`; `before` is how the run began. */
    ghost predicate Stands(job: Job, pc: Pc, before: seq<State>)
      reads this
    {
      && Valid() && before <= run && job.c in state.calls
      && state.calls[job.c].pid == job.pid && state.calls[job.c].euid == job.euid
      && state.calls[job.c].op == job.op && state.calls[job.c].pc == pc
      && (job.calm ==> !Faulted(events, |events|, job.c))
    }

    /** The others take some steps. */
    method Pause(job: Job, ghost pc: Pc, ghost before: seq<State>, world: World)
      requires Stands(job, pc, before)
      modifies this
      ensures Stands(job, pc, before)
    {
      for j := 0 to world.pauses(turn)
        invariant Stands(job, pc, before)
      {
        var event := world.event(turn, j);
        if Enabled(state, event) && Elsewhere(event, job.c, job.pid) {
          Happen(job, event);
        }
      }
      turn := turn + 1;
    }

    /** One event of the others. */
    method Happen(job: Job, event: Event)
      requires Valid() && Enabled(state, event) && job.c in state.calls && state.calls[job.c].pid == job.pid
      requires Elsewhere(event, job.c, job.pid)
      modifies this
      ensures Valid() && old(run) <= run && job.c in state.calls && state.calls[job.c] == old(state.calls[job.c])
      ensures turn == old(turn)
      ensures Faulted(events, |events|, job.c) <==> old(Faulted(events, |events|, job.c))
    {
      OthersKeepCall(run, |run| - 1, event, job.c);
      RunExtends(run, event);
      LabelExtends(run, events, event);
      FaultedAppend(events, event, job.c);
      state := Apply(state, event);
      run := run + [state];
      events := events + [event];
    }

    /** The next step of the job, after whatever the others did meanwhile; `s` is the state it met. */
    method Proceed(job: Job, ghost pc: Pc, ghost before: seq<State>, mayFail: bool, world: World)
      returns (s: State, choice: Choice)
      requires Stands(job, pc, before) && Alive(pc) && Suits(world, job)
      modifies this
      ensures CanGo(s, job.c, choice) && (choice.fault ==> mayFail && !job.calm)
      ensures state == Advance(s, job.c, choice)
      ensures s.calls[job.c].pid == job.pid && s.calls[job.c].euid == job.euid
      ensures s.calls[job.c].op == job.op && s.calls[job.c].pc == pc
      ensures job.c in state.calls && Stands(job, state.calls[job.c].pc, before)
    {
      Pause(job, pc, before, world);
      s := state;
      choice := world.choice(turn).(newIno := world.newIno(state), fault := world.choice(turn).fault && mayFail);
      MayStep(run, |run| - 1, job.c, choice);
      Extend(job.c, choice);
    }

    /** The step is taken and recorded. */
    method Extend(c: CallId, choice: Choice)
      requires Valid() && CanGo(state, c, choice)
      modifies this
      ensures Valid() && run == old(run) + [state] && state == Advance(old(state), c, choice)
      ensures Faulted(events, |events|, c) <==> old(Faulted(events, |events|, c)) || choice.fault
    {
      RunExtends(run, Go(c, choice));
      LabelExtends(run, events, Go(c, choice));
      FaultedAppend(events, Go(c, choice), c);
      state := Advance(state, c, choice);
      run := run + [state];
      events := events + [Go(c, choice)];
    }

    // ------------------------------------------------------------ system calls

    /** Where the source looks at its arguments no system call is made. */
    method Arguments(job: Job, ghost before: seq<State>, world: World)
      requires Stands(job, Enter, before) && Suits(world, job)
      modifies this
      ensures Stands(job, AfterArguments(job.op), before)
    {
      var s, choice := Proceed(job, Enter, before, false, world);
      assert state == EnterStep(s, job.c);
    }

    method Return(job: Job, ghost answer: Answer, ghost before: seq<State>, world: World)
      requires Stands(job, Leaving(answer), before) && Suits(world, job)
      modifies this
      ensures Stands(job, Done(answer), before)
    {
      var s, choice := Proceed(job, Leaving(answer), before, false, world);
    }

    /** `fstat` of the directory. */
    method StatDir(job: Job, ghost pc: Pc, ghost next: Pc, ghost before: seq<State>, world: World)
      returns (r: Sys<DirMeta>)
      requires Stands(job, pc, before) && Suits(world, job)
      requires AtDirCheck(job.op, pc, next)
      modifies this
      ensures Stands(job, AfterStatDir(r, job.euid, next), before)
    {
      var s, choice := Proceed(job, pc, before, true, world);
      assert state == CheckDirStep(s, job.c, choice.fault, next);
      r := if choice.fault then Fail(OTHER) else Val(s.meta);
    }

    /** `openat` in the pre-check of `write`. */
    method OpenTarget(job: Job, name: string, ghost before: seq<State>, world: World) returns (r: Sys<Ino>)
      requires Stands(job, Wr(PreOpen), before) && job.op.Write? && name == job.op.name && Suits(world, job)
      modifies this
      ensures Stands(job, AfterPreOpen(job.op.publish, r), before)
    {
      var s, choice := Proceed(job, Wr(PreOpen), before, true, world);
      PreOpenLeads(s, job.c, choice.fault);
      r := OpenAnswer(s, name, choice.fault);
    }

    /** `openat` in `read`. */
    method OpenForRead(job: Job, name: string, ghost before: seq<State>, world: World) returns (r: Sys<Ino>)
      requires Stands(job, Rd(OpenRead), before) && job.op.Read? && name == job.op.name && Suits(world, job)
      modifies this
      ensures Stands(job, AfterOpenRead(r), before)
    {
      var s, choice := Proceed(job, Rd(OpenRead), before, true, world);
      OpenReadLeads(s, job.c, choice.fault);
      r := OpenAnswer(s, name, choice.fault);
    }

    /** `fstat` of an open file. */
    method Stat(job: Job, i: Ino, ghost pc: Pc, ghost allowUnlinked: bool, ghost next: Pc, ghost before: seq<State>,
                world: World) returns (r: Sys<Inode>)
      requires Stands(job, pc, before) && Suits(world, job)
      requires AtFileCheck(i, pc, next, allowUnlinked)
      modifies this
      ensures Stands(job, AfterStat(r, job.euid, allowUnlinked, next), before)
    {
      var s, choice := Proceed(job, pc, before, true, world);
      assert state == StatStep(s, job.c, i, choice.fault, allowUnlinked, next);
      r := if choice.fault then Fail(OTHER) else Val(s.inodes[i]);
    }

    /** `TEMP_ID.fetch_add(1)` */
    method FetchAdd(job: Job, ghost tries: nat, ghost before: seq<State>, world: World) returns (serial: nat)
      requires Stands(job, Wr(TakeTicket(tries)), before) && Suits(world, job)
      modifies this
      ensures Stands(job, Wr(CreateTemp(tries, serial)), before)
    {
      var s, choice := Proceed(job, Wr(TakeTicket(tries)), before, false, world);
      serial := s.procs[job.pid].counter;
      assert state == TakeTicketStep(s, job.c, tries);
    }

    /** `openat` with `O_CREAT | O_EXCL`. */
    method OpenExclusive(job: Job, serial: nat, ghost tries: nat, ghost before: seq<State>, world: World)
      returns (r: Sys<Ino>)
      requires Stands(job, Wr(CreateTemp(tries, serial)), before) && Suits(world, job)
      modifies this
      ensures Stands(job, AfterCreate(tries, serial, r), before)
    {
      var s, choice := Proceed(job, Wr(CreateTemp(tries, serial)), before, true, world);
      CreateLeads(s, job.c, tries, serial, choice);
      r := CreateAnswer(s, Temp(job.pid, serial), choice);
    }

    /** `fstat` of the temporary. */
    method StatTemp(job: Job, i: Ino, ghost serial: nat, ghost before: seq<State>, world: World) returns (r: Sys<Inode>)
      requires job.op.Write? && Stands(job, Wr(TempStat(serial, i)), before) && Suits(world, job)
      modifies this
      ensures Stands(job, AfterTempStat(job.op.payload, serial, i, r, job.euid), before)
    {
      var s, choice := Proceed(job, Wr(TempStat(serial, i)), before, true, world);
      assert state == TempStatStep(s, job.c, serial, i, choice.fault);
      r := if choice.fault then Fail(OTHER) else Val(s.inodes[i]);
    }

    /** `write`: some of the bytes that are left. */
    method WriteSome(job: Job, i: Ino, written: nat, ghost serial: nat, ghost before: seq<State>, world: World)
      returns (r: Sys<nat>)
      requires job.op.Write? && written < |job.op.payload|
      requires Stands(job, Wr(WriteAll(serial, i, written)), before) && Suits(world, job)
      modifies this
      ensures r.Val? ==> 1 <= r.value <= |job.op.payload| - written
      ensures Stands(job, if r.Fail? then Wr(Unlink(serial, Io))
                          else WrittenPc(job.op.payload, serial, i, written + r.value), before)
    {
      var s, choice := Proceed(job, Wr(WriteAll(serial, i, written)), before, true, world);
      assert state == WriteAllStep(s, job.c, serial, i, written, choice);
      r := if choice.fault then Fail(OTHER) else Val(Clamp(choice.amount, |job.op.payload| - written));
    }

    /** `fsync` of the temporary. */
    method SyncTemp(job: Job, i: Ino, ghost serial: nat, ghost before: seq<State>, world: World) returns (r: Sys<()>)
      requires Stands(job, Wr(SyncFile(serial, i)), before) && Suits(world, job)
      modifies this
      ensures Stands(job, if r.Val? then Wr(Rename(serial, i)) else Wr(Unlink(serial, Io)), before)
    {
      var s, choice := Proceed(job, Wr(SyncFile(serial, i)), before, true, world);
      assert state == SyncFileStep(s, job.c, serial, i, choice.fault);
      r := if choice.fault then Fail(OTHER) else Val(());
    }

    /** `renameat`, with `RENAME_NOREPLACE` or without. */
    method Renameat(job: Job, name: string, noReplace: bool, ghost serial: nat, ghost i: Ino, ghost before: seq<State>,
                    world: World) returns (r: Sys<()>)
      requires job.op.Write? && name == job.op.name && noReplace == (job.op.publish == CreateNew)
      requires Stands(job, Wr(Rename(serial, i)), before) && Suits(world, job)
      modifies this
      ensures Stands(job, if r.Val? then Wr(SyncDir(serial)) else Wr(Unlink(serial, ErrorOf(r.errno))), before)
    {
      var s, choice := Proceed(job, Wr(Rename(serial, i)), before, true, world);
      RenameLeads(s, job.c, serial, i, choice.fault);
      r := RenameAnswer(s, name, noReplace, choice.fault);
    }

    /** `fsync` of the directory. */
    method SyncDirectory(job: Job, ghost serial: nat, ghost before: seq<State>, world: World) returns (r: Sys<()>)
      requires Stands(job, Wr(SyncDir(serial)), before) && Suits(world, job)
      modifies this
      ensures Stands(job, if r.Val? then Leaving(Ok([])) else Wr(Unlink(serial, CommitUncertain)), before)
    {
      var s, choice := Proceed(job, Wr(SyncDir(serial)), before, true, world);
      assert state == SyncDirStep(s, job.c, serial, choice.fault);
      r := if choice.fault then Fail(OTHER) else Val(());
    }

    /** `unlinkat`; nobody looks at its answer. */
    method Unlinkat(job: Job, serial: nat, ghost error: Error, ghost before: seq<State>, world: World)
      requires Stands(job, Wr(Unlink(serial, error)), before) && Suits(world, job)
      modifies this
      ensures Stands(job, Leaving(Err(error)), before)
    {
      var s, choice := Proceed(job, Wr(Unlink(serial, error)), before, true, world);
      UnlinkLeads(s, job.c, serial, error, choice.fault);
    }

    /** `fstat`, for the length. */
    method Length(job: Job, i: Ino, ghost before: seq<State>, world: World) returns (r: Sys<nat>)
      requires job.op.Read? && Stands(job, Rd(ReadLen(i)), before) && Suits(world, job)
      modifies this
      ensures Stands(job, if r.Fail? then Leaving(Err(Io))
                          else if r.value > job.op.limit then Leaving(Err(TooLarge))
                          else Rd(ReadChunk(i, [])), before)
    {
      var s, choice := Proceed(job, Rd(ReadLen(i)), before, true, world);
      assert state == ReadLenStep(s, job.c, i, choice.fault);
      r := if choice.fault then Fail(OTHER) else Val(|s.inodes[i].bytes|);
    }

    /** `read` of at most `room` bytes. */
    method ReadSome(job: Job, i: Ino, room: nat, ghost buffer: Bytes, ghost before: seq<State>, world: World)
      returns (r: Sys<Bytes>)
      requires job.op.Read? && room > 0 && |buffer| + room == job.op.limit + 1
      requires Stands(job, Rd(ReadChunk(i, buffer)), before) && Suits(world, job)
      modifies this
      ensures if r.Val? then |r.value| <= room else !job.calm
      ensures Stands(job, if r.Fail? then Leaving(Err(Io))
                          else if r.value == [] then Leaving(Ok(buffer))
                          else Rd(ReadChunk(i, buffer + r.value)), before)
    {
      var s, choice := Proceed(job, Rd(ReadChunk(i, buffer)), before, true, world);
      ReadAdvances(s, job.c, i, buffer, choice);
      ReadLeads(s, job.c, i, buffer, choice);
      r := ReadAnswer(s.inodes[i].bytes, job.op.limit + 1 - room, room, choice);
    }

    /** `take` is exhausted; no system call is made. */
    method Exhausted(job: Job, ghost i: Ino, ghost buffer: Bytes, ghost before: seq<State>, world: World)
      requires job.op.Read? && |buffer| > job.op.limit
      requires Stands(job, Rd(ReadChunk(i, buffer)), before) && Suits(world, job)
      modifies this
      ensures Stands(job, Leaving(Err(TooLarge)), before)
    {
      var s, choice := Proceed(job, Rd(ReadChunk(i, buffer)), before, false, world);
      assert state == ReadChunkStep(s, job.c, i, buffer, choice);
    }

    /** `openat` with `O_CREAT`. */
    method OpenLockFile(job: Job, name: string, ghost before: seq<State>, world: World) returns (r: Sys<Ino>)
      requires job.op.Lock? && name == job.op.name && Stands(job, Lk(OpenLock), before) && Suits(world, job)
      modifies this
      ensures Stands(job, if r.Val? then Lk(LockStat(r.value)) else Leaving(Err(ErrorOf(r.errno))), before)
    {
      var s, choice := Proceed(job, Lk(OpenLock), before, true, world);
      OpenLockLeads(s, job.c, choice);
      r := OpenLockAnswer(s, name, choice);
    }

    /** `flock` without waiting. */
    method TakeLock(job: Job, i: Ino, ghost before: seq<State>, world: World) returns (r: Locked)
      requires Stands(job, Lk(TryLock(i)), before) && Suits(world, job)
      modifies this
      ensures Stands(job, match r { case Acquired => Lk(Holding(i)) case WouldBlock => Leaving(Err(Busy))
                                    case LockFailed => Leaving(Err(Io)) }, before)
    {
      var s, choice := Proceed(job, Lk(TryLock(i)), before, true, world);
      assert state == TryLockStep(s, job.c, i, choice.fault);
      r := if choice.fault then LockFailed else if i in s.flocks then WouldBlock else Acquired;
    }

    // ------------------------------------------------------------------- checks

    /** `check_dir(_, true)` */
    method CheckDirectory(job: Job, ghost pc: Pc, ghost next: Pc, ghost before: seq<State>, world: World)
      returns (r: Result<()>)
      requires Stands(job, pc, before) && Suits(world, job)
      requires AtDirCheck(job.op, pc, next)
      modifies this
      ensures r.Failure? ==> r.error != Missing
      ensures Stands(job, if r.Success? then next else Leaving(Err(r.error)), before)
    {
      var stat := StatDir(job, pc, next, before, world);
      if stat.Fail? {
        return Failure(Io);
      }
      if !stat.value.isDir {
        return Failure(UnsafePath);
      }
      if stat.value.uid != job.euid || !PrivateMode(stat.value.mode) {
        return Failure(NotPrivate);
      }
      return Success(());
    }

    /** `check_file` on metadata. */
    method Check(meta: Inode, euid: nat, allowUnlinked: bool) returns (good: bool)
      ensures good == CheckFile(meta, euid, allowUnlinked)
    {
      good := !(meta.kind != Regular || meta.uid != euid || !PrivateMode(meta.mode)
                || (meta.nlink != 1 && !(allowUnlinked && meta.nlink == 0)));
    }

    method CheckOpened(job: Job, i: Ino, allowUnlinked: bool, ghost pc: Pc, ghost next: Pc, ghost before: seq<State>,
                       world: World) returns (r: Result<()>)
      requires Stands(job, pc, before) && Suits(world, job)
      requires AtFileCheck(i, pc, next, allowUnlinked)
      modifies this
      ensures r.Failure? ==> r.error != Missing
      ensures Stands(job, if r.Success? then next else Leaving(Err(r.error)), before)
    {
      var stat := Stat(job, i, pc, allowUnlinked, next, before, world);
      if stat.Fail? {
        return Failure(Io);
      }
      var good := Check(stat.value, job.euid, allowUnlinked);
      return if good then Success(()) else Failure(NotPrivate);
    }

    // -------------------------------------------------------------------- write

    /** `open_file` inside `write`; `leaf` has passed. */
    method PreCheck(job: Job, name: string, ghost before: seq<State>, world: World) returns (r: Result<Ino>)
      requires job.op.Write? && name == job.op.name && Stands(job, Wr(PreDir), before) && Suits(world, job)
      modifies this
      ensures Stands(job, if r.Success? || (r.error == Missing && job.op.publish == Upsert) then Wr(TakeTicket(0))
                          else Leaving(Err(r.error)), before)
    {
      var checked := CheckDirectory(job, Wr(PreDir), Wr(PreOpen), before, world);
      if checked.Failure? {
        return Failure(checked.error);
      }
      var handle := OpenTarget(job, name, before, world);
      if handle.Fail? {
        return Failure(ErrorOf(handle.errno));
      }
      checked := CheckOpened(job, handle.value, true, Wr(PreStat(handle.value)), Wr(TakeTicket(0)), before, world);
      return if checked.Success? then Success(handle.value) else Failure(checked.error);
    }

    /** The loop over temporary names: at most 128 draws, each name its own, and the first free one is taken. */
    method Claim(job: Job, ghost before: seq<State>, world: World) returns (r: Result<(nat, Ino)>)
      requires Stands(job, Wr(TakeTicket(0)), before) && Suits(world, job)
      modifies this
      ensures Stands(job, if r.Success? then Wr(TempStat(r.value.0, r.value.1)) else Leaving(Err(r.error)), before)
      ensures r.Success? ==> HasTemp(state, job, r.value.0, r.value.1)
    {
      for tries := 0 to TEMP_TRIES
        invariant Stands(job, if tries < TEMP_TRIES then Wr(TakeTicket(tries)) else Leaving(Err(Busy)), before)
      {
        var serial := FetchAdd(job, tries, before, world);
        var handle := OpenExclusive(job, serial, tries, before, world);
        if handle.Val? {
          ClaimedIsOwn(run, |run| - 1, job, serial, handle.value);
          return Success((serial, handle.value));
        }
        if handle.errno != EXIST {
          return Failure(ErrorOf(handle.errno));
        }
      }
      return Failure(Busy);
    }

    /** `write_all` */
    method WriteAllBytes(job: Job, bytes: Bytes, i: Ino, ghost serial: nat, ghost before: seq<State>, world: World)
      returns (ok: bool)
      requires job.op.Write? && bytes == job.op.payload && Suits(world, job)
      requires Stands(job, WrittenPc(bytes, serial, i, 0), before)
      modifies this
      ensures Stands(job, if ok then Wr(SyncFile(serial, i)) else Wr(Unlink(serial, Io)), before)
    {
      var written := 0;
      while written < |bytes|
        invariant written <= |bytes| && Stands(job, WrittenPc(bytes, serial, i, written), before)
      {
        var r := WriteSome(job, i, written, serial, before, world);
        if r.Fail? {
          return false;
        }
        written := written + r.value;
      }
      return true;
    }

    /** `check_file` on the temporary. */
    method CheckTemp(job: Job, i: Ino, ghost serial: nat, ghost before: seq<State>, world: World)
      returns (r: Result<()>)
      requires job.op.Write? && Suits(world, job) && Stands(job, Wr(TempStat(serial, i)), before)
      modifies this
      ensures Stands(job, if r.Success? then WrittenPc(job.op.payload, serial, i, 0) else Wr(Unlink(serial, r.error)),
                     before)
    {
      var stat := StatTemp(job, i, serial, before, world);
      if stat.Fail? {
        return Failure(Io);
      }
      var good := Check(stat.value, job.euid, false);
      return if good then Success(()) else Failure(NotPrivate);
    }

    /** `check_file`, `write_all` and `sync_all` on the temporary. */
    method Fill(job: Job, bytes: Bytes, i: Ino, ghost serial: nat, ghost before: seq<State>, world: World)
      returns (r: Result<()>)
      requires job.op.Write? && bytes == job.op.payload && Suits(world, job)
      requires Stands(job, Wr(TempStat(serial, i)), before)
      modifies this
      ensures Stands(job, if r.Success? then Wr(Rename(serial, i)) else Wr(Unlink(serial, r.error)), before)
      ensures r.Success? ==> HasTemp(state, job, serial, i) && state.inodes[i].synced && state.inodes[i].bytes == bytes
    {
      r := CheckTemp(job, i, serial, before, world);
      if r.Failure? {
        return;
      }
      var ok := WriteAllBytes(job, bytes, i, serial, before, world);
      if !ok {
        return Failure(Io);
      }
      var synced := SyncTemp(job, i, serial, before, world);
      if synced.Fail? {
        return Failure(Io);
      }
      ClaimedIsOwn(run, |run| - 1, job, serial, i);
    }

    /** The rename and the directory sync. */
    method Commit(job: Job, name: string, publish: Publish, ghost serial: nat, ghost i: Ino, ghost before: seq<State>,
                  world: World) returns (r: Result<()>)
      requires job.op.Write? && name == job.op.name && publish == job.op.publish && Suits(world, job)
      requires Stands(job, Wr(Rename(serial, i)), before)
      modifies this
      ensures Stands(job, if r.Success? then Leaving(Ok([])) else Wr(Unlink(serial, r.error)), before)
    {
      var renamed := Renameat(job, name, publish == CreateNew, serial, i, before, world);
      if renamed.Fail? {
        return Failure(ErrorOf(renamed.errno));
      }
      var synced := SyncDirectory(job, serial, before, world);
      return if synced.Val? then Success(()) else Failure(CommitUncertain);
    }

    /** The closure of `write`, and the unlink when it failed. */
    method Publish(job: Job, name: string, bytes: Bytes, publish: Publish, serial: nat, i: Ino,
                   ghost before: seq<State>, world: World) returns (answer: Answer)
      requires job.op == Op.Write(name, bytes, publish) && Suits(world, job)
      requires Stands(job, Wr(TempStat(serial, i)), before)
      modifies this
      ensures Stands(job, Leaving(answer), before)
    {
      var r := Fill(job, bytes, i, serial, before, world);
      if r.Success? {
        r := Commit(job, name, publish, serial, i, before, world);
      }
      if r.Success? {
        return Ok([]);
      }
      Unlinkat(job, serial, r.error, before, world);
      return Err(r.error);
    }

    /** `write` from its first system call on. */
    method WriteChecked(job: Job, name: string, bytes: Bytes, publish: Publish, ghost before: seq<State>, world: World)
      returns (answer: Answer)
      requires job.op == Op.Write(name, bytes, publish) && Suits(world, job)
      requires Stands(job, CheckDir, before)
      modifies this
      ensures Stands(job, Leaving(answer), before)
    {
      var checked := CheckDirectory(job, CheckDir, AfterCheckDir(job.op), before, world);
      if checked.Failure? {
        return Err(checked.error);
      }
      if publish != CreateNew {
        var handle := PreCheck(job, name, before, world);
        if handle.Failure? && !(handle.error == Missing && publish == Upsert) {
          return Err(handle.error);
        }
      }
      var temporary := Claim(job, before, world);
      if temporary.Failure? {
        return Err(temporary.error);
      }
      answer := Publish(job, name, bytes, publish, temporary.value.0, temporary.value.1, before, world);
    }

    /** `write`: its answer is `Ok` or `CommitUncertain` exactly when it committed, once, and `Ok` is durable.  If
        its system calls succeed the answer is the exact one. */
    method Write(job: Job, name: string, bytes: Bytes, publish: Publish, world: World)
      returns (answer: Answer, ghost at: nat)
      requires job.op == Op.Write(name, bytes, publish) && Stands(job, Enter, run) && Suits(world, job)
      modifies this
      ensures Stands(job, Done(answer), old(run))
      ensures |CommitsOf(state.log, job.c)| == if answer == Ok([]) || answer == Err(CommitUncertain) then 1 else 0
      ensures answer.Ok? ==> state.calls[job.c].effect.Published? && state.calls[job.c].effect.slot < state.durable
      ensures job.calm ==> Exact(run, events, at, |events|, job.c)
    {
      answer := WriteAnswered(job, name, bytes, publish, run, world);
      OkIsSynced(run, |run| - 1, job.c);
      AnswersAreHonest(run, |run| - 1, job.c);
      at := 0;
      if job.calm { at := AnswersAreExact(run, events, |events|, job.c); }
    }

    /** The code of `write`. */
    method WriteAnswered(job: Job, name: string, bytes: Bytes, publish: Publish, ghost before: seq<State>, world: World)
      returns (answer: Answer)
      requires job.op == Op.Write(name, bytes, publish) && Stands(job, Enter, before) && Suits(world, job)
      modifies this
      ensures Stands(job, Done(answer), before)
    {
      Arguments(job, before, world);
      if !Leaf(name) {
        answer := Err(UnsafePath);
      } else if |bytes| > MAX_BYTES {
        answer := Err(TooLarge);
      } else {
        answer := WriteChecked(job, name, bytes, publish, before, world);
      }
      Return(job, answer, before, world);
    }

    // --------------------------------------------------------------------- read

    /** `open_file` */
    method OpenFile(job: Job, name: string, ghost before: seq<State>, world: World) returns (r: Result<Ino>)
      requires job.op.Read? && name == job.op.name && Suits(world, job)
      requires Stands(job, if Leaf(name) then CheckDir else Leaving(Err(UnsafePath)), before)
      modifies this
      ensures Stands(job, if r.Success? then Rd(ReadLen(r.value)) else Leaving(Err(r.error)), before)
    {
      if !Leaf(name) {
        return Failure(UnsafePath);
      }
      var checked := CheckDirectory(job, CheckDir, Rd(OpenRead), before, world);
      if checked.Failure? {
        return Failure(checked.error);
      }
      var handle := OpenForRead(job, name, before, world);
      if handle.Fail? {
        return Failure(ErrorOf(handle.errno));
      }
      var i := handle.value;
      checked := CheckOpened(job, i, true, Rd(ReadStat(i)), Rd(ReadLen(i)), before, world);
      return if checked.Success? then Success(handle.value) else Failure(checked.error);
    }

    /** `take(limit + 1).read_to_end` */
    method ReadToEnd(job: Job, i: Ino, limit: nat, ghost before: seq<State>, world: World) returns (r: Result<Bytes>)
      requires job.op.Read? && limit == job.op.limit && Stands(job, Rd(ReadChunk(i, [])), before) && Suits(world, job)
      modifies this
      ensures if r.Success? then |r.value| <= limit + 1 else !job.calm
      ensures Stands(job, if r.Failure? then Leaving(Err(r.error))
                          else if |r.value| > limit then Leaving(Err(TooLarge))
                          else Leaving(Ok(r.value)), before)
    {
      var buffer := [];
      while |buffer| <= limit
        invariant |buffer| <= limit + 1 && Stands(job, Rd(ReadChunk(i, buffer)), before)
        decreases limit + 1 - |buffer|
      {
        var chunk := ReadSome(job, i, limit + 1 - |buffer|, buffer, before, world);
        if chunk.Fail? {
          return Failure(Io);
        }
        if chunk.value == [] {
          return Success(buffer);
        }
        buffer := buffer + chunk.value;
      }
      Exhausted(job, i, buffer, before, world);
      return Success(buffer);
    }

    /** `read` from `open_file` on. */
    method ReadOpened(job: Job, name: string, limit: nat, ghost before: seq<State>, world: World)
      returns (answer: Answer)
      requires job.op == Op.Read(name, limit) && Suits(world, job)
      requires Stands(job, if Leaf(name) then CheckDir else Leaving(Err(UnsafePath)), before)
      modifies this
      ensures Stands(job, Leaving(answer), before)
    {
      var handle := OpenFile(job, name, before, world);
      if handle.Failure? {
        return Err(handle.error);
      }
      var length := Length(job, handle.value, before, world);
      if length.Fail? {
        return Err(Io);
      }
      if length.value > limit {
        return Err(TooLarge);
      }
      var bytes := ReadToEnd(job, handle.value, limit, before, world);
      if bytes.Failure? {
        return Err(bytes.error);
      }
      return if |bytes.value| > limit then Err(TooLarge) else Ok(bytes.value);
    }

    /** `read`: an `Ok` answer is within the limit and is what the name held at one moment of the call.  If its
        system calls succeed the answer is the exact one. */
    method Read(job: Job, name: string, limit: nat, world: World)
      returns (answer: Answer, ghost at: nat, ghost look: nat)
      requires job.op == Op.Read(name, limit) && Stands(job, Enter, run) && Suits(world, job)
      modifies this
      ensures Stands(job, Done(answer), old(run))
      ensures answer.Ok? ==> |answer.bytes| <= limit && at < |run| && ReadAt(run[at], job.c, answer.bytes)
      ensures job.calm ==> Exact(run, events, look, |events|, job.c)
    {
      ghost var before := run;
      Arguments(job, before, world);
      if limit == 0 || limit > MAX_BYTES {
        answer := Err(TooLarge);
      } else {
        answer := ReadOpened(job, name, limit, before, world);
      }
      Return(job, answer, before, world);
      at := 0;
      look := 0;
      if job.calm { look := AnswersAreExact(run, events, |events|, job.c); }
      if answer.Ok? { at := ReadsAreAtomic(run, |run| - 1, job.c); }
    }

    // --------------------------------------------------------------------- lock

    /** `lock` from its first system call on. */
    method LockChecked(job: Job, name: string, ghost before: seq<State>, world: World) returns (r: Result<Ino>)
      requires job.op == Op.Lock(name) && Suits(world, job) && Stands(job, CheckDir, before)
      modifies this
      ensures Stands(job, if r.Success? then Lk(Holding(r.value)) else Leaving(Err(r.error)), before)
    {
      var checked := CheckDirectory(job, CheckDir, Lk(OpenLock), before, world);
      if checked.Failure? {
        return Failure(checked.error);
      }
      r := OpenAndLock(job, name, before, world);
    }

    method OpenAndLock(job: Job, name: string, ghost before: seq<State>, world: World) returns (r: Result<Ino>)
      requires job.op == Op.Lock(name) && Suits(world, job) && Stands(job, Lk(OpenLock), before)
      modifies this
      ensures Stands(job, if r.Success? then Lk(Holding(r.value)) else Leaving(Err(r.error)), before)
    {
      var handle := OpenLockFile(job, name, before, world);
      if handle.Fail? {
        return Failure(ErrorOf(handle.errno));
      }
      var i := handle.value;
      var checked := CheckOpened(job, i, false, Lk(LockStat(i)), Lk(TryLock(i)), before, world);
      if checked.Failure? {
        return Failure(checked.error);
      }
      var locked := TakeLock(job, i, before, world);
      match locked
      case Acquired => return Success(i);
      case WouldBlock => return Failure(Busy);
      case LockFailed => return Failure(Io);
    }

    /** `lock`: an error, or the handle, which holds the lock on its inode.  If its system calls succeed the error is
        the exact one. */
    method Lock(job: Job, name: string, world: World) returns (r: Result<Ino>, ghost at: nat)
      requires job.op == Op.Lock(name) && Stands(job, Enter, run) && Suits(world, job)
      modifies this
      ensures Stands(job, if r.Success? then Lk(Holding(r.value)) else Done(Err(r.error)), old(run))
      ensures r.Success? ==> r.value in state.flocks && state.flocks[r.value] == job.c
      ensures job.calm && r.Failure? ==> Exact(run, events, at, |events|, job.c)
    {
      at := 0;
      ghost var before := run;
      Arguments(job, before, world);
      if !Leaf(name) {
        r := Failure(UnsafePath);
      } else {
        r := LockChecked(job, name, before, world);
      }
      if r.Success? {
        HolderHolds(run, |run| - 1, job.c);
        return;
      }
      Return(job, Err(r.error), before, world);
      if job.calm { at := AnswersAreExact(run, events, |events|, job.c); }
    }
  }
}
