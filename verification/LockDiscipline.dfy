/** Why lock names must not be write targets: without that rule two calls can hold one lock name. */
module LockDiscipline {
  import opened Publication

  /** As `Enabled`, but any name may be written and any name may be locked. */
  predicate LooseEnabled(s: State, event: Event) {
    if event.Invoke? then event.call !in s.calls && event.pid in s.procs else Enabled(s, event)
  }

  function LooseApply(s: State, event: Event): (s': State)
    requires LooseEnabled(s, event)
  {
    if event.Invoke? then Asked(s, event.call, event.pid, event.op) else Apply(s, event)
  }

  function Asked(s: State, c: CallId, pid: Pid, op: Op): (s': State)
    requires pid in s.procs
  {
    s.(calls := s.calls[c := Call(pid, s.procs[pid].euid, op, Enter, Waiting, false)])
  }

  /** The events can happen one after the other, and lead from `s` to `s'`. */
  predicate Leads(s: State, events: seq<Event>, s': State)
    decreases |events|
  {
    if events == [] then s' == s
    else LooseEnabled(s, events[0]) && Leads(LooseApply(s, events[0]), events[1..], s')
  }

  lemma {:induction false} LeadsOn(s: State, a: seq<Event>, t: State, b: seq<Event>, u: State)
    requires Leads(s, a, t) && Leads(t, b, u)
    ensures Leads(s, a + b, u)
    decreases |a|
  {
    if a == [] {
      assert a + b == b;
    } else {
      LeadsOn(LooseApply(s, a[0]), a[1..], t, b, u);
      assert (a + b)[1..] == a[1..] + b;
    }
  }

  lemma Then(s0: State, events: seq<Event>, s: State, event: Event, s': State)
    requires Leads(s0, events, s) && LooseEnabled(s, event) && LooseApply(s, event) == s'
    ensures Leads(s0, events + [event], s')
  {
    assert [event][1..] == [] && Leads(s', [], s');
    LeadsOn(s0, events, s, [event], s');
  }

  /** Call `c`, and nothing else, differs from `s`. */
  function At(s: State, c: CallId, pid: Pid, op: Op, pc: Pc): (s': State)
    requires pid in s.procs
  {
    s.(calls := s.calls[c := Call(pid, s.procs[pid].euid, op, pc, Waiting, false)])
  }

  /** One step of call `c` takes it from one place to another. */
  predicate Moves(s: State, go: Event, s': State) {
    LooseEnabled(s, go) && LooseApply(s, go) == s'
  }

  /** A name that leads to a private file in a private directory of the process's user. */
  predicate Ready(s: State, pid: Pid, n: string) {
    && Bindings(s) && pid in s.procs && CheckPrivateDir(s.meta, s.procs[pid].euid).None?
    && Leaf(n) && n in s.names && CheckFile(s.inodes[s.names[n]], s.procs[pid].euid, false)
  }

  /** A system call that succeeds; `x` is the free inode number. */
  function Goes(c: CallId, x: Ino): (event: Event) { Go(c, Choice(false, 0, x)) }

  // ------------------------------------------------------------------ one attempt

  lemma Enters(s: State, c: CallId, pid: Pid, op: Op, x: Ino)
    requires Bindings(s) && pid in s.procs && x !in s.inodes && ArgumentFailure(op).None?
    ensures Moves(At(s, c, pid, op, Enter), Goes(c, x), At(s, c, pid, op, CheckDir))
  {
    assert EnterStep(At(s, c, pid, op, Enter), c) == At(s, c, pid, op, CheckDir);
  }

  lemma ChecksDir(s: State, c: CallId, pid: Pid, op: Op, pc: Pc, next: Pc, x: Ino)
    requires Bindings(s) && pid in s.procs && x !in s.inodes && CheckPrivateDir(s.meta, s.procs[pid].euid).None?
    requires (pc == CheckDir && next == AfterCheckDir(op)) || (pc == Wr(PreDir) && next == Wr(PreOpen) && op.Write?)
    ensures Moves(At(s, c, pid, op, pc), Goes(c, x), At(s, c, pid, op, next))
  {
    WithAt(s, c, pid, op, pc, next);
    assert CheckDirStep(At(s, c, pid, op, pc), c, false, next) == At(s, c, pid, op, next);
    Takes(At(s, c, pid, op, pc), c, x);
  }

  /** A step of `c` is what `Advance` says. */
  lemma Takes(s: State, c: CallId, x: Ino)
    requires CanGo(s, c, Goes(c, x).choice)
    ensures Moves(s, Goes(c, x), Advance(s, c, Goes(c, x).choice))
  {}

  lemma OpensLock(s: State, c: CallId, pid: Pid, n: string, x: Ino)
    requires Ready(s, pid, n) && x !in s.inodes
    ensures Moves(At(s, c, pid, Lock(n), Lk(OpenLock)), Goes(c, x), At(s, c, pid, Lock(n), Lk(LockStat(s.names[n]))))
  {
    assert OpenLockStep(At(s, c, pid, Lock(n), Lk(OpenLock)), c, Goes(c, x).choice)
        == At(s, c, pid, Lock(n), Lk(LockStat(s.names[n])));
  }

  lemma ChecksFile(s: State, c: CallId, pid: Pid, op: Op, n: string, pc: Pc, next: Pc, x: Ino)
    requires Ready(s, pid, n) && x !in s.inodes
    requires || (op.Lock? && pc == Lk(LockStat(s.names[n])) && next == Lk(TryLock(s.names[n])))
             || (op.Write? && pc == Wr(PreStat(s.names[n])) && next == Wr(TakeTicket(0)))
    ensures Moves(At(s, c, pid, op, pc), Goes(c, x), At(s, c, pid, op, next))
  {
    assert StatStep(At(s, c, pid, op, pc), c, s.names[n], false, pc.Wr?, next) == At(s, c, pid, op, next);
  }

  /** What an attempt that runs alone comes to: the lock, or `Busy`. */
  function Attempted(s: State, c: CallId, pid: Pid, n: string): (s': State)
    requires Ready(s, pid, n)
  {
    var i := s.names[n];
    if i in s.flocks then At(s, c, pid, Lock(n), Leaving(Err(Busy)))
    else At(s, c, pid, Lock(n), Lk(Holding(i))).(flocks := s.flocks[i := c])
  }

  lemma TriesLock(s: State, c: CallId, pid: Pid, n: string, x: Ino)
    requires Ready(s, pid, n) && x !in s.inodes
    ensures Moves(At(s, c, pid, Lock(n), Lk(TryLock(s.names[n]))), Goes(c, x), Attempted(s, c, pid, n))
  {
    TryLockMoves(s, c, pid, n, s.names[n]);
  }

  lemma TryLockMoves(s: State, c: CallId, pid: Pid, n: string, i: Ino)
    requires pid in s.procs
    ensures TryLockStep(At(s, c, pid, Lock(n), Lk(TryLock(i))), c, i, false) ==
              if i in s.flocks then At(s, c, pid, Lock(n), Leaving(Err(Busy)))
              else At(s, c, pid, Lock(n), Lk(Holding(i))).(flocks := s.flocks[i := c])
  {
    WithAt(s, c, pid, Lock(n), Lk(TryLock(i)), Leaving(Err(Busy)));
    WithAt(s, c, pid, Lock(n), Lk(TryLock(i)), Lk(Holding(i)));
  }

  lemma WithAt(s: State, c: CallId, pid: Pid, op: Op, pc: Pc, next: Pc)
    requires pid in s.procs
    ensures With(At(s, c, pid, op, pc), c, next) == At(s, c, pid, op, next)
  {}

  lemma Invokes(s: State, c: CallId, pid: Pid, op: Op) returns (events: seq<Event>)
    requires c !in s.calls && pid in s.procs
    ensures Leads(s, events, At(s, c, pid, op, Enter))
  {
    Then(s, [], s, Invoke(c, pid, op), At(s, c, pid, op, Enter));
    events := [] + [Invoke(c, pid, op)];
  }

  /** An attempt on a name gets the lock exactly when the inode the name leads to now is not locked. */
  lemma AttemptGetsIffUnlocked(s: State, c: CallId, pid: Pid, n: string, x: Ino) returns (events: seq<Event>)
    requires Ready(s, pid, n) && c !in s.calls && x !in s.inodes
    ensures Leads(s, events, Attempted(s, c, pid, n)) && c in Attempted(s, c, pid, n).calls
    ensures Attempted(s, c, pid, n).calls[c].pc == Lk(Holding(s.names[n])) <==> s.names[n] !in s.flocks
  {
    var op, i, go := Lock(n), s.names[n], Goes(c, x);
    events := Invokes(s, c, pid, op);
    Enters(s, c, pid, op, x);
    Then(s, events, At(s, c, pid, op, Enter), go, At(s, c, pid, op, CheckDir));
    events := events + [go];
    ChecksDir(s, c, pid, op, CheckDir, Lk(OpenLock), x);
    Then(s, events, At(s, c, pid, op, CheckDir), go, At(s, c, pid, op, Lk(OpenLock)));
    events := events + [go];
    OpensLock(s, c, pid, n, x);
    Then(s, events, At(s, c, pid, op, Lk(OpenLock)), go, At(s, c, pid, op, Lk(LockStat(i))));
    events := events + [go];
    ChecksFile(s, c, pid, op, n, Lk(LockStat(i)), Lk(TryLock(i)), x);
    Then(s, events, At(s, c, pid, op, Lk(LockStat(i))), go, At(s, c, pid, op, Lk(TryLock(i))));
    events := events + [go];
    TriesLock(s, c, pid, n, x);
    Then(s, events, At(s, c, pid, op, Lk(TryLock(i))), go, Attempted(s, c, pid, n));
    events := events + [go];
  }

  // ------------------------------------------------------- a write over a lock file

  function Replacing(n: string): (op: Op) { Write(n, [], Upsert) }

  lemma OpensTarget(s: State, d: CallId, pid: Pid, n: string, x: Ino)
    requires Ready(s, pid, n) && x !in s.inodes
    ensures Moves(At(s, d, pid, Replacing(n), Wr(PreOpen)), Goes(d, x),
                  At(s, d, pid, Replacing(n), Wr(PreStat(s.names[n]))))
  {
    assert PreOpenStep(At(s, d, pid, Replacing(n), Wr(PreOpen)), d, false)
        == At(s, d, pid, Replacing(n), Wr(PreStat(s.names[n])));
  }

  function Drawn(s: State, d: CallId, pid: Pid): (s': State)
    requires pid in s.procs
    ensures pid in s'.procs && s'.procs[pid].euid == s.procs[pid].euid && s'.procs[pid].umask == s.procs[pid].umask
  {
    var proc := s.procs[pid];
    s.(procs := s.procs[pid := proc.(counter := proc.counter + 1, tickets := proc.tickets[proc.counter := d])])
  }

  lemma Draws(s: State, d: CallId, pid: Pid, n: string, x: Ino)
    requires Ready(s, pid, n) && x !in s.inodes
    ensures Moves(At(s, d, pid, Replacing(n), Wr(TakeTicket(0))), Goes(d, x),
                  At(Drawn(s, d, pid), d, pid, Replacing(n), Wr(CreateTemp(0, s.procs[pid].counter))))
  {
    DrawsStep(s, d, pid, n);
    Takes(At(s, d, pid, Replacing(n), Wr(TakeTicket(0))), d, x);
  }

  lemma DrawsStep(s: State, d: CallId, pid: Pid, n: string)
    requires pid in s.procs
    ensures TakeTicketStep(At(s, d, pid, Replacing(n), Wr(TakeTicket(0))), d, 0)
         == At(Drawn(s, d, pid), d, pid, Replacing(n), Wr(CreateTemp(0, s.procs[pid].counter)))
  {
    WithAt(s, d, pid, Replacing(n), Wr(TakeTicket(0)), Wr(CreateTemp(0, s.procs[pid].counter)));
  }

  /** The temporary is there, synced or not. */
  function Created(s: State, d: CallId, pid: Pid, serial: nat, x: Ino, synced: bool): (s': State)
    requires pid in s.procs
  {
    var proc := s.procs[pid];
    s.(temps := s.temps[Temp(pid, serial) := x],
       inodes := s.inodes[x := Inode(Regular, proc.euid, CreatedMode(proc.umask), 1, [], synced, Writer(d))])
  }

  lemma Creates(s: State, d: CallId, pid: Pid, n: string, serial: nat, x: Ino)
    requires Ready(s, pid, n) && x !in s.inodes && Temp(pid, serial) !in s.temps
    ensures Moves(At(s, d, pid, Replacing(n), Wr(CreateTemp(0, serial))), Goes(d, x),
                  At(Created(s, d, pid, serial, x, false), d, pid, Replacing(n), Wr(TempStat(serial, x))))
  {
    CreatesStep(s, d, pid, n, serial, x);
    Takes(At(s, d, pid, Replacing(n), Wr(CreateTemp(0, serial))), d, x);
  }

  lemma CreatesStep(s: State, d: CallId, pid: Pid, n: string, serial: nat, x: Ino)
    requires pid in s.procs && Temp(pid, serial) !in s.temps
    ensures CreateTempStep(At(s, d, pid, Replacing(n), Wr(CreateTemp(0, serial))), d, 0, serial, Goes(d, x).choice)
         == At(Created(s, d, pid, serial, x, false), d, pid, Replacing(n), Wr(TempStat(serial, x)))
  {
    WithAt(s, d, pid, Replacing(n), Wr(CreateTemp(0, serial)), Wr(TempStat(serial, x)));
  }

  /** The bindings of a directory with one more temporary on a file of its own. */
  lemma CreatedIsReady(s: State, d: CallId, pid: Pid, n: string, serial: nat, x: Ino, synced: bool)
    requires Ready(s, pid, n) && x !in s.inodes
    ensures Ready(Created(s, d, pid, serial, x, synced), pid, n)
  {}

  lemma ChecksTemp(s: State, d: CallId, pid: Pid, n: string, serial: nat, x: Ino, y: Ino)
    requires Ready(s, pid, n) && y !in s.inodes && x in s.inodes && CheckFile(s.inodes[x], s.procs[pid].euid, false)
    ensures Moves(At(s, d, pid, Replacing(n), Wr(TempStat(serial, x))), Goes(d, y),
                  At(s, d, pid, Replacing(n), Wr(SyncFile(serial, x))))
  {
    assert TempStatStep(At(s, d, pid, Replacing(n), Wr(TempStat(serial, x))), d, serial, x, false)
        == At(s, d, pid, Replacing(n), Wr(SyncFile(serial, x)));
  }

  lemma Syncs(s: State, d: CallId, pid: Pid, n: string, serial: nat, x: Ino, y: Ino)
    requires Ready(s, pid, n) && y !in s.inodes && x in s.inodes
    ensures Moves(At(s, d, pid, Replacing(n), Wr(SyncFile(serial, x))), Goes(d, y),
                  At(s.(inodes := s.inodes[x := s.inodes[x].(synced := true)]),
                     d, pid, Replacing(n), Wr(Rename(serial, x))))
  {
    assert SyncFileStep(At(s, d, pid, Replacing(n), Wr(SyncFile(serial, x))), d, serial, x, false)
        == At(s.(inodes := s.inodes[x := s.inodes[x].(synced := true)]), d, pid, Replacing(n), Wr(Rename(serial, x)));
  }

  /** What is left of a directory whose name `n` was moved to the private file `x`. */
  predicate Replaced(s: State, s': State, d: CallId, pid: Pid, n: string, x: Ino) {
    && Ready(s', pid, n) && s'.names[n] == x && s'.flocks == s.flocks
    && d in s'.calls && s'.calls == s.calls[d := s'.calls[d]]
  }

  lemma Renames(s: State, d: CallId, pid: Pid, n: string, serial: nat, x: Ino, y: Ino) returns (s': State)
    requires Ready(s, pid, n) && y !in s.inodes && x in s.inodes && x != s.names[n]
    requires CheckFile(s.inodes[x], s.procs[pid].euid, false)
    ensures Moves(At(s, d, pid, Replacing(n), Wr(Rename(serial, x))), Goes(d, y), s') && s'.inodes.Keys == s.inodes.Keys
    ensures Replaced(s, s', d, pid, n, x)
  {
    var t := At(s, d, pid, Replacing(n), Wr(Rename(serial, x)));
    s' := RenameStep(t, d, serial, x, false);
    Takes(t, d, y);
    RenameReplaces(s, d, pid, n, serial, x);
  }

  lemma RenameReplaces(s: State, d: CallId, pid: Pid, n: string, serial: nat, x: Ino)
    requires Ready(s, pid, n) && x in s.inodes && x != s.names[n] && CheckFile(s.inodes[x], s.procs[pid].euid, false)
    ensures var s' := RenameStep(At(s, d, pid, Replacing(n), Wr(Rename(serial, x))), d, serial, x, false);
            Replaced(s, s', d, pid, n, x) && s'.inodes.Keys == s.inodes.Keys
  {
    var s' := RenameStep(At(s, d, pid, Replacing(n), Wr(Rename(serial, x))), d, serial, x, false);
    assert s'.calls == s.calls[d := s'.calls[d]];
  }

  lemma WriteClaims(s: State, d: CallId, pid: Pid, n: string, x: Ino) returns (events: seq<Event>)
    requires Ready(s, pid, n) && d !in s.calls && x !in s.inodes
    ensures Leads(s, events, At(Drawn(s, d, pid), d, pid, Replacing(n), Wr(CreateTemp(0, s.procs[pid].counter))))
  {
    var op, go, i := Replacing(n), Goes(d, x), s.names[n];
    events := Invokes(s, d, pid, op);
    Enters(s, d, pid, op, x);
    Then(s, events, At(s, d, pid, op, Enter), go, At(s, d, pid, op, CheckDir));
    events := events + [go];
    ChecksDir(s, d, pid, op, CheckDir, Wr(PreDir), x);
    Then(s, events, At(s, d, pid, op, CheckDir), go, At(s, d, pid, op, Wr(PreDir)));
    events := events + [go];
    ChecksDir(s, d, pid, op, Wr(PreDir), Wr(PreOpen), x);
    Then(s, events, At(s, d, pid, op, Wr(PreDir)), go, At(s, d, pid, op, Wr(PreOpen)));
    events := events + [go];
    OpensTarget(s, d, pid, n, x);
    Then(s, events, At(s, d, pid, op, Wr(PreOpen)), go, At(s, d, pid, op, Wr(PreStat(i))));
    events := events + [go];
    ChecksFile(s, d, pid, op, n, Wr(PreStat(i)), Wr(TakeTicket(0)), x);
    Then(s, events, At(s, d, pid, op, Wr(PreStat(i))), go, At(s, d, pid, op, Wr(TakeTicket(0))));
    events := events + [go];
    Draws(s, d, pid, n, x);
    Then(s, events, At(s, d, pid, op, Wr(TakeTicket(0))), go,
         At(Drawn(s, d, pid), d, pid, op, Wr(CreateTemp(0, s.procs[pid].counter))));
    events := events + [go];
  }

  lemma WriteCreates(s: State, d: CallId, pid: Pid, n: string, serial: nat, x: Ino, y: Ino) returns (events: seq<Event>)
    requires Ready(s, pid, n) && x !in s.inodes && y !in s.inodes && x != y && Temp(pid, serial) !in s.temps
    ensures Leads(At(s, d, pid, Replacing(n), Wr(CreateTemp(0, serial))), events,
                  At(Created(s, d, pid, serial, x, false), d, pid, Replacing(n), Wr(SyncFile(serial, x))))
  {
    var op := Replacing(n);
    var s0 := At(s, d, pid, op, Wr(CreateTemp(0, serial)));
    var t := Created(s, d, pid, serial, x, false);
    CreatedIsReady(s, d, pid, n, serial, x, false);
    Creates(s, d, pid, n, serial, x);
    assert Leads(s0, [], s0);
    Then(s0, [], s0, Goes(d, x), At(t, d, pid, op, Wr(TempStat(serial, x))));
    events := [] + [Goes(d, x)];
    ChecksTemp(t, d, pid, n, serial, x, y);
    Then(s0, events, At(t, d, pid, op, Wr(TempStat(serial, x))), Goes(d, y),
         At(t, d, pid, op, Wr(SyncFile(serial, x))));
    events := events + [Goes(d, y)];
  }

  lemma WriteCommits(s: State, d: CallId, pid: Pid, n: string, serial: nat, x: Ino, y: Ino)
    returns (events: seq<Event>, s': State)
    requires Ready(s, pid, n) && x !in s.inodes && y !in s.inodes && x != y && Temp(pid, serial) !in s.temps
    ensures Leads(At(s, d, pid, Replacing(n), Wr(CreateTemp(0, serial))), events, s')
    ensures Replaced(s, s', d, pid, n, x) && s'.inodes.Keys == s.inodes.Keys + {x}
  {
    var s0 := At(s, d, pid, Replacing(n), Wr(CreateTemp(0, serial)));
    events := WriteSyncs(s, d, pid, n, serial, x, y);
    s' := RenamesCreated(s, d, pid, n, serial, x, y);
    Then(s0, events, At(Created(s, d, pid, serial, x, true), d, pid, Replacing(n), Wr(Rename(serial, x))),
         Goes(d, y), s');
    events := events + [Goes(d, y)];
  }

  lemma WriteSyncs(s: State, d: CallId, pid: Pid, n: string, serial: nat, x: Ino, y: Ino) returns (events: seq<Event>)
    requires Ready(s, pid, n) && x !in s.inodes && y !in s.inodes && x != y && Temp(pid, serial) !in s.temps
    ensures Leads(At(s, d, pid, Replacing(n), Wr(CreateTemp(0, serial))), events,
                  At(Created(s, d, pid, serial, x, true), d, pid, Replacing(n), Wr(Rename(serial, x))))
  {
    var op, go := Replacing(n), Goes(d, y);
    var s0 := At(s, d, pid, op, Wr(CreateTemp(0, serial)));
    var t, u := Created(s, d, pid, serial, x, false), Created(s, d, pid, serial, x, true);
    CreatedIsReady(s, d, pid, n, serial, x, false);
    events := WriteCreates(s, d, pid, n, serial, x, y);
    Syncs(t, d, pid, n, serial, x, y);
    CreatedSynced(s, d, pid, serial, x);
    Then(s0, events, At(t, d, pid, op, Wr(SyncFile(serial, x))), go, At(u, d, pid, op, Wr(Rename(serial, x))));
    events := events + [go];
  }

  lemma CreatedSynced(s: State, d: CallId, pid: Pid, serial: nat, x: Ino)
    requires pid in s.procs
    ensures var t := Created(s, d, pid, serial, x, false);
            Created(s, d, pid, serial, x, true) == t.(inodes := t.inodes[x := t.inodes[x].(synced := true)])
  {}

  lemma RenamesCreated(s: State, d: CallId, pid: Pid, n: string, serial: nat, x: Ino, y: Ino) returns (s': State)
    requires Ready(s, pid, n) && x !in s.inodes && y !in s.inodes && x != y
    ensures Moves(At(Created(s, d, pid, serial, x, true), d, pid, Replacing(n), Wr(Rename(serial, x))), Goes(d, y), s')
    ensures Replaced(s, s', d, pid, n, x) && s'.inodes.Keys == s.inodes.Keys + {x}
  {
    CreatedIsReady(s, d, pid, n, serial, x, true);
    s' := Renames(Created(s, d, pid, serial, x, true), d, pid, n, serial, x, y);
  }

  /** Whoever holds a lock name, one write to that name lets a second call hold it too. */
  lemma WriteBreaksTheLock(s: State, c: CallId, d: CallId, e: CallId, pid: Pid, n: string, x: Ino, y: Ino)
    returns (events: seq<Event>, s': State)
    requires Ready(s, pid, n) && c in s.calls && s.calls[c].op == Lock(n) && s.calls[c].pc == Lk(Holding(s.names[n]))
    requires d !in s.calls && e !in s.calls && d != e && x !in s.inodes && y !in s.inodes && x != y && x !in s.flocks
    requires Temp(pid, s.procs[pid].counter) !in s.temps
    ensures Leads(s, events, s') && c != e && c in s'.calls && e in s'.calls
    ensures s'.calls[c].op == s'.calls[e].op == Lock(n)
    ensures s'.calls[c].pc == Lk(Holding(s.names[n])) && s'.calls[e].pc == Lk(Holding(x))
  {
    var claim := WriteClaims(s, d, pid, n, x);
    var drawn, serial := Drawn(s, d, pid), s.procs[pid].counter;
    var commit, written := WriteCommits(drawn, d, pid, n, serial, x, y);
    var s1 := At(drawn, d, pid, Replacing(n), Wr(CreateTemp(0, serial)));
    LeadsOn(s, claim, s1, commit, written);
    var attempt := AttemptGetsIffUnlocked(written, e, pid, n, y);
    s' := Attempted(written, e, pid, n);
    events := claim + commit + attempt;
    LeadsOn(s, claim + commit, written, attempt, s');
  }

  /** Lock, write over the name, lock again. */
  lemma TwoLocksOfOneName(s: State, pid: Pid, n: string, x: Ino, y: Ino) returns (events: seq<Event>, s': State)
    requires Ready(s, pid, n) && s.calls == map[] && s.flocks == map[] && Temp(pid, s.procs[pid].counter) !in s.temps
    requires x !in s.inodes && y !in s.inodes && x != y
    ensures Leads(s, events, s') && 0 in s'.calls && 2 in s'.calls && s'.calls[0].op == s'.calls[2].op == Lock(n)
    ensures s'.calls[0].pc == Lk(Holding(s.names[n])) && s'.calls[2].pc == Lk(Holding(x))
  {
    var attempt := AttemptGetsIffUnlocked(s, 0, pid, n, x);
    var held := Attempted(s, 0, pid, n);
    assert Ready(held, pid, n);
    var rest;
    rest, s' := WriteBreaksTheLock(held, 0, 1, 2, pid, n, x, y);
    events := attempt + rest;
    LeadsOn(s, attempt, held, rest, s');
  }

  /** From a directory with one lock file in it: two calls hold the name at once. */
  lemma TwoHoldersWithoutTheRule() returns (s0: State, events: seq<Event>, s: State)
    ensures Initial(s0) && Leads(s0, events, s) && 0 in s.calls && 2 in s.calls
    ensures s.calls[0].op == s.calls[2].op == Lock("l")
    ensures s.calls[0].pc == Lk(Holding(0)) && s.calls[2].pc == Lk(Holding(1))
  {
    var names := map["l" := 0];
    s0 := State(DirMeta(true, 0, Mode(0, 7, 0, 0)), {"l"}, names, names, map[],
                map[0 := Inode(Regular, 0, Mode(0, 6, 0, 0), 1, [], true, Foreign)], map[], [], 0, map[], map[]);
    var spawn := Spawn(1, 0, Mode(0, 0, 0, 0));
    var s1 := LooseApply(s0, spawn);
    Then(s0, [], s0, spawn, s1);
    var rest;
    rest, s := TwoLocksOfOneName(s1, 1, "l", 1, 2);
    events := [] + [spawn] + rest;
    LeadsOn(s0, [] + [spawn], s1, rest, s);
  }
}
