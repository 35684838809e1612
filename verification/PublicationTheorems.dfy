/** What the publication protocol promises, over whole runs. */
module PublicationTheorems {
  import opened Publication
  import opened PublicationInvariant
  import opened PublicationSteps
  import opened Wrappers

  // -------------------------------------------------------- what only grows

  /** Commits are appended, returned calls stay returned, an effect once taken is never taken again. */
  ghost predicate Grows(s: State, s': State) {
    && s.log <= s'.log && s.durable <= s'.durable
    && s'.origin == s.origin && s'.meta == s.meta && s'.lockNames == s.lockNames
    && (forall c :: c in s.calls ==> c in s'.calls && CallGrows(s.calls[c], s'.calls[c]))
    && (forall i :: i in s.inodes ==> i in s'.inodes && InodeGrows(s.inodes[i], s'.inodes[i]))
  }

  predicate InodeGrows(a: Inode, b: Inode) {
    && b.kind == a.kind && b.uid == a.uid && b.mode == a.mode && b.maker == a.maker
    && b.nlink <= a.nlink && (a.nlink > 1 ==> b.nlink == a.nlink)
    && (Frozen(a) ==> b.bytes == a.bytes && b.synced == a.synced)
  }

  predicate CallGrows(a: Call, b: Call) {
    && b.op == a.op && b.pid == a.pid && b.euid == a.euid
    && (!a.effect.Waiting? ==> b.effect == a.effect)
    && (a.pc.Done? ==> b == a)
  }

  /** One call moves, and the shared state only grows. */
  ghost predicate GrowsBy(s: State, s': State, c: CallId) {
    && c in s.calls && c in s'.calls && s'.calls == s.calls[c := s'.calls[c]] && CallGrows(s.calls[c], s'.calls[c])
    && (s'.calls[c].effect.Failed? && !s.calls[c].effect.Failed? ==> MayBeTurnedAway(s.calls[c]))
    && (s'.calls[c].effect.Got? && !s.calls[c].effect.Got? ==> s.calls[c].pc == Rd(OpenRead))
    && BindsBy(s, s', c) && s.log <= s'.log && s.durable <= s'.durable
    && s'.origin == s.origin && s'.meta == s.meta && s'.lockNames == s.lockNames
    && (forall i :: i in s.inodes ==> i in s'.inodes && InodeGrows(s.inodes[i], s'.inodes[i]))
  }

  /** No name changes hands, or the call's own name does and its commit is appended. */
  predicate BindsBy(s: State, s': State, c: CallId)
    requires c in s.calls
  {
    var n := s.calls[c].op.name;
    || (s'.names == s.names && s'.log == s.log)
    || (n in s'.names && s'.names == s.names[n := s'.names[n]] && s'.log == s.log + [Commit(c, n, s'.names[n])])
  }

  /** Only the two opens, and a `CreateNew` rename, can be turned away by what the name holds. */
  predicate MayBeTurnedAway(call: Call) {
    call.pc == Wr(PreOpen) || call.pc == Rd(OpenRead) || (call.op.Write? && call.op.publish == CreateNew)
  }

  lemma GrowsByGrows(s: State, s': State, c: CallId)
    requires GrowsBy(s, s', c)
    ensures Grows(s, s')
  {
    forall d | d in s.calls ensures d in s'.calls && CallGrows(s.calls[d], s'.calls[d]) {}
  }

  lemma CounterGrows(s: State, c: CallId, pc: Pc)
    requires c in s.calls && !s.calls[c].pc.Done?
    ensures GrowsBy(s, With(s, c, pc), c)
  {}

  lemma EffectGrows(s: State, c: CallId, pc: Pc, effect: Effect)
    requires c in s.calls && !s.calls[c].pc.Done? && s.calls[c].effect.Waiting? && MayBeTurnedAway(s.calls[c])
    requires effect.Got? ==> s.calls[c].pc == Rd(OpenRead)
    ensures GrowsBy(s, WithEffect(s, c, pc, effect), c)
  {}

  lemma PreparingGrows(s: State, c: CallId, w: WritePc, choice: Choice)
    requires CanGo(s, c, choice) && s.calls[c].pc == Wr(w) && s.calls[c].op.Write? && WriterOk(s, c, s.calls[c], w)
    requires w.PreDir? || w.PreOpen? || w.PreStat? || w.TempStat? || w.TakeTicket?
    ensures GrowsBy(s, AdvanceWriter(s, c, w, choice), c)
  {
    var call := AdvanceWriter(s, c, w, choice).calls[c];
    if w.PreOpen? { EffectGrows(s, c, call.pc, call.effect); } else { CounterGrows(s, c, call.pc); }
  }

  lemma CreateTempGrows(s: State, c: CallId, tries: nat, serial: nat, choice: Choice)
    requires Runnable(s, c) && choice.newIno !in s.inodes
    ensures GrowsBy(s, CreateTempStep(s, c, tries, serial, choice), c)
  {
    if choice.fault || Temp(s.calls[c].pid, serial) in s.temps {
      CounterGrows(s, c, CreateTempStep(s, c, tries, serial, choice).calls[c].pc);
    }
  }

  lemma WriteAllGrows(s: State, c: CallId, serial: nat, i: Ino, written: nat, choice: Choice)
    requires Runnable(s, c) && s.calls[c].op.Write? && WriterOk(s, c, s.calls[c], WriteAll(serial, i, written))
    ensures GrowsBy(s, WriteAllStep(s, c, serial, i, written, choice), c)
  {}

  lemma SyncFileGrows(s: State, c: CallId, serial: nat, i: Ino, fault: bool)
    requires Runnable(s, c) && s.calls[c].op.Write? && WriterOk(s, c, s.calls[c], SyncFile(serial, i))
    ensures GrowsBy(s, SyncFileStep(s, c, serial, i, fault), c)
  {}

  lemma RenameGrows(s: State, c: CallId, serial: nat, i: Ino, fault: bool)
    requires Runnable(s, c) && Bindings(s) && s.calls[c].op.Write? && s.calls[c].effect.Waiting?
    requires TargetReady(s, s.calls[c].op)
    ensures GrowsBy(s, RenameStep(s, c, serial, i, fault), c)
  {
    var s' := RenameStep(s, c, serial, i, fault);
    var op := s.calls[c].op;
    if fault || (op.publish != CreateNew && op.name in s.names && s.inodes[s.names[op.name]].kind == Directory) {
      CounterGrows(s, c, s'.calls[c].pc);
    } else if op.publish == CreateNew && op.name in s.names {
      EffectGrows(s, c, s'.calls[c].pc, s'.calls[c].effect);
    }
  }

  lemma SyncDirGrows(s: State, c: CallId, serial: nat, fault: bool)
    requires c in s.calls && !s.calls[c].pc.Done? && s.durable <= |s.log|
    ensures GrowsBy(s, SyncDirStep(s, c, serial, fault), c)
  {}

  lemma UnlinkGrows(s: State, c: CallId, serial: nat, error: Error, fault: bool)
    requires Bindings(s) && c in s.calls && !s.calls[c].pc.Done?
    requires Temp(s.calls[c].pid, serial) in s.temps ==> s.inodes[s.temps[Temp(s.calls[c].pid, serial)]].nlink <= 1
    ensures GrowsBy(s, UnlinkStep(s, c, serial, error, fault), c)
  {
    var s' := UnlinkStep(s, c, serial, error, fault);
    if fault {
      assert s'.inodes == s.inodes;
    } else if Temp(s.calls[c].pid, serial) !in s.temps {
      CounterGrows(s, c, Leaving(Err(error)));
    } else {
      assert s'.calls == With(s, c, Leaving(Err(error))).calls;
    }
  }

  lemma OpenLockGrows(s: State, c: CallId, choice: Choice)
    requires Runnable(s, c) && Bindings(s) && s.calls[c].op.Lock? && s.calls[c].effect.Waiting?
    requires choice.newIno !in s.inodes
    ensures GrowsBy(s, OpenLockStep(s, c, choice), c)
  {
    if choice.fault || s.calls[c].op.name in s.names { CounterGrows(s, c, OpenLockStep(s, c, choice).calls[c].pc); }
  }

  lemma WriterGrows(s: State, c: CallId, choice: Choice)
    requires CanGo(s, c, choice) && s.calls[c].pc.Wr? && CallOk(s, c, s.calls[c]) && s.durable <= |s.log|
    ensures GrowsBy(s, AdvanceWriter(s, c, s.calls[c].pc.w, choice), c)
  {
    var w := s.calls[c].pc.w;
    match w {
      case CreateTemp(tries, serial) => CreateTempGrows(s, c, tries, serial, choice);
      case WriteAll(serial, i, written) => WriteAllGrows(s, c, serial, i, written, choice);
      case SyncFile(serial, i) => SyncFileGrows(s, c, serial, i, choice.fault);
      case Rename(serial, i) => RenameGrows(s, c, serial, i, choice.fault);
      case SyncDir(serial) => SyncDirGrows(s, c, serial, choice.fault);
      case Unlink(serial, error) => UnlinkGrows(s, c, serial, error, choice.fault);
      case _ => PreparingGrows(s, c, w, choice);
    }
  }

  lemma ReaderCounts(s: State, c: CallId, choice: Choice)
    requires CanGo(s, c, choice) && s.calls[c].pc.Rd? && !s.calls[c].pc.r.OpenRead?
    ensures var s' := AdvanceReader(s, c, s.calls[c].pc.r, choice); c in s'.calls && s' == With(s, c, s'.calls[c].pc)
  {
    var r := s.calls[c].pc.r;
    if r.ReadChunk? { assert AdvanceReader(s, c, r, choice) == ReadChunkStep(s, c, r.ino, r.buffer, choice); }
  }

  lemma ReaderGrows(s: State, c: CallId, choice: Choice)
    requires CanGo(s, c, choice) && s.calls[c].pc.Rd? && CallOk(s, c, s.calls[c])
    ensures GrowsBy(s, AdvanceReader(s, c, s.calls[c].pc.r, choice), c)
  {
    var r := s.calls[c].pc.r;
    var s' := AdvanceReader(s, c, r, choice);
    if r.OpenRead? {
      EffectGrows(s, c, s'.calls[c].pc, s'.calls[c].effect);
    } else {
      ReaderCounts(s, c, choice);
      CounterGrows(s, c, s'.calls[c].pc);
    }
  }

  lemma LockerGrows(s: State, c: CallId, choice: Choice)
    requires CanGo(s, c, choice) && s.calls[c].pc.Lk? && CallOk(s, c, s.calls[c])
    ensures GrowsBy(s, AdvanceLocker(s, c, s.calls[c].pc.l, choice), c)
  {
    var l := s.calls[c].pc.l;
    match l {
      case OpenLock => OpenLockGrows(s, c, choice);
      case LockStat(i) => CounterGrows(s, c, StatStep(s, c, i, choice.fault, false, Lk(TryLock(i))).calls[c].pc);
      case TryLock(i) => TryLockGrows(s, c, i, choice.fault);
      case Holding(i) => CounterGrows(s, c, Done(Ok([])));
    }
  }

  lemma TryLockGrows(s: State, c: CallId, i: Ino, fault: bool)
    requires c in s.calls && !s.calls[c].pc.Done?
    ensures GrowsBy(s, TryLockStep(s, c, i, fault), c)
  {
    if fault { CounterGrows(s, c, Leaving(Err(Io))); }
    else if i in s.flocks { CounterGrows(s, c, Leaving(Err(Busy))); }
    else { CounterGrows(s, c, Lk(Holding(i))); }
  }

  lemma GoGrows(s: State, c: CallId, choice: Choice)
    requires CanGo(s, c, choice) && CallOk(s, c, s.calls[c]) && s.durable <= |s.log|
    ensures GrowsBy(s, Advance(s, c, choice), c)
  {
    if s.calls[c].pc.Wr? { WriterGrows(s, c, choice); }
    else if s.calls[c].pc.Rd? { ReaderGrows(s, c, choice); }
    else if s.calls[c].pc.Lk? { LockerGrows(s, c, choice); }
    else { CounterGrows(s, c, Advance(s, c, choice).calls[c].pc); }
  }

  lemma EventGrows(s: State, event: Event)
    requires Inv(s) && Enabled(s, event)
    ensures Grows(s, Apply(s, event))
  {
    if event.Go? {
      GoGrows(s, event.call, event.choice);
      GrowsByGrows(s, Apply(s, event), event.call);
    } else {
      OtherGrows(s, event);
    }
  }

  lemma OtherGrows(s: State, event: Event)
    requires Enabled(s, event) && !event.Go?
    ensures Grows(s, Apply(s, event))
  {}

  lemma GrowsOn(a: State, b: State, c: State)
    requires Grows(a, b) && Grows(b, c)
    ensures Grows(a, c)
  {
    forall i | i in a.calls ensures i in c.calls && CallGrows(a.calls[i], c.calls[i]) {
      assert CallGrows(a.calls[i], b.calls[i]) && CallGrows(b.calls[i], c.calls[i]);
    }
    forall i | i in a.inodes ensures i in c.inodes && InodeGrows(a.inodes[i], c.inodes[i]) {
      assert InodeGrows(a.inodes[i], b.inodes[i]) && InodeGrows(b.inodes[i], c.inodes[i]);
    }
  }

  lemma RunStepGrows(run: seq<State>, k: nat)
    requires Run(run) && k + 1 < |run|
    ensures Grows(run[k], run[k + 1])
  {
    var event := RunEvent(run, k);
    EventGrows(run[k], event);
  }

  lemma {:induction false} RunGrows(run: seq<State>, k: nat, m: nat)
    requires Run(run) && k <= m < |run|
    ensures Grows(run[k], run[m])
    decreases m
  {
    if k < m {
      RunGrows(run, k, m - 1);
      RunStepGrows(run, m - 1);
      GrowsOn(run[k], run[m - 1], run[m]);
    }
  }

  // ------------------------------------------------------------- honest answers

  function CommitsOf(log: seq<Commit>, c: CallId): (slots: set<nat>) {
    set j: nat | j < |log| && log[j].call == c
  }

  /** `Ok` and `CommitUncertain` mean the call's rename took effect, exactly once; any other answer means it never
      did. */
  lemma AnswersAreHonest(run: seq<State>, k: nat, c: CallId)
    requires Run(run) && k < |run| && c in run[k].calls
    requires run[k].calls[c].op.Write? && run[k].calls[c].pc.Done?
    ensures var answer := run[k].calls[c].pc.answer;
            |CommitsOf(run[k].log, c)| == if answer == Ok([]) || answer == Err(CommitUncertain) then 1 else 0
    ensures run[k].calls[c].pc.answer.Ok? ==> run[k].calls[c].pc.answer.bytes == []
  {
    RunInv(run, k);
    var s := run[k];
    assert CallOk(s, c, s.calls[c]);
    forall j: nat | j in CommitsOf(s.log, c) ensures s.calls[c].effect == Published(j) { assert EntryOk(s, j); }
    if s.calls[c].effect.Published? {
      assert CommitsOf(s.log, c) == {s.calls[c].effect.slot};
    } else {
      assert CommitsOf(s.log, c) == {};
    }
  }

  lemma NamesFollowLog(run: seq<State>, k: nat, n: string)
    requires Run(run) && k < |run|
    ensures Lookup(run[k].names, n) == BindingAt(run[k].origin, run[k].log, n)
  {
    RunInv(run, k);
  }

  /** A name changes hands only in a step of a call that asked for this name, and the step appends that
      call's commit of the new binding: a call without a commit changed no binding. */
  lemma OnlyCommitsBind(run: seq<State>, k: nat, n: string) returns (event: Event)
    requires Run(run) && k + 1 < |run|
    requires Lookup(run[k + 1].names, n) != Lookup(run[k].names, n)
    ensures Enabled(run[k], event) && run[k + 1] == Apply(run[k], event)
    ensures event.Go? && run[k].calls[event.call].op.name == n && n in run[k + 1].names
    ensures run[k + 1].log == run[k].log + [Commit(event.call, n, run[k + 1].names[n])]
  {
    event := RunEvent(run, k);
    EventBinds(run[k], event, n);
  }

  lemma EventBinds(s: State, event: Event, n: string)
    requires Inv(s) && Enabled(s, event)
    ensures var s' := Apply(s, event);
            Lookup(s'.names, n) != Lookup(s.names, n) ==>
              && event.Go? && s.calls[event.call].op.name == n && n in s'.names
              && s'.log == s.log + [Commit(event.call, n, s'.names[n])]
  {
    if event.Go? {
      GoGrows(s, event.call, event.choice);
      if Lookup(Apply(s, event).names, n) != Lookup(s.names, n) { GrowsByBinds(s, Apply(s, event), event.call, n); }
    } else {
      OtherBinds(s, event);
    }
  }

  lemma GrowsByBinds(s: State, s': State, c: CallId, n: string)
    requires GrowsBy(s, s', c) && Lookup(s'.names, n) != Lookup(s.names, n)
    ensures s.calls[c].op.name == n && n in s'.names && s'.log == s.log + [Commit(c, n, s'.names[n])]
  {}

  lemma OtherBinds(s: State, event: Event)
    requires Enabled(s, event) && !event.Go?
    ensures Apply(s, event).names == s.names
  {}

  // ---------------------------------------------------------- names and links

  /** Every file the crate made, under whatever umask, is a private regular file in every reachable state. */
  lemma MadeFilesArePrivate(run: seq<State>, k: nat, i: Ino)
    requires Run(run) && k < |run| && i in run[k].inodes && run[k].inodes[i].maker != Foreign
    ensures var inode := run[k].inodes[i];
            && inode.kind == Regular && inode.uid == run[k].meta.uid && inode.nlink <= 1
            && inode.mode.special == 0 && inode.mode.group == 0 && inode.mode.other == 0
  {
    RunInv(run, k);
    assert MadeOk(run[k], i);
  }

  lemma {:induction false} BindingStays(origin: map<string, Ino>, log: seq<Commit>, log': seq<Commit>, n: string)
    requires log <= log' && BindingAt(origin, log, n).Some?
    ensures BindingAt(origin, log', n).Some?
    decreases |log'|
  {
    if log != log' && log'[|log'| - 1].name != n { BindingStays(origin, log, log'[..|log'| - 1], n); }
  }

  /** A name once bound stays bound. */
  lemma BoundForever(run: seq<State>, k: nat, m: nat, n: string)
    requires Run(run) && k <= m < |run| && n in run[k].names
    ensures n in run[m].names
  {
    NamesFollowLog(run, k, n);
    NamesFollowLog(run, m, n);
    RunGrows(run, k, m);
    BindingStays(run[k].origin, run[k].log, run[m].log, n);
  }

  predicate Succeeded(call: Call) {
    call.pc == Done(Ok([])) || call.pc == Done(Err(CommitUncertain))
  }

  /** Over a whole run at most one `CreateNew` on a name succeeds, and only if the run started without it. */
  lemma OneCreator(run: seq<State>, k: nat, c: CallId, d: CallId)
    requires Run(run) && k < |run| && c in run[k].calls && d in run[k].calls
    requires run[k].calls[c].op.Write? && run[k].calls[d].op.Write?
    requires run[k].calls[c].op.name == run[k].calls[d].op.name
    requires run[k].calls[c].op.publish == CreateNew && Succeeded(run[k].calls[c])
    requires run[k].calls[d].op.publish == CreateNew && Succeeded(run[k].calls[d])
    ensures c == d && run[k].calls[c].op.name !in run[k].origin
  {
    RunInv(run, k);
    var s := run[k];
    assert CallOk(s, c, s.calls[c]) && CallOk(s, d, s.calls[d]);
    var i, j := s.calls[c].effect.slot, s.calls[d].effect.slot;
    assert EntryOk(s, i) && EntryOk(s, j);
    if i < j { CreatorIsFirst(s, i, j); } else if j < i { CreatorIsFirst(s, j, i); }
    if s.calls[c].op.name in s.origin { BindingStays(s.origin, [], s.log[..i], s.calls[c].op.name); }
  }

  lemma CreatorIsFirst(s: State, i: nat, j: nat)
    requires i < j < |s.log| && s.log[i].name == s.log[j].name
    ensures BindingAt(s.origin, s.log[..j], s.log[j].name).Some?
  {
    var n := s.log[i].name;
    assert s.log[..i + 1][..i] == s.log[..i];
    assert BindingAt(s.origin, s.log[..i + 1], n).Some?;
    BindingStays(s.origin, s.log[..i + 1], s.log[..j], n);
  }

  /** A `ReplaceExisting` past its pre-check finds its name bound to a private file when it renames. */
  lemma ReplaceFindsItsTarget(run: seq<State>, k: nat, c: CallId)
    requires Run(run) && k < |run| && c in run[k].calls
    requires var call := run[k].calls[c];
             call.op.Write? && call.op.publish == ReplaceExisting && call.pc.Wr? && call.pc.w.Rename?
    ensures var name := run[k].calls[c].op.name; name in run[k].names && Plain(run[k], run[k].names[name])
  {
    RunInv(run, k);
    assert CallOk(run[k], c, run[k].calls[c]);
  }

  function NamesOf(s: State, i: Ino): (names: set<string>) { set n | n in s.names && s.names[n] == i }
  function TempsOf(s: State, i: Ino): (temps: set<Temp>) { set t | t in s.temps && s.temps[t] == i }

  /** A file made by the crate has as many links as names, and never more than one. */
  lemma LinkCountsAreNames(run: seq<State>, k: nat, i: Ino)
    requires Run(run) && k < |run| && i in run[k].inodes && run[k].inodes[i].maker != Foreign
    ensures run[k].inodes[i].nlink == |NamesOf(run[k], i)| + |TempsOf(run[k], i)| <= 1
  {
    RunInv(run, k);
    var s := run[k];
    assert MadeOk(s, i);
    assert s.inodes[i].nlink >= 1 ==> Named(s, i);
    if n :| n in s.names && s.names[n] == i {
      assert NamesOf(s, i) == {n};
      assert TempsOf(s, i) == {};
    } else if t :| t in s.temps && s.temps[t] == i {
      assert NamesOf(s, i) == {};
      assert TempsOf(s, i) == {t};
    } else {
      assert NamesOf(s, i) == {} && TempsOf(s, i) == {};
    }
  }

  /** The commit a name's binding comes from, or -1 for the binding the run started with. */
  lemma {:induction false} LastCommit(origin: map<string, Ino>, log: seq<Commit>, n: string) returns (j: int)
    ensures -1 <= j < |log|
    ensures BindingAt(origin, log, n) == if j < 0 then Lookup(origin, n) else Some(log[j].ino)
    ensures j >= 0 ==> log[j].name == n
    ensures forall m :: j < m < |log| ==> log[m].name != n
  {
    if log == [] {
      j := -1;
    } else if log[|log| - 1].name == n {
      j := |log| - 1;
    } else {
      var shorter := log[..|log| - 1];
      j := LastCommit(origin, shorter, n);
      forall m | j < m < |log| ensures log[m].name != n { if m < |log| - 1 { assert shorter[m].name != n; } }
    }
  }

  /** A name that holds a private file holds one in every later state, however often it is replaced. */
  lemma PrivateForever(run: seq<State>, k: nat, m: nat, n: string)
    requires Run(run) && k <= m < |run| && n in run[k].names && Plain(run[k], run[k].names[n])
    ensures n in run[m].names && Plain(run[m], run[m].names[n])
  {
    RunInv(run, k);
    RunInv(run, m);
    RunGrows(run, k, m);
    BoundForever(run, k, m, n);
    var s, s' := run[k], run[m];
    assert Lookup(s.names, n) == BindingAt(s.origin, s.log, n);
    assert Lookup(s'.names, n) == BindingAt(s'.origin, s'.log, n);
    var j := LastCommit(s'.origin, s'.log, n);
    if j < |s.log| {
      var i := LastCommit(s.origin, s.log, n);
      assert i == j;
      assert InodeGrows(s.inodes[s.names[n]], s'.inodes[s.names[n]]);
    } else {
      assert EntryOk(s', j);
      assert MadeOk(s', s'.names[n]);
    }
  }

  /** `c` is a read of `n`, or a write that checks `n` first, and has not been turned away by what `n` holds. */
  predicate NotTurnedAway(s: State, c: CallId, n: string) {
    c in s.calls ==>
      var call := s.calls[c];
      && call.op.name == n && !call.op.Lock? && (call.op.Write? ==> call.op.publish != CreateNew)
      && !call.effect.Failed?
  }

  lemma OpenedNotTurnedAway(s: State, c: CallId, choice: Choice, n: string)
    requires CanGo(s, c, choice) && (s.calls[c].pc == Wr(PreOpen) || s.calls[c].pc == Rd(OpenRead))
    requires n in s.names && Plain(s, s.names[n]) && NotTurnedAway(s, c, n)
    ensures !Advance(s, c, choice).calls[c].effect.Failed?
  {}

  lemma EventNotTurnedAway(s: State, event: Event, c: CallId, n: string)
    requires Inv(s) && Enabled(s, event) && c in s.calls
    requires n in s.names && Plain(s, s.names[n]) && NotTurnedAway(s, c, n)
    ensures NotTurnedAway(Apply(s, event), c, n)
  {
    if event.Go? {
      GoGrows(s, event.call, event.choice);
      if event.call == c && (s.calls[c].pc == Wr(PreOpen) || s.calls[c].pc == Rd(OpenRead)) {
        OpenedNotTurnedAway(s, c, event.choice, n);
      }
    }
  }

  /** Racing a replacement never turns a read, or the pre-check of a replacing write, of an existing private
      file into `Missing`, `NotPrivate` or `UnsafePath`: whatever happens to the name after state `k`. */
  lemma RacesNeverTurnAway(run: seq<State>, k: nat, m: nat, c: CallId, n: string)
    requires Run(run) && k <= m < |run|
    requires n in run[k].names && Plain(run[k], run[k].names[n])
    requires c in run[k].calls && run[k].calls[c].effect == Waiting && NotTurnedAway(run[k], c, n)
    requires DirPass(run[k], run[k].calls[c]) && ArgsOk(run[k].calls[c].op)
    ensures c in run[m].calls && run[m].calls[c].pc != Done(Err(Missing))
    ensures run[m].calls[c].pc != Done(Err(NotPrivate)) && run[m].calls[c].pc != Done(Err(UnsafePath))
  {
    NeverTurnedAway(run, k, m, c, n);
    RunGrows(run, k, m);
    assert CallGrows(run[k].calls[c], run[m].calls[c]);
    HonestRefusal(run, m, c, n);
  }

  lemma {:induction false} NeverTurnedAway(run: seq<State>, k: nat, m: nat, c: CallId, n: string)
    requires Run(run) && k <= m < |run|
    requires n in run[k].names && Plain(run[k], run[k].names[n])
    requires c in run[k].calls && NotTurnedAway(run[k], c, n)
    ensures c in run[m].calls && NotTurnedAway(run[m], c, n)
    decreases m
  {
    if k < m {
      NeverTurnedAway(run, k, m - 1, c, n);
      PrivateForever(run, k, m - 1, n);
      NeverTurnedAwayStep(run, m - 1, c, n);
    }
  }

  lemma NeverTurnedAwayStep(run: seq<State>, m: nat, c: CallId, n: string)
    requires Run(run) && m + 1 < |run| && c in run[m].calls && NotTurnedAway(run[m], c, n)
    requires n in run[m].names && Plain(run[m], run[m].names[n])
    ensures c in run[m + 1].calls && NotTurnedAway(run[m + 1], c, n)
  {
    RunStepGrows(run, m);
    var event := RunEvent(run, m);
    EventNotTurnedAway(run[m], event, c, n);
  }

  lemma HonestRefusal(run: seq<State>, m: nat, c: CallId, n: string)
    requires Run(run) && m < |run| && c in run[m].calls && NotTurnedAway(run[m], c, n)
    requires DirPass(run[m], run[m].calls[c]) && ArgsOk(run[m].calls[c].op)
    ensures run[m].calls[c].pc != Done(Err(Missing)) && run[m].calls[c].pc != Done(Err(NotPrivate))
    ensures run[m].calls[c].pc != Done(Err(UnsafePath))
  {
    RunInv(run, m);
    assert CallOk(run[m], c, run[m].calls[c]);
  }

  // -------------------------------------------------------------------- reads

  /** What a read got is the content of its name at the moment it opened it. */
  lemma GotWhatWasThere(s: State, event: Event, c: CallId)
    requires Inv(s) && Enabled(s, event) && c in s.calls && s.calls[c].effect.Waiting?
    ensures c in Apply(s, event).calls && Apply(s, event).calls[c].effect.Got? ==>
              event.Go? && event.call == c && s.calls[c].pc == Rd(OpenRead)
  {
    if event.Go? {
      GoGrows(s, event.call, event.choice);
      assert CallOk(s, event.call, s.calls[event.call]);
    }
  }

  lemma OpenSees(s: State, c: CallId, choice: Choice)
    requires CanGo(s, c, choice) && s.calls[c].pc == Rd(OpenRead) && s.calls[c].effect.Waiting?
    requires Advance(s, c, choice).calls[c].effect.Got?
    ensures s.calls[c].op.name in s.names && Plain(s, s.names[s.calls[c].op.name])
    ensures Advance(s, c, choice).calls[c].effect.bytes == s.inodes[s.names[s.calls[c].op.name]].bytes
  {}

  /** The state a read took effect in: the call was under way and its name held exactly these bytes, in a regular
      file of the user with one link at most and nothing for anybody else. */
  ghost predicate ReadAt(s: State, c: CallId, bytes: Bytes) {
    && c in s.calls && s.calls[c].op.Read? && s.calls[c].effect == Waiting && Live(s.calls[c])
    && s.calls[c].op.name in s.names && s.names[s.calls[c].op.name] in s.inodes
    && var inode := s.inodes[s.names[s.calls[c].op.name]];
    && inode.bytes == bytes && inode.kind == Regular && inode.uid == s.calls[c].euid && inode.nlink <= 1
    && inode.mode.special == 0 && inode.mode.group == 0 && inode.mode.other == 0
  }

  lemma GotNow(s: State, event: Event, c: CallId)
    requires Inv(s) && Enabled(s, event) && c in s.calls && s.calls[c].effect.Waiting?
    ensures c in Apply(s, event).calls && Apply(s, event).calls[c].effect.Got? ==>
              ReadAt(s, c, Apply(s, event).calls[c].effect.bytes)
  {
    if c in Apply(s, event).calls && Apply(s, event).calls[c].effect.Got? {
      GotWhatWasThere(s, event, c);
      assert CallOk(s, c, s.calls[c]);
      OpenSees(s, c, event.choice);
    }
  }

  lemma OnlyOldCallsGet(s: State, event: Event, c: CallId)
    requires Inv(s) && Enabled(s, event)
    ensures c in Apply(s, event).calls && Apply(s, event).calls[c].effect.Got? ==> c in s.calls
  {
    if event.Go? { GoGrows(s, event.call, event.choice); }
  }

  /** One step back: the read had its bytes already, or takes them in this step. */
  lemma GotStep(run: seq<State>, k: nat, c: CallId)
    requires Run(run) && k + 1 < |run| && c in run[k + 1].calls && run[k + 1].calls[c].effect.Got?
    ensures c in run[k].calls
    ensures run[k].calls[c].effect == run[k + 1].calls[c].effect || ReadAt(run[k], c, run[k + 1].calls[c].effect.bytes)
  {
    var event := RunEvent(run, k);
    OnlyOldCallsGet(run[k], event, c);
    EventGrows(run[k], event);
    if run[k].calls[c].effect.Waiting? { GotNow(run[k], event, c); }
  }

  lemma {:induction false} GotSomewhere(run: seq<State>, k: nat, c: CallId) returns (j: nat)
    requires Run(run) && k < |run| && c in run[k].calls && run[k].calls[c].effect.Got?
    ensures j < k && ReadAt(run[j], c, run[k].calls[c].effect.bytes)
  {
    if k == 0 { assert false; }
    GotStep(run, k - 1, c);
    if run[k - 1].calls[c].effect == run[k].calls[c].effect { j := GotSomewhere(run, k - 1, c); } else { j := k - 1; }
  }

  /** A read that returns `Ok` returns what its name held at one moment between call and return, whole and
      within the limit, even if the name was replaced while it was reading. */
  lemma ReadsAreAtomic(run: seq<State>, k: nat, c: CallId) returns (j: nat)
    requires Run(run) && k < |run| && c in run[k].calls && run[k].calls[c].op.Read?
    requires run[k].calls[c].pc.Done? && run[k].calls[c].pc.answer.Ok?
    ensures j < k && ReadAt(run[j], c, run[k].calls[c].pc.answer.bytes)
    ensures |run[k].calls[c].pc.answer.bytes| <= run[k].calls[c].op.limit
  {
    RunInv(run, k);
    assert CallOk(run[k], c, run[k].calls[c]);
    j := GotSomewhere(run, k, c);
  }

  /** What a write target holds is the starting file or the whole payload of one write to that name. */
  lemma NamesHoldWholePayloads(run: seq<State>, k: nat, n: string)
    requires Run(run) && k < |run| && n in run[k].names && n !in run[k].lockNames
    ensures run[k].names[n] in run[k].inodes
    ensures || (n in run[k].origin && run[k].origin[n] == run[k].names[n])
            || (exists c :: c in run[k].calls && run[k].calls[c].op.Write? && run[k].calls[c].op.name == n
                            && run[k].calls[c].op.payload == run[k].inodes[run[k].names[n]].bytes)
  {
    RunInv(run, k);
    var s := run[k];
    NamesFollowLog(run, k, n);
    var j := LastCommit(s.origin, s.log, n);
    if j >= 0 { assert EntryOk(s, j) && CallOk(s, s.log[j].call, s.calls[s.log[j].call]); }
  }

  // -------------------------------------------------------------- power cuts

  /** What a power cut may leave under a name: any binding it has had since the last directory sync. */
  ghost predicate MaySurvive(s: State, n: string, binding: Option<Ino>) {
    exists k :: s.durable <= k <= |s.log| && binding == BindingAt(s.origin, s.log[..k], n)
  }

  /** Every binding a power cut may leave is to a file whose whole content is on disk: an untouched file
      of the starting directory, or the complete payload of one write. */
  lemma PowerCutKeepsWholeFiles(run: seq<State>, k: nat, n: string, i: Ino)
    requires Run(run) && k < |run| && n !in run[k].lockNames && MaySurvive(run[k], n, Some(i))
    ensures i in run[k].inodes && run[k].inodes[i].synced
    ensures || (n in run[k].origin && run[k].origin[n] == i)
            || (exists c :: c in run[k].calls && run[k].calls[c].op.Write? && run[k].calls[c].op.name == n
                            && run[k].calls[c].op.payload == run[k].inodes[i].bytes)
  {
    RunInv(run, k);
    RunInv(run, 0);
    RunGrows(run, 0, k);
    var s := run[k];
    var cut :| s.durable <= cut <= |s.log| && Some(i) == BindingAt(s.origin, s.log[..cut], n);
    var j := LastCommit(s.origin, s.log[..cut], n);
    if j < 0 {
      assert InodeGrows(run[0].inodes[i], s.inodes[i]);
    } else {
      assert EntryOk(s, j);
      assert CallOk(s, s.log[j].call, s.calls[s.log[j].call]);
    }
  }

  /** Once `write` has returned `Ok`, a power cut at any later time leaves its file or a later commit's
      under the name: never an older one, and never nothing. */
  lemma OkIsDurable(run: seq<State>, k: nat, m: nat, c: CallId, binding: Option<Ino>)
    requires Run(run) && k <= m < |run| && c in run[k].calls
    requires run[k].calls[c].op.Write? && run[k].calls[c].pc == Done(Ok([]))
    requires MaySurvive(run[m], run[k].calls[c].op.name, binding)
    ensures run[k].calls[c].effect.Published? && run[k].calls[c].effect.slot < |run[m].log|
    ensures exists j :: run[k].calls[c].effect.slot <= j < |run[m].log|
                        && run[m].log[j].name == run[k].calls[c].op.name && binding == Some(run[m].log[j].ino)
  {
    RunInv(run, k);
    RunGrows(run, k, m);
    var s, s' := run[k], run[m];
    var n := s.calls[c].op.name;
    assert CallOk(s, c, s.calls[c]);
    var slot := s.calls[c].effect.slot;
    assert EntryOk(s, slot);
    SurvivorIsLater(s', n, slot, binding);
  }

  /** What may survive once a commit of the name is covered by a directory sync. */
  lemma SurvivorIsLater(s: State, n: string, slot: nat, binding: Option<Ino>)
    requires MaySurvive(s, n, binding) && slot < s.durable <= |s.log| && s.log[slot].name == n
    ensures exists j :: slot <= j < |s.log| && s.log[j].name == n && binding == Some(s.log[j].ino)
  {
    var cut :| s.durable <= cut <= |s.log| && binding == BindingAt(s.origin, s.log[..cut], n);
    var j := LastCommit(s.origin, s.log[..cut], n);
    assert s.log[..cut][slot].name == n;
  }

  // ------------------------------------------------------------- temporaries

  lemma HeldTempIsOwn(s: State, c: CallId, serial: nat)
    requires c in s.calls && CallOk(s, c, s.calls[c]) && HoldsTemp(s.calls[c].pc, serial)
    ensures Temp(s.calls[c].pid, serial) in s.temps
    ensures OwnTemp(s, c, s.calls[c].pid, serial, s.temps[Temp(s.calls[c].pid, serial)])
  {}

  /** Two writers never hold the same temporary name or inode. */
  lemma LiveTempsAreDistinct(run: seq<State>, k: nat, c: CallId, d: CallId, serial: nat, serial': nat)
    requires Run(run) && k < |run| && c in run[k].calls && d in run[k].calls && c != d
    requires HoldsTemp(run[k].calls[c].pc, serial) && HoldsTemp(run[k].calls[d].pc, serial')
    ensures var t, u := Temp(run[k].calls[c].pid, serial), Temp(run[k].calls[d].pid, serial');
            && t != u && t in run[k].temps && u in run[k].temps && run[k].temps[t] != run[k].temps[u]
            && run[k].temps[t] in run[k].inodes && run[k].inodes[run[k].temps[t]].maker == Writer(c)
  {
    RunInv(run, k);
    HeldTempIsOwn(run[k], c, serial);
    HeldTempIsOwn(run[k], d, serial');
  }

  lemma UnlinkTakesOwn(s: State, c: CallId, serial: nat, error: Error, fault: bool)
    requires Bindings(s) && c in s.calls && CallOk(s, c, s.calls[c]) && s.calls[c].pc == Wr(Unlink(serial, error))
    ensures var s' := UnlinkStep(s, c, serial, error, fault); var own := Temp(s.calls[c].pid, serial);
            && s'.names == s.names && (s'.temps == s.temps || s'.temps == s.temps - {own})
            && (own in s.temps ==> s.inodes[s.temps[own]].maker == Writer(c) && error != CommitUncertain)
  {}

  /** The failure-path unlink removes the caller's own temporary or nothing, and no caller's name. */
  lemma UnlinkTakesOnlyItsOwn(run: seq<State>, k: nat, c: CallId, serial: nat, error: Error, fault: bool, t: Temp)
    requires Run(run) && k < |run| && c in run[k].calls && run[k].calls[c].pc == Wr(Unlink(serial, error))
    ensures Bindings(run[k])
    ensures var s' := UnlinkStep(run[k], c, serial, error, fault);
            && s'.names == run[k].names
            && (t in run[k].temps && t !in s'.temps ==>
                  && run[k].inodes[run[k].temps[t]].maker == Writer(c) && error != CommitUncertain
                  && s'.temps == run[k].temps - {t})
  {
    RunInv(run, k);
    UnlinkTakesOwn(run[k], c, serial, error, fault);
  }

  /** A temporary that is still there is in use, or its writer was killed, or its unlink failed. */
  lemma ResidueIsExplained(run: seq<State>, k: nat, t: Temp)
    requires Run(run) && k < |run| && t in run[k].temps
    ensures run[k].temps[t] in run[k].inodes
    ensures var s := run[k]; var maker := s.inodes[s.temps[t]].maker;
            maker == Foreign || (
              && maker.Writer? && maker.call in s.calls
              && (|| s.calls[maker.call].pc.Killed? || s.calls[maker.call].leaked
                  || HoldsTemp(s.calls[maker.call].pc, t.serial)))
  {
    RunInv(run, k);
    var s := run[k];
    assert TempOk(s, t);
  }

  // -------------------------------------------------------------------- locks

  /** At most one live handle holds a lock name. */
  lemma OneHolder(run: seq<State>, k: nat, c: CallId, d: CallId)
    requires Run(run) && k < |run| && c in run[k].calls && d in run[k].calls
    requires run[k].calls[c].pc.Lk? && run[k].calls[c].pc.l.Holding?
    requires run[k].calls[d].pc.Lk? && run[k].calls[d].pc.l.Holding?
    requires run[k].calls[c].op.name == run[k].calls[d].op.name
    ensures c == d
  {
    RunInv(run, k);
    assert CallOk(run[k], c, run[k].calls[c]) && CallOk(run[k], d, run[k].calls[d]);
  }

  lemma LockCommitIsFirst(s: State, j: nat)
    requires Inv(s) && j < |s.log| && s.log[j].name in s.lockNames
    ensures BindingAt(s.origin, s.log[..j], s.log[j].name).None?
  {
    assert EntryOk(s, j) && CallOk(s, s.log[j].call, s.calls[s.log[j].call]);
  }

  /** A lock name keeps its inode for the whole run. */
  lemma LockNamesNeverMove(run: seq<State>, k: nat, m: nat, n: string)
    requires Run(run) && k <= m < |run| && n in run[k].lockNames && n in run[k].names
    ensures n in run[m].names && run[m].names[n] == run[k].names[n]
  {
    RunInv(run, k);
    RunInv(run, m);
    RunGrows(run, k, m);
    NamesFollowLog(run, k, n);
    NamesFollowLog(run, m, n);
    LockBindingStays(run[k].log, run[m], n);
  }

  lemma LockBindingStays(log: seq<Commit>, s: State, n: string)
    requires Inv(s) && log <= s.log && n in s.lockNames && BindingAt(s.origin, log, n).Some?
    ensures BindingAt(s.origin, s.log, n) == BindingAt(s.origin, log, n)
  {
    var i := LastCommit(s.origin, log, n);
    var j := LastCommit(s.origin, s.log, n);
    if j >= |log| {
      LockCommitIsFirst(s, j);
      BindingStays(s.origin, log, s.log[..j], n);
    }
  }
}
