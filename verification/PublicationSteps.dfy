/** Every event of the publication protocol keeps its invariant. */
module PublicationSteps {
  import opened Publication
  import opened PublicationInvariant
  import opened Wrappers

  /** The moving call and the shared state are checked; everyone else relies. */
  lemma Combine(s: State, s': State, c: CallId)
    requires Inv(s) && c in s'.calls && s'.calls == s.calls[c := s'.calls[c]]
    requires Global(s') && CallOk(s', c, s'.calls[c])
    requires forall d :: d in s.calls && d != c ==> Rely(s, s', d)
    ensures Inv(s')
  {
    forall d | d in s'.calls && d != c ensures CallOk(s', d, s'.calls[d]) {
      CallStays(s, s', d);
    }
  }

  /** The step changes one call and keeps what the log says about published files. */
  ghost predicate Evolves(s: State, s': State, c: CallId) {
    && c in s.calls && c in s'.calls && s'.calls == s.calls[c := s'.calls[c]]
    && s'.calls[c].pid == s.calls[c].pid && s'.calls[c].op == s.calls[c].op
    && (s.calls[c].effect.Published? ==> s'.calls[c].effect == s.calls[c].effect)
    && s'.origin == s.origin && s'.meta == s.meta && s'.lockNames == s.lockNames
    && (forall i :: i in s.inodes ==> i in s'.inodes && Kept(s.inodes[i], s'.inodes[i]))
  }

  predicate Kept(a: Inode, b: Inode) {
    b.maker == a.maker && (Frozen(a) ==> b.bytes == a.bytes && b.synced == a.synced)
  }

  lemma EntryStays(s: State, s': State, c: CallId, j: nat)
    requires Evolves(s, s', c) && s.log <= s'.log && j < |s.log| && EntryOk(s, j)
    ensures EntryOk(s', j)
  {
    assert s'.log[..j] == s.log[..j];
    assert Kept(s.inodes[s.log[j].ino], s'.inodes[s.log[j].ino]);
  }

  lemma LogStays(s: State, s': State, c: CallId)
    requires Evolves(s, s', c) && LogOk(s)
    requires s'.log == s.log && s'.names == s.names && s.durable <= s'.durable <= |s.log|
    ensures LogOk(s')
  {
    forall j | 0 <= j < |s'.log| ensures EntryOk(s', j) { EntryStays(s, s', c, j); }
    forall n ensures Lookup(s'.names, n) == BindingAt(s'.origin, s'.log, n) {
      assert Lookup(s.names, n) == BindingAt(s.origin, s.log, n);
    }
  }

  lemma BindingAppend(origin: map<string, Ino>, log: seq<Commit>, e: Commit, n: string)
    ensures BindingAt(origin, log + [e], n) == if e.name == n then Some(e.ino) else BindingAt(origin, log, n)
  {
    assert (log + [e])[..|log|] == log;
  }

  lemma LogGrows(s: State, s': State, c: CallId, e: Commit)
    requires Evolves(s, s', c) && LogOk(s)
    requires s'.log == s.log + [e] && s'.names == s.names[e.name := e.ino] && s'.durable == s.durable
    requires EntryOk(s', |s.log|)
    ensures LogOk(s')
  {
    forall j | 0 <= j < |s'.log| ensures EntryOk(s', j) { if j < |s.log| { EntryStays(s, s', c, j); } }
    forall n ensures Lookup(s'.names, n) == BindingAt(s'.origin, s'.log, n) {
      assert Lookup(s.names, n) == BindingAt(s.origin, s.log, n);
      BindingAppend(s.origin, s.log, e, n);
    }
  }

  /** The moving call keeps its temporary, gives it up with the name, or leaks it. */
  lemma TempsStay(s: State, s': State, c: CallId)
    requires Evolves(s, s', c) && TempsOk(s)
    requires forall t :: t in s'.temps ==> t in s.temps && s'.temps[t] == s.temps[t]
    requires s.calls[c].leaked ==> s'.calls[c].leaked
    requires !s.calls[c].pc.Killed?
    requires forall k :: HoldsTemp(s.calls[c].pc, k) ==>
               HoldsTemp(s'.calls[c].pc, k) || s'.calls[c].leaked || Temp(s.calls[c].pid, k) !in s'.temps
    ensures TempsOk(s')
  {
    forall t | t in s'.temps ensures s'.temps[t] in s'.inodes && TempOk(s', t) {
      assert TempOk(s, t) && Kept(s.inodes[s.temps[t]], s'.inodes[s.temps[t]]);
    }
  }

  lemma FlocksStay(s: State, s': State, c: CallId)
    requires c in s.calls && c in s'.calls && s'.calls == s.calls[c := s'.calls[c]]
    requires s'.flocks == s.flocks && FlocksOk(s)
    requires s.calls[c].pc.Lk? ==> !s.calls[c].pc.l.Holding?
    ensures FlocksOk(s')
  {}

  lemma FilesStay(s: State, s': State)
    requires FilesOk(s) && s'.meta == s.meta && s'.names == s.names && s'.temps == s.temps && s'.inodes == s.inodes
    ensures FilesOk(s')
  {
    forall i | i in s'.inodes ensures MadeOk(s', i) { assert MadeOk(s, i); }
  }

  lemma NamedStay(s: State, s': State)
    requires NamedOk(s) && s'.names == s.names && s'.temps == s.temps && s'.inodes == s.inodes
    ensures NamedOk(s')
  {
    forall i | i in s'.inodes && s'.inodes[i].maker != Foreign && s'.inodes[i].nlink >= 1 ensures Named(s', i) {
      assert Named(s, i);
    }
  }

  /** A name stays a name when no binding is lost. */
  lemma NamedKept(s: State, s': State, i: Ino)
    requires Named(s, i)
    requires forall n :: n in s.names && s.names[n] == i ==> n in s'.names && s'.names[n] == i
    requires forall t :: t in s.temps && s.temps[t] == i ==> t in s'.temps && s'.temps[t] == i
    ensures Named(s', i)
  {
    if n :| n in s.names && s.names[n] == i {
      assert n in s'.names && s'.names[n] == i;
    } else {
      var t :| t in s.temps && s.temps[t] == i;
      assert t in s'.temps && s'.temps[t] == i;
    }
  }

  /** Nothing a bystander looks at has changed. */
  lemma RelyStays(s: State, s': State, d: CallId)
    requires d in s.calls
    requires s' == s.(calls := s'.calls, flocks := s'.flocks, durable := s'.durable) && s.durable <= s'.durable
    requires forall i :: i in s.flocks && s.flocks[i] == d ==> i in s'.flocks && s'.flocks[i] == d
    ensures Rely(s, s', d)
  {}

  // Link counts, on the maps themselves.

  predicate Bound<K>(m: map<K, Ino>, inodes: map<Ino, Inode>) {
    forall k :: k in m ==> m[k] in inodes
  }

  /** The names of `m'` are names of `m`, on inodes with the same number of links, and none is on `i`. */
  predicate LinksKept<K>(m: map<K, Ino>, m': map<K, Ino>, inodes: map<Ino, Inode>, inodes': map<Ino, Inode>)
    requires Bound(m, inodes)
  {
    forall k :: k in m' ==> k in m && m'[k] == m[k] && m'[k] in inodes' && inodes'[m[k]].nlink == inodes[m[k]].nlink
  }

  lemma LinksFewer(names: map<string, Ino>, temps: map<Temp, Ino>, inodes: map<Ino, Inode>,
                   temps': map<Temp, Ino>, inodes': map<Ino, Inode>)
    requires Bound(names, inodes) && Bound(temps, inodes) && Links(names, temps, inodes)
    requires LinksKept(names, names, inodes, inodes') && LinksKept(temps, temps', inodes, inodes')
    ensures Links(names, temps', inodes')
  {}

  /** A name is put on an inode nobody else points at. */
  lemma LinksPlaceName(names: map<string, Ino>, temps: map<Temp, Ino>, inodes: map<Ino, Inode>,
                       temps': map<Temp, Ino>, inodes': map<Ino, Inode>, name: string, i: Ino)
    requires Bound(names, inodes) && Bound(temps, inodes) && Links(names, temps, inodes)
    requires i in inodes' && inodes'[i].nlink >= 1
    requires LinksKept(names, names - {name}, inodes, inodes') && LinksKept(temps, temps', inodes, inodes')
    requires forall n :: n in names && n != name ==> names[n] != i
    requires forall t :: t in temps' ==> temps'[t] != i
    ensures Links(names[name := i], temps', inodes')
  {
    var others := names - {name};
    assert forall n :: n in names[name := i] && n != name ==> n in others && names[name := i][n] == others[n];
  }

  lemma LinksPlaceTemp(names: map<string, Ino>, temps: map<Temp, Ino>, inodes: map<Ino, Inode>,
                       inodes': map<Ino, Inode>, t: Temp, i: Ino)
    requires Bound(names, inodes) && Bound(temps, inodes) && Links(names, temps, inodes)
    requires i in inodes' && inodes'[i].nlink >= 1 && t !in temps
    requires LinksKept(names, names, inodes, inodes') && LinksKept(temps, temps, inodes, inodes')
    requires forall n :: n in names ==> names[n] != i
    requires forall u :: u in temps ==> temps[u] != i
    ensures Links(names, temps[t := i], inodes')
  {}

  // --------------------------------------------- steps that share nothing

  /** The step only moves one call's program counter, or records what the call saw. */
  ghost predicate Quiet(s: State, s': State, c: CallId) {
    && c in s.calls && c in s'.calls
    && s' == s.(calls := s.calls[c := s'.calls[c]])
    && var before := s.calls[c]; var after := s'.calls[c];
    && after.pid == before.pid && after.euid == before.euid && after.op == before.op
    && (before.effect.Published? || after.effect.Published? ==> after.effect == before.effect)
    && (before.leaked ==> after.leaked)
    && !before.pc.Killed? && !(before.pc.Lk? && before.pc.l.Holding?)
    && (forall k :: HoldsTemp(before.pc, k) ==> HoldsTemp(after.pc, k) || after.leaked)
  }

  lemma QuietGlobal(s: State, s': State, c: CallId)
    requires Global(s) && Quiet(s, s', c)
    ensures Global(s')
  {
    FilesStay(s, s');
    NamedStay(s, s');
    LogStays(s, s', c);
    TempsStay(s, s', c);
    FlocksStay(s, s', c);
  }

  lemma QuietKeeps(s: State, s': State, c: CallId)
    requires Inv(s) && Moved(s, s', c)
    ensures Inv(s')
  {
    QuietGlobal(s, s', c);
    forall d | d in s.calls && d != c ensures Rely(s, s', d) { RelyStays(s, s', d); }
    Combine(s, s', c);
  }

  /** The moving call keeps its own condition by a quiet step. */
  ghost predicate Moved(s: State, s': State, c: CallId) {
    Quiet(s, s', c) && CallOk(s', c, s'.calls[c])
  }

  lemma EnterMoves(s: State, c: CallId)
    requires c in s.calls && CallOk(s, c, s.calls[c]) && s.calls[c].pc.Enter?
    ensures Moved(s, EnterStep(s, c), c)
  {}

  lemma CheckDirMoves(s: State, c: CallId, fault: bool)
    requires Runnable(s, c) && CallOk(s, c, s.calls[c]) && s.calls[c].pc.CheckDir?
    ensures Moved(s, CheckDirStep(s, c, fault, AfterCheckDir(s.calls[c].op)), c)
  {}

  lemma PreDirMoves(s: State, c: CallId, fault: bool)
    requires Runnable(s, c) && CallOk(s, c, s.calls[c]) && s.calls[c].pc == Wr(PreDir)
    ensures Moved(s, CheckDirStep(s, c, fault, Wr(PreOpen)), c)
  {}

  lemma PreOpenMisses(s: State, c: CallId, fault: bool)
    requires Runnable(s, c) && CallOk(s, c, s.calls[c]) && s.calls[c].pc == Wr(PreOpen)
    requires Bindings(s) && (fault || s.calls[c].op.name !in s.names)
    ensures Moved(s, PreOpenStep(s, c, fault), c)
  {}

  lemma PreOpenFinds(s: State, c: CallId)
    requires Runnable(s, c) && CallOk(s, c, s.calls[c]) && s.calls[c].pc == Wr(PreOpen)
    requires Bindings(s) && s.calls[c].op.name in s.names
    ensures Moved(s, PreOpenStep(s, c, false), c)
  {}

  lemma PreOpenMoves(s: State, c: CallId, fault: bool)
    requires Runnable(s, c) && CallOk(s, c, s.calls[c]) && s.calls[c].pc == Wr(PreOpen)
    requires Bindings(s)
    ensures Moved(s, PreOpenStep(s, c, fault), c)
  {
    if fault || s.calls[c].op.name !in s.names { PreOpenMisses(s, c, fault); } else { PreOpenFinds(s, c); }
  }

  lemma PreStatMoves(s: State, c: CallId, i: Ino, fault: bool)
    requires Runnable(s, c) && CallOk(s, c, s.calls[c]) && s.calls[c].pc == Wr(PreStat(i))
    ensures Moved(s, StatStep(s, c, i, fault, true, Wr(TakeTicket(0))), c)
  {}

  lemma TempStatMoves(s: State, c: CallId, serial: nat, i: Ino, fault: bool)
    requires Runnable(s, c) && CallOk(s, c, s.calls[c]) && s.calls[c].pc == Wr(TempStat(serial, i))
    requires MadeOk(s, i)
    ensures Moved(s, TempStatStep(s, c, serial, i, fault), c)
  {}

  lemma OpenReadMoves(s: State, c: CallId, fault: bool)
    requires Runnable(s, c) && CallOk(s, c, s.calls[c]) && s.calls[c].pc == Rd(OpenRead)
    requires Bindings(s)
    requires s.calls[c].op.name in s.names ==> Frozen(s.inodes[s.names[s.calls[c].op.name]])
    ensures Moved(s, OpenReadStep(s, c, fault), c)
  {}

  lemma ReadStatMoves(s: State, c: CallId, i: Ino, fault: bool)
    requires Runnable(s, c) && CallOk(s, c, s.calls[c]) && s.calls[c].pc == Rd(ReadStat(i))
    ensures Moved(s, StatStep(s, c, i, fault, true, Rd(ReadLen(i))), c)
  {}

  lemma ReadLenMoves(s: State, c: CallId, i: Ino, fault: bool)
    requires Runnable(s, c) && CallOk(s, c, s.calls[c]) && s.calls[c].pc == Rd(ReadLen(i))
    ensures Moved(s, ReadLenStep(s, c, i, fault), c)
  {}

  lemma ReadChunkMoves(s: State, c: CallId, i: Ino, buffer: Bytes, choice: Choice)
    requires Runnable(s, c) && CallOk(s, c, s.calls[c]) && s.calls[c].pc == Rd(ReadChunk(i, buffer))
    ensures Moved(s, ReadChunkStep(s, c, i, buffer, choice), c)
  {
    var bytes := s.inodes[i].bytes;
    var s' := ReadChunkStep(s, c, i, buffer, choice);
    assert |buffer| == |bytes| ==> buffer == bytes;
    if s'.calls[c].pc.Rd? {
      var more := s'.calls[c].pc.r.buffer;
      assert more == bytes[..|more|];
    }
  }

  lemma LockStatMoves(s: State, c: CallId, i: Ino, fault: bool)
    requires Runnable(s, c) && CallOk(s, c, s.calls[c]) && s.calls[c].pc == Lk(LockStat(i))
    ensures Moved(s, StatStep(s, c, i, fault, false, Lk(TryLock(i))), c)
  {}

  lemma LeavingMoves(s: State, c: CallId, answer: Answer)
    requires c in s.calls && CallOk(s, c, s.calls[c]) && s.calls[c].pc == Leaving(answer)
    ensures Moved(s, With(s, c, Done(answer)), c)
  {}

  // ------------------------------------------- steps on the shared state

  lemma TakeTicketGlobal(s: State, c: CallId, tries: nat)
    requires Global(s) && Runnable(s, c) && s.calls[c].pc == Wr(TakeTicket(tries))
    ensures Global(TakeTicketStep(s, c, tries))
  {
    var s' := TakeTicketStep(s, c, tries);
    FilesStay(s, s');
    NamedStay(s, s');
    LogStays(s, s', c);
    TempsStay(s, s', c);
    FlocksStay(s, s', c);
  }

  lemma TakeTicketKeeps(s: State, c: CallId, tries: nat)
    requires Inv(s) && Runnable(s, c) && s.calls[c].pc == Wr(TakeTicket(tries))
    ensures Inv(TakeTicketStep(s, c, tries))
  {
    var s' := TakeTicketStep(s, c, tries);
    TakeTicketGlobal(s, c, tries);
    TakeTicketMoves(s, c, tries);
    forall d | d in s.calls && d != c ensures Rely(s, s', d) { TakeTicketRely(s, c, tries, d); }
    Combine(s, s', c);
  }

  lemma TakeTicketMoves(s: State, c: CallId, tries: nat)
    requires Runnable(s, c) && s.calls[c].pc == Wr(TakeTicket(tries)) && CallOk(s, c, s.calls[c])
    ensures var s' := TakeTicketStep(s, c, tries); CallOk(s', c, s'.calls[c])
  {}

  lemma TakeTicketRely(s: State, c: CallId, tries: nat, d: CallId)
    requires Global(s) && Runnable(s, c) && d in s.calls && d != c
    ensures Rely(s, TakeTicketStep(s, c, tries), d)
  {}

  predicate CreatesTemp(s: State, c: CallId, serial: nat, choice: Choice) {
    Runnable(s, c) && !choice.fault && choice.newIno !in s.inodes && Temp(s.calls[c].pid, serial) !in s.temps
  }

  lemma CreateTempFiles(s: State, c: CallId, tries: nat, serial: nat, choice: Choice)
    requires FilesOk(s) && CreatesTemp(s, c, serial, choice) && DirPass(s, s.calls[c])
    ensures FilesOk(CreateTempStep(s, c, tries, serial, choice))
  {
    var s' := CreateTempStep(s, c, tries, serial, choice);
    LinksPlaceTemp(s.names, s.temps, s.inodes, s'.inodes, Temp(s.calls[c].pid, serial), choice.newIno);
    forall i | i in s'.inodes ensures MadeOk(s', i) { if i in s.inodes { assert MadeOk(s, i); } }
  }

  lemma CreateTempNamed(s: State, c: CallId, tries: nat, serial: nat, choice: Choice)
    requires NamedOk(s) && CreatesTemp(s, c, serial, choice)
    ensures NamedOk(CreateTempStep(s, c, tries, serial, choice))
  {
    var s' := CreateTempStep(s, c, tries, serial, choice);
    assert s'.temps[Temp(s.calls[c].pid, serial)] == choice.newIno;
    forall i | i in s.inodes && Named(s, i) ensures Named(s', i) { NamedKept(s, s', i); }
  }

  lemma CreateTempTemps(s: State, c: CallId, tries: nat, serial: nat, choice: Choice)
    requires TempsOk(s) && CreatesTemp(s, c, serial, choice) && s.calls[c].pc == Wr(CreateTemp(tries, serial))
    ensures TempsOk(CreateTempStep(s, c, tries, serial, choice))
  {
    var s' := CreateTempStep(s, c, tries, serial, choice);
    forall t | t in s'.temps ensures s'.temps[t] in s'.inodes && TempOk(s', t) {
      if t in s.temps { assert TempOk(s, t); }
    }
  }

  lemma CreateTempGlobal(s: State, c: CallId, tries: nat, serial: nat, choice: Choice)
    requires Global(s) && CreatesTemp(s, c, serial, choice) && s.calls[c].pc == Wr(CreateTemp(tries, serial))
    requires DirPass(s, s.calls[c])
    ensures Global(CreateTempStep(s, c, tries, serial, choice))
  {
    var s' := CreateTempStep(s, c, tries, serial, choice);
    CreateTempFiles(s, c, tries, serial, choice);
    CreateTempNamed(s, c, tries, serial, choice);
    CreateTempTemps(s, c, tries, serial, choice);
    LogStays(s, s', c);
    FlocksStay(s, s', c);
  }

  lemma CreateTempMoves(s: State, c: CallId, tries: nat, serial: nat, choice: Choice)
    requires CreatesTemp(s, c, serial, choice) && Bindings(s)
    requires s.calls[c].pc == Wr(CreateTemp(tries, serial)) && CallOk(s, c, s.calls[c])
    ensures var s' := CreateTempStep(s, c, tries, serial, choice); CallOk(s', c, s'.calls[c])
  {}

  lemma CreateTempRely(s: State, c: CallId, tries: nat, serial: nat, choice: Choice, d: CallId)
    requires Bindings(s) && CreatesTemp(s, c, serial, choice) && HasTicket(s, c, s.calls[c].pid, serial)
    requires d in s.calls && d != c
    ensures Rely(s, CreateTempStep(s, c, tries, serial, choice), d)
  {}

  lemma CreateTempRetryMoves(s: State, c: CallId, tries: nat, serial: nat, choice: Choice)
    requires Runnable(s, c) && s.calls[c].pc == Wr(CreateTemp(tries, serial)) && CallOk(s, c, s.calls[c])
    requires choice.fault || Temp(s.calls[c].pid, serial) in s.temps
    ensures Moved(s, CreateTempStep(s, c, tries, serial, choice), c)
  {}

  lemma CreateTempKeeps(s: State, c: CallId, tries: nat, serial: nat, choice: Choice)
    requires Inv(s) && Runnable(s, c) && choice.newIno !in s.inodes && s.calls[c].pc == Wr(CreateTemp(tries, serial))
    ensures Inv(CreateTempStep(s, c, tries, serial, choice))
  {
    var s' := CreateTempStep(s, c, tries, serial, choice);
    if CreatesTemp(s, c, serial, choice) {
      CreateTempGlobal(s, c, tries, serial, choice);
      CreateTempMoves(s, c, tries, serial, choice);
      forall d | d in s.calls && d != c ensures Rely(s, s', d) {
        CreateTempRely(s, c, tries, serial, choice, d);
      }
      Combine(s, s', c);
    } else {
      CreateTempRetryMoves(s, c, tries, serial, choice);
      QuietKeeps(s, s', c);
    }
  }

  // The writer's own inode, while nobody else can reach it.

  /** Only the moving writer's unpublished inode changes, and only in content. */
  ghost predicate Fills(s: State, s': State, c: CallId, i: Ino) {
    && c in s.calls && c in s'.calls && i in s.inodes && i in s'.inodes
    && s' == s.(calls := s.calls[c := s'.calls[c]], inodes := s.inodes[i := s'.inodes[i]])
    && s'.calls[c] == s.calls[c].(pc := s'.calls[c].pc)
    && s'.inodes[i] == s.inodes[i].(bytes := s'.inodes[i].bytes, synced := s'.inodes[i].synced)
    && s.inodes[i].maker == Writer(c) && !s.inodes[i].synced
    && !s.calls[c].pc.Killed? && s.calls[c].pc.Wr?
    && (forall k :: HoldsTemp(s.calls[c].pc, k) ==> HoldsTemp(s'.calls[c].pc, k))
  }

  lemma FillsFiles(s: State, s': State, c: CallId, i: Ino)
    requires FilesOk(s) && Fills(s, s', c, i)
    ensures FilesOk(s')
  {
    LinksFewer(s.names, s.temps, s.inodes, s'.temps, s'.inodes);
    forall x | x in s'.inodes ensures MadeOk(s', x) { assert MadeOk(s, x); }
  }

  lemma FillsNamed(s: State, s': State, c: CallId, i: Ino)
    requires NamedOk(s) && Fills(s, s', c, i)
    ensures NamedOk(s')
  {
    forall x | x in s.inodes && Named(s, x) ensures Named(s', x) { NamedKept(s, s', x); }
  }

  lemma FillsGlobal(s: State, s': State, c: CallId, i: Ino)
    requires Global(s) && Fills(s, s', c, i)
    ensures Global(s')
  {
    FillsFiles(s, s', c, i);
    FillsNamed(s, s', c, i);
    LogStays(s, s', c);
    TempsStay(s, s', c);
    FlocksStay(s, s', c);
  }

  lemma FillsRely(s: State, s': State, c: CallId, i: Ino, d: CallId)
    requires Fills(s, s', c, i) && d in s.calls && d != c
    requires forall n :: n in s.names ==> s.names[n] in s.inodes && Frozen(s.inodes[s.names[n]])
    ensures Rely(s, s', d)
  {}

  lemma FillsKeeps(s: State, s': State, c: CallId, i: Ino)
    requires Inv(s) && Fills(s, s', c, i) && CallOk(s', c, s'.calls[c])
    ensures Inv(s')
  {
    FillsGlobal(s, s', c, i);
    forall d | d in s.calls && d != c ensures Rely(s, s', d) { FillsRely(s, s', c, i, d); }
    Combine(s, s', c);
  }

  lemma WriteAllMoves(s: State, c: CallId, serial: nat, i: Ino, written: nat, choice: Choice)
    requires Runnable(s, c) && s.calls[c].pc == Wr(WriteAll(serial, i, written)) && CallOk(s, c, s.calls[c])
    ensures var s' := WriteAllStep(s, c, serial, i, written, choice);
            && CallOk(s', c, s'.calls[c])
            && if choice.fault then Quiet(s, s', c) else Fills(s, s', c, i)
  {
    var payload := s.calls[c].op.payload;
    var s' := WriteAllStep(s, c, serial, i, written, choice);
    if !choice.fault {
      var end := written + Clamp(choice.amount, |payload| - written);
      assert payload[..written] + payload[written..end] == payload[..end];
      assert payload[..|payload|] == payload;
      WriteAllTarget(s, s', s.calls[c].op, i);
    }
  }

  lemma WriteAllTarget(s: State, s': State, op: Op, i: Ino)
    requires op.Write? && TargetReady(s, op) && i in s.inodes && i in s'.inodes
    requires s'.names == s.names && s'.meta == s.meta && s'.inodes == s.inodes[i := s'.inodes[i]]
    requires s'.inodes[i] == s.inodes[i].(bytes := s'.inodes[i].bytes, synced := s'.inodes[i].synced)
    ensures TargetReady(s', op)
  {}

  lemma WriteAllKeeps(s: State, c: CallId, serial: nat, i: Ino, written: nat, choice: Choice)
    requires Inv(s) && Runnable(s, c) && s.calls[c].pc == Wr(WriteAll(serial, i, written))
    ensures Inv(WriteAllStep(s, c, serial, i, written, choice))
  {
    var s' := WriteAllStep(s, c, serial, i, written, choice);
    WriteAllMoves(s, c, serial, i, written, choice);
    if choice.fault { QuietKeeps(s, s', c); } else { FillsKeeps(s, s', c, i); }
  }

  lemma SyncFileMoves(s: State, c: CallId, serial: nat, i: Ino, fault: bool)
    requires Runnable(s, c) && s.calls[c].pc == Wr(SyncFile(serial, i)) && CallOk(s, c, s.calls[c])
    ensures var s' := SyncFileStep(s, c, serial, i, fault);
            && CallOk(s', c, s'.calls[c])
            && if fault then Quiet(s, s', c) else Fills(s, s', c, i)
  {
    if !fault { WriteAllTarget(s, SyncFileStep(s, c, serial, i, fault), s.calls[c].op, i); }
  }

  lemma SyncFileKeeps(s: State, c: CallId, serial: nat, i: Ino, fault: bool)
    requires Inv(s) && Runnable(s, c) && s.calls[c].pc == Wr(SyncFile(serial, i))
    ensures Inv(SyncFileStep(s, c, serial, i, fault))
  {
    var s' := SyncFileStep(s, c, serial, i, fault);
    SyncFileMoves(s, c, serial, i, fault);
    if fault { QuietKeeps(s, s', c); } else { FillsKeeps(s, s', c, i); }
  }

  // Publication.

  predicate Renames(s: State, c: CallId, serial: nat, i: Ino) {
    && Runnable(s, c) && s.calls[c].op.Write? && s.calls[c].pc == Wr(Rename(serial, i)) && Bindings(s)
    && (s.calls[c].op.name in s.names ==> s.calls[c].op.publish != CreateNew && Plain(s, s.names[s.calls[c].op.name]))
    && OwnTemp(s, c, s.calls[c].pid, serial, i) && s.inodes[i].synced
  }

  /** The replaced file loses its only name. */
  lemma ReplacedIsUnnamed(s: State, c: CallId, serial: nat, i: Ino)
    requires FilesOk(s) && Renames(s, c, serial, i) && s.calls[c].op.name in s.names
    ensures var o := s.names[s.calls[c].op.name];
            && o != i && s.inodes[o].nlink == 1
            && (forall n :: n in s.names && n != s.calls[c].op.name ==> s.names[n] != o)
            && (forall t :: t in s.temps ==> s.temps[t] != o)
  {}

  lemma OwnTempIsUnnamed(s: State, c: CallId, serial: nat, i: Ino)
    requires FilesOk(s) && Renames(s, c, serial, i)
    ensures forall n :: n in s.names ==> s.names[n] != i
    ensures forall t :: t in s.temps && t != Temp(s.calls[c].pid, serial) ==> s.temps[t] != i
  {}

  lemma RenameNames(s: State, c: CallId, serial: nat, i: Ino)
    requires FilesOk(s) && Renames(s, c, serial, i)
    ensures var s' := RenameStep(s, c, serial, i, false);
            && i in s'.inodes && s'.inodes[i].nlink == 1
            && LinksKept(s.names, s.names - {s.calls[c].op.name}, s.inodes, s'.inodes)
            && LinksKept(s.temps, s'.temps, s.inodes, s'.inodes)
  {
    OwnTempIsUnnamed(s, c, serial, i);
    if s.calls[c].op.name in s.names { ReplacedIsUnnamed(s, c, serial, i); }
  }

  lemma RenameLinks(s: State, c: CallId, serial: nat, i: Ino)
    requires FilesOk(s) && Renames(s, c, serial, i)
    ensures var s' := RenameStep(s, c, serial, i, false); Links(s.names[s.calls[c].op.name := i], s'.temps, s'.inodes)
  {
    var s' := RenameStep(s, c, serial, i, false);
    RenameNames(s, c, serial, i);
    OwnTempIsUnnamed(s, c, serial, i);
    LinksPlaceName(s.names, s.temps, s.inodes, s'.temps, s'.inodes, s.calls[c].op.name, i);
  }

  lemma RenameFiles(s: State, c: CallId, serial: nat, i: Ino)
    requires FilesOk(s) && Renames(s, c, serial, i)
    ensures FilesOk(RenameStep(s, c, serial, i, false))
  {
    RenameLinks(s, c, serial, i);
    RenameMade(s, c, serial, i);
    RenameFrozen(s, c, serial, i);
  }

  lemma RenameFrozen(s: State, c: CallId, serial: nat, i: Ino)
    requires FilesOk(s) && Renames(s, c, serial, i)
    ensures var s' := RenameStep(s, c, serial, i, false);
            Bindings(s') && forall n :: n in s'.names ==> Frozen(s'.inodes[s'.names[n]])
  {}

  lemma RenameMade(s: State, c: CallId, serial: nat, i: Ino)
    requires FilesOk(s) && Renames(s, c, serial, i)
    ensures var s' := RenameStep(s, c, serial, i, false); forall x :: x in s'.inodes ==> MadeOk(s', x)
  {
    var s' := RenameStep(s, c, serial, i, false);
    forall x | x in s'.inodes ensures MadeOk(s', x) { assert MadeOk(s, x); }
  }

  lemma RenameEntry(s: State, c: CallId, serial: nat, i: Ino)
    requires LogOk(s) && Renames(s, c, serial, i) && CallOk(s, c, s.calls[c])
    ensures EntryOk(RenameStep(s, c, serial, i, false), |s.log|)
  {
    var s' := RenameStep(s, c, serial, i, false);
    var name := s.calls[c].op.name;
    assert s'.log[..|s.log|] == s.log;
    assert Lookup(s.names, name) == BindingAt(s.origin, s.log, name);
  }

  lemma RenameNamed(s: State, c: CallId, serial: nat, i: Ino)
    requires NamedOk(s) && FilesOk(s) && Renames(s, c, serial, i)
    ensures NamedOk(RenameStep(s, c, serial, i, false))
  {
    var s' := RenameStep(s, c, serial, i, false);
    assert s'.names[s.calls[c].op.name] == i;
    forall x | x in s'.inodes && s'.inodes[x].maker != Foreign && s'.inodes[x].nlink >= 1 && x != i
      ensures Named(s', x)
    {
      RenameNamedAt(s, c, serial, i, x);
    }
  }

  lemma RenameNamedAt(s: State, c: CallId, serial: nat, i: Ino, x: Ino)
    requires NamedOk(s) && FilesOk(s) && Renames(s, c, serial, i) && x != i
    ensures var s' := RenameStep(s, c, serial, i, false);
            x in s'.inodes && s'.inodes[x].maker != Foreign && s'.inodes[x].nlink >= 1 ==> Named(s', x)
  {
    var s' := RenameStep(s, c, serial, i, false);
    if s.calls[c].op.name in s.names { ReplacedIsUnnamed(s, c, serial, i); }
    if x in s'.inodes && s'.inodes[x].maker != Foreign && s'.inodes[x].nlink >= 1 {
      assert Named(s, x);
      NamedKept(s, s', x);
    }
  }

  lemma RenameLog(s: State, c: CallId, serial: nat, i: Ino)
    requires LogOk(s) && Renames(s, c, serial, i) && CallOk(s, c, s.calls[c])
    ensures LogOk(RenameStep(s, c, serial, i, false))
  {
    RenameEntry(s, c, serial, i);
    LogGrows(s, RenameStep(s, c, serial, i, false), c, Commit(c, s.calls[c].op.name, i));
  }

  lemma RenameTemps(s: State, c: CallId, serial: nat, i: Ino)
    requires TempsOk(s) && Renames(s, c, serial, i) && !s.calls[c].effect.Published?
    ensures TempsOk(RenameStep(s, c, serial, i, false))
  {
    TempsStay(s, RenameStep(s, c, serial, i, false), c);
  }

  lemma RenameGlobal(s: State, c: CallId, serial: nat, i: Ino)
    requires Global(s) && Renames(s, c, serial, i) && CallOk(s, c, s.calls[c])
    ensures Global(RenameStep(s, c, serial, i, false))
  {
    RenameFiles(s, c, serial, i);
    RenameNamed(s, c, serial, i);
    RenameLog(s, c, serial, i);
    RenameTemps(s, c, serial, i);
    RenameFlocks(s, c, serial, i);
  }

  lemma RenameFlocks(s: State, c: CallId, serial: nat, i: Ino)
    requires FlocksOk(s) && TicketsOk(s) && Renames(s, c, serial, i)
    ensures FlocksOk(RenameStep(s, c, serial, i, false)) && TicketsOk(RenameStep(s, c, serial, i, false))
  {
    FlocksStay(s, RenameStep(s, c, serial, i, false), c);
  }

  lemma RenameMoves(s: State, c: CallId, serial: nat, i: Ino)
    requires Renames(s, c, serial, i) && CallOk(s, c, s.calls[c])
    ensures var s' := RenameStep(s, c, serial, i, false); CallOk(s', c, s'.calls[c])
  {
    var s', call := RenameStep(s, c, serial, i, false), s.calls[c];
    assert s'.calls[c] == call.(pc := Wr(SyncDir(serial)), effect := Published(|s.log|));
    assert s'.procs == s.procs && s'.temps == s.temps - {Temp(call.pid, serial)};
    assert s'.log == s.log + [Commit(c, call.op.name, i)] && s'.lockNames == s.lockNames;
  }

  lemma RenameRely(s: State, c: CallId, serial: nat, i: Ino, d: CallId)
    requires Renames(s, c, serial, i) && d in s.calls && d != c && MadeOk(s, i)
    requires s.calls[c].op.name !in s.lockNames
    ensures Rely(s, RenameStep(s, c, serial, i, false), d)
  {
    RenameRelyInodes(s, c, serial, i, d);
    RenameRelyNames(s, c, serial, i);
    RenameRelyTemps(s, c, serial, i, d);
  }

  lemma RenameRelyInodes(s: State, c: CallId, serial: nat, i: Ino, d: CallId)
    requires Renames(s, c, serial, i)
    ensures RelyInodes(s, RenameStep(s, c, serial, i, false), d)
  {}

  lemma RenameRelyNames(s: State, c: CallId, serial: nat, i: Ino)
    requires Renames(s, c, serial, i) && MadeOk(s, i) && s.calls[c].op.name !in s.lockNames
    ensures RelyNames(s, RenameStep(s, c, serial, i, false))
  {}

  lemma RenameRelyTemps(s: State, c: CallId, serial: nat, i: Ino, d: CallId)
    requires Renames(s, c, serial, i) && d in s.calls && d != c
    ensures s.calls[d].pid in s.procs ==> RelyTemps(s, RenameStep(s, c, serial, i, false), d, s.calls[d].pid)
  {}

  lemma RenameFailsMoves(s: State, c: CallId, serial: nat, i: Ino, fault: bool)
    requires Runnable(s, c) && Bindings(s) && CallOk(s, c, s.calls[c]) && s.calls[c].pc == Wr(Rename(serial, i))
    requires fault || (s.calls[c].op.name in s.names && s.calls[c].op.publish == CreateNew)
    ensures Moved(s, RenameStep(s, c, serial, i, fault), c)
  {}

  lemma RenamesReady(s: State, c: CallId, serial: nat, i: Ino)
    requires Bindings(s) && Runnable(s, c) && s.calls[c].pc == Wr(Rename(serial, i)) && CallOk(s, c, s.calls[c])
    requires !(s.calls[c].op.name in s.names && s.calls[c].op.publish == CreateNew)
    ensures Renames(s, c, serial, i) && s.calls[c].op.name !in s.lockNames
  {}

  lemma RenameSucceeds(s: State, c: CallId, serial: nat, i: Ino)
    requires Inv(s) && Renames(s, c, serial, i) && s.calls[c].op.name !in s.lockNames
    ensures Inv(RenameStep(s, c, serial, i, false))
  {
    var s' := RenameStep(s, c, serial, i, false);
    assert CallOk(s, c, s.calls[c]) && MadeOk(s, i);
    RenameGlobal(s, c, serial, i);
    RenameMoves(s, c, serial, i);
    forall d | d in s.calls && d != c ensures Rely(s, s', d) { RenameRely(s, c, serial, i, d); }
    RenameOnlyMoves(s, c, serial, i);
    Combine(s, s', c);
  }

  lemma RenameOnlyMoves(s: State, c: CallId, serial: nat, i: Ino)
    requires Renames(s, c, serial, i)
    ensures var s' := RenameStep(s, c, serial, i, false); c in s'.calls && s'.calls == s.calls[c := s'.calls[c]]
  {}

  lemma RenameKeeps(s: State, c: CallId, serial: nat, i: Ino, fault: bool)
    requires Inv(s) && Runnable(s, c) && s.calls[c].pc == Wr(Rename(serial, i))
    ensures Inv(RenameStep(s, c, serial, i, fault))
  {
    assert CallOk(s, c, s.calls[c]);
    if fault || (s.calls[c].op.name in s.names && s.calls[c].op.publish == CreateNew) {
      RenameFailsMoves(s, c, serial, i, fault);
      QuietKeeps(s, RenameStep(s, c, serial, i, fault), c);
    } else {
      RenamesReady(s, c, serial, i);
      RenameSucceeds(s, c, serial, i);
    }
  }

  lemma SyncDirMoves(s: State, c: CallId, serial: nat, fault: bool)
    requires c in s.calls && CallOk(s, c, s.calls[c]) && s.calls[c].pc == Wr(SyncDir(serial)) && Live(s.calls[c])
    ensures var s' := SyncDirStep(s, c, serial, fault);
            CallOk(s', c, s'.calls[c]) && (fault ==> Quiet(s, s', c))
  {}

  lemma SyncDirGlobal(s: State, c: CallId, serial: nat)
    requires Global(s) && c in s.calls && s.calls[c].pc == Wr(SyncDir(serial))
    ensures Global(SyncDirStep(s, c, serial, false))
  {
    var s' := SyncDirStep(s, c, serial, false);
    FilesStay(s, s');
    NamedStay(s, s');
    LogStays(s, s', c);
    TempsStay(s, s', c);
    FlocksStay(s, s', c);
  }

  lemma SyncDirRely(s: State, c: CallId, serial: nat, d: CallId)
    requires c in s.calls && d in s.calls && s.durable <= |s.log|
    ensures Rely(s, SyncDirStep(s, c, serial, false), d)
  {
    RelyStays(s, SyncDirStep(s, c, serial, false), d);
  }

  lemma SyncDirKeeps(s: State, c: CallId, serial: nat, fault: bool)
    requires Inv(s) && Runnable(s, c) && s.calls[c].pc == Wr(SyncDir(serial))
    ensures Inv(SyncDirStep(s, c, serial, fault))
  {
    var s' := SyncDirStep(s, c, serial, fault);
    SyncDirMoves(s, c, serial, fault);
    if fault {
      QuietKeeps(s, s', c);
    } else {
      SyncDirGlobal(s, c, serial);
      forall d | d in s.calls && d != c ensures Rely(s, s', d) { SyncDirRely(s, c, serial, d); }
      Combine(s, s', c);
    }
  }

  predicate Unlinks(s: State, c: CallId, serial: nat, error: Error) {
    && Runnable(s, c) && s.calls[c].op.Write? && s.calls[c].pc == Wr(Unlink(serial, error)) && Bindings(s)
    && Temp(s.calls[c].pid, serial) in s.temps
    && OwnTemp(s, c, s.calls[c].pid, serial, s.temps[Temp(s.calls[c].pid, serial)])
  }

  lemma UnlinkedIsUnnamed(s: State, c: CallId, serial: nat, error: Error)
    requires FilesOk(s) && Unlinks(s, c, serial, error)
    ensures var i := s.temps[Temp(s.calls[c].pid, serial)];
            && (forall n :: n in s.names ==> s.names[n] != i)
            && (forall t :: t in s.temps && t != Temp(s.calls[c].pid, serial) ==> s.temps[t] != i)
  {}

  lemma UnlinkFiles(s: State, c: CallId, serial: nat, error: Error)
    requires FilesOk(s) && Unlinks(s, c, serial, error)
    ensures FilesOk(UnlinkStep(s, c, serial, error, false))
  {
    var s' := UnlinkStep(s, c, serial, error, false);
    UnlinkedIsUnnamed(s, c, serial, error);
    LinksFewer(s.names, s.temps, s.inodes, s'.temps, s'.inodes);
    UnlinkMade(s, c, serial, error);
    UnlinkFrozen(s, c, serial, error);
  }

  lemma UnlinkMade(s: State, c: CallId, serial: nat, error: Error)
    requires FilesOk(s) && Unlinks(s, c, serial, error)
    ensures var s' := UnlinkStep(s, c, serial, error, false); forall x :: x in s'.inodes ==> MadeOk(s', x)
  {
    var s' := UnlinkStep(s, c, serial, error, false);
    forall x | x in s'.inodes ensures MadeOk(s', x) { assert MadeOk(s, x); }
  }

  lemma UnlinkFrozen(s: State, c: CallId, serial: nat, error: Error)
    requires FilesOk(s) && Unlinks(s, c, serial, error)
    ensures var s' := UnlinkStep(s, c, serial, error, false);
            Bindings(s') && forall n :: n in s'.names ==> Frozen(s'.inodes[s'.names[n]])
  {}

  lemma UnlinkNamed(s: State, c: CallId, serial: nat, error: Error)
    requires NamedOk(s) && Unlinks(s, c, serial, error)
    ensures NamedOk(UnlinkStep(s, c, serial, error, false))
  {
    var s' := UnlinkStep(s, c, serial, error, false);
    forall x | x in s'.inodes && s'.inodes[x].maker != Foreign && s'.inodes[x].nlink >= 1 ensures Named(s', x) {
      assert Named(s, x);
      NamedKept(s, s', x);
    }
  }

  lemma UnlinkGlobal(s: State, c: CallId, serial: nat, error: Error)
    requires Global(s) && Unlinks(s, c, serial, error)
    ensures Global(UnlinkStep(s, c, serial, error, false))
  {
    var s' := UnlinkStep(s, c, serial, error, false);
    UnlinkFiles(s, c, serial, error);
    UnlinkNamed(s, c, serial, error);
    LogStays(s, s', c);
    TempsStay(s, s', c);
    FlocksStay(s, s', c);
  }

  lemma UnlinkRely(s: State, c: CallId, serial: nat, error: Error, d: CallId)
    requires FilesOk(s) && Unlinks(s, c, serial, error) && d in s.calls && d != c
    ensures Rely(s, UnlinkStep(s, c, serial, error, false), d)
  {
    UnlinkRelyInodes(s, c, serial, error, d);
    UnlinkRelyTemps(s, c, serial, error, d);
  }

  lemma UnlinkRelyInodes(s: State, c: CallId, serial: nat, error: Error, d: CallId)
    requires Unlinks(s, c, serial, error)
    ensures RelyInodes(s, UnlinkStep(s, c, serial, error, false), d)
  {}

  lemma UnlinkRelyTemps(s: State, c: CallId, serial: nat, error: Error, d: CallId)
    requires Unlinks(s, c, serial, error) && d in s.calls && d != c
    ensures s.calls[d].pid in s.procs ==> RelyTemps(s, UnlinkStep(s, c, serial, error, false), d, s.calls[d].pid)
  {}

  lemma UnlinkMoves(s: State, c: CallId, serial: nat, error: Error, fault: bool)
    requires Runnable(s, c) && Bindings(s) && CallOk(s, c, s.calls[c]) && s.calls[c].pc == Wr(Unlink(serial, error))
    ensures var s' := UnlinkStep(s, c, serial, error, fault);
            && CallOk(s', c, s'.calls[c])
            && (fault || error == CommitUncertain ==> Quiet(s, s', c))
            && (!fault && error != CommitUncertain ==> Unlinks(s, c, serial, error))
  {}

  lemma UnlinkKeeps(s: State, c: CallId, serial: nat, error: Error, fault: bool)
    requires Inv(s) && Runnable(s, c) && s.calls[c].pc == Wr(Unlink(serial, error))
    ensures Inv(UnlinkStep(s, c, serial, error, fault))
  {
    var s' := UnlinkStep(s, c, serial, error, fault);
    UnlinkMoves(s, c, serial, error, fault);
    if fault || error == CommitUncertain {
      QuietKeeps(s, s', c);
    } else {
      UnlinkGlobal(s, c, serial, error);
      forall d | d in s.calls && d != c ensures Rely(s, s', d) { UnlinkRely(s, c, serial, error, d); }
      Combine(s, s', c);
    }
  }

  // Locks.

  predicate CreatesLock(s: State, c: CallId, choice: Choice) {
    && Runnable(s, c) && s.calls[c].op.Lock? && s.calls[c].pc == Lk(OpenLock) && Bindings(s)
    && !choice.fault && choice.newIno !in s.inodes && s.calls[c].op.name !in s.names
  }

  lemma CreateLockFiles(s: State, c: CallId, choice: Choice)
    requires FilesOk(s) && CreatesLock(s, c, choice) && DirPass(s, s.calls[c])
    ensures FilesOk(OpenLockStep(s, c, choice))
  {
    var s' := OpenLockStep(s, c, choice);
    LinksPlaceName(s.names, s.temps, s.inodes, s'.temps, s'.inodes, s.calls[c].op.name, choice.newIno);
    CreateLockMade(s, c, choice);
    CreateLockFrozen(s, c, choice);
  }

  lemma CreateLockMade(s: State, c: CallId, choice: Choice)
    requires FilesOk(s) && CreatesLock(s, c, choice) && DirPass(s, s.calls[c])
    ensures var s' := OpenLockStep(s, c, choice); forall i :: i in s'.inodes ==> MadeOk(s', i)
  {
    var s' := OpenLockStep(s, c, choice);
    forall i | i in s'.inodes ensures MadeOk(s', i) { if i in s.inodes { assert MadeOk(s, i); } }
  }

  lemma CreateLockFrozen(s: State, c: CallId, choice: Choice)
    requires FilesOk(s) && CreatesLock(s, c, choice)
    ensures var s' := OpenLockStep(s, c, choice);
            Bindings(s') && forall n :: n in s'.names ==> Frozen(s'.inodes[s'.names[n]])
  {}

  lemma CreateLockNamed(s: State, c: CallId, choice: Choice)
    requires NamedOk(s) && CreatesLock(s, c, choice)
    ensures NamedOk(OpenLockStep(s, c, choice))
  {
    var s' := OpenLockStep(s, c, choice);
    assert s'.names[s.calls[c].op.name] == choice.newIno;
    forall i | i in s.inodes && Named(s, i) ensures Named(s', i) { NamedKept(s, s', i); }
  }

  lemma CreateLockEntry(s: State, c: CallId, choice: Choice)
    requires LogOk(s) && CreatesLock(s, c, choice)
    ensures EntryOk(OpenLockStep(s, c, choice), |s.log|)
  {
    var s' := OpenLockStep(s, c, choice);
    assert s'.log[..|s.log|] == s.log;
    assert Lookup(s.names, s.calls[c].op.name) == BindingAt(s.origin, s.log, s.calls[c].op.name);
  }

  lemma CreateLockLog(s: State, c: CallId, choice: Choice)
    requires LogOk(s) && CreatesLock(s, c, choice) && s.calls[c].effect == Waiting
    ensures LogOk(OpenLockStep(s, c, choice))
  {
    CreateLockEntry(s, c, choice);
    LogGrows(s, OpenLockStep(s, c, choice), c, Commit(c, s.calls[c].op.name, choice.newIno));
  }

  lemma CreateLockTemps(s: State, c: CallId, choice: Choice)
    requires TempsOk(s) && CreatesLock(s, c, choice) && s.calls[c].effect == Waiting
    ensures TempsOk(OpenLockStep(s, c, choice))
  {
    TempsStay(s, OpenLockStep(s, c, choice), c);
  }

  lemma CreateLockGlobal(s: State, c: CallId, choice: Choice)
    requires Global(s) && CreatesLock(s, c, choice) && CallOk(s, c, s.calls[c])
    ensures Global(OpenLockStep(s, c, choice))
  {
    CreateLockFiles(s, c, choice);
    CreateLockNamed(s, c, choice);
    CreateLockLog(s, c, choice);
    CreateLockTemps(s, c, choice);
    CreateLockFlocks(s, c, choice);
  }

  lemma CreateLockFlocks(s: State, c: CallId, choice: Choice)
    requires FlocksOk(s) && TicketsOk(s) && CreatesLock(s, c, choice)
    ensures FlocksOk(OpenLockStep(s, c, choice)) && TicketsOk(OpenLockStep(s, c, choice))
  {
    FlocksStay(s, OpenLockStep(s, c, choice), c);
  }

  lemma CreateLockRely(s: State, c: CallId, choice: Choice, d: CallId)
    requires CreatesLock(s, c, choice) && DirPass(s, s.calls[c]) && d in s.calls && d != c
    ensures Rely(s, OpenLockStep(s, c, choice), d)
  {}

  lemma CreateLockMoves(s: State, c: CallId, choice: Choice)
    requires CreatesLock(s, c, choice) && CallOk(s, c, s.calls[c])
    ensures var s' := OpenLockStep(s, c, choice); CallOk(s', c, s'.calls[c])
    ensures DirPass(s, s.calls[c])
  {}

  lemma FindLockMoves(s: State, c: CallId, choice: Choice)
    requires Runnable(s, c) && Bindings(s) && CallOk(s, c, s.calls[c]) && s.calls[c].pc == Lk(OpenLock)
    requires choice.fault || s.calls[c].op.name in s.names
    ensures Moved(s, OpenLockStep(s, c, choice), c)
  {}

  lemma OpenLockKeeps(s: State, c: CallId, choice: Choice)
    requires Inv(s) && Runnable(s, c) && s.calls[c].pc == Lk(OpenLock) && choice.newIno !in s.inodes
    ensures Inv(OpenLockStep(s, c, choice))
  {
    var s' := OpenLockStep(s, c, choice);
    if CreatesLock(s, c, choice) {
      CreateLockMoves(s, c, choice);
      CreateLockGlobal(s, c, choice);
      forall d | d in s.calls && d != c ensures Rely(s, s', d) { CreateLockRely(s, c, choice, d); }
      Combine(s, s', c);
    } else {
      FindLockMoves(s, c, choice);
      QuietKeeps(s, s', c);
    }
  }

  /** Only the advisory lock table and the moving call change. */
  ghost predicate Relocks(s: State, s': State, c: CallId) {
    && c in s.calls && c in s'.calls
    && s' == s.(calls := s.calls[c := s'.calls[c]], flocks := s'.flocks)
    && s'.calls[c] == s.calls[c].(pc := s'.calls[c].pc) && s.calls[c].pc.Lk?
    && (forall i :: i in s.flocks && s.flocks[i] != c ==> i in s'.flocks && s'.flocks[i] == s.flocks[i])
  }

  lemma RelocksGlobal(s: State, s': State, c: CallId)
    requires Global(s) && Relocks(s, s', c) && FlocksOk(s')
    ensures Global(s')
  {
    FilesStay(s, s');
    NamedStay(s, s');
    LogStays(s, s', c);
    TempsStay(s, s', c);
  }

  lemma RelocksKeeps(s: State, s': State, c: CallId)
    requires Inv(s) && Relocks(s, s', c) && FlocksOk(s') && CallOk(s', c, s'.calls[c])
    ensures Inv(s')
  {
    RelocksGlobal(s, s', c);
    forall d | d in s.calls && d != c ensures Rely(s, s', d) { RelyStays(s, s', d); }
    Combine(s, s', c);
  }

  lemma TryLockFailsMoves(s: State, c: CallId, i: Ino, fault: bool)
    requires c in s.calls && CallOk(s, c, s.calls[c]) && s.calls[c].pc == Lk(TryLock(i))
    requires fault || i in s.flocks
    ensures Moved(s, TryLockStep(s, c, i, fault), c)
  {}

  lemma TryLockTakes(s: State, c: CallId, i: Ino)
    requires c in s.calls && CallOk(s, c, s.calls[c]) && s.calls[c].pc == Lk(TryLock(i)) && i !in s.flocks
    requires FlocksOk(s)
    ensures var s' := TryLockStep(s, c, i, false);
            CallOk(s', c, s'.calls[c]) && Relocks(s, s', c) && FlocksOk(s')
  {}

  lemma TryLockKeeps(s: State, c: CallId, i: Ino, fault: bool)
    requires Inv(s) && c in s.calls && s.calls[c].pc == Lk(TryLock(i))
    ensures Inv(TryLockStep(s, c, i, fault))
  {
    var s' := TryLockStep(s, c, i, fault);
    if fault || i in s.flocks {
      TryLockFailsMoves(s, c, i, fault);
      QuietKeeps(s, s', c);
    } else {
      TryLockTakes(s, c, i);
      RelocksKeeps(s, s', c);
    }
  }

  lemma DropHandleMoves(s: State, c: CallId, i: Ino)
    requires c in s.calls && CallOk(s, c, s.calls[c]) && s.calls[c].pc == Lk(Holding(i)) && FlocksOk(s)
    ensures var s' := DropHandleStep(s, c, i);
            CallOk(s', c, s'.calls[c]) && Relocks(s, s', c) && FlocksOk(s')
  {}

  lemma DropHandleKeeps(s: State, c: CallId, i: Ino)
    requires Inv(s) && c in s.calls && s.calls[c].pc == Lk(Holding(i))
    ensures Inv(DropHandleStep(s, c, i))
  {
    DropHandleMoves(s, c, i);
    RelocksKeeps(s, DropHandleStep(s, c, i), c);
  }

  // ---------------------------------------------------------------- events

  /** No call is ever stuck: while its process lives, a call that has not returned can take its next step. */
  lemma NeverStuck(s: State, c: CallId)
    requires Inv(s) && c in s.calls && Live(s.calls[c])
    ensures Runnable(s, c) && Bindings(s) && WellPlaced(s, s.calls[c])
  {
    assert CallOk(s, c, s.calls[c]);
  }

  /** Writer steps that change nothing but the call itself. */
  lemma LookingMoves(s: State, c: CallId, choice: Choice)
    requires FilesOk(s) && CanGo(s, c, choice) && s.calls[c].pc.Wr? && CallOk(s, c, s.calls[c])
    requires var w := s.calls[c].pc.w; w.PreDir? || w.PreOpen? || w.PreStat? || w.TempStat?
    ensures Moved(s, AdvanceWriter(s, c, s.calls[c].pc.w, choice), c)
  {
    var w := s.calls[c].pc.w;
    if w.PreDir? { PreDirMoves(s, c, choice.fault); }
    else if w.PreOpen? { PreOpenMoves(s, c, choice.fault); }
    else if w.PreStat? { PreStatMoves(s, c, w.ino, choice.fault); }
    else {
      assert MadeOk(s, w.ino);
      TempStatMoves(s, c, w.serial, w.ino, choice.fault);
    }
  }

  lemma LookingKeeps(s: State, c: CallId, choice: Choice)
    requires Inv(s) && CanGo(s, c, choice) && s.calls[c].pc.Wr?
    requires var w := s.calls[c].pc.w; w.PreDir? || w.PreOpen? || w.PreStat? || w.TempStat?
    ensures Inv(AdvanceWriter(s, c, s.calls[c].pc.w, choice))
  {
    assert CallOk(s, c, s.calls[c]);
    LookingMoves(s, c, choice);
    QuietKeeps(s, AdvanceWriter(s, c, s.calls[c].pc.w, choice), c);
  }

  lemma WriterKeeps(s: State, c: CallId, choice: Choice)
    requires Inv(s) && CanGo(s, c, choice) && s.calls[c].pc.Wr?
    ensures Inv(Advance(s, c, choice))
  {
    var fault := choice.fault;
    assert CallOk(s, c, s.calls[c]);
    match s.calls[c].pc.w {
      case PreDir => LookingKeeps(s, c, choice);
      case PreOpen => LookingKeeps(s, c, choice);
      case PreStat(_) => LookingKeeps(s, c, choice);
      case TempStat(_, _) => LookingKeeps(s, c, choice);
      case TakeTicket(tries) => TakeTicketKeeps(s, c, tries);
      case CreateTemp(tries, serial) => CreateTempKeeps(s, c, tries, serial, choice);
      case WriteAll(serial, i, written) => WriteAllKeeps(s, c, serial, i, written, choice);
      case SyncFile(serial, i) => SyncFileKeeps(s, c, serial, i, fault);
      case Rename(serial, i) => RenameKeeps(s, c, serial, i, fault);
      case SyncDir(serial) => SyncDirKeeps(s, c, serial, fault);
      case Unlink(serial, error) => UnlinkKeeps(s, c, serial, error, fault);
    }
  }

  lemma ReaderKeeps(s: State, c: CallId, choice: Choice)
    requires Inv(s) && CanGo(s, c, choice) && s.calls[c].pc.Rd?
    ensures Inv(Advance(s, c, choice))
  {
    assert CallOk(s, c, s.calls[c]);
    match s.calls[c].pc.r {
      case OpenRead => OpenReadMoves(s, c, choice.fault);
      case ReadStat(i) => ReadStatMoves(s, c, i, choice.fault);
      case ReadLen(i) => ReadLenMoves(s, c, i, choice.fault);
      case ReadChunk(i, buffer) => ReadChunkMoves(s, c, i, buffer, choice);
    }
    QuietKeeps(s, Advance(s, c, choice), c);
  }

  lemma LockerKeeps(s: State, c: CallId, choice: Choice)
    requires Inv(s) && CanGo(s, c, choice) && s.calls[c].pc.Lk?
    ensures Inv(Advance(s, c, choice))
  {
    assert CallOk(s, c, s.calls[c]);
    match s.calls[c].pc.l {
      case OpenLock => OpenLockKeeps(s, c, choice);
      case LockStat(i) => LockStatMoves(s, c, i, choice.fault); QuietKeeps(s, Advance(s, c, choice), c);
      case TryLock(i) => TryLockKeeps(s, c, i, choice.fault);
      case Holding(i) => DropHandleKeeps(s, c, i);
    }
  }

  lemma GoKeeps(s: State, c: CallId, choice: Choice)
    requires Inv(s) && CanGo(s, c, choice)
    ensures Inv(Advance(s, c, choice))
  {
    assert CallOk(s, c, s.calls[c]);
    match s.calls[c].pc {
      case Enter => EnterMoves(s, c); QuietKeeps(s, Advance(s, c, choice), c);
      case CheckDir => CheckDirMoves(s, c, choice.fault); QuietKeeps(s, Advance(s, c, choice), c);
      case Wr(_) => WriterKeeps(s, c, choice);
      case Rd(_) => ReaderKeeps(s, c, choice);
      case Lk(_) => LockerKeeps(s, c, choice);
      case Leaving(answer) => LeavingMoves(s, c, answer); QuietKeeps(s, Advance(s, c, choice), c);
    }
  }

  lemma SpawnGlobal(s: State, pid: Pid, euid: nat, umask: Mode)
    requires Global(s) && Enabled(s, Spawn(pid, euid, umask))
    ensures Global(Apply(s, Spawn(pid, euid, umask)))
  {
    var s' := Apply(s, Spawn(pid, euid, umask));
    FilesStay(s, s');
    NamedStay(s, s');
    LogSame(s, s');
    TempsSame(s, s');
    SpawnTickets(s, pid, euid, umask);
  }

  lemma SpawnTickets(s: State, pid: Pid, euid: nat, umask: Mode)
    requires TicketsOk(s) && FlocksOk(s) && pid !in s.procs
    ensures var s' := s.(procs := s.procs[pid := Proc(euid, umask, 0, map[])]); TicketsOk(s') && FlocksOk(s')
  {}

  lemma SpawnKeeps(s: State, pid: Pid, euid: nat, umask: Mode)
    requires Inv(s) && Enabled(s, Spawn(pid, euid, umask))
    ensures Inv(Apply(s, Spawn(pid, euid, umask)))
  {
    var s' := Apply(s, Spawn(pid, euid, umask));
    SpawnGlobal(s, pid, euid, umask);
    forall d | d in s'.calls ensures CallOk(s', d, s'.calls[d]) {
      SpawnRely(s, pid, euid, umask, d);
      CallStays(s, s', d);
    }
  }

  lemma TempsSame(s: State, s': State)
    requires TempsOk(s) && s'.temps == s.temps && s'.inodes == s.inodes
    requires forall c :: c in s.calls ==> c in s'.calls && s'.calls[c] == s.calls[c]
    ensures TempsOk(s')
  {
    forall t | t in s'.temps ensures s'.temps[t] in s'.inodes && TempOk(s', t) { assert TempOk(s, t); }
  }

  lemma SpawnRely(s: State, pid: Pid, euid: nat, umask: Mode, d: CallId)
    requires Enabled(s, Spawn(pid, euid, umask)) && d in s.calls
    ensures Rely(s, Apply(s, Spawn(pid, euid, umask)), d)
  {}

  /** The log says the same when no call that published changes what it published. */
  lemma LogSame(s: State, s': State)
    requires LogOk(s) && s'.log == s.log && s'.names == s.names && s'.durable == s.durable && s'.origin == s.origin
    requires s'.inodes == s.inodes
    requires forall c :: c in s.calls ==>
               c in s'.calls && s'.calls[c].op == s.calls[c].op && s'.calls[c].effect == s.calls[c].effect
    ensures LogOk(s')
  {
    forall j | 0 <= j < |s'.log| ensures EntryOk(s', j) { assert EntryOk(s, j); }
    forall n ensures Lookup(s'.names, n) == BindingAt(s'.origin, s'.log, n) {
      assert Lookup(s.names, n) == BindingAt(s.origin, s.log, n);
    }
  }

  lemma InvokeGlobal(s: State, c: CallId, pid: Pid, op: Op)
    requires Global(s) && Enabled(s, Invoke(c, pid, op))
    ensures Global(Apply(s, Invoke(c, pid, op)))
  {
    var s' := Apply(s, Invoke(c, pid, op));
    FilesStay(s, s');
    NamedStay(s, s');
    InvokeLog(s, c, pid, op);
    InvokeTemps(s, c, pid, op);
    InvokeFlocks(s, c, pid, op);
  }

  lemma InvokeLog(s: State, c: CallId, pid: Pid, op: Op)
    requires LogOk(s) && Enabled(s, Invoke(c, pid, op))
    ensures LogOk(Apply(s, Invoke(c, pid, op)))
  {
    LogSame(s, Apply(s, Invoke(c, pid, op)));
  }

  lemma InvokeTemps(s: State, c: CallId, pid: Pid, op: Op)
    requires TempsOk(s) && Enabled(s, Invoke(c, pid, op))
    ensures TempsOk(Apply(s, Invoke(c, pid, op)))
  {
    TempsSame(s, Apply(s, Invoke(c, pid, op)));
  }

  lemma InvokeFlocks(s: State, c: CallId, pid: Pid, op: Op)
    requires FlocksOk(s) && Enabled(s, Invoke(c, pid, op))
    ensures FlocksOk(Apply(s, Invoke(c, pid, op)))
  {}

  lemma InvokeKeeps(s: State, c: CallId, pid: Pid, op: Op)
    requires Inv(s) && Enabled(s, Invoke(c, pid, op))
    ensures Inv(Apply(s, Invoke(c, pid, op)))
  {
    var s' := Apply(s, Invoke(c, pid, op));
    InvokeGlobal(s, c, pid, op);
    forall d | d in s'.calls && d != c ensures CallOk(s', d, s'.calls[d]) {
      RelyStays(s, s', d);
      CallStays(s, s', d);
    }
  }

  lemma KillTemps(s: State, pid: Pid)
    requires TempsOk(s)
    ensures TempsOk(KillStep(s, pid))
  {
    var s' := KillStep(s, pid);
    forall t | t in s'.temps ensures s'.temps[t] in s'.inodes && TempOk(s', t) { assert TempOk(s, t); }
  }

  lemma KillFlocks(s: State, pid: Pid)
    requires FlocksOk(s)
    ensures FlocksOk(KillStep(s, pid))
  {}

  lemma KillRely(s: State, pid: Pid, d: CallId)
    requires d in s.calls && !(s.calls[d].pid == pid && Live(s.calls[d]))
    ensures Rely(s, KillStep(s, pid), d)
  {}

  lemma KillGlobal(s: State, pid: Pid)
    requires Global(s)
    ensures Global(KillStep(s, pid))
  {
    FilesStay(s, KillStep(s, pid));
    NamedStay(s, KillStep(s, pid));
    LogSame(s, KillStep(s, pid));
    KillTemps(s, pid);
    KillFlocks(s, pid);
  }

  lemma KillKeeps(s: State, pid: Pid)
    requires Inv(s)
    ensures Inv(KillStep(s, pid))
  {
    var s' := KillStep(s, pid);
    KillGlobal(s, pid);
    forall d | d in s'.calls ensures CallOk(s', d, s'.calls[d]) {
      assert CallOk(s, d, s.calls[d]);
      if !(s.calls[d].pid == pid && Live(s.calls[d])) { KillRely(s, pid, d); CallStays(s, s', d); }
    }
  }

  lemma InitialInv(s: State)
    requires Initial(s)
    ensures Inv(s)
  {}

  /** One event of the system. */
  lemma EventKeeps(s: State, event: Event)
    requires Inv(s) && Enabled(s, event)
    ensures Inv(Apply(s, event))
  {
    match event {
      case Spawn(pid, euid, umask) => SpawnKeeps(s, pid, euid, umask);
      case Kill(pid) => KillKeeps(s, pid);
      case Invoke(c, pid, op) => InvokeKeeps(s, c, pid, op);
      case Go(c, choice) => GoKeeps(s, c, choice);
      case Interrupt(_) =>
    }
  }

  /** The invariant holds in every state of every run. */
  lemma {:induction false} RunInv(run: seq<State>, k: nat)
    requires Run(run) && k < |run|
    ensures Inv(run[k])
  {
    if k == 0 {
      InitialInv(run[0]);
    } else {
      RunInv(run, k - 1);
      assert StepAt(run, k - 1);
      var event :| Enabled(run[k - 1], event) && run[k] == Apply(run[k - 1], event);
      EventKeeps(run[k - 1], event);
    }
  }

  /** The event behind one step of a run. */
  lemma RunEvent(run: seq<State>, k: nat) returns (event: Event)
    requires Run(run) && k + 1 < |run|
    ensures Inv(run[k]) && Enabled(run[k], event) && run[k + 1] == Apply(run[k], event)
  {
    RunInv(run, k);
    assert StepAt(run, k);
    event :| Enabled(run[k], event) && run[k + 1] == Apply(run[k], event);
  }
}
