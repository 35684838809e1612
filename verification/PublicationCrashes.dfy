/** Power cuts: what survives one is a directory a new run can start from, and what was reported as
    published outlives any number of them. */
module PublicationCrashes {
  import opened Publication
  import opened PublicationInvariant
  import opened PublicationSteps
  import opened PublicationTheorems
  import opened Wrappers

  /** A file after the cut: whole if it had been synced, with any content otherwise. */
  predicate Recovered(a: Inode, b: Inode) {
    && b.kind == a.kind && b.uid == a.uid && b.mode == a.mode && (a.synced ==> b.bytes == a.bytes)
    && b.synced && b.maker == Foreign
  }

  /** A power cut in state `s` and a reboot into `s'`.  Each name keeps any binding it has had since the last
      directory sync, any temporaries may be left, and no process and no lock survives.  The file system's own
      recovery gets link counts right. */
  ghost predicate PowerCut(s: State, s': State) {
    && s'.meta == s.meta && s'.lockNames == s.lockNames
    && s'.origin == s'.names && s'.log == [] && s'.durable == 0
    && s'.procs == map[] && s'.calls == map[] && s'.flocks == map[]
    && (forall n :: MaySurvive(s, n, Lookup(s'.names, n)))
    && (forall t :: t in s'.temps ==> s'.temps[t] in s'.inodes)
    && (forall i :: i in s.inodes ==> i in s'.inodes && Recovered(s.inodes[i], s'.inodes[i]))
    && (forall i :: i in s'.inodes ==> i in s.inodes)
    && (Bindings(s') ==> LinksCounted(s'))
  }

  /** Commit `j` of state `s` put these bytes under `n`. */
  predicate CommitWith(s: State, j: nat, n: string, bytes: Bytes) {
    && j < |s.log| && s.log[j].name == n && s.log[j].call in s.calls
    && s.calls[s.log[j].call].op.Write? && s.calls[s.log[j].call].op.payload == bytes
  }

  /** A binding is the work of one commit, or the one the run started with, and its file is whole on disk. */
  lemma BindingMeans(run: seq<State>, k: nat, cut: nat, n: string, i: Ino) returns (j: int)
    requires Run(run) && k < |run| && cut <= |run[k].log| && n !in run[k].lockNames
    requires BindingAt(run[k].origin, run[k].log[..cut], n) == Some(i)
    ensures i in run[k].inodes && run[k].inodes[i].synced && -1 <= j < cut
    ensures j >= 0 ==> CommitWith(run[k], j, n, run[k].inodes[i].bytes)
    ensures j < 0 ==> && n in run[0].names && run[0].names[n] == i && i in run[0].inodes
                      && run[0].inodes[i].bytes == run[k].inodes[i].bytes
    ensures forall m :: j < m < cut ==> run[k].log[m].name != n
  {
    RunInv(run, k);
    RunGrows(run, 0, k);
    j := LastCommit(run[k].origin, run[k].log[..cut], n);
    if j >= 0 {
      CommitMeans(run[k], j);
    } else {
      assert InodeGrows(run[0].inodes[i], run[k].inodes[i]);
    }
    forall m | j < m < cut ensures run[k].log[m].name != n { assert run[k].log[..cut][m].name != n; }
  }

  lemma CommitMeans(s: State, j: nat)
    requires Inv(s) && j < |s.log| && s.log[j].name !in s.lockNames
    ensures s.log[j].ino in s.inodes && s.inodes[s.log[j].ino].synced
    ensures CommitWith(s, j, s.log[j].name, s.inodes[s.log[j].ino].bytes)
  {
    assert EntryOk(s, j) && CallOk(s, s.log[j].call, s.calls[s.log[j].call]);
  }

  lemma BoundInodeExists(run: seq<State>, k: nat, cut: nat, n: string, i: Ino)
    requires Run(run) && k < |run| && cut <= |run[k].log| && BindingAt(run[k].origin, run[k].log[..cut], n) == Some(i)
    ensures i in run[k].inodes
  {
    RunInv(run, k);
    RunGrows(run, 0, k);
    var j := LastCommit(run[k].origin, run[k].log[..cut], n);
    if j >= 0 { assert EntryOk(run[k], j); }
  }

  /** What a power cut leaves, in any state of any run, is a directory a run can start from. */
  lemma CutIsInitial(run: seq<State>, k: nat, s': State)
    requires Run(run) && k < |run| && PowerCut(run[k], s')
    ensures Initial(s')
  {
    var s := run[k];
    forall n | n in s'.names ensures s'.names[n] in s'.inodes {
      assert MaySurvive(s, n, Lookup(s'.names, n));
      var cut :| s.durable <= cut <= |s.log| && Some(s'.names[n]) == BindingAt(s.origin, s.log[..cut], n);
      RunInv(run, k);
      BoundInodeExists(run, k, cut, n, s'.names[n]);
    }
    forall i | i in s'.inodes ensures s'.inodes[i].maker == Foreign && s'.inodes[i].synced {
      assert Recovered(s.inodes[i], s'.inodes[i]);
    }
  }

  /** The names as they were after the first `cut` commits. */
  function NamesAt(s: State, cut: nat): (names: map<string, Ino>)
    requires cut <= |s.log|
  {
    map n | n in s.names && BindingAt(s.origin, s.log[..cut], n).Some? :: BindingAt(s.origin, s.log[..cut], n).value
  }

  lemma NamesAtAre(run: seq<State>, k: nat, cut: nat, n: string)
    requires Run(run) && k < |run| && cut <= |run[k].log|
    ensures Lookup(NamesAt(run[k], cut), n) == BindingAt(run[k].origin, run[k].log[..cut], n)
  {
    NamesFollowLog(run, k, n);
    if BindingAt(run[k].origin, run[k].log[..cut], n).Some? {
      BindingStays(run[k].origin, run[k].log[..cut], run[k].log, n);
    }
  }

  /** The directory after a reboot with these names, no temporaries, and link counts that are the numbers of names. */
  function Rebooted(s: State, names: map<string, Ino>): (s': State) {
    s.(origin := names, names := names, temps := map[], flocks := map[], log := [], durable := 0,
       procs := map[], calls := map[],
       inodes := map i | i in s.inodes ::
                   s.inodes[i].(nlink := |NamesFor(names, i)|, synced := true, maker := Foreign))
  }

  function NamesFor(names: map<string, Ino>, i: Ino): (on: set<string>) { set n | n in names && names[n] == i }

  lemma RebootedLinks(s: State, names: map<string, Ino>)
    requires Bindings(Rebooted(s, names))
    ensures LinksCounted(Rebooted(s, names))
  {
    forall n | n in names ensures |NamesFor(names, names[n])| >= 1 { assert n in NamesFor(names, names[n]); }
    forall m, n | m in names && n in names && m != n && names[m] == names[n] ensures |NamesFor(names, names[n])| > 1 {
      var on := NamesFor(names, names[n]);
      assert m in on - {n} && |on - {n}| == |on| - 1;
    }
  }

  /** Power cuts can happen: in any state of any run, and with any number of the commits since the last
      directory sync lost. */
  lemma AnyCutCanHappen(run: seq<State>, k: nat, cut: nat)
    requires Run(run) && k < |run| && run[k].durable <= cut <= |run[k].log|
    ensures PowerCut(run[k], Rebooted(run[k], NamesAt(run[k], cut)))
  {
    var names := NamesAt(run[k], cut);
    forall n ensures MaySurvive(run[k], n, Lookup(names, n)) {
      NamesAtAre(run, k, cut, n);
      SurvivesAt(run[k], n, cut);
    }
    RebootIsACut(run[k], names);
  }

  lemma SurvivesAt(s: State, n: string, cut: nat)
    requires s.durable <= cut <= |s.log|
    ensures MaySurvive(s, n, BindingAt(s.origin, s.log[..cut], n))
  {}

  lemma RebootIsACut(s: State, names: map<string, Ino>)
    requires forall n :: MaySurvive(s, n, Lookup(names, n))
    ensures PowerCut(s, Rebooted(s, names))
  {
    var s' := Rebooted(s, names);
    assert s'.names == names;
    if Bindings(s') { RebootedLinks(s, names); }
  }

  // -------------------------------------------------------------- many power cuts

  function Final(run: seq<State>): (s: State)
    requires run != []
  {
    run[|run| - 1]
  }

  ghost predicate CutAt(runs: seq<seq<State>>, e: nat)
    requires e + 1 < |runs| && runs[e] != [] && runs[e + 1] != []
  {
    PowerCut(Final(runs[e]), runs[e + 1][0])
  }

  /** Stretches of work, each ended by a power cut in whatever state it had come to. */
  ghost predicate History(runs: seq<seq<State>>) {
    && |runs| > 0
    && (forall e :: 0 <= e < |runs| ==> runs[e] != [] && Steps(runs[e]))
    && Initial(runs[0][0])
    && (forall e: nat :: e + 1 < |runs| ==> CutAt(runs, e))
  }

  lemma {:induction false} EpochsAreRuns(runs: seq<seq<State>>, e: nat)
    requires History(runs) && e < |runs|
    ensures Run(runs[e])
  {
    if e > 0 {
      EpochsAreRuns(runs, e - 1);
      assert CutAt(runs, e - 1);
      CutIsInitial(runs[e - 1], |runs[e - 1]| - 1, runs[e][0]);
    }
  }

  /** The state of epoch `g` that counts for someone who looks in state `m` of epoch `f`. */
  function Seen(runs: seq<seq<State>>, g: nat, f: nat, m: nat): (s: State)
    requires g < |runs| && runs[g] != [] && (g == f ==> m < |runs[g]|)
  {
    if g == f then runs[g][m] else Final(runs[g])
  }

  /** State `m` of epoch `f` has, under `n`, what commit `slot` of epoch `e` or a later commit of `n` put there. */
  ghost predicate HeldSince(runs: seq<seq<State>>, e: nat, slot: nat, f: nat, m: nat, n: string)
    requires e <= f < |runs| && m < |runs[f]| && forall g :: 0 <= g < |runs| ==> runs[g] != []
  {
    var s := runs[f][m];
    && n in s.names && s.names[n] in s.inodes
    && (exists g: nat, j: nat :: e <= g <= f && (g == e ==> slot <= j)
          && CommitWith(Seen(runs, g, f, m), j, n, s.inodes[s.names[n]].bytes))
  }

  lemma HeldBy(runs: seq<seq<State>>, e: nat, slot: nat, f: nat, m: nat, n: string, g: nat, j: nat)
    requires e <= g <= f < |runs| && m < |runs[f]| && (forall g :: 0 <= g < |runs| ==> runs[g] != [])
    requires var s := runs[f][m]; n in s.names && s.names[n] in s.inodes
    requires g == e ==> slot <= j
    requires CommitWith(Seen(runs, g, f, m), j, n, runs[f][m].inodes[runs[f][m].names[n]].bytes)
    ensures HeldSince(runs, e, slot, f, m, n)
  {}

  /** Within the epoch of the write. */
  lemma HeldInItsEpoch(runs: seq<seq<State>>, e: nat, k: nat, c: CallId, m: nat)
    requires History(runs) && e < |runs| && k <= m < |runs[e]| && c in runs[e][k].calls
    requires runs[e][k].calls[c].op.Write? && runs[e][k].calls[c].pc == Done(Ok([]))
    ensures runs[e][k].calls[c].effect.Published?
    ensures HeldSince(runs, e, runs[e][k].calls[c].effect.slot, e, m, runs[e][k].calls[c].op.name)
  {
    EpochsAreRuns(runs, e);
    var run, n := runs[e], runs[e][k].calls[c].op.name;
    var slot := CommittedAt(run, k, m, c);
    NamesFollowLog(run, m, n);
    BoundForever(run, k, m, n);
    assert run[m].log[..|run[m].log|] == run[m].log;
    var j := BindingMeans(run, m, |run[m].log|, n, run[m].names[n]);
    HeldBy(runs, e, slot, e, m, n, e, j);
  }

  /** A successful write has its commit in the log, then and later. */
  lemma CommittedAt(run: seq<State>, k: nat, m: nat, c: CallId) returns (slot: nat)
    requires Run(run) && k <= m < |run| && c in run[k].calls
    requires run[k].calls[c].op.Write? && run[k].calls[c].pc == Done(Ok([]))
    ensures run[k].calls[c].effect == Published(slot) && run[k].calls[c].op.name !in run[m].lockNames
    ensures slot < |run[m].log| && run[m].log[slot].name == run[k].calls[c].op.name
    ensures run[k].calls[c].op.name in run[k].names
  {
    RunInv(run, k);
    RunGrows(run, k, m);
    var s, n := run[k], run[k].calls[c].op.name;
    assert CallOk(s, c, s.calls[c]);
    slot := s.calls[c].effect.slot;
    assert EntryOk(s, slot);
    assert Lookup(s.names, n) == BindingAt(s.origin, s.log, n);
    CommitBinds(s.origin, s.log, slot);
  }

  lemma CommitBinds(origin: map<string, Ino>, log: seq<Commit>, j: nat)
    requires j < |log|
    ensures BindingAt(origin, log, log[j].name).Some?
  {
    assert log[..j + 1][..j] == log[..j] && BindingAt(origin, log[..j + 1], log[j].name).Some?;
    BindingStays(origin, log[..j + 1], log, log[j].name);
  }

  /** From the start of an epoch to any state of it. */
  lemma HeldWithin(runs: seq<seq<State>>, e: nat, slot: nat, f: nat, m: nat, n: string)
    requires History(runs) && e < f < |runs| && m < |runs[f]| && n !in runs[f][m].lockNames
    requires HeldSince(runs, e, slot, f, 0, n)
    ensures HeldSince(runs, e, slot, f, m, n)
  {
    EpochsAreRuns(runs, f);
    var run := runs[f];
    BoundForever(run, 0, m, n);
    NamesFollowLog(run, m, n);
    assert run[m].log[..|run[m].log|] == run[m].log;
    var j := BindingMeans(run, m, |run[m].log|, n, run[m].names[n]);
    if j >= 0 { HeldBy(runs, e, slot, f, m, n, f, j); } else { HeldCarries(runs, e, slot, f, f, m, n); }
  }

  /** What an epoch started with is still held wherever the name has the same bytes. */
  lemma HeldCarries(runs: seq<seq<State>>, e: nat, slot: nat, f: nat, f': nat, m: nat, n: string)
    requires e < f <= f' < |runs| && m < |runs[f']| && (forall g :: 0 <= g < |runs| ==> runs[g] != [])
    requires HeldSince(runs, e, slot, f, 0, n) && runs[f][0].log == []
    requires var s, s' := runs[f][0], runs[f'][m];
             n in s'.names && s'.names[n] in s'.inodes && s'.inodes[s'.names[n]].bytes == s.inodes[s.names[n]].bytes
    ensures HeldSince(runs, e, slot, f', m, n)
  {
    var g: nat, j: nat :| e <= g <= f && (g == e ==> slot <= j)
                          && CommitWith(Seen(runs, g, f, 0), j, n, runs[f][0].inodes[runs[f][0].names[n]].bytes);
    HeldBy(runs, e, slot, f', m, n, g, j);
  }

  /** What a cut may leave under `n`, carried into the first state of the next epoch. */
  lemma SurvivorIsBound(runs: seq<seq<State>>, f: nat, n: string) returns (cut: nat)
    requires History(runs) && f + 1 < |runs|
    ensures var s, s' := Final(runs[f]), runs[f + 1][0];
            && s.durable <= cut <= |s.log| && Lookup(s'.names, n) == BindingAt(s.origin, s.log[..cut], n)
            && s'.lockNames == s.lockNames
            && (forall i :: i in s.inodes ==> i in s'.inodes && Recovered(s.inodes[i], s'.inodes[i]))
  {
    EpochsAreRuns(runs, f);
    RunInv(runs[f], |runs[f]| - 1);
    assert CutAt(runs, f);
    var s, s' := Final(runs[f]), runs[f + 1][0];
    assert MaySurvive(s, n, Lookup(s'.names, n));
    cut :| s.durable <= cut <= |s.log| && Lookup(s'.names, n) == BindingAt(s.origin, s.log[..cut], n);
  }

  /** Over the first cut after the write: its commit is covered by a directory sync. */
  lemma HeldOverFirstCut(runs: seq<seq<State>>, e: nat, k: nat, c: CallId)
    requires History(runs) && e + 1 < |runs| && k < |runs[e]| && c in runs[e][k].calls
    requires runs[e][k].calls[c].op.Write? && runs[e][k].calls[c].pc == Done(Ok([]))
    ensures runs[e][k].calls[c].effect.Published?
    ensures HeldSince(runs, e, runs[e][k].calls[c].effect.slot, e + 1, 0, runs[e][k].calls[c].op.name)
  {
    EpochsAreRuns(runs, e);
    var run, n, last := runs[e], runs[e][k].calls[c].op.name, |runs[e]| - 1;
    var slot := CommittedAt(run, k, last, c);
    var cut := SurvivorIsBound(runs, e, n);
    var s, s' := Final(run), runs[e + 1][0];
    assert MaySurvive(s, n, Lookup(s'.names, n));
    OkIsDurable(run, k, last, c, Lookup(s'.names, n));
    var j :| slot <= j < |s.log| && s.log[j].name == n && Lookup(s'.names, n) == Some(s.log[j].ino);
    RunInv(run, last);
    CommitMeans(s, j);
    assert Recovered(s.inodes[s.log[j].ino], s'.inodes[s.log[j].ino]);
    HeldBy(runs, e, slot, e + 1, 0, n, e, j);
  }

  /** Over every later cut: what the epoch started with, or a commit of its own. */
  lemma HeldOverLaterCut(runs: seq<seq<State>>, e: nat, slot: nat, f: nat, n: string)
    requires History(runs) && e < f && f + 1 < |runs| && n !in Final(runs[f]).lockNames
    requires HeldSince(runs, e, slot, f, 0, n)
    ensures HeldSince(runs, e, slot, f + 1, 0, n)
  {
    EpochsAreRuns(runs, f);
    var run, last := runs[f], |runs[f]| - 1;
    var cut := SurvivorIsBound(runs, f, n);
    var s, s' := Final(run), runs[f + 1][0];
    StartIsKept(run, last, cut, n);
    var i := s'.names[n];
    var j := BindingMeans(run, last, cut, n, i);
    assert Recovered(s.inodes[i], s'.inodes[i]);
    if j >= 0 { HeldBy(runs, e, slot, f + 1, 0, n, f, j); } else { HeldCarries(runs, e, slot, f, f + 1, 0, n); }
  }

  /** A name bound when the run started is bound after every prefix of the commits. */
  lemma StartIsKept(run: seq<State>, k: nat, cut: nat, n: string)
    requires Run(run) && k < |run| && cut <= |run[k].log| && n in run[0].names
    ensures BindingAt(run[k].origin, run[k].log[..cut], n).Some?
  {
    RunGrows(run, 0, k);
    BindingStays(run[k].origin, [], run[k].log[..cut], n);
  }

  lemma LockNamesStay(runs: seq<seq<State>>, f: nat, m: nat)
    requires History(runs) && f < |runs| && m < |runs[f]|
    ensures runs[f][m].lockNames == runs[f][0].lockNames
    ensures f > 0 ==> runs[f][0].lockNames == Final(runs[f - 1]).lockNames
  {
    EpochsAreRuns(runs, f);
    RunGrows(runs[f], 0, m);
    if f > 0 { assert CutAt(runs, f - 1); }
  }

  lemma {:induction false} HeldAtStart(runs: seq<seq<State>>, e: nat, k: nat, c: CallId, f: nat)
    requires History(runs) && e < f < |runs| && k < |runs[e]| && c in runs[e][k].calls
    requires runs[e][k].calls[c].op.Write? && runs[e][k].calls[c].pc == Done(Ok([]))
    ensures runs[e][k].calls[c].effect.Published?
    ensures HeldSince(runs, e, runs[e][k].calls[c].effect.slot, f, 0, runs[e][k].calls[c].op.name)
    decreases f
  {
    if f == e + 1 {
      HeldOverFirstCut(runs, e, k, c);
    } else {
      HeldAtStart(runs, e, k, c, f - 1);
      TargetIsNoLock(runs, e, k, c, f - 1, |runs[f - 1]| - 1);
      HeldOverLaterCut(runs, e, runs[e][k].calls[c].effect.slot, f - 1, runs[e][k].calls[c].op.name);
    }
  }

  lemma {:induction false} TargetIsNoLock(runs: seq<seq<State>>, e: nat, k: nat, c: CallId, f: nat, m: nat)
    requires History(runs) && e < f < |runs| && k < |runs[e]| && m < |runs[f]| && c in runs[e][k].calls
    requires runs[e][k].calls[c].op.Write? && runs[e][k].calls[c].pc == Done(Ok([]))
    ensures runs[e][k].calls[c].op.name !in runs[f][m].lockNames
    decreases f
  {
    if f == e + 1 {
      EpochsAreRuns(runs, e);
      var slot := CommittedAt(runs[e], k, |runs[e]| - 1, c);
    } else {
      TargetIsNoLock(runs, e, k, c, f - 1, |runs[f - 1]| - 1);
    }
    LockNamesStay(runs, f, m);
  }

  /** Once `write` has returned `Ok`, its payload or that of a later write to the name is what the name holds:
      in every later state, over any number of power cuts. */
  lemma OkOutlivesPowerCuts(runs: seq<seq<State>>, e: nat, k: nat, c: CallId, f: nat, m: nat)
    requires History(runs) && e <= f < |runs| && k < |runs[e]| && m < |runs[f]| && (f == e ==> k <= m)
    requires c in runs[e][k].calls && runs[e][k].calls[c].op.Write? && runs[e][k].calls[c].pc == Done(Ok([]))
    ensures runs[e][k].calls[c].effect.Published?
    ensures HeldSince(runs, e, runs[e][k].calls[c].effect.slot, f, m, runs[e][k].calls[c].op.name)
  {
    if f == e {
      HeldInItsEpoch(runs, e, k, c, m);
    } else {
      HeldAtStart(runs, e, k, c, f);
      TargetIsNoLock(runs, e, k, c, f, m);
      HeldWithin(runs, e, runs[e][k].calls[c].effect.slot, f, m, runs[e][k].calls[c].op.name);
    }
  }
}
