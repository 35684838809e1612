/** `PrivateDir::walk`: a path resolved by directory handles, creating what is missing. */
module Walk {
  import opened Names
  import opened Publication

  type Nodes = map<Ino, Node>
  datatype Node =
    | Dir(uid: nat, mode: Mode, parent: Ino, entries: map<string, Ino>)
    | Link
    | Plain

  const ROOT: Ino := 0

  datatype Result = Reached(dir: Ino) | Refused(error: Error)

  /** Everything a directory points at exists, and `..` leads to a directory. */
  predicate WellFormed(nodes: Nodes) {
    && ROOT in nodes && nodes[ROOT].Dir?
    && (forall d {:trigger NodeOk(nodes, d)} :: d in nodes ==> NodeOk(nodes, d))
  }

  predicate NodeOk(nodes: Nodes, d: Ino)
    requires d in nodes
  {
    nodes[d].Dir? ==>
      && nodes[d].parent in nodes && nodes[nodes[d].parent].Dir?
      && (forall n :: n in nodes[d].entries ==> nodes[d].entries[n] in nodes)
  }

  predicate GroupOrOtherWritable(mode: Mode) { mode.group / 2 % 2 == 1 || mode.other / 2 % 2 == 1 }
  predicate Sticky(mode: Mode) { mode.special % 2 == 1 }
  predicate SetGid(mode: Mode) { mode.special / 2 % 2 == 1 }

  /** `check_dir(_, false)` on a directory. */
  predicate Traversable(node: Node, euid: nat)
    requires node.Dir?
  {
    && (node.uid == euid || node.uid == 0)
    && (GroupOrOtherWritable(node.mode) ==> node.uid == 0 && Sticky(node.mode))
  }

  /** `check_dir(_, true)` on a directory. */
  predicate PrivateDir(node: Node, euid: nat)
    requires node.Dir?
  {
    node.uid == euid && PrivateMode(node.mode)
  }

  /** `openat` with `O_DIRECTORY | O_NOFOLLOW`. */
  function Open(nodes: Nodes, d: Ino, component: Component): (r: Result)
    requires WellFormed(nodes) && d in nodes && nodes[d].Dir?
    ensures r.Reached? ==> r.dir in nodes && nodes[r.dir].Dir?
  {
    assert NodeOk(nodes, d);
    match component
    case ParentDir => Reached(nodes[d].parent)
    case Normal(name) =>
      if name !in nodes[d].entries then Refused(Missing)
      else if nodes[nodes[d].entries[name]].Dir? then Reached(nodes[d].entries[name])
      else Refused(UnsafePath)  // ELOOP or ENOTDIR
    case _ => Reached(d)
  }

  /** One component: skipped, or opened and checked. */
  function Follow(nodes: Nodes, d: Ino, component: Component, euid: nat): (r: Result)
    requires WellFormed(nodes) && d in nodes && nodes[d].Dir?
    ensures r.Reached? ==> r.dir in nodes && nodes[r.dir].Dir?
  {
    if component.RootDir? || component.CurDir? then Reached(d)
    else
      var r := Open(nodes, d, component);
      if r.Reached? && !Traversable(nodes[r.dir], euid) then Refused(UnsafePath) else r
  }

  /** The directory a path leads to when nothing is created. */
  function Resolve(nodes: Nodes, path: seq<Component>, euid: nat): (r: Result)
    requires WellFormed(nodes)
    ensures r.Reached? ==> r.dir in nodes && nodes[r.dir].Dir?
  {
    if path == [] then if Traversable(nodes[ROOT], euid) then Reached(ROOT) else Refused(UnsafePath)
    else
      var before := Resolve(nodes, path[..|path| - 1], euid);
      if before.Refused? then before else Follow(nodes, before.dir, path[|path| - 1], euid)
  }

  /** `PrivateDir::open` in a tree that stands still. */
  function OpenPath(nodes: Nodes, path: seq<Component>, euid: nat): (r: Result)
    requires WellFormed(nodes)
  {
    var r := Resolve(nodes, path, euid);
    if r.Reached? && !PrivateDir(nodes[r.dir], euid) then Refused(NotPrivate) else r
  }

  /** Nodes are only added: nothing that exists is removed, relinked or given another owner or mode. */
  predicate Extends(a: Nodes, b: Nodes) {
    forall i :: i in a ==> i in b && NodeKept(a[i], b[i])
  }

  predicate NodeKept(a: Node, b: Node) {
    if a.Dir? then
      b.Dir? && b.uid == a.uid && b.mode == a.mode && b.parent == a.parent
      && forall n :: n in a.entries ==> n in b.entries && b.entries[n] == a.entries[n]
    else b == a
  }

  /** 0o700 under the umask; a set-gid parent passes its bit on. */
  function NewDirMode(umask: Mode, parent: Mode): (mode: Mode) {
    Masked(Mode(if SetGid(parent) then 2 else 0, 7, 0, 0), umask)
  }

  function MakeDir(nodes: Nodes, d: Ino, name: string, i: Ino, euid: nat, umask: Mode): (r: Nodes)
    requires d in nodes && nodes[d].Dir? && i !in nodes && name !in nodes[d].entries
    ensures Extends(nodes, r)
  {
    nodes[i := Dir(euid, NewDirMode(umask, nodes[d].mode), d, map[])]
         [d := nodes[d].(entries := nodes[d].entries[name := i])]
  }

  /** What a walk makes: a directory of the user with nothing for group and others, which inherits a set-gid bit. */
  predicate MadeDir(nodes: Nodes, i: Ino, euid: nat, umask: Mode) {
    && i in nodes && nodes[i].Dir? && nodes[i].uid == euid && nodes[i].mode.group == 0 && nodes[i].mode.other == 0
    && (umask.user == 0 ==> nodes[i].mode.user == 7)
    && nodes[i].parent in nodes && nodes[nodes[i].parent].Dir?
    && nodes[i].mode.special == if nodes[nodes[i].parent].mode.special / 2 % 2 == 1 then 2 else 0
  }

  /** An entry that was there before. */
  predicate HadEntry(base: Nodes, d: Ino, n: string) { d in base && base[d].Dir? && n in base[d].entries }

  /** Everything new is such a directory, and every new entry leads to a new one below it. */
  ghost predicate OnlyMade(base: Nodes, nodes: Nodes, euid: nat, umask: Mode) {
    && (forall i {:trigger MadeDir(nodes, i, euid, umask)} :: i in nodes && i !in base ==>
        MadeDir(nodes, i, euid, umask))
    && (forall d, n {:trigger NewBelow(base, nodes, d, nodes[d].entries[n])} ::
          d in nodes && nodes[d].Dir? && n in nodes[d].entries && !HadEntry(base, d, n) ==>
            NewBelow(base, nodes, d, nodes[d].entries[n]))
  }

  predicate NewBelow(base: Nodes, nodes: Nodes, d: Ino, i: Ino) {
    i !in base && i in nodes && nodes[i].Dir? && nodes[i].parent == d
  }

  lemma MakeDirOnlyMakes(nodes: Nodes, d: Ino, name: string, i: Ino, euid: nat, umask: Mode)
    requires WellFormed(nodes) && d in nodes && nodes[d].Dir? && i !in nodes && name !in nodes[d].entries
    ensures OnlyMade(nodes, MakeDir(nodes, d, name, i, euid, umask), euid, umask)
  {}

  lemma OnlyMadeOn(a: Nodes, b: Nodes, c: Nodes, euid: nat, umask: Mode)
    requires Extends(a, b) && Extends(b, c) && OnlyMade(a, b, euid, umask) && OnlyMade(b, c, euid, umask)
    ensures OnlyMade(a, c, euid, umask)
  {
    forall i | i in c && i !in a ensures MadeDir(c, i, euid, umask) {
      if i in b {
        assert MadeDir(b, i, euid, umask) && NodeKept(b[i], c[i]) && NodeKept(b[b[i].parent], c[b[i].parent]);
      }
    }
    forall d, n | d in c && c[d].Dir? && n in c[d].entries && !HadEntry(a, d, n)
      ensures NewBelow(a, c, d, c[d].entries[n])
    {
      if HadEntry(b, d, n) {
        assert NewBelow(a, b, d, b[d].entries[n]) && NodeKept(b[d], c[d]);
        assert NodeKept(b[b[d].entries[n]], c[b[d].entries[n]]);
      } else {
        assert NewBelow(b, c, d, c[d].entries[n]);
      }
    }
  }

  lemma MakeDirWellFormed(nodes: Nodes, d: Ino, name: string, i: Ino, euid: nat, umask: Mode)
    requires WellFormed(nodes) && d in nodes && nodes[d].Dir? && i !in nodes && name !in nodes[d].entries
    ensures WellFormed(MakeDir(nodes, d, name, i, euid, umask))
  {
    var r := MakeDir(nodes, d, name, i, euid, umask);
    forall e | e in r ensures NodeOk(r, e) { if e in nodes { assert NodeOk(nodes, e); } }
  }

  lemma ExtendsOn(a: Nodes, b: Nodes, c: Nodes)
    requires Extends(a, b) && Extends(b, c)
    ensures Extends(a, c)
  {
    forall i | i in a ensures i in c && NodeKept(a[i], c[i]) {
      assert NodeKept(a[i], b[i]) && NodeKept(b[i], c[i]);
    }
  }

  /** What has been reached is reached again, at the same directory, in every larger tree. */
  lemma {:induction false} ResolveStays(a: Nodes, b: Nodes, path: seq<Component>, euid: nat)
    requires WellFormed(a) && WellFormed(b) && Extends(a, b) && Resolve(a, path, euid).Reached?
    ensures Resolve(b, path, euid) == Resolve(a, path, euid)
  {
    assert NodeKept(a[ROOT], b[ROOT]);
    if path != [] {
      ResolveStays(a, b, path[..|path| - 1], euid);
      var d := Resolve(a, path[..|path| - 1], euid).dir;
      assert NodeKept(a[d], b[d]);
      var e := Resolve(a, path, euid).dir;
      assert NodeKept(a[e], b[e]);
    }
  }

  /** The write bit of an octal digit. */
  predicate WritableDigit(digit: nat) { digit / 2 % 2 == 1 }

  /** A directory of the user or of root; if others may write to it, one of root with the sticky bit. */
  predicate TrustedDir(node: Node, euid: nat) {
    && node.Dir? && (node.uid == euid || node.uid == 0)
    && (WritableDigit(node.mode.group) || WritableDigit(node.mode.other) ==>
          node.uid == 0 && node.mode.special % 2 == 1)
  }

  lemma TrustAgrees(node: Node, euid: nat)
    requires node.Dir?
    ensures Traversable(node, euid) <==> TrustedDir(node, euid)
  {}

  /** A directory of the user with no special bits and nothing for anybody else. */
  predicate OwnersOnlyDir(node: Node, euid: nat) {
    && node.Dir? && node.uid == euid
    && node.mode.special == 0 && node.mode.group == 0 && node.mode.other == 0
  }

  /** An independent account of reaching a directory: the handles held on the way. */
  ghost predicate Trail(nodes: Nodes, path: seq<Component>, euid: nat, trail: seq<Ino>) {
    && |trail| == |path| + 1 && trail[0] == ROOT
    && (forall k :: 0 <= k < |trail| ==>
          trail[k] in nodes && TrustedDir(nodes[trail[k]], euid))
    && (forall k :: 0 <= k < |path| ==> Hop(nodes, trail[k], path[k], trail[k + 1]))
  }

  /** The next handle is the same one, the parent, or a real entry of this directory. */
  predicate Hop(nodes: Nodes, d: Ino, component: Component, e: Ino) {
    && d in nodes && nodes[d].Dir?
    && match component {
         case RootDir => e == d
         case CurDir => e == d
         case ParentDir => e == nodes[d].parent
         case Normal(name) => name in nodes[d].entries && e == nodes[d].entries[name]
       }
  }

  /** A path resolves exactly when such a trail exists; no handle on it is a symbolic link. */
  lemma {:induction false} ResolveHasTrail(nodes: Nodes, path: seq<Component>, euid: nat, d: Ino)
    requires WellFormed(nodes)
    ensures Resolve(nodes, path, euid) == Reached(d) <==>
              exists trail :: Trail(nodes, path, euid, trail) && trail[|trail| - 1] == d
  {
    if Resolve(nodes, path, euid) == Reached(d) {
      var trail := MakeTrail(nodes, path, euid);
    }
    forall trail | Trail(nodes, path, euid, trail) && trail[|trail| - 1] == d
      ensures Resolve(nodes, path, euid) == Reached(d)
    {
      TrailResolves(nodes, path, euid, trail);
    }
  }

  lemma {:induction false} MakeTrail(nodes: Nodes, path: seq<Component>, euid: nat) returns (trail: seq<Ino>)
    requires WellFormed(nodes) && Resolve(nodes, path, euid).Reached?
    ensures Trail(nodes, path, euid, trail) && trail[|trail| - 1] == Resolve(nodes, path, euid).dir
  {
    if path == [] {
      trail := [ROOT];
    } else {
      var front := path[..|path| - 1];
      var before := MakeTrail(nodes, front, euid);
      trail := before + [Resolve(nodes, path, euid).dir];
      forall k | 0 <= k < |path| ensures Hop(nodes, trail[k], path[k], trail[k + 1]) {
        if k < |front| { assert Hop(nodes, before[k], front[k], before[k + 1]); }
      }
    }
  }

  lemma TrailFront(nodes: Nodes, path: seq<Component>, euid: nat, trail: seq<Ino>)
    requires path != [] && Trail(nodes, path, euid, trail)
    ensures Trail(nodes, path[..|path| - 1], euid, trail[..|trail| - 1])
  {
    var front, before := path[..|path| - 1], trail[..|trail| - 1];
    forall k | 0 <= k < |front| ensures Hop(nodes, before[k], front[k], before[k + 1]) {
      assert Hop(nodes, trail[k], path[k], trail[k + 1]);
    }
  }

  lemma HopFollows(nodes: Nodes, d: Ino, component: Component, e: Ino, euid: nat)
    requires WellFormed(nodes) && Hop(nodes, d, component, e)
    requires e in nodes && nodes[e].Dir? && Traversable(nodes[e], euid)
    ensures Follow(nodes, d, component, euid) == Reached(e)
  {}

  lemma {:induction false} TrailResolves(nodes: Nodes, path: seq<Component>, euid: nat, trail: seq<Ino>)
    requires WellFormed(nodes) && Trail(nodes, path, euid, trail)
    ensures Resolve(nodes, path, euid) == Reached(trail[|trail| - 1])
    decreases |path|
  {
    if path != [] {
      var last := |path| - 1;
      TrailFront(nodes, path, euid, trail);
      TrailResolves(nodes, path[..last], euid, trail[..|trail| - 1]);
      assert Hop(nodes, trail[last], path[last], trail[last + 1]);
      HopFollows(nodes, trail[last], path[last], trail[last + 1], euid);
    }
  }

  /** What the rest of the world does between two system calls, which calls fail, which calls find the directory
      they work in removed, and which inode is next. */
  datatype World = World(fault: nat -> bool, removed: nat -> bool, others: (nat, Nodes) -> Nodes, newIno: Nodes -> Ino)

  /** A directory that is held open stays a directory, whatever becomes of its names, owner, mode and entries. */
  predicate HandlesKept(a: Nodes, b: Nodes) {
    forall i :: i in a && a[i].Dir? ==> i in b && b[i].Dir?
  }

  predicate Fair(a: Nodes, b: Nodes) {
    WellFormed(a) ==> WellFormed(b) && HandlesKept(a, b)
  }

  /** Other processes may do anything: add, remove, rename and link entries, change owners and modes. */
  ghost predicate Sound(world: World) {
    && (forall k, nodes :: Fair(nodes, world.others(k, nodes)))
    && (forall nodes :: world.newIno(nodes) !in nodes)
  }

  /** Other processes add nodes at any time; they remove and change none. */
  ghost predicate Friendly(world: World) {
    && (forall k, nodes :: WellFormed(nodes) ==> Extends(nodes, world.others(k, nodes)))
    && (forall k :: !world.removed(k))
  }

  ghost predicate Faultless(world: World) { forall k :: !world.fault(k) }

  ghost predicate Calm(world: World) {
    Faultless(world) && Friendly(world) && forall k, nodes :: world.others(k, nodes) == nodes
  }

  /** The tree has grown from `base` and still leads along `walked` to `d`. */
  ghost predicate Grown(base: Nodes, nodes: Nodes, walked: seq<Component>, euid: nat, d: Ino) {
    WellFormed(nodes) && Extends(base, nodes) && Resolve(nodes, walked, euid) == Reached(d)
  }

  lemma GrowsOn(base: Nodes, a: Nodes, b: Nodes, walked: seq<Component>, euid: nat, d: Ino)
    requires Grown(base, a, walked, euid, d) && WellFormed(b) && Extends(a, b)
    ensures Grown(base, b, walked, euid, d)
  {
    ExtendsOn(base, a, b);
    ResolveStays(a, b, walked, euid);
  }

  lemma OneMore(nodes: Nodes, path: seq<Component>, i: nat, euid: nat, d: Ino)
    requires WellFormed(nodes) && i < |path| && Resolve(nodes, path[..i], euid) == Reached(d)
    ensures Resolve(nodes, path[..i + 1], euid) == Follow(nodes, d, path[i], euid)
  {
    assert path[..i + 1][..i] == path[..i];
  }

  /** One component more, in a tree that has grown meanwhile. */
  lemma StepOn(base: Nodes, a: Nodes, b: Nodes, path: seq<Component>, i: nat, euid: nat, d: Ino)
    requires WellFormed(base) && i < |path| && Grown(base, a, path[..i], euid, d) && WellFormed(b) && Extends(a, b)
    ensures Grown(base, b, path[..i], euid, d) && d in b && b[d].Dir?
    ensures Resolve(b, path[..i + 1], euid) == Follow(b, d, path[i], euid)
  {
    GrowsOn(base, a, b, path[..i], euid, d);
    OneMore(b, path, i, euid, d);
  }

  lemma OpenStays(a: Nodes, b: Nodes, d: Ino, component: Component)
    requires WellFormed(a) && WellFormed(b) && Extends(a, b) && d in a && a[d].Dir? && Open(a, d, component).Reached?
    ensures d in b && b[d].Dir? && Open(b, d, component) == Open(a, d, component)
  {
    assert NodeKept(a[d], b[d]);
    var e := Open(a, d, component).dir;
    assert NodeKept(a[e], b[e]);
  }

  /** The last check finds what resolution finds. */
  lemma WalkEnds(base: Nodes, a: Nodes, b: Nodes, path: seq<Component>, euid: nat, d: Ino)
    requires WellFormed(base) && Grown(base, a, path, euid, d) && WellFormed(b) && Extends(a, b)
    ensures Extends(base, b) && Resolve(b, path, euid) == Reached(d)
    ensures OpenPath(base, path, euid).Reached? ==> OpenPath(b, path, euid) == OpenPath(base, path, euid)
  {
    GrowsOn(base, a, b, path, euid, d);
    if OpenPath(base, path, euid).Reached? { OpenPathStays(base, b, path, euid); }
  }

  /** A private directory stays the same private directory as the tree grows. */
  lemma OpenPathStays(a: Nodes, b: Nodes, path: seq<Component>, euid: nat)
    requires WellFormed(a) && WellFormed(b) && Extends(a, b) && OpenPath(a, path, euid).Reached?
    ensures OpenPath(b, path, euid) == OpenPath(a, path, euid)
  {
    ResolveStays(a, b, path, euid);
    var d := Resolve(a, path, euid).dir;
    assert NodeKept(a[d], b[d]);
  }

  // ------------------------------------------------------------- walks through time

  /** A directory handle of the walk, with the times at which it was opened and checked. */
  datatype Visit = Visit(dir: Ino, entered: nat, checked: nat)

  ghost predicate Visited(past: seq<Nodes>, euid: nat, v: Visit) {
    && v.entered <= v.checked < |past|
    && v.dir in past[v.checked] && TrustedDir(past[v.checked][v.dir], euid)
  }

  /** The next handle was opened in the one before, after that one was checked, as the tree then was. */
  ghost predicate TimedHop(past: seq<Nodes>, a: Visit, component: Component, b: Visit) {
    if component.RootDir? || component.CurDir? then b == a
    else a.checked <= b.entered < |past| && Hop(past[b.entered], a.dir, component, b.dir)
  }

  /** Handle by handle: every hop was a real entry or `..` when it was made, and every handle was trusted when
      checked. */
  ghost predicate TimedTrail(past: seq<Nodes>, path: seq<Component>, euid: nat, trail: seq<Visit>) {
    && |trail| == |path| + 1 && trail[0].dir == ROOT
    && (forall k :: 0 <= k < |trail| ==> Visited(past, euid, trail[k]))
    && (forall k :: 0 <= k < |path| ==> TimedHop(past, trail[k], path[k], trail[k + 1]))
  }

  lemma TrailGrows(past: seq<Nodes>, later: seq<Nodes>, path: seq<Component>, i: nat, euid: nat, trail: seq<Visit>,
                   v: Visit)
    requires i < |path| && past <= later && TimedTrail(past, path[..i], euid, trail)
    requires Visited(later, euid, v) && TimedHop(later, trail[i], path[i], v)
    ensures TimedTrail(later, path[..i + 1], euid, trail + [v])
  {
    var longer := trail + [v];
    forall k | 0 <= k < |longer| ensures Visited(later, euid, longer[k]) {
      if k < |trail| { assert Visited(past, euid, trail[k]); }
    }
    forall k | 0 <= k < i + 1 ensures TimedHop(later, longer[k], path[..i + 1][k], longer[k + 1]) {
      if k < i { assert TimedHop(past, trail[k], path[..i][k], trail[k + 1]); }
    }
  }

  lemma TrailLasts(past: seq<Nodes>, later: seq<Nodes>, path: seq<Component>, euid: nat, trail: seq<Visit>)
    requires past <= later && TimedTrail(past, path, euid, trail)
    ensures TimedTrail(later, path, euid, trail)
  {
    forall k | 0 <= k < |trail| ensures Visited(later, euid, trail[k]) { assert Visited(past, euid, trail[k]); }
    forall k | 0 <= k < |path| ensures TimedHop(later, trail[k], path[k], trail[k + 1]) {
      assert TimedHop(past, trail[k], path[k], trail[k + 1]);
    }
  }

  /** In a tree that only grows, a walk through time is a trail of the tree as it is at the end. */
  lemma TimedTrailIsTrail(past: seq<Nodes>, path: seq<Component>, euid: nat, trail: seq<Visit>)
    requires past != [] && TimedTrail(past, path, euid, trail)
    requires forall k :: 0 <= k < |past| ==> Extends(past[k], past[|past| - 1])
    ensures Trail(past[|past| - 1], path, euid, seq(|trail|, k requires 0 <= k < |trail| => trail[k].dir))
  {
    var nodes := past[|past| - 1];
    var dirs := seq(|trail|, k requires 0 <= k < |trail| => trail[k].dir);
    forall k | 0 <= k < |dirs| ensures dirs[k] in nodes && nodes[dirs[k]].Dir? && Traversable(nodes[dirs[k]], euid) {
      assert Visited(past, euid, trail[k]);
      assert Extends(past[trail[k].checked], nodes) && NodeKept(past[trail[k].checked][dirs[k]], nodes[dirs[k]]);
    }
    forall k | 0 <= k < |path| ensures Hop(nodes, dirs[k], path[k], dirs[k + 1]) {
      assert TimedHop(past, trail[k], path[k], trail[k + 1]) && Visited(past, euid, trail[k]);
      if path[k].ParentDir? || path[k].Normal? {
        assert Extends(past[trail[k + 1].entered], nodes)
            && NodeKept(past[trail[k + 1].entered][dirs[k]], nodes[dirs[k]]);
      }
    }
  }

  /** The file system as the walk meets it; `past` is every state it has been in. */
  class FileTree {
    var nodes: Nodes
    var calls: nat
    ghost var past: seq<Nodes>

    ghost predicate Valid()
      reads this
    {
      WellFormed(nodes) && past != [] && past[|past| - 1] == nodes
    }

    /** `walk`: `open` when `create` is false, `open_or_create` when it is true. */
    method Walk(path: seq<Component>, create: bool, euid: nat, umask: Mode, world: World)
      returns (r: Result, ghost trail: seq<Visit>)
      requires Valid() && Sound(world)
      modifies this
      ensures Valid() && old(past) <= past
      ensures r.Reached? ==> TimedTrail(past, path, euid, trail) && trail[|path|].dir == r.dir
      ensures r.Reached? ==> |old(past)| <= trail[0].entered
      ensures r.Reached? ==> r.dir in nodes && OwnersOnlyDir(nodes[r.dir], euid)
      ensures Friendly(world) ==> Extends(old(nodes), nodes)
      ensures Friendly(world) && r.Reached? ==> OpenPath(nodes, path, euid) == r
      ensures Friendly(world) ==> r == Refused(Io) || r == OpenPath(nodes, path, euid)
      ensures Friendly(world) && create ==> r != Refused(Missing)
      ensures Faultless(world) ==> r != Refused(Io)
      ensures Calm(world) && !create ==> nodes == old(nodes)
      ensures Calm(world) ==> OnlyMade(old(nodes), nodes, euid, umask)
      ensures Friendly(world) && Faultless(world) && OpenPath(old(nodes), path, euid).Reached? ==>
                r == OpenPath(old(nodes), path, euid)
    {
      trail := [];
      r := OpenRoot(euid, world);
      if r.Refused? {
        assert path[..0] == [];
        if Friendly(world) && r != Refused(Io) { ResolveStuck(nodes, path, 0, euid); }
        if Friendly(world) && OpenPath(old(nodes), path, euid).Reached? {
          OpenPathStays(old(nodes), nodes, path, euid);
        }
        return;
      }
      TrustAgrees(nodes[ROOT], euid);
      ghost var root, start := nodes, Visit(ROOT, |past| - 2, |past| - 1);
      r, trail := Descend(path, create, euid, umask, world, start);
      if Friendly(world) {
        ExtendsOn(old(nodes), root, nodes);
        if OpenPath(old(nodes), path, euid).Reached? { OpenPathStays(old(nodes), nodes, path, euid); }
      }
      if r.Refused? {
        return;
      }
      ghost var here := nodes;
      r := CheckPrivate(r.dir, euid, world);
      TrailLasts(past[..|past| - 1], past, path, euid, trail);
      if Friendly(world) { WalkEnds(old(nodes), here, nodes, path, euid, trail[|path|].dir); }
    }

    /** The loop over the components. */
    method Descend(path: seq<Component>, create: bool, euid: nat, umask: Mode, world: World, ghost start: Visit)
      returns (r: Result, ghost trail: seq<Visit>)
      requires Valid() && Sound(world) && start.dir == ROOT && Visited(past, euid, start)
                && Traversable(nodes[ROOT], euid)
      modifies this
      ensures Valid() && old(past) <= past
      ensures r.Reached? ==> && TimedTrail(past, path, euid, trail) && trail[0] == start && trail[|path|].dir == r.dir
                             && r.dir in nodes && nodes[r.dir].Dir?
      ensures Friendly(world) ==> Extends(old(nodes), nodes)
      ensures Friendly(world) && r.Reached? ==> Resolve(nodes, path, euid) == r
      ensures Friendly(world) ==> r == Refused(Io) || r == Resolve(nodes, path, euid)
      ensures Friendly(world) && create ==> r != Refused(Missing)
      ensures Faultless(world) ==> r != Refused(Io)
      ensures Calm(world) && !create ==> nodes == old(nodes)
      ensures Calm(world) ==> OnlyMade(old(nodes), nodes, euid, umask)
    {
      trail := [start];
      var current := ROOT;
      for i := 0 to |path|
        invariant Valid() && old(past) <= past && current in nodes && nodes[current].Dir?
        invariant TimedTrail(past, path[..i], euid, trail) && trail[i].dir == current && trail[0] == start
        invariant Friendly(world) ==> Grown(old(nodes), nodes, path[..i], euid, current)
        invariant Calm(world) && !create ==> nodes == old(nodes)
        invariant Calm(world) ==> OnlyMade(old(nodes), nodes, euid, umask)
      {
        if Friendly(world) { OneMore(nodes, path, i, euid, current); }
        if path[i].RootDir? || path[i].CurDir? {
          TrailGrows(past, past, path, i, euid, trail, trail[i]);
          trail := trail + [trail[i]];
          continue;
        }
        ghost var before, past0 := nodes, past;
        ghost var v;
        r, v := FollowAt(current, path[i], create, euid, umask, world);
        if Friendly(world) { StepOn(old(nodes), before, nodes, path, i, euid, current); }
        if Calm(world) { OnlyMadeOn(old(nodes), before, nodes, euid, umask); }
        if r.Refused? {
          if Friendly(world) && r != Refused(Io) { ResolveStuck(nodes, path, i + 1, euid); }
          return;
        }
        TrailGrows(past0, past, path, i, euid, trail, v);
        trail := trail + [v];
        current := r.dir;
      }
      assert path[..|path|] == path;
      r := Reached(current);
    }

    /** Whatever the others did before the next system call. */
    method Others(world: World)
      requires Valid() && Sound(world)
      modifies this
      ensures Valid() && HandlesKept(old(nodes), nodes) && past == old(past) + [nodes]
      ensures Friendly(world) ==> Extends(old(nodes), nodes)
      ensures Calm(world) ==> nodes == old(nodes)
    {
      assert Fair(nodes, world.others(calls, nodes));
      nodes := world.others(calls, nodes);
      calls := calls + 1;
      past := past + [nodes];
    }

    /** `open("/")` and its check. */
    method OpenRoot(euid: nat, world: World) returns (r: Result)
      requires Valid() && Sound(world)
      modifies this
      ensures Valid() && old(past) <= past && (Friendly(world) ==> Extends(old(nodes), nodes))
      ensures Calm(world) ==> nodes == old(nodes)
      ensures r == Reached(ROOT) ==> Traversable(nodes[ROOT], euid) && |past| == |old(past)| + 2
      ensures r == Reached(ROOT) || r == Refused(Io) || (r == Refused(UnsafePath) && !Traversable(nodes[ROOT], euid))
      ensures Faultless(world) ==> r != Refused(Io)
    {
      Others(world);
      if world.fault(calls) {
        return Refused(Io);
      }
      ghost var mid := nodes;
      Others(world);
      if Friendly(world) { ExtendsOn(old(nodes), mid, nodes); }
      if world.fault(calls) {
        return Refused(Io);
      }
      return if Traversable(nodes[ROOT], euid) then Reached(ROOT) else Refused(UnsafePath);
    }

    /** `check_dir(_, true)` at the end. */
    method CheckPrivate(d: Ino, euid: nat, world: World) returns (r: Result)
      requires Valid() && Sound(world) && d in nodes && nodes[d].Dir?
      modifies this
      ensures Valid() && past == old(past) + [nodes] && d in nodes && nodes[d].Dir?
      ensures Friendly(world) ==> Extends(old(nodes), nodes)
      ensures Calm(world) ==> nodes == old(nodes)
      ensures r == Refused(Io) || r == if PrivateDir(nodes[d], euid) then Reached(d) else Refused(NotPrivate)
      ensures Faultless(world) ==> r != Refused(Io)
    {
      Others(world);
      if world.fault(calls) {
        return Refused(Io);
      }
      return if PrivateDir(nodes[d], euid) then Reached(d) else Refused(NotPrivate);
    }

    /** One component: opened or created, then checked. */
    method FollowAt(d: Ino, component: Component, create: bool, euid: nat, umask: Mode, world: World)
      returns (r: Result, ghost v: Visit)
      requires Valid() && Sound(world) && d in nodes && nodes[d].Dir? && (component.ParentDir? || component.Normal?)
      modifies this
      ensures Valid() && old(past) <= past && d in nodes && nodes[d].Dir?
      ensures r.Reached? ==> && r.dir in nodes && nodes[r.dir].Dir? && v.dir == r.dir && |old(past)| <= v.entered
                             && Visited(past, euid, v) && Hop(past[v.entered], d, component, r.dir)
      ensures Friendly(world) ==> Extends(old(nodes), nodes)
      ensures Friendly(world) && r.Reached? ==> Follow(nodes, d, component, euid) == r
      ensures Friendly(world) ==> r == Refused(Io) || r == Follow(nodes, d, component, euid)
      ensures Friendly(world) && create ==> r != Refused(Missing)
      ensures Faultless(world) ==> r != Refused(Io)
      ensures Calm(world) && !create ==> nodes == old(nodes)
      ensures Calm(world) ==> OnlyMade(old(nodes), nodes, euid, umask)
    {
      v := Visit(d, 0, 0);
      r := OpenAt(d, component, create, euid, umask, world);
      ghost var mid, time := nodes, |past| - 1;
      if r.Refused? {
        return;
      }
      Others(world);
      v := Visit(r.dir, time, |past| - 1);
      if Friendly(world) {
        ExtendsOn(old(nodes), mid, nodes);
        OpenStays(mid, nodes, d, component);
      }
      TrustAgrees(nodes[r.dir], euid);
      if world.fault(calls) {
        return Refused(Io), v;
      }
      if !Traversable(nodes[r.dir], euid) {
        return Refused(UnsafePath), v;
      }
    }

    /** `openat`, and on `ENOENT` `mkdirat`, `fsync` and `openat` again. */
    method OpenAt(d: Ino, component: Component, create: bool, euid: nat, umask: Mode, world: World) returns (r: Result)
      requires Valid() && Sound(world) && d in nodes && nodes[d].Dir? && (component.ParentDir? || component.Normal?)
      modifies this
      ensures Valid() && old(past) < past && d in nodes && nodes[d].Dir?
      ensures r.Reached? ==> Open(nodes, d, component) == r
      ensures Friendly(world) ==> Extends(old(nodes), nodes)
      ensures Friendly(world) ==> r == Refused(Io) || r == Open(nodes, d, component)
      ensures Friendly(world) && create ==> r != Refused(Missing)
      ensures Faultless(world) ==> r != Refused(Io)
      ensures Calm(world) && !create ==> nodes == old(nodes)
      ensures Calm(world) ==> OnlyMade(old(nodes), nodes, euid, umask)
    {
      r := TryOpen(d, component, world);
      if !(r == Refused(Missing) && create && component.Normal?) {
        return;
      }
      ghost var tried := nodes;
      var failure := EnsureDir(d, component.name, euid, umask, world);
      if Friendly(world) { ExtendsOn(old(nodes), tried, nodes); }
      if failure.Refused? {
        return failure;
      }
      ghost var made := nodes;
      r := TryOpen(d, component, world);
      if Friendly(world) {
        ExtendsOn(old(nodes), made, nodes);
        assert NodeKept(made[d], nodes[d]);
      }
    }

    /** `openat`, after whatever the others did meanwhile. */
    method TryOpen(d: Ino, component: Component, world: World) returns (r: Result)
      requires Valid() && Sound(world) && d in nodes && nodes[d].Dir?
      modifies this
      ensures Valid() && old(past) < past && d in nodes && nodes[d].Dir?
      ensures r == Refused(Io) || r == Open(nodes, d, component)
      ensures Friendly(world) ==> Extends(old(nodes), nodes)
      ensures Faultless(world) ==> r != Refused(Io)
      ensures Calm(world) ==> nodes == old(nodes)
    {
      Others(world);
      r := if world.fault(calls) then Refused(Io) else Open(nodes, d, component);
    }

    /** `mkdirat` and the directory `fsync`: `Reached(d)`, or the error.  An entry that has appeared meanwhile is left
        alone, and in a removed directory nothing can be made. */
    method EnsureDir(d: Ino, name: string, euid: nat, umask: Mode, world: World) returns (r: Result)
      requires Valid() && Sound(world) && d in nodes && nodes[d].Dir?
      modifies this
      ensures Valid() && old(past) < past && d in nodes && nodes[d].Dir?
      ensures Friendly(world) ==> Extends(old(nodes), nodes) && (r.Refused? ==> r == Refused(Io))
      ensures Faultless(world) ==> r != Refused(Io)
      ensures Friendly(world) && r.Reached? ==> name in nodes[d].entries
      ensures Calm(world) ==> OnlyMade(old(nodes), nodes, euid, umask)
    {
      Others(world);
      if world.fault(calls) {
        return Refused(Io);
      }
      if name in nodes[d].entries {
        return Reached(d);  // EEXIST
      }
      if world.removed(calls) {
        return Refused(Missing);
      }
      var made := MakeDir(nodes, d, name, world.newIno(nodes), euid, umask);
      MakeDirWellFormed(nodes, d, name, world.newIno(nodes), euid, umask);
      MakeDirOnlyMakes(nodes, d, name, world.newIno(nodes), euid, umask);
      if Friendly(world) { ExtendsOn(old(nodes), nodes, made); }
      nodes := made;
      past := past + [nodes];
      Others(world);
      if Friendly(world) {
        ExtendsOn(old(nodes), made, nodes);
        assert NodeKept(made[d], nodes[d]);
      }
      r := if world.fault(calls) then Refused(Io) else Reached(d);
    }
  }

  /** A refusal on the way is the refusal of the whole path. */
  lemma {:induction false} ResolveStuck(nodes: Nodes, path: seq<Component>, i: nat, euid: nat)
    requires WellFormed(nodes) && i <= |path| && Resolve(nodes, path[..i], euid).Refused?
    ensures Resolve(nodes, path, euid) == Resolve(nodes, path[..i], euid)
    decreases |path|
  {
    if i == |path| {
      assert path[..i] == path;
    } else {
      var front := path[..|path| - 1];
      assert front[..i] == path[..i];
      ResolveStuck(nodes, front, i, euid);
    }
  }

  // ---------------------------------------------------------------- exact answers

  predicate UntrustedEntry(nodes: Nodes, i: Ino, euid: nat) { i in nodes && !TrustedDir(nodes[i], euid) }

  /** Why a path is refused: the directory before component `i` was reached, and there the component is missing,
      is no directory, or is a directory that is not trusted. */
  ghost predicate StopsAt(nodes: Nodes, path: seq<Component>, euid: nat, i: nat, d: Ino, error: Error) {
    && i < |path| && (exists trail :: Trail(nodes, path[..i], euid, trail) && trail[|trail| - 1] == d)
    && d in nodes && nodes[d].Dir?
    && match path[i] {
         case ParentDir => error == UnsafePath && UntrustedEntry(nodes, nodes[d].parent, euid)
         case Normal(name) =>
           if name !in nodes[d].entries then error == Missing
           else error == UnsafePath && UntrustedEntry(nodes, nodes[d].entries[name], euid)
         case RootDir => false
         case CurDir => false
       }
  }

  lemma FollowRefuses(nodes: Nodes, path: seq<Component>, euid: nat, i: nat, d: Ino, error: Error)
    requires WellFormed(nodes) && i < |path| && Resolve(nodes, path[..i], euid) == Reached(d)
    requires Follow(nodes, d, path[i], euid) == Refused(error)
    ensures StopsAt(nodes, path, euid, i, d, error)
  {
    var trail := MakeTrail(nodes, path[..i], euid);
    assert NodeOk(nodes, d);
    TrustAgrees(nodes[nodes[d].parent], euid);
    if path[i].Normal? && path[i].name in nodes[d].entries && nodes[nodes[d].entries[path[i].name]].Dir? {
      TrustAgrees(nodes[nodes[d].entries[path[i].name]], euid);
    }
  }

  /** Every refusal of a resolution has one of three causes: the root is not trusted, or the path stops at one of
      its components. */
  lemma {:induction false} RefusalHasACause(nodes: Nodes, path: seq<Component>, euid: nat) returns (i: nat, d: Ino)
    requires WellFormed(nodes) && Resolve(nodes, path, euid).Refused?
    ensures var error := Resolve(nodes, path, euid).error;
            || (error == UnsafePath && !TrustedDir(nodes[ROOT], euid))
            || StopsAt(nodes, path, euid, i, d, error)
    decreases |path|
  {
    i, d := 0, ROOT;
    TrustAgrees(nodes[ROOT], euid);
    if path != [] {
      var last := |path| - 1;
      var before := Resolve(nodes, path[..last], euid);
      if before.Refused? {
        i, d := RefusalHasACause(nodes, path[..last], euid);
        if StopsAt(nodes, path[..last], euid, i, d, before.error) { assert path[..last][..i] == path[..i]; }
      } else {
        i, d := last, before.dir;
        FollowRefuses(nodes, path, euid, last, d, Resolve(nodes, path, euid).error);
      }
    }
  }

  /** `open` in a tree that stands still, by the fields of the directories on the way. */
  lemma OpenMeans(nodes: Nodes, path: seq<Component>, euid: nat, d: Ino)
    requires WellFormed(nodes)
    ensures OpenPath(nodes, path, euid) == Reached(d) <==>
              && (exists trail :: Trail(nodes, path, euid, trail) && trail[|trail| - 1] == d)
              && d in nodes && OwnersOnlyDir(nodes[d], euid)
    ensures OpenPath(nodes, path, euid) == Refused(NotPrivate) <==>
              exists e :: Resolve(nodes, path, euid) == Reached(e) && !OwnersOnlyDir(nodes[e], euid)
  {
    ResolveHasTrail(nodes, path, euid, d);
    var r := Resolve(nodes, path, euid);
    if r.Refused? { var i, e := RefusalHasACause(nodes, path, euid); }
  }

  /** A new entry of a directory leads to a directory the walk made, which has inherited the set-gid bit or not. */
  lemma NewEntry(base: Nodes, nodes: Nodes, d: Ino, name: string, euid: nat, umask: Mode)
    requires WellFormed(nodes) && OnlyMade(base, nodes, euid, umask)
    requires d in nodes && nodes[d].Dir? && name in nodes[d].entries && !HadEntry(base, d, name)
    ensures Follow(nodes, d, Normal(name), euid) == Reached(nodes[d].entries[name])
    ensures var e := nodes[d].entries[name];
            && e !in base && MadeDir(nodes, e, euid, umask)
            && nodes[e].mode.special == if nodes[d].mode.special / 2 % 2 == 1 then 2 else 0
  {
    assert NewBelow(base, nodes, d, nodes[d].entries[name]);
    assert MadeDir(nodes, nodes[d].entries[name], euid, umask);
  }

  /** The missing part of a path, made up to component `k`: the directory there is new, and it
      is set-gid if the one the missing part starts in is, whose special bits are `top`. */
  ghost predicate MadeUpTo(base: Nodes, nodes: Nodes, path: seq<Component>, k: nat, euid: nat, umask: Mode, top: nat)
    requires WellFormed(nodes) && k <= |path|
  {
    var r := Resolve(nodes, path[..k], euid);
    && r.Reached? && r.dir !in base && MadeDir(nodes, r.dir, euid, umask)
    && nodes[r.dir].mode.special == if top / 2 % 2 == 1 then 2 else 0
  }

  /** One missing component more. */
  lemma MadeNext(base: Nodes, nodes: Nodes, path: seq<Component>, i: nat, euid: nat, umask: Mode, d: Ino)
    requires WellFormed(nodes) && OnlyMade(base, nodes, euid, umask)
    requires i < |path| && path[i].Normal? && Resolve(nodes, path[..i], euid) == Reached(d)
    requires !HadEntry(base, d, path[i].name) && Resolve(nodes, path, euid) != Refused(Missing)
    ensures MadeUpTo(base, nodes, path, i + 1, euid, umask, nodes[d].mode.special)
  {
    OneMore(nodes, path, i, euid, d);
    if path[i].name !in nodes[d].entries {
      ResolveStuck(nodes, path, i + 1, euid);
    } else {
      NewEntry(base, nodes, d, path[i].name, euid, umask);
    }
  }

  /** The missing components of a path, once it is no longer refused as missing. */
  lemma {:induction false} MadeRest(base: Nodes, nodes: Nodes, path: seq<Component>, m: nat, k: nat, euid: nat,
                                    umask: Mode, top: nat)
    requires WellFormed(nodes) && OnlyMade(base, nodes, euid, umask)
    requires m < k <= |path| && MadeUpTo(base, nodes, path, m + 1, euid, umask, top)
    requires forall i :: m <= i < |path| ==> path[i].Normal?
    requires Resolve(nodes, path, euid) != Refused(Missing)
    ensures MadeUpTo(base, nodes, path, k, euid, umask, top)
    decreases k
  {
    if k > m + 1 {
      MadeRest(base, nodes, path, m, k - 1, euid, umask, top);
      MadeNext(base, nodes, path, k - 1, euid, umask, Resolve(nodes, path[..k - 1], euid).dir);
    }
  }

  lemma MadeFirst(base: Nodes, nodes: Nodes, path: seq<Component>, m: nat, euid: nat, umask: Mode, d: Ino)
    requires WellFormed(base) && WellFormed(nodes) && Extends(base, nodes) && OnlyMade(base, nodes, euid, umask)
    requires m < |path| && path[m].Normal? && Resolve(base, path[..m], euid) == Reached(d)
    requires path[m].name !in base[d].entries && Resolve(nodes, path, euid) != Refused(Missing)
    ensures MadeUpTo(base, nodes, path, m + 1, euid, umask, base[d].mode.special)
  {
    ResolveStays(base, nodes, path[..m], euid);
    assert NodeKept(base[d], nodes[d]);
    MadeNext(base, nodes, path, m, euid, umask, d);
  }

  /** The last directory made is the user's alone, unless it has inherited the set-gid bit. */
  lemma MadeToTheEnd(base: Nodes, nodes: Nodes, path: seq<Component>, euid: nat, umask: Mode, top: nat)
    requires WellFormed(nodes) && MadeUpTo(base, nodes, path, |path|, euid, umask, top)
    ensures var r := OpenPath(nodes, path, euid);
            && (r.Reached? <==> top / 2 % 2 != 1) && (r.Refused? ==> r == Refused(NotPrivate))
            && (r.Reached? ==> r.dir in nodes && r.dir !in base)
  {
    assert path[..|path|] == path;
  }

  /** `open_or_create` with nobody else at work: the part of the path that is missing is made, directory by
      directory, for the user alone; the walk then reaches the last of them, unless the first was made in a set-gid
      directory, whose bit they inherit. */
  method CreateMissing(tree: FileTree, path: seq<Component>, m: nat, d: Ino, euid: nat, umask: Mode, world: World)
    returns (r: Result)
    requires tree.Valid() && Sound(world) && Calm(world)
    requires m < |path| && (forall i :: m <= i < |path| ==> path[i].Normal?)
    requires Resolve(tree.nodes, path[..m], euid) == Reached(d) && path[m].name !in tree.nodes[d].entries
    modifies tree
    ensures tree.Valid() && Extends(old(tree.nodes), tree.nodes)
    ensures r.Reached? <==> old(tree.nodes[d].mode.special) / 2 % 2 != 1
    ensures r.Refused? ==> r == Refused(NotPrivate)
    ensures r.Reached? ==> r.dir in tree.nodes && r.dir !in old(tree.nodes) && OwnersOnlyDir(tree.nodes[r.dir], euid)
    ensures forall k: nat :: m < k <= |path| ==>
              MadeUpTo(old(tree.nodes), tree.nodes, path, k, euid, umask, old(tree.nodes[d].mode.special))
  {
    ghost var trail;
    r, trail := tree.Walk(path, true, euid, umask, world);
    ghost var top := old(tree.nodes[d].mode.special);
    MadeFirst(old(tree.nodes), tree.nodes, path, m, euid, umask, d);
    forall k: nat | m < k <= |path| ensures MadeUpTo(old(tree.nodes), tree.nodes, path, k, euid, umask, top) {
      MadeRest(old(tree.nodes), tree.nodes, path, m, k, euid, umask, top);
    }
    MadeToTheEnd(old(tree.nodes), tree.nodes, path, euid, umask, top);
  }

  /** `open_or_create(p)` followed by `open(p)`, while others keep adding entries: the same directory. */
  method CreateThenOpen(tree: FileTree, path: seq<Component>, euid: nat, umask: Mode, world: World, later: World)
    returns (first: Result, second: Result)
    requires tree.Valid() && Sound(world) && Friendly(world) && Sound(later) && Friendly(later) && Faultless(later)
    modifies tree
    ensures first.Reached? ==> second == first
  {
    ghost var trail, again;
    first, trail := tree.Walk(path, true, euid, umask, world);
    second, again := tree.Walk(path, false, euid, umask, later);
  }
}
