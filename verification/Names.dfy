/** How names are spelled: temporaries, path components and leaves. */
module Names {
  import Publication

  // --------------------------------------------------------------- temporaries

  const PREFIX := ".anvai-pending-"

  function Digit(d: nat): (c: char)
    requires d < 10
  {
    ['0', '1', '2', '3', '4', '5', '6', '7', '8', '9'][d]
  }

  /** `{}` of an unsigned integer. */
  function Decimal(n: nat): (s: string) {
    if n < 10 then [Digit(n)] else Decimal(n / 10) + [Digit(n % 10)]
  }

  /** `format!(".anvai-pending-{}-{}", pid, id)` */
  function Spelling(t: Publication.Temp): (s: string) {
    PREFIX + (Decimal(t.pid) + "-" + Decimal(t.serial))
  }

  lemma {:induction false} DecimalIsDigits(n: nat, i: nat)
    requires i < |Decimal(n)|
    ensures '0' <= Decimal(n)[i] <= '9'
  {
    if n >= 10 && i < |Decimal(n / 10)| { DecimalIsDigits(n / 10, i); }
  }

  /** The number that a string of digits is read as. */
  function ValueOf(s: string): (n: int) {
    if s == "" then 0 else 10 * ValueOf(s[..|s| - 1]) + (s[|s| - 1] as int - '0' as int)
  }

  /** A number is read back from its digits, which have no leading zero. */
  lemma {:induction false} DecimalReads(n: nat)
    ensures ValueOf(Decimal(n)) == n
    ensures Decimal(n) != "" && (n > 0 ==> Decimal(n)[0] != '0')
  {
    if n < 10 {
      assert [Digit(n)][..0] == "";
    } else {
      DecimalReads(n / 10);
      assert (Decimal(n / 10) + [Digit(n % 10)])[..|Decimal(n / 10)|] == Decimal(n / 10);
    }
  }

  lemma DecimalIsInjective(m: nat, n: nat)
    requires Decimal(m) == Decimal(n)
    ensures m == n
  {
    DecimalReads(m);
    DecimalReads(n);
  }

  /** The first dash cuts a string in one place only. */
  lemma {:induction false} DashCutsOnce(a: string, b: string, c: string, d: string)
    requires '-' !in a && '-' !in c && a + "-" + b == c + "-" + d
    ensures a == c && b == d
  {
    var s, t := a + "-" + b, c + "-" + d;
    assert a != "" ==> s[0] == a[0] && a[0] in a;
    assert c != "" ==> t[0] == c[0] && c[0] in c;
    if a == "" || c == "" {
      assert s[0] == t[0];
      assert s[1..] == t[1..];
      assert a == "" ==> s[0] == '-' && s[1..] == b;
      assert c == "" ==> t[0] == '-' && t[1..] == d;
    } else {
      assert s[0] == a[0] && t[0] == c[0];
      assert s[1..] == a[1..] + "-" + b && t[1..] == c[1..] + "-" + d;
      DashCutsOnce(a[1..], b, c[1..], d);
      assert a == [a[0]] + a[1..] && c == [c[0]] + c[1..];
    }
  }

  /** Two writers' temporaries are spelled alike only if process and counter agree, and no temporary is
      spelled like a caller's name outside the `.anvai-pending-` namespace. */
  lemma SpellingIsInjective(t: Publication.Temp, u: Publication.Temp, name: string)
    ensures Spelling(t) == Spelling(u) ==> t == u
    ensures !(".anvai-pending-" <= name) ==> Spelling(t) != name
  {
    if Spelling(t) == Spelling(u) {
      assert Spelling(t)[|PREFIX|..] == Decimal(t.pid) + "-" + Decimal(t.serial);
      assert Spelling(u)[|PREFIX|..] == Decimal(u.pid) + "-" + Decimal(u.serial);
      NoDash(t.pid);
      NoDash(u.pid);
      DashCutsOnce(Decimal(t.pid), Decimal(t.serial), Decimal(u.pid), Decimal(u.serial));
      DecimalIsInjective(t.pid, u.pid);
      DecimalIsInjective(t.serial, u.serial);
    }
  }

  lemma NoDash(n: nat)
    ensures '-' !in Decimal(n)
  {
    forall i | 0 <= i < |Decimal(n)| ensures Decimal(n)[i] != '-' { DecimalIsDigits(n, i); }
  }

  // ---------------------------------------------------------------------- paths

  datatype Component = RootDir | CurDir | ParentDir | Normal(name: string)

  /** Pieces between slashes, empty ones included. */
  function Pieces(path: string): (pieces: seq<string>)
    ensures |pieces| >= 1
  {
    if path == "" then [""]
    else
      var rest := Pieces(path[1..]);
      if path[0] == '/' then [""] + rest else [[path[0]] + rest[0]] + rest[1..]
  }

  /** `Path::components` past the first piece: empty pieces and `.` vanish. */
  function ComponentsOf(pieces: seq<string>): (components: seq<Component>) {
    if pieces == [] then []
    else
      var rest := ComponentsOf(pieces[1..]);
      if pieces[0] == "" || pieces[0] == "." then rest
      else if pieces[0] == ".." then [ParentDir] + rest
      else [Normal(pieces[0])] + rest
  }

  /** `Path::components`: a leading slash is the root, a leading `.` is kept. */
  function Components(path: string): (components: seq<Component>) {
    var pieces := Pieces(path);
    if path != "" && path[0] == '/' then [RootDir] + ComponentsOf(pieces)
    else if pieces[0] == "." then [CurDir] + ComponentsOf(pieces)
    else ComponentsOf(pieces)
  }

  /** `leaf`: exactly one component, and a normal one. */
  predicate IsLeaf(path: string) {
    var components := Components(path);
    |components| == 1 && components[0].Normal?
  }

  lemma {:induction false} PiecesOfName(name: string)
    requires '/' !in name
    ensures Pieces(name) == [name]
  {
    if name != "" {
      PiecesOfName(name[1..]);
      assert [name[0]] + name[1..] == name;
    }
  }

  /** On names without a slash, `leaf` is the test the protocol uses. */
  lemma LeafOfPlainNames(name: string)
    requires '/' !in name
    ensures IsLeaf(name) <==> Publication.Leaf(name)
  {
    PiecesOfName(name);
    assert [name][1..] == [];
    assert ComponentsOf([]) == [];
  }

  lemma {:induction false} PiecesOfSlashed(name: string)
    requires '/' !in name
    ensures Pieces(name + "/") == [name, ""]
  {
    if name == "" {
      assert Pieces("") == [""] && ("" + "/")[1..] == "";
    } else {
      PiecesOfSlashed(name[1..]);
      assert (name + "/")[1..] == name[1..] + "/";
      assert [name[0]] + name[1..] == name;
    }
  }

  /** `leaf` also lets a name with a trailing slash through; the protocol model does not follow such names. */
  lemma TrailingSlashPasses(name: string)
    requires Publication.Leaf(name)
    ensures IsLeaf(name + "/") && !Publication.Leaf(name + "/")
  {
    PiecesOfSlashed(name);
    assert [name, ""][1..] == [""] && [""][1..] == [];
    assert ComponentsOf([""]) == ComponentsOf([]) == [];
    assert (name + "/")[|name|] == '/';
  }

  predicate Vanishes(piece: string) { piece == "" || piece == "." }

  lemma {:induction false} NothingLeft(pieces: seq<string>)
    ensures ComponentsOf(pieces) == [] <==> forall j :: 0 <= j < |pieces| ==> Vanishes(pieces[j])
  {
    if pieces != [] {
      NothingLeft(pieces[1..]);
      if ComponentsOf(pieces) == [] {
        forall j | 0 <= j < |pieces| ensures Vanishes(pieces[j]) {
          if j > 0 { assert pieces[j] == pieces[1..][j - 1]; }
        }
      }
    }
  }

  lemma {:induction false} PieceHasNoSlash(path: string, j: nat)
    requires j < |Pieces(path)|
    ensures '/' !in Pieces(path)[j]
  {
    if path != "" {
      if path[0] != '/' { PieceHasNoSlash(path[1..], j); } else if j > 0 { PieceHasNoSlash(path[1..], j - 1); }
    }
  }

  /** On all strings: `leaf` accepts a plain name followed by slashes and dots between them, and nothing else. */
  lemma LeafExactly(path: string)
    ensures IsLeaf(path) <==>
              Publication.Leaf(Pieces(path)[0]) && forall j :: 1 <= j < |Pieces(path)| ==> Vanishes(Pieces(path)[j])
  {
    var pieces := Pieces(path);
    PieceHasNoSlash(path, 0);
    NothingLeft(pieces[1..]);
    assert forall j :: 1 <= j < |pieces| ==> pieces[j] == pieces[1..][j - 1];
    assert (forall j :: 1 <= j < |pieces| ==> Vanishes(pieces[j])) <==>
           (forall j :: 0 <= j < |pieces[1..]| ==> Vanishes(pieces[1..][j]));
    assert path != "" && path[0] == '/' ==> pieces[0] == "";
  }
}
