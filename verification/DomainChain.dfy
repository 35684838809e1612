/** Keyed domain-chain matching: an index of tags, one per label suffix, that agrees with a string predicate. */
module DomainChain {
  import opened Wrappers

  type Tag = seq<bv8>
  const MAX_CHAIN_TAGS: int := 10

  // ------------------------------------------------------------------ strings

  /** `str::split('.')`: always at least one label, empty labels kept. */
  function Split(s: string): (labels: seq<string>)
    ensures |labels| >= 1
  {
    if s == "" then [""] else PutChar(s[0], Split(s[1..]))
  }

  /** One character more on the left: a dot opens an empty label, any other joins the first label. */
  function PutChar(c: char, labels: seq<string>): (r: seq<string>)
    requires |labels| >= 1
    ensures |r| >= 1
  {
    if c == '.' then [""] + labels else [[c] + labels[0]] + labels[1..]
  }

  lemma AddChar(c: char, labels: seq<string>, more: seq<string>)
    requires |labels| >= 1
    ensures PutChar(c, labels + more) == PutChar(c, labels) + more
  {
    assert (labels + more)[1..] == labels[1..] + more;
  }

  /** `[..].join(".")` */
  function Join(labels: seq<string>): (s: string) {
    if labels == [] then "" else if |labels| == 1 then labels[0] else labels[0] + "." + Join(labels[1..])
  }

  predicate EndsWith(s: string, suffix: string) {
    |suffix| <= |s| && s[|s| - |suffix|..] == suffix
  }

  lemma {:induction false} JoinSplit(s: string)
    ensures Join(Split(s)) == s
  {
    if s != "" {
      JoinSplit(s[1..]);
      var rest := Split(s[1..]);
      if s[0] == '.' {
        assert ([""] + rest)[1..] == rest;
      } else {
        var labels := [[s[0]] + rest[0]] + rest[1..];
        assert labels[1..] == rest[1..];
        assert [s[0]] + s[1..] == s;
        if |rest| > 1 { assert [s[0]] + rest[0] + "." + Join(rest[1..]) == [s[0]] + (rest[0] + "." + Join(rest[1..])); }
      }
    }
  }

  /** A dot cuts the labels in two. */
  lemma {:induction false} SplitDot(a: string, b: string)
    ensures Split(a + "." + b) == Split(a) + Split(b)
  {
    var s := a + "." + b;
    if a == "" {
      assert s[1..] == b;
    } else {
      SplitDot(a[1..], b);
      assert s[0] == a[0] && s[1..] == a[1..] + "." + b;
      AddChar(a[0], Split(a[1..]), Split(b));
    }
  }

  lemma {:induction false} JoinCut(labels: seq<string>, i: nat)
    requires 0 < i < |labels|
    ensures Join(labels) == Join(labels[..i]) + "." + Join(labels[i..])
  {
    if i == 1 {
      assert labels[..1] == [labels[0]];
    } else {
      JoinCut(labels[1..], i - 1);
      assert labels[1..][..i - 1] == labels[..i][1..];
      assert labels[1..][i - 1..] == labels[i..];
    }
  }

  // ------------------------------------------------------------------- chains

  /** The `i`-th label suffix of a host. */
  function Chain(host: string, i: nat): (chain: string)
    requires i < |Split(host)|
  {
    Join(Split(host)[i..])
  }

  function ChainCount(host: string): (n: nat) {
    if host == "" then 0 else if |Split(host)| < MAX_CHAIN_TAGS then |Split(host)| else MAX_CHAIN_TAGS
  }

  /** The label suffixes, longest first, cut off at the cap. */
  function Chains(host: string): (chains: seq<string>)
    ensures |chains| == ChainCount(host)
    ensures forall i :: 0 <= i < |chains| ==> i < |Split(host)| && chains[i] == Chain(host, i)
  {
    seq(ChainCount(host), i requires 0 <= i < ChainCount(host) => Chain(host, i))
  }

  method DomainChainSuffixes(host: string) returns (chains: seq<string>)
    ensures chains == Chains(host)
  {
    chains := [];
    if host == "" {
      return;
    }
    var labels := Split(host);
    for i := 0 to |labels|
      invariant |chains| == i <= MAX_CHAIN_TAGS
      invariant forall j :: 0 <= j < i ==> chains[j] == Chain(host, j)
    {
      if |chains| == MAX_CHAIN_TAGS {
        break;
      }
      chains := chains + [Join(labels[i..])];
    }
  }

  /** `long` equals `short` or ends with it after a dot. */
  predicate DotSuffix(long: string, short: string) {
    long == short || EndsWith(long, "." + short)
  }

  /** `domains_match` on two normalized hosts. */
  predicate HostsMatch(a: string, b: string) {
    a == b || EndsWith(a, "." + b) || EndsWith(b, "." + a)
  }

  /** `domains_match`; the parser behind `normalize_host` is a parameter. */
  predicate DomainsMatch(normalize: string -> Option<string>, a: string, b: string) {
    normalize(a).Some? && normalize(b).Some? && HostsMatch(normalize(a).value, normalize(b).value)
  }

  /** A dot-suffix in characters is a suffix in labels, at the distance of the label counts. */
  lemma SuffixIsChain(long: string, short: string)
    requires DotSuffix(long, short)
    ensures |Split(short)| <= |Split(long)|
    ensures Chain(long, |Split(long)| - |Split(short)|) == short
  {
    if long == short {
      JoinSplit(long);
      assert Split(long)[0..] == Split(long);
    } else {
      var prefix := long[..|long| - |short| - 1];
      assert long == prefix + "." + short;
      SplitDot(prefix, short);
      assert Split(long)[|Split(long)| - |Split(short)|..] == Split(short);
      JoinSplit(short);
    }
  }

  /** A suffix in labels is a dot-suffix in characters. */
  lemma ChainIsSuffix(long: string, i: nat)
    requires i < |Split(long)|
    ensures DotSuffix(long, Chain(long, i))
    ensures |Split(Chain(long, i))| == |Split(long)| - i
  {
    var labels := Split(long);
    JoinSplit(long);
    if i == 0 {
      assert labels[0..] == labels;
    } else {
      JoinCut(labels, i);
      var short := Chain(long, i);
      var prefix := Join(labels[..i]);
      assert long == prefix + ("." + short);
      assert long[|long| - |short| - 1..] == "." + short;
      ChainLabels(long, i);
    }
  }

  lemma {:induction false} SplitHasNoDots(s: string, j: nat)
    requires j < |Split(s)|
    ensures '.' !in Split(s)[j]
  {
    if s != "" {
      var rest := Split(s[1..]);
      if s[0] == '.' {
        if j > 0 { SplitHasNoDots(s[1..], j - 1); }
      } else {
        SplitHasNoDots(s[1..], j);
      }
    }
  }

  lemma {:induction false} SplitPlain(s: string)
    requires '.' !in s
    ensures Split(s) == [s]
  {
    if s != "" {
      SplitPlain(s[1..]);
      assert [s[0]] + s[1..] == s;
    }
  }

  lemma {:induction false} SplitJoin(labels: seq<string>)
    requires labels != [] && forall j :: 0 <= j < |labels| ==> '.' !in labels[j]
    ensures Split(Join(labels)) == labels
  {
    SplitPlain(labels[0]);
    if |labels| > 1 {
      SplitJoin(labels[1..]);
      SplitDot(labels[0], Join(labels[1..]));
    }
  }

  lemma ChainLabels(host: string, i: nat)
    requires i < |Split(host)|
    ensures Split(Chain(host, i)) == Split(host)[i..]
  {
    forall j | 0 <= j < |Split(host)[i..]| ensures '.' !in Split(host)[i..][j] { SplitHasNoDots(host, i + j); }
    SplitJoin(Split(host)[i..]);
  }

  /** The chains of a host are pairwise different. */
  lemma ChainsAreDistinct(host: string, i: nat, j: nat)
    requires i < j < |Chains(host)|
    ensures Chains(host)[i] != Chains(host)[j]
  {
    ChainLabels(host, i);
    ChainLabels(host, j);
  }

  /** The index of `short` among the chains of `long`, when it is there. */
  lemma ChainIndex(long: string, short: string)
    requires long != "" && short != ""
    ensures short in Chains(long) <==> DotSuffix(long, short) && |Split(long)| - |Split(short)| < 10
  {
    if short in Chains(long) {
      var i :| 0 <= i < |Chains(long)| && Chains(long)[i] == short;
      ChainIsSuffix(long, i);
    }
    if DotSuffix(long, short) && |Split(long)| - |Split(short)| < 10 {
      SuffixIsChain(long, short);
      assert Chains(long)[|Split(long)| - |Split(short)|] == short;
    }
  }

  // --------------------------------------------------------------------- tags

  datatype ChainTags = ChainTags(root: Tag, suffixes: seq<Tag>)

  /** `ChainTags::all` */
  function All(tags: ChainTags): (all: seq<Tag>)
    ensures |all| == |tags.suffixes| + 1
  {
    [tags.root] + tags.suffixes
  }

  /** One tag per chain; `mac` is HMAC-SHA-256 under the vault's tag key. */
  function TagsOfNormalized(mac: string -> Tag, host: string): (tags: Option<ChainTags>) {
    var chains := Chains(host);
    if chains == [] then None
    else Some(ChainTags(mac(chains[0]), seq(|chains| - 1, i requires 0 <= i < |chains| - 1 => mac(chains[i + 1]))))
  }

  /** Every member is compared, with no early exit. */
  method CtSetContains(set_: seq<Tag>, needle: Tag) returns (hit: bool)
    ensures hit <==> needle in set_
  {
    var bits: bv8 := 0;
    for i := 0 to |set_|
      invariant bits == if needle in set_[..i] then 1 else 0
    {
      bits := bits | (if set_[i] == needle then 1 else 0);
      assert set_[..i + 1] == set_[..i] + [set_[i]];
    }
    assert set_[..|set_|] == set_;
    hit := bits == 1;
  }

  predicate TagSetsMatch(a: ChainTags, b: ChainTags) {
    a.root in All(b) || b.root in All(a)
  }

  method ChainTagSetsMatch(a: ChainTags, b: ChainTags) returns (r: bool)
    ensures r <==> TagSetsMatch(a, b)
  {
    r := CtSetContains(All(b), a.root);
    if !r {
      r := CtSetContains(All(a), b.root);
    }
  }

  /** The tags of these chains are told apart. */
  predicate NoCollision(mac: string -> Tag, chains: seq<string>) {
    forall x, y :: x in chains && y in chains && mac(x) == mac(y) ==> x == y
  }

  lemma AllAreChainTags(mac: string -> Tag, host: string)
    requires host != ""
    ensures TagsOfNormalized(mac, host).Some?
    ensures var all := All(TagsOfNormalized(mac, host).value);
            |all| == |Chains(host)| && forall i :: 0 <= i < |all| ==> all[i] == mac(Chains(host)[i])
  {}

  lemma RootInAll(mac: string -> Tag, a: string, b: string)
    requires a != "" && b != "" && NoCollision(mac, Chains(a) + Chains(b))
    ensures TagsOfNormalized(mac, a).Some? && TagsOfNormalized(mac, b).Some?
    ensures TagsOfNormalized(mac, a).value.root in All(TagsOfNormalized(mac, b).value) <==> a in Chains(b)
  {
    AllAreChainTags(mac, a);
    AllAreChainTags(mac, b);
    var root, all := TagsOfNormalized(mac, a).value.root, All(TagsOfNormalized(mac, b).value);
    JoinSplit(a);
    assert Split(a)[0..] == Split(a);
    assert Chains(a)[0] == a && a in Chains(a) + Chains(b);
    if root in all {
      var i :| 0 <= i < |all| && all[i] == root;
      assert Chains(b)[i] in Chains(a) + Chains(b);
    }
    if a in Chains(b) {
      var i :| 0 <= i < |Chains(b)| && Chains(b)[i] == a;
      assert all[i] == root;
    }
  }

  /** The tag predicate is the string predicate, up to the documented cap on the label distance. */
  lemma TagMatchIsDomainMatch(mac: string -> Tag, a: string, b: string)
    requires a != "" && b != "" && NoCollision(mac, Chains(a) + Chains(b))
    ensures TagsOfNormalized(mac, a).Some? && TagsOfNormalized(mac, b).Some?
    ensures TagSetsMatch(TagsOfNormalized(mac, a).value, TagsOfNormalized(mac, b).value)
            <==> HostsMatch(a, b) && -10 < |Split(a)| - |Split(b)| < 10
  {
    RootInAll(mac, a, b);
    assert NoCollision(mac, Chains(b) + Chains(a));
    RootInAll(mac, b, a);
    ChainIndex(a, b);
    ChainIndex(b, a);
    if DotSuffix(a, b) { SuffixIsChain(a, b); }
    if DotSuffix(b, a) { SuffixIsChain(b, a); }
  }

  /** Any two chains of one host match each other. */
  lemma ChainHostsMatchEachOther(query: string, x: string, y: string)
    requires query != "" && x in Chains(query) && y in Chains(query)
    ensures HostsMatch(x, y) && -10 < |Split(x)| - |Split(y)| < 10
  {
    var i :| 0 <= i < |Chains(query)| && Chains(query)[i] == x;
    var j :| 0 <= j < |Chains(query)| && Chains(query)[j] == y;
    ChainLabels(query, i);
    ChainLabels(query, j);
    if i <= j { ChainOfChain(query, i, j); } else { ChainOfChain(query, j, i); }
  }

  /** The same on tags: hosts whose root tags lie in one host's tag set match one another. */
  lemma RootsInOneSetMatch(mac: string -> Tag, query: string, x: string, y: string)
    requires query != "" && x != "" && y != ""
    requires NoCollision(mac, Chains(x) + Chains(query)) && NoCollision(mac, Chains(y) + Chains(query))
    requires NoCollision(mac, Chains(x) + Chains(y))
    ensures TagsOfNormalized(mac, x).Some? && TagsOfNormalized(mac, y).Some? && TagsOfNormalized(mac, query).Some?
    ensures var a, b, all := TagsOfNormalized(mac, x).value, TagsOfNormalized(mac, y).value,
                             All(TagsOfNormalized(mac, query).value);
            a.root in all && b.root in all ==> HostsMatch(x, y) && TagSetsMatch(a, b)
  {
    RootInAll(mac, x, query);
    RootInAll(mac, y, query);
    TagMatchIsDomainMatch(mac, x, y);
    if x in Chains(query) && y in Chains(query) { ChainHostsMatchEachOther(query, x, y); }
  }

  lemma ChainOfChain(host: string, i: nat, j: nat)
    requires i <= j < |Split(host)|
    ensures DotSuffix(Chain(host, i), Chain(host, j))
  {
    ChainLabels(host, i);
    assert Split(host)[i..][j - i..] == Split(host)[j..];
    ChainIsSuffix(Chain(host, i), j - i);
  }

  /** Two hosts that match share a tag, so a set-intersection pre-filter loses nothing. */
  lemma MatchSharesATag(a: ChainTags, b: ChainTags)
    requires TagSetsMatch(a, b)
    ensures exists t :: t in All(a) && t in All(b)
  {
    if a.root in All(b) { assert All(a)[0] == a.root; } else { assert All(b)[0] == b.root; }
  }

  lemma ChainTagIsListed(mac: string -> Tag, host: string, chain: string)
    requires host != "" && chain in Chains(host)
    ensures TagsOfNormalized(mac, host).Some? && mac(chain) in All(TagsOfNormalized(mac, host).value)
  {
    AllAreChainTags(mac, host);
    var i :| 0 <= i < |Chains(host)| && Chains(host)[i] == chain;
    assert All(TagsOfNormalized(mac, host).value)[i] == mac(chain);
  }

  /** Sharing a tag is not enough: hosts under a common suffix, such as `com`, share its tag and need not match. */
  lemma SharedTagIsNotAMatch(mac: string -> Tag, a: string, b: string, suffix: string)
    requires a != "" && b != "" && NoCollision(mac, Chains(a) + Chains(b))
    requires suffix in Chains(a) && suffix in Chains(b) && !HostsMatch(a, b)
    ensures TagsOfNormalized(mac, a).Some? && TagsOfNormalized(mac, b).Some?
    ensures var x, y := TagsOfNormalized(mac, a).value, TagsOfNormalized(mac, b).value;
            mac(suffix) in All(x) && mac(suffix) in All(y) && !TagSetsMatch(x, y)
  {
    ChainTagIsListed(mac, a, suffix);
    ChainTagIsListed(mac, b, suffix);
    TagMatchIsDomainMatch(mac, a, b);
  }

  /** The cap is real: a host and its parent ten or more labels up match as strings and not as tags. */
  lemma CapCutsOff(mac: string -> Tag, host: string, i: nat)
    requires 10 <= i < |Split(host)| && host != "" && Chain(host, i) != ""
    requires NoCollision(mac, Chains(host) + Chains(Chain(host, i)))
    ensures HostsMatch(host, Chain(host, i))
    ensures TagsOfNormalized(mac, host).Some? && TagsOfNormalized(mac, Chain(host, i)).Some?
    ensures !TagSetsMatch(TagsOfNormalized(mac, host).value, TagsOfNormalized(mac, Chain(host, i)).value)
  {
    ChainIsSuffix(host, i);
    TagMatchIsDomainMatch(mac, host, Chain(host, i));
  }

  /** Hosts of at most ten labels, as practically all are: there the tags decide exactly what the strings do. */
  lemma ShortHostsMatchAsTags(mac: string -> Tag, a: string, b: string)
    requires a != "" && b != "" && NoCollision(mac, Chains(a) + Chains(b))
    requires |Split(a)| <= 10 && |Split(b)| <= 10
    ensures TagsOfNormalized(mac, a).Some? && TagsOfNormalized(mac, b).Some?
    ensures TagSetsMatch(TagsOfNormalized(mac, a).value, TagsOfNormalized(mac, b).value) <==> HostsMatch(a, b)
  {
    TagMatchIsDomainMatch(mac, a, b);
  }

  /** `normalize_host` refuses what holds no host; it never gives an empty one. */
  ghost predicate Normalizer(normalize: string -> Option<string>) { forall s :: normalize(s) != Some("") }

  /** `compute_domain_chain_tags` */
  function TagsOfInput(mac: string -> Tag, normalize: string -> Option<string>, s: string): (tags: Option<ChainTags>) {
    if normalize(s).None? then None else TagsOfNormalized(mac, normalize(s).value)
  }

  /** End to end, for all inputs: an input has tags exactly when the normalizer accepts it, and tag matching is
      `domains_match` within the cap; a refused input matches nothing either way. */
  lemma TagMatchOfInputs(mac: string -> Tag, normalize: string -> Option<string>, a: string, b: string)
    requires Normalizer(normalize)
    requires normalize(a).Some? && normalize(b).Some? ==>
               NoCollision(mac, Chains(normalize(a).value) + Chains(normalize(b).value))
    ensures TagsOfInput(mac, normalize, a).Some? <==> normalize(a).Some?
    ensures var x, y := TagsOfInput(mac, normalize, a), TagsOfInput(mac, normalize, b);
            x.Some? && y.Some? && TagSetsMatch(x.value, y.value) <==>
              && DomainsMatch(normalize, a, b)
              && (normalize(a).Some? && normalize(b).Some? ==>
                    -10 < |Split(normalize(a).value)| - |Split(normalize(b).value)| < 10)
  {
    if normalize(a).Some? { AllAreChainTags(mac, normalize(a).value); }
    if normalize(a).Some? && normalize(b).Some? {
      TagMatchIsDomainMatch(mac, normalize(a).value, normalize(b).value);
    }
  }
}
