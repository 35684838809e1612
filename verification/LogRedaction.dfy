/** Recursive redaction of values before they are logged. */
module LogRedaction {
  import opened Wrappers

  datatype Json =
    | Null
    | Bool(b: bool)
    | Number(n: int)
    | Text(text: string)
    | Array(items: seq<Json>)
    | Object(fields: seq<Field>)

  datatype Field = Field(key: string, value: Json)

  /** `toLowerCase` on the characters that can reach a sensitive key: besides A-Z, only the Kelvin sign
      (U+212A) lower-cases to an ASCII letter of one. */
  function LowerChar(c: char): (r: char) {
    if 'A' <= c <= 'Z' then c - 'A' + 'a' else if c == '\U{212A}' then 'k' else c
  }

  function Lower(s: string): (r: string) {
    if s == "" then "" else [LowerChar(s[0])] + Lower(s[1..])
  }

  predicate Sensitive(key: string) {
    SensitiveWord(Lower(key))
  }

  predicate SensitiveWord(word: string) {
    word == "password" || word == "secret" || word == "token" || word == "passphrase" || word == "totp_code"
  }

  /** `c` is the letter `w`, in either case; the Kelvin sign stands for a `k`. */
  predicate SameLetter(c: char, w: char) {
    c == w || ('a' <= w <= 'z' && c as int == w as int - 32) || (w == 'k' && c == '\U{212A}')
  }

  predicate Spells(key: string, word: string) {
    |key| == |word| && forall i :: 0 <= i < |key| ==> SameLetter(key[i], word[i])
  }

  lemma {:induction false} LowerAt(s: string)
    ensures |Lower(s)| == |s| && forall i :: 0 <= i < |s| ==> Lower(s)[i] == LowerChar(s[i])
  {
    if s != "" { LowerAt(s[1..]); }
  }

  /** Lower-casing gives a word exactly when the key spells it in some mixture of cases. */
  lemma LowerSpells(key: string, word: string)
    requires forall i :: 0 <= i < |word| ==> 'a' <= word[i] <= 'z' || word[i] == '_'
    ensures Lower(key) == word <==> Spells(key, word)
  {
    LowerAt(key);
    if Lower(key) == word {
      forall i | 0 <= i < |key| ensures SameLetter(key[i], word[i]) { assert LowerChar(key[i]) == word[i]; }
    }
    if Spells(key, word) {
      forall i | 0 <= i < |key| ensures Lower(key)[i] == word[i] { assert SameLetter(key[i], word[i]); }
    }
  }

  /** The sensitive keys: five words, in any mixture of cases. */
  lemma SensitiveMeans(key: string)
    ensures Sensitive(key) <==>
              || Spells(key, "password") || Spells(key, "secret") || Spells(key, "token")
              || Spells(key, "passphrase") || Spells(key, "totp_code")
  {
    LowerSpells(key, "password");
    LowerSpells(key, "secret");
    LowerSpells(key, "token");
    LowerSpells(key, "passphrase");
    LowerSpells(key, "totp_code");
  }

  lemma ProtoIsNotSensitive()
    ensures !Sensitive("__proto__")
  {
    LowerAt("__proto__");
    assert Lower("__proto__")[0] == '_';
  }

  const REDACTED := Text("[REDACTED]")

  /** Assigning to this key sets the new record's prototype instead of a property. */
  const PROTO := "__proto__"

  function Redact(value: Json): (r: Json)
    decreases value, 1
  {
    match value
    case Array(items) => Array(RedactItems(items))
    case Object(fields) => Object(RedactFields(fields))
    case _ => value
  }

  function RedactItems(items: seq<Json>): (r: seq<Json>)
    ensures |r| == |items|
    ensures forall i :: 0 <= i < |items| ==> r[i] == Redact(items[i])
    decreases items, 0
  {
    if items == [] then [] else [Redact(items[0])] + RedactItems(items[1..])
  }

  function RedactField(field: Field): (r: Field)
    decreases field, 2
  {
    Field(field.key, if Sensitive(field.key) then REDACTED else Redact(field.value))
  }

  /** `redacted[key] = …`, entry by entry, into a fresh record. */
  function RedactFields(fields: seq<Field>): (r: seq<Field>)
    decreases fields, 0
  {
    if fields == [] then []
    else if fields[0].key == PROTO then RedactFields(fields[1..])
    else [RedactField(fields[0])] + RedactFields(fields[1..])
  }

  /** `redactForLog`: recursion over the tree. */
  method RedactForLog(value: Json) returns (r: Json)
    ensures r == Redact(value)
    decreases value, 1
  {
    match value
    case Array(items) =>
      var done := RedactArray(items);
      return Array(done);
    case Object(fields) =>
      var redacted := RedactRecord(fields);
      return Object(redacted);
    case _ =>
      return value;
  }

  /** `value.map(redactForLog)` */
  method RedactArray(items: seq<Json>) returns (done: seq<Json>)
    ensures done == RedactItems(items)
    decreases items, 0
  {
    done := [];
    for i := 0 to |items|
      invariant done == RedactItems(items[..i])
    {
      var item := RedactForLog(items[i]);
      ItemsAppend(items[..i], items[i]);
      assert items[..i + 1] == items[..i] + [items[i]];
      done := done + [item];
    }
    assert items[..|items|] == items;
  }

  /** The loop over the entries of a record. */
  method RedactRecord(fields: seq<Field>) returns (redacted: seq<Field>)
    ensures redacted == RedactFields(fields)
    decreases fields, 0
  {
    redacted := [];
    for i := 0 to |fields|
      invariant redacted == RedactFields(fields[..i])
    {
      var field := fields[i];
      var item := REDACTED;
      if !Sensitive(field.key) {
        item := RedactForLog(field.value);
      }
      assert RedactField(field) == Field(field.key, item);
      FieldsAppend(fields[..i], field);
      assert fields[..i + 1] == fields[..i] + [field];
      if field.key != PROTO {
        redacted := redacted + [Field(field.key, item)];
      }
    }
    assert fields[..|fields|] == fields;
  }

  lemma {:induction false} ItemsAppend(items: seq<Json>, item: Json)
    ensures RedactItems(items + [item]) == RedactItems(items) + [Redact(item)]
  {
    if items != [] {
      ItemsAppend(items[1..], item);
      assert (items + [item])[1..] == items[1..] + [item];
    }
  }

  lemma {:induction false} FieldsAppend(fields: seq<Field>, field: Field)
    ensures RedactFields(fields + [field]) ==
            RedactFields(fields) + (if field.key == PROTO then [] else [RedactField(field)])
  {
    if fields == [] {
      assert (fields + [field])[1..] == [];
    } else {
      FieldsAppend(fields[1..], field);
      assert (fields + [field])[1..] == fields[1..] + [field];
    }
  }

  // --------------------------------------------------------- what is not shown

  /** The two values differ only in what is stored under sensitive keys. */
  predicate Alike(a: Json, b: Json)
    decreases a, 1
  {
    match a
    case Array(items) => b.Array? && AlikeItems(items, b.items)
    case Object(fields) => b.Object? && AlikeFields(fields, b.fields)
    case _ => a == b
  }

  predicate AlikeItems(a: seq<Json>, b: seq<Json>)
    decreases a, 0
  {
    |a| == |b| && (a == [] || (Alike(a[0], b[0]) && AlikeItems(a[1..], b[1..])))
  }

  predicate AlikeFields(a: seq<Field>, b: seq<Field>)
    decreases a, 0
  {
    && |a| == |b|
    && (a == [] ||
        (&& a[0].key == b[0].key
         && (Sensitive(a[0].key) || Alike(a[0].value, b[0].value))
         && AlikeFields(a[1..], b[1..])))
  }

  /** What is stored under a sensitive key never reaches the log. */
  lemma {:induction false} RedactionHidesSecrets(a: Json, b: Json)
    requires Alike(a, b)
    ensures Redact(a) == Redact(b)
    decreases a, 1
  {
    match a
    case Array(items) => ItemsHide(items, b.items);
    case Object(fields) => FieldsHide(fields, b.fields);
    case _ =>
  }

  lemma {:induction false} ItemsHide(a: seq<Json>, b: seq<Json>)
    requires AlikeItems(a, b)
    ensures RedactItems(a) == RedactItems(b)
    decreases a, 0
  {
    if a != [] {
      RedactionHidesSecrets(a[0], b[0]);
      ItemsHide(a[1..], b[1..]);
    }
  }

  lemma {:induction false} FieldsHide(a: seq<Field>, b: seq<Field>)
    requires AlikeFields(a, b)
    ensures RedactFields(a) == RedactFields(b)
    decreases a, 0
  {
    if a != [] {
      if !Sensitive(a[0].key) { RedactionHidesSecrets(a[0].value, b[0].value); }
      FieldsHide(a[1..], b[1..]);
    }
  }

  // ------------------------------------------------------------- what is kept

  /** One step into a value: an item of an array or an entry of a record. */
  datatype Hop = Item(i: nat) | Entry(key: string)

  function Lookup(fields: seq<Field>, key: string): (value: Option<Json>) {
    if fields == [] then None else if fields[0].key == key then Some(fields[0].value) else Lookup(fields[1..], key)
  }

  function Child(value: Json, hop: Hop): (child: Option<Json>) {
    match hop
    case Item(i) => if value.Array? && i < |value.items| then Some(value.items[i]) else None
    case Entry(key) => if value.Object? then Lookup(value.fields, key) else None
  }

  /** What stands at the end of a path. */
  function At(value: Json, path: seq<Hop>): (r: Option<Json>)
    decreases |path|
  {
    if path == [] then Some(value)
    else
      var child := Child(value, path[0]);
      if child.None? then None else At(child.value, path[1..])
  }

  /** The path passes no sensitive key and no `__proto__`. */
  predicate Clean(path: seq<Hop>) {
    forall i :: 0 <= i < |path| && path[i].Entry? ==> !Sensitive(path[i].key) && path[i].key != "__proto__"
  }

  function Keys(fields: seq<Field>): (keys: seq<string>)
    ensures |keys| == |fields| && forall i :: 0 <= i < |keys| ==> keys[i] == fields[i].key
  {
    seq(|fields|, i requires 0 <= i < |fields| => fields[i].key)
  }

  /** Same kind, and the same length, key list or leaf value. */
  predicate SameNode(a: Json, b: Json) {
    match a
    case Array(items) => b.Array? && |b.items| == |items|
    case Object(fields) => b.Object? && Keys(b.fields) == Keys(fields)
    case _ => a == b
  }

  /** No record on a visible path has a `__proto__` entry of its own. */
  predicate Plain(value: Json)
    decreases value
  {
    match value
    case Array(items) => forall i :: 0 <= i < |items| ==> Plain(items[i])
    case Object(fields) =>
      forall i :: 0 <= i < |fields| ==>
        fields[i].key != "__proto__" && (Sensitive(fields[i].key) || Plain(fields[i].value))
    case _ => true
  }

  /** The keys of a record are pairwise different. */
  predicate Proper(value: Json)
    decreases value
  {
    match value
    case Array(items) => forall i :: 0 <= i < |items| ==> Proper(items[i])
    case Object(fields) =>
      && (forall i, j :: 0 <= i < j < |fields| ==> fields[i].key != fields[j].key)
      && (forall i :: 0 <= i < |fields| ==> Proper(fields[i].value))
    case _ => true
  }

  predicate HasProto(value: Json) {
    value.Object? && exists i :: 0 <= i < |value.fields| && value.fields[i].key == "__proto__"
  }

  lemma {:induction false} LookupRedacted(fields: seq<Field>, key: string)
    requires key != PROTO
    ensures var found := Lookup(fields, key);
            Lookup(RedactFields(fields), key) ==
              if found.None? then None else Some(if Sensitive(key) then REDACTED else Redact(found.value))
  {
    if fields != [] {
      LookupRedacted(fields[1..], key);
      if fields[0].key != PROTO {
        assert ([RedactField(fields[0])] + RedactFields(fields[1..]))[1..] == RedactFields(fields[1..]);
      }
    }
  }

  /** Along a clean path the redaction has exactly the nodes of the value, each redacted. */
  lemma {:induction false} RedactionFollowsPaths(value: Json, path: seq<Hop>)
    requires Clean(path)
    ensures var found := At(value, path);
            At(Redact(value), path) == if found.None? then None else Some(Redact(found.value))
    decreases |path|
  {
    if path != [] {
      if value.Object? && path[0].Entry? { LookupRedacted(value.fields, path[0].key); }
      var child := Child(value, path[0]);
      if child.Some? { RedactionFollowsPaths(child.value, path[1..]); }
    }
  }

  lemma {:induction false} AtExtended(value: Json, path: seq<Hop>, hop: Hop)
    ensures var found := At(value, path);
            At(value, path + [hop]) == if found.None? then None else Child(found.value, hop)
    decreases |path|
  {
    if path == [] {
      assert [hop][1..] == [];
      var child := Child(value, hop);
      if child.Some? { assert At(child.value, [hop][1..]) == child; }
    } else {
      assert (path + [hop])[1..] == path[1..] + [hop];
      var child := Child(value, path[0]);
      if child.Some? { AtExtended(child.value, path[1..], hop); }
    }
  }

  /** At the end of a clean path every entry with a sensitive key is masked, and there where it was. */
  lemma SensitiveEntryIsMasked(value: Json, path: seq<Hop>, key: string)
    requires Clean(path) && Sensitive(key)
    ensures var hop := path + [Entry(key)];
            At(Redact(value), hop) == if At(value, hop).None? then None else Some(Text("[REDACTED]"))
  {
    ProtoIsNotSensitive();
    RedactionFollowsPaths(value, path);
    AtExtended(value, path, Entry(key));
    AtExtended(Redact(value), path, Entry(key));
    var found := At(value, path);
    if found.Some? && found.value.Object? { LookupRedacted(found.value.fields, key); }
  }

  lemma {:induction false} FieldsLength(fields: seq<Field>)
    ensures |RedactFields(fields)| <= |fields|
    ensures |RedactFields(fields)| == |fields| <==> forall i :: 0 <= i < |fields| ==> fields[i].key != PROTO
    ensures (forall i :: 0 <= i < |fields| ==> fields[i].key != PROTO) ==>
              |RedactFields(fields)| == |fields|
              && forall i :: 0 <= i < |fields| ==> RedactFields(fields)[i] == RedactField(fields[i])
  {
    if fields != [] { FieldsLength(fields[1..]); }
  }

  /** One node is kept exactly when it is no record with a `__proto__` entry. */
  lemma NodeIsKept(value: Json)
    ensures SameNode(value, Redact(value)) <==> !HasProto(value)
  {
    if value.Object? {
      FieldsLength(value.fields);
      if !HasProto(value) { assert Keys(RedactFields(value.fields)) == Keys(value.fields); }
    }
  }

  lemma {:induction false} LookupFinds(fields: seq<Field>, key: string) returns (i: nat)
    requires Lookup(fields, key).Some?
    ensures i < |fields| && fields[i].key == key && Lookup(fields, key) == Some(fields[i].value)
  {
    if fields[0].key == key {
      i := 0;
    } else {
      var j := LookupFinds(fields[1..], key);
      i := j + 1;
    }
  }

  lemma {:induction false} LookupOf(fields: seq<Field>, i: nat)
    requires i < |fields| && forall j, k :: 0 <= j < k < |fields| ==> fields[j].key != fields[k].key
    ensures Lookup(fields, fields[i].key) == Some(fields[i].value)
  {
    if i > 0 {
      assert fields[0].key != fields[i].key;
      LookupOf(fields[1..], i - 1);
    }
  }

  /** What a clean path leads to in a plain value is plain. */
  lemma {:induction false} PlainAt(value: Json, path: seq<Hop>)
    requires Plain(value) && Clean(path) && At(value, path).Some?
    ensures Plain(At(value, path).value)
    decreases |path|
  {
    if path != [] {
      if path[0].Entry? { var i := LookupFinds(value.fields, path[0].key); }
      PlainAt(Child(value, path[0]).value, path[1..]);
    }
  }

  /** In a value that is not plain a clean path leads to a record with a `__proto__` entry. */
  lemma {:induction false} ProtoPath(value: Json) returns (path: seq<Hop>)
    requires Proper(value) && !Plain(value)
    ensures Clean(path) && At(value, path).Some? && HasProto(At(value, path).value)
    decreases value
  {
    if HasProto(value) {
      path := [];
    } else {
      var hop, child := UnplainChild(value);
      var rest := ProtoPath(child);
      path := [hop] + rest;
      assert path[1..] == rest;
    }
  }

  /** The trouble is in this record, or in a child that a clean step reaches. */
  lemma UnplainChild(value: Json) returns (hop: Hop, child: Json)
    requires Proper(value) && !Plain(value) && !HasProto(value)
    ensures Clean([hop]) && Child(value, hop) == Some(child) && child < value && Proper(child) && !Plain(child)
  {
    if value.Array? {
      var i: nat :| i < |value.items| && !Plain(value.items[i]);
      hop, child := Item(i), value.items[i];
    } else {
      var i: nat :| i < |value.fields| && !Sensitive(value.fields[i].key) && !Plain(value.fields[i].value);
      hop, child := Entry(value.fields[i].key), value.fields[i].value;
      LookupOf(value.fields, i);
    }
  }

  /** Every node at the end of a clean path keeps its kind, its length or key list, and its leaf value. */
  ghost predicate KeptOnCleanPaths(value: Json, other: Json) {
    forall path: seq<Hop> :: Clean(path) && At(value, path).Some? ==>
      At(other, path).Some? && SameNode(At(value, path).value, At(other, path).value)
  }

  /** Redaction keeps everything outside sensitive keys exactly when no visible record has a `__proto__` entry. */
  lemma RedactionKeepsTheRest(value: Json)
    requires Proper(value)
    ensures KeptOnCleanPaths(value, Redact(value)) <==> Plain(value)
  {
    if Plain(value) {
      forall path: seq<Hop> | Clean(path) && At(value, path).Some?
        ensures At(Redact(value), path).Some? && SameNode(At(value, path).value, At(Redact(value), path).value)
      {
        RedactionFollowsPaths(value, path);
        PlainAt(value, path);
        NodeIsKept(At(value, path).value);
      }
    } else {
      var path := ProtoPath(value);
      RedactionFollowsPaths(value, path);
      NodeIsKept(At(value, path).value);
    }
  }

  /** A record with an own `__proto__` entry loses it. */
  lemma ProtoEntryIsLost()
    ensures Redact(Object([Field("__proto__", Number(1))])) == Object([])
  {
    assert RedactFields([Field(PROTO, Number(1))][1..]) == [];
  }

  /** Redacting what is already redacted changes nothing. */
  lemma {:induction false} RedactionIsIdempotent(value: Json)
    ensures Redact(Redact(value)) == Redact(value)
    decreases value, 1
  {
    match value
    case Array(items) =>
      forall i | 0 <= i < |items| ensures Redact(Redact(items[i])) == Redact(items[i]) {
        RedactionIsIdempotent(items[i]);
      }
      assert RedactItems(RedactItems(items)) == RedactItems(items);
    case Object(fields) => FieldsIdempotent(fields);
    case _ =>
  }

  lemma {:induction false} FieldsIdempotent(fields: seq<Field>)
    ensures RedactFields(RedactFields(fields)) == RedactFields(fields)
    decreases fields, 0
  {
    if fields != [] {
      FieldsIdempotent(fields[1..]);
      if fields[0].key != PROTO {
        if !Sensitive(fields[0].key) { RedactionIsIdempotent(fields[0].value); }
        var rest := RedactFields(fields[1..]);
        assert ([RedactField(fields[0])] + rest)[1..] == rest;
      }
    }
  }
}
