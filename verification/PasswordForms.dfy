/** Field classification by autofill tokens, and the choice of the field to capture. */
module PasswordForms {
  import opened Wrappers

  datatype Role = Username | CurrentPassword | NewPassword | OneTimeCode | Other
  datatype Kind = Login | NewAccount | PasswordChange

  /** An input as the classifier sees it: its lower-cased autocomplete tokens and `type`,
      whether its hints match `/user|email|login/`, and its value. */
  datatype Field = Field(tokens: seq<string>, kind: string, hinted: bool, value: string)

  function TokenRole(token: string): (role: Option<Role>) {
    if token == "username" || token == "email" || token == "login" then Some(Username)
    else if token == "current-password" then Some(CurrentPassword)
    else if token == "new-password" then Some(NewPassword)
    else if token == "one-time-code" then Some(OneTimeCode)
    else None
  }

  /** The role `type` and the hints give when no token tells one. */
  function UntoldRole(field: Field): (role: Role) {
    if field.kind == "password" then CurrentPassword
    else if field.kind == "email" || field.hinted then Username
    else Other
  }

  /** The role of a field, by recursion over its tokens. */
  function Classify(field: Field): (role: Role)
    decreases |field.tokens|
  {
    if field.tokens == [] then UntoldRole(field)
    else
      var first := TokenRole(field.tokens[0]);
      if first.Some? then first.value else Classify(field.(tokens := field.tokens[1..]))
  }

  /** What an autocomplete token says about its field. */
  predicate Tells(token: string, role: Role) {
    match role
    case Username => token == "username" || token == "email" || token == "login"
    case CurrentPassword => token == "current-password"
    case NewPassword => token == "new-password"
    case OneTimeCode => token == "one-time-code"
    case Other => false
  }

  /** None of the first `n` tokens says anything. */
  ghost predicate Silent(tokens: seq<string>, n: nat)
    requires n <= |tokens|
  {
    forall j, role :: 0 <= j < n ==> !Tells(tokens[j], role)
  }

  /** The token at `i` tells the role, and none before it tells any. */
  ghost predicate TellsFirst(tokens: seq<string>, i: nat, role: Role) {
    i < |tokens| && Tells(tokens[i], role) && Silent(tokens, i)
  }

  lemma TokenRoleIsTold(token: string, role: Role)
    ensures TokenRole(token) == Some(role) <==> Tells(token, role)
    ensures TokenRole(token).None? <==> forall r :: !Tells(token, r)
  {
    if TokenRole(token).Some? { assert Tells(token, TokenRole(token).value); }
  }

  /** The first telling token decides, wherever it stands and whatever `type`, hints and later tokens say;
      only without one do `type` and hints decide. */
  lemma {:induction false} FirstTellingDecides(field: Field)
    ensures forall i: nat, role :: TellsFirst(field.tokens, i, role) ==> Classify(field) == role
    ensures Silent(field.tokens, |field.tokens|) ==> Classify(field) == UntoldRole(field)
    decreases |field.tokens|
  {
    if field.tokens != [] {
      var rest := field.(tokens := field.tokens[1..]);
      TokenRoleIsTold(field.tokens[0], Other);
      FirstTellingDecides(rest);
      forall i: nat, role | TellsFirst(field.tokens, i, role) ensures Classify(field) == role {
        TokenRoleIsTold(field.tokens[0], role);
        if i > 0 {
          RestIsSilent(field.tokens, i);
          assert TellsFirst(rest.tokens, i - 1, role);
        }
      }
      if Silent(field.tokens, |field.tokens|) { RestIsSilent(field.tokens, |field.tokens|); }
    }
  }

  lemma RestIsSilent(tokens: seq<string>, n: nat)
    requires 0 < n <= |tokens| && Silent(tokens, n)
    ensures Silent(tokens[1..], n - 1)
  {
    forall j, role | 0 <= j < n - 1 ensures !Tells(tokens[1..][j], role) { assert !Tells(tokens[j + 1], role); }
  }

  lemma OneMoreSilent(tokens: seq<string>, i: nat)
    requires i < |tokens| && Silent(tokens, i) && TokenRole(tokens[i]).None?
    ensures Silent(tokens, i + 1)
  {
    TokenRoleIsTold(tokens[i], Other);
  }

  /** `classifyInputField`: the token loop with its early return. */
  method ClassifyInputField(field: Field) returns (role: Role)
    ensures forall i: nat, told :: TellsFirst(field.tokens, i, told) ==> role == told
    ensures Silent(field.tokens, |field.tokens|) && field.kind == "password" ==> role == CurrentPassword
    ensures Silent(field.tokens, |field.tokens|) && field.kind != "password" ==>
              role == if field.kind == "email" || field.hinted then Username else Other
    ensures role == Classify(field)
  {
    FirstTellingDecides(field);
    for i := 0 to |field.tokens|
      invariant Silent(field.tokens, i)
    {
      var found := TokenRole(field.tokens[i]);
      if found.Some? {
        TokenRoleIsTold(field.tokens[i], found.value);
        assert TellsFirst(field.tokens, i, found.value);
        return found.value;
      }
      OneMoreSilent(field.tokens, i);
    }
    if field.kind == "password" {
      return CurrentPassword;
    }
    if field.kind == "email" || field.hinted {
      return Username;
    }
    return Other;
  }

  predicate Filled(field: Field) { field.value != "" }

  predicate HasNew(fields: seq<Field>) { exists i :: 0 <= i < |fields| && Classify(fields[i]) == NewPassword }

  predicate HasFilledCurrent(fields: seq<Field>) {
    exists i :: 0 <= i < |fields| && Classify(fields[i]) == CurrentPassword && Filled(fields[i])
  }

  function FormKind(fields: seq<Field>): (kind: Kind) {
    if !HasNew(fields) then Login else if HasFilledCurrent(fields) then PasswordChange else NewAccount
  }

  /** The kind of a form, by what its fields are and which are filled. */
  lemma FormKindMeans(fields: seq<Field>)
    ensures FormKind(fields) == Login <==> forall i :: 0 <= i < |fields| ==> Classify(fields[i]) != NewPassword
    ensures FormKind(fields) == PasswordChange <==>
              && (exists i :: 0 <= i < |fields| && Classify(fields[i]) == NewPassword)
              && (exists i :: 0 <= i < |fields| && Classify(fields[i]) == CurrentPassword && fields[i].value != "")
  {}

  /** A password field without a telling token, as most forms have. */
  ghost predicate PlainPassword(field: Field) {
    field.kind == "password" && Silent(field.tokens, |field.tokens|)
  }

  /** A form of such fields is a login form. */
  lemma PlainPasswordsAreLogins(fields: seq<Field>)
    requires forall i :: 0 <= i < |fields| ==> PlainPassword(fields[i])
    ensures FormKind(fields) == Login
    ensures forall i :: 0 <= i < |fields| ==> Classify(fields[i]) == CurrentPassword
  {
    forall i | 0 <= i < |fields| ensures Classify(fields[i]) == CurrentPassword {
      assert PlainPassword(fields[i]);
      FirstTellingDecides(fields[i]);
    }
  }

  /** The fields whose value may be the new credential. */
  predicate Eligible(kind: Kind, field: Field) {
    kind == NewAccount || Classify(field) == NewPassword
  }

  /** `fields.filter(…)`, as positions. */
  function Pool(kind: Kind, fields: seq<Field>, n: nat): (pool: seq<nat>)
    requires n <= |fields|
    ensures forall p :: 0 <= p < |pool| ==> pool[p] < n && Eligible(kind, fields[pool[p]])
    ensures forall i :: 0 <= i < n && Eligible(kind, fields[i]) ==> i in pool
    ensures forall p, q :: 0 <= p < q < |pool| ==> pool[p] < pool[q]
  {
    if n == 0 then []
    else if Eligible(kind, fields[n - 1]) then Pool(kind, fields, n - 1) + [n - 1] else Pool(kind, fields, n - 1)
  }

  predicate SomeFilled(fields: seq<Field>) { exists j :: 0 <= j < |fields| && Filled(fields[j]) }

  predicate SomeEligibleFilled(kind: Kind, fields: seq<Field>) {
    exists j :: 0 <= j < |fields| && Eligible(kind, fields[j]) && Filled(fields[j])
  }

  /** What the chosen position must be, stated without the search that finds it. */
  predicate Captures(kind: Kind, fields: seq<Field>, i: nat)
    requires i < |fields|
  {
    if kind == Login then
      if SomeFilled(fields) then Filled(fields[i]) && forall j :: 0 <= j < i ==> !Filled(fields[j]) else i == 0
    else
      && Eligible(kind, fields[i])
      && (if SomeEligibleFilled(kind, fields)
          then Filled(fields[i]) && forall j :: i < j < |fields| && Eligible(kind, fields[j]) ==> !Filled(fields[j])
          else forall j :: i < j < |fields| ==> !Eligible(kind, fields[j]))
  }

  lemma LastFilledCaptures(kind: Kind, fields: seq<Field>, pool: seq<nat>, p: nat)
    requires kind != Login && pool == Pool(kind, fields, |fields|) && p < |pool|
    requires forall q :: p < q < |pool| ==> !Filled(fields[pool[q]])
    requires Filled(fields[pool[p]])
    ensures Captures(kind, fields, pool[p])
  {
    assert SomeEligibleFilled(kind, fields);
    forall j | pool[p] < j < |fields| && Eligible(kind, fields[j]) ensures !Filled(fields[j]) {
      PoolAfter(kind, fields, pool, p, j);
    }
  }

  lemma PoolAfter(kind: Kind, fields: seq<Field>, pool: seq<nat>, p: nat, j: nat)
    requires pool == Pool(kind, fields, |fields|) && p < |pool| && pool[p] < j < |fields| && Eligible(kind, fields[j])
    ensures exists q :: p < q < |pool| && pool[q] == j
  {
    var q :| 0 <= q < |pool| && pool[q] == j;
    assert q > p;
  }

  lemma LastEligibleCaptures(kind: Kind, fields: seq<Field>, pool: seq<nat>)
    requires kind != Login && pool == Pool(kind, fields, |fields|) && pool != []
    requires forall q :: 0 <= q < |pool| ==> !Filled(fields[pool[q]])
    ensures Captures(kind, fields, pool[|pool| - 1])
  {
    var last := pool[|pool| - 1];
    forall j | 0 <= j < |fields| && Eligible(kind, fields[j]) ensures !Filled(fields[j]) && j <= last {
      var q :| 0 <= q < |pool| && pool[q] == j;
    }
  }

  /** `selectCaptureTarget`: the first filled field of a login form, else the last filled eligible field. */
  method SelectCaptureTarget(fields: seq<Field>) returns (target: Option<nat>)
    ensures target.None? <==> fields == []
    ensures target.Some? ==> target.value < |fields| && Captures(FormKind(fields), fields, target.value)
    ensures (forall i :: 0 <= i < |fields| ==> PlainPassword(fields[i])) && target.Some? ==>
              && (forall j :: 0 <= j < target.value ==> fields[j].value == "")
              && (fields[target.value].value == "" ==>
                    target.value == 0 && forall j :: 0 <= j < |fields| ==> fields[j].value == "")
  {
    if forall i :: 0 <= i < |fields| ==> PlainPassword(fields[i]) { PlainPasswordsAreLogins(fields); }
    if |fields| == 0 {
      return None;
    }
    var kind := FormKind(fields);
    if kind == Login {
      for i := 0 to |fields|
        invariant forall j :: 0 <= j < i ==> !Filled(fields[j])
      {
        if Filled(fields[i]) {
          return Some(i);
        }
      }
      return Some(0);
    }
    PoolIsNotEmpty(fields);
    var pool := Pool(kind, fields, |fields|);
    var p := LastFilled(fields, pool);
    if Filled(fields[pool[p]]) {
      LastFilledCaptures(kind, fields, pool, p);
    } else {
      LastEligibleCaptures(kind, fields, pool);
    }
    return Some(pool[p]);
  }

  /** The backward loop over the pool, and its fallback to the last position. */
  method LastFilled(fields: seq<Field>, pool: seq<nat>) returns (p: nat)
    requires pool != [] && forall q :: 0 <= q < |pool| ==> pool[q] < |fields|
    ensures p < |pool| && forall q :: p < q < |pool| ==> !Filled(fields[pool[q]])
    ensures !Filled(fields[pool[p]]) ==> p == |pool| - 1 && forall q :: 0 <= q < |pool| ==> !Filled(fields[pool[q]])
  {
    var i := |pool| - 1;
    while i >= 0
      invariant -1 <= i < |pool|
      invariant forall q :: i < q < |pool| ==> !Filled(fields[pool[q]])
    {
      if Filled(fields[pool[i]]) {
        return i;
      }
      i := i - 1;
    }
    return |pool| - 1;
  }

  /** Off a login form some field is marked new-password, so the fallback pool is never needed. */
  lemma PoolIsNotEmpty(fields: seq<Field>)
    requires FormKind(fields) != Login
    ensures Pool(FormKind(fields), fields, |fields|) != []
  {
    var i :| 0 <= i < |fields| && Classify(fields[i]) == NewPassword;
    assert Eligible(FormKind(fields), fields[i]);
  }

  /** On a change or new-account form a filled captured field is never the current password. */
  lemma CapturedIsNeverTheOldPassword(fields: seq<Field>, i: nat)
    requires i < |fields| && FormKind(fields) != Login && Captures(FormKind(fields), fields, i) && Filled(fields[i])
    ensures Classify(fields[i]) != CurrentPassword
    ensures FormKind(fields) == PasswordChange ==> Classify(fields[i]) == NewPassword
  {}

  /** On a new-account form the role of the field does not matter: the last filled field is taken. */
  lemma NewAccountTakesTheLastFilled(fields: seq<Field>, i: nat)
    requires i < |fields| && FormKind(fields) == NewAccount && Filled(fields[i])
    ensures Captures(NewAccount, fields, i) <==> forall j :: i < j < |fields| ==> !Filled(fields[j])
  {
    assert Eligible(NewAccount, fields[i]);
    forall j | i < j < |fields| ensures Eligible(NewAccount, fields[j]) {}
  }

  predicate FilledAs(field: Field, role: Role) { Filled(field) && Classify(field) == role }

  /** A filled field of the role with no filled field of another role behind it. */
  ghost predicate LastFilledAs(fields: seq<Field>, role: Role, j: nat) {
    && j < |fields| && FilledAs(fields[j], role)
    && (forall k :: j < k < |fields| && Filled(fields[k]) ==> Classify(fields[k]) == role)
  }

  /** A filled field of the role with no filled field of another role before it. */
  ghost predicate FirstFilledAs(fields: seq<Field>, role: Role, j: nat) {
    && j < |fields| && FilledAs(fields[j], role)
    && (forall k :: 0 <= k < j && Filled(fields[k]) ==> Classify(fields[k]) == role)
  }

  /** A new-account form gives a filled new-password field exactly when one has no filled field of another
      role behind it. */
  lemma NewAccountCapturesNewPassword(fields: seq<Field>, i: nat)
    requires i < |fields| && FormKind(fields) == NewAccount && Captures(NewAccount, fields, i)
    ensures FilledAs(fields[i], NewPassword) <==> exists j: nat :: LastFilledAs(fields, NewPassword, j)
  {
    if FilledAs(fields[i], NewPassword) {
      NewAccountTakesTheLastFilled(fields, i);
      assert LastFilledAs(fields, NewPassword, i);
    }
    if j: nat :| LastFilledAs(fields, NewPassword, j) {
      assert Eligible(NewAccount, fields[j]) && SomeEligibleFilled(NewAccount, fields);
      NewAccountTakesTheLastFilled(fields, i);
      assert j <= i;
    }
  }

  /** A login form gives a filled current-password field exactly when one has no filled field of another
      role before it. */
  lemma LoginCapturesCurrentPassword(fields: seq<Field>, i: nat)
    requires i < |fields| && FormKind(fields) == Login && Captures(Login, fields, i)
    ensures FilledAs(fields[i], CurrentPassword) <==> exists j: nat :: FirstFilledAs(fields, CurrentPassword, j)
  {
    if FilledAs(fields[i], CurrentPassword) { assert FirstFilledAs(fields, CurrentPassword, i); }
    if j: nat :| FirstFilledAs(fields, CurrentPassword, j) {
      assert SomeFilled(fields);
      assert i <= j;
    }
  }

  function Marked(token: string, value: string): (field: Field) { Field([token], "password", false, value) }

  /** A login form with a filled one-time code in front: the code is captured, not the password. */
  lemma LoginCanCaptureACode()
    ensures var form := [Marked("one-time-code", "123456"), Marked("current-password", "pw")];
            FormKind(form) == Login && Captures(Login, form, 0) && Classify(form[0]) == OneTimeCode
  {
    var form := [Marked("one-time-code", "123456"), Marked("current-password", "pw")];
    assert Classify(form[0]) == OneTimeCode && Classify(form[1]) == CurrentPassword;
    assert Filled(form[0]);
  }

  /** A new-account form with a filled one-time code behind the password: the code is captured. */
  lemma NewAccountCanCaptureACode()
    ensures var form := [Marked("new-password", "pw"), Marked("one-time-code", "123456")];
            FormKind(form) == NewAccount && Captures(NewAccount, form, 1) && Classify(form[1]) == OneTimeCode
  {
    var form := [Marked("new-password", "pw"), Marked("one-time-code", "123456")];
    assert Classify(form[0]) == NewPassword && Classify(form[1]) == OneTimeCode;
    assert Filled(form[1]) && Eligible(NewAccount, form[1]);
  }

  /** The description of the target picks out one position. */
  lemma CaptureIsUnique(kind: Kind, fields: seq<Field>, i: nat, j: nat)
    requires i < |fields| && j < |fields| && Captures(kind, fields, i) && Captures(kind, fields, j)
    ensures i == j
  {}
}
