/**
  Client-side form validation: the three Zod schemas as functions producing the
  issues Zod would report, and `zodFieldErrors`, which folds a list of issues into a
  map from field name to the one message shown under that field.
 */
module Validation {
  import opened Wrappers

  const TitleMin: nat := 1
  const TitleMax: nat := 200
  const DescriptionMax: nat := 1000
  const PasswordMin: nat := 6
  const NameMin: nat := 1

  /** One element of a Zod issue path: an object key or an array index. */
  datatype PathKey = Name(name: string) | Index(index: int)

  /** A Zod issue. An issue without a `path` behaves exactly like one with an empty path. */
  datatype Issue = Issue(path: seq<PathKey>, message: string)

  /** What `zodFieldErrors` may be handed. */
  datatype ErrorValue =
    | NotAnObject                            // falsy, or not of type "object"
    | WithoutIssues                          // an object with no `issues` property
    | WithIssues(issues: Option<seq<Issue>>) // `issues` present; None when it is null or undefined

  /** The result of `safeParse`: the parsed data, or the issues of the ZodError. */
  datatype SafeParse<T> = Parsed(data: T) | Rejected(issues: seq<Issue>)

  datatype TodoCreate = TodoCreate(title: string, description: Option<string>)
  datatype LoginRequest = LoginRequest(email: string, password: string)
  datatype SignupRequest = SignupRequest(name: string, email: string, password: string)

  // ---------------------------------------------------------------------------
  // Path keys as JavaScript sees them
  // ---------------------------------------------------------------------------

  function DigitChar(d: nat): char
    requires d < 10
  {
    "0123456789"[d]
  }

  /** Decimal notation of a natural number, as `String(n)` writes it. */
  function NatToString(n: nat): string
    decreases n
  {
    if n < 10 then [DigitChar(n)] else NatToString(n / 10) + [DigitChar(n % 10)]
  }

  /** The text a path key becomes when used as a field name. */
  function KeyString(k: PathKey): string {
    match k
    case Name(s) => s
    case Index(n) => if n < 0 then "-" + NatToString(-n) else NatToString(n)
  }

  /** JavaScript truthiness of a key: the empty string and 0 are falsy. */
  predicate Truthy(k: PathKey) {
    match k
    case Name(s) => s != ""
    case Index(n) => n != 0
  }

  /** The field an issue is reported under: the text of its first path key, when that key is truthy. */
  function FieldOf(issue: Issue): Option<string> {
    if |issue.path| > 0 && Truthy(issue.path[0]) then Some(KeyString(issue.path[0])) else None
  }

  /** `result[field]` is truthy: the field holds a non-empty message. */
  predicate HasMessage(errors: map<string, string>, field: string) {
    field in errors && errors[field] != ""
  }

  // ---------------------------------------------------------------------------
  // zodFieldErrors
  // ---------------------------------------------------------------------------

  /** One turn of the loop: record the issue's message unless its field already holds a message. */
  function Note(errors: map<string, string>, issue: Issue): map<string, string> {
    match FieldOf(issue)
    case None => errors
    case Some(f) => if HasMessage(errors, f) then errors else errors[f := issue.message]
  }

  /** The map the loop has built after visiting `issues` in order. */
  function Collected(issues: seq<Issue>): map<string, string>
    decreases |issues|
  {
    if issues == [] then map[] else Note(Collected(issues[..|issues| - 1]), issues[|issues| - 1])
  }

  /** The map `zodFieldErrors(err)` returns. */
  function FieldErrors(err: ErrorValue): map<string, string> {
    if err.WithIssues? && err.issues.Some? then Collected(err.issues.value) else map[]
  }

  /** `zodFieldErrors`: fill `result` in place, issue by issue. */
  method ZodFieldErrors(err: ErrorValue) returns (result: map<string, string>)
    ensures result == FieldErrors(err)
    ensures !err.WithIssues? ==> result == map[]
  {
    result := map[];
    if err.WithIssues? {
      var issues := if err.issues.Some? then err.issues.value else [];
      for i := 0 to |issues|
        invariant result == Collected(issues[..i])
      {
        var issue := issues[i];
        if |issue.path| > 0 && Truthy(issue.path[0]) {
          var key := KeyString(issue.path[0]);
          if !HasMessage(result, key) {
            result := result[key := issue.message];
          }
        }
        assert issues[..i + 1][..i] == issues[..i];
      }
      assert issues[..|issues|] == issues;
    }
  }

  /** A field is in the result exactly when some issue is reported under it. */
  lemma {:induction false} CollectedKeys(issues: seq<Issue>, f: string)
    ensures f in Collected(issues) <==> exists i :: 0 <= i < |issues| && FieldOf(issues[i]) == Some(f)
    decreases |issues|
  {
    if issues != [] {
      var p := issues[..|issues| - 1];
      CollectedKeys(p, f);
      if exists i :: 0 <= i < |p| && FieldOf(p[i]) == Some(f) {
        var i :| 0 <= i < |p| && FieldOf(p[i]) == Some(f);
        assert issues[i] == p[i];
      }
      if exists i :: 0 <= i < |issues| && FieldOf(issues[i]) == Some(f) {
        var i :| 0 <= i < |issues| && FieldOf(issues[i]) == Some(f);
        if i < |p| {
          assert p[i] == issues[i];
        }
      }
    }
  }

  /** Every message in the result is the message of an issue reported under that field. */
  lemma {:induction false} CollectedMessageOrigin(issues: seq<Issue>, f: string)
    requires f in Collected(issues)
    ensures exists i :: 0 <= i < |issues| && FieldOf(issues[i]) == Some(f) && issues[i].message == Collected(issues)[f]
    decreases |issues|
  {
    var p := issues[..|issues| - 1];
    var last := issues[|issues| - 1];
    if FieldOf(last) == Some(f) && !HasMessage(Collected(p), f) {
      assert Collected(issues)[f] == last.message;
    } else {
      assert Collected(issues) == Note(Collected(p), last);
      assert f in Collected(p) && Collected(issues)[f] == Collected(p)[f];
      CollectedMessageOrigin(p, f);
      var i :| 0 <= i < |p| && FieldOf(p[i]) == Some(f) && p[i].message == Collected(p)[f];
      assert issues[i] == p[i];
    }
  }

  /** Once a field holds a message, later issues never overwrite it. */
  lemma {:induction false} NeverOverwritten(p: seq<Issue>, q: seq<Issue>, f: string)
    requires HasMessage(Collected(p), f)
    ensures f in Collected(p + q) && Collected(p + q)[f] == Collected(p)[f]
    decreases |q|
  {
    if q == [] {
      assert p + q == p;
    } else {
      var q' := q[..|q| - 1];
      NeverOverwritten(p, q', f);
      assert (p + q)[..|p + q| - 1] == p + q';
    }
  }

  /** Before the first non-empty message for `f`, the field holds no message. */
  lemma {:induction false} NoMessageBefore(issues: seq<Issue>, n: nat, f: string)
    requires n <= |issues|
    requires forall j :: 0 <= j < n && FieldOf(issues[j]) == Some(f) ==> issues[j].message == ""
    ensures !HasMessage(Collected(issues[..n]), f)
  {
    var p := issues[..n];
    if f in Collected(p) {
      CollectedMessageOrigin(p, f);
      var j :| 0 <= j < |p| && FieldOf(p[j]) == Some(f) && p[j].message == Collected(p)[f];
      assert issues[j] == p[j];
    }
  }

  /**
    First wins: the field of issue `i` ends up with that issue's message when no earlier
    issue left a (non-empty) message under the same field.
   */
  lemma FirstMessageWins(issues: seq<Issue>, i: nat)
    requires i < |issues| && FieldOf(issues[i]).Some? && issues[i].message != ""
    requires forall j :: 0 <= j < i && FieldOf(issues[j]) == FieldOf(issues[i]) ==> issues[j].message == ""
    ensures FieldOf(issues[i]).value in Collected(issues)
    ensures Collected(issues)[FieldOf(issues[i]).value] == issues[i].message
  {
    var f := FieldOf(issues[i]).value;
    var before := issues[..i];
    var p := issues[..i + 1];
    NoMessageBefore(issues, i, f);
    assert p == before + [issues[i]];
    CollectedSnoc(before, issues[i]);
    NoteRecords(Collected(before), issues[i]);
    NeverOverwrittenAfter(issues, i + 1, f);
  }

  /** `NeverOverwritten`, stated for a prefix of one list. */
  lemma NeverOverwrittenAfter(issues: seq<Issue>, n: nat, f: string)
    requires n <= |issues| && HasMessage(Collected(issues[..n]), f)
    ensures f in Collected(issues) && Collected(issues)[f] == Collected(issues[..n])[f]
  {
    NeverOverwritten(issues[..n], issues[n..], f);
    assert issues[..n] + issues[n..] == issues;
  }

  /** The fold over one more issue is one more turn of the loop. */
  lemma CollectedSnoc(p: seq<Issue>, x: Issue)
    ensures Collected(p + [x]) == Note(Collected(p), x)
  {
    assert (p + [x])[..|p|] == p;
  }

  /** A turn of the loop records a non-empty message under a field that holds none. */
  lemma NoteRecords(errors: map<string, string>, issue: Issue)
    requires FieldOf(issue).Some? && issue.message != ""
    requires !HasMessage(errors, FieldOf(issue).value)
    ensures HasMessage(Note(errors, issue), FieldOf(issue).value)
    ensures Note(errors, issue)[FieldOf(issue).value] == issue.message
  {
  }

  /** An issue whose key is falsy or absent contributes nothing, wherever it stands. */
  lemma {:induction false} FalsyKeyIgnored(p: seq<Issue>, issue: Issue, q: seq<Issue>)
    requires FieldOf(issue).None?
    ensures Collected(p + [issue] + q) == Collected(p + q)
    decreases |q|
  {
    if q == [] {
      assert (p + [issue] + q)[..|p|] == p;
      assert p + q == p;
    } else {
      var q' := q[..|q| - 1];
      FalsyKeyIgnored(p, issue, q');
      assert (p + [issue] + q)[..|p + [issue] + q| - 1] == p + [issue] + q';
      assert (p + q)[..|p + q| - 1] == p + q';
    }
  }

  // ---------------------------------------------------------------------------
  // Schemas
  // ---------------------------------------------------------------------------

  function TitleIssues(title: string): seq<Issue> {
    (if |title| < TitleMin then [Issue([Name("title")], "Title is required")] else [])
    + (if |title| > TitleMax then [Issue([Name("title")], "Title too long")] else [])
  }

  function DescriptionIssues(description: Option<string>): seq<Issue> {
    if description.Some? && |description.value| > DescriptionMax
    then [Issue([Name("description")], "Description too long")]
    else []
  }

  function PasswordIssues(password: string): seq<Issue> {
    if |password| < PasswordMin then [Issue([Name("password")], "Password must be at least 6 characters")] else []
  }

  /** `emailWellFormed` is the verdict of Zod's e-mail pattern on the address. */
  function EmailIssues(emailWellFormed: bool): seq<Issue> {
    if emailWellFormed then [] else [Issue([Name("email")], "Enter a valid email")]
  }

  function NameIssues(name: string): seq<Issue> {
    if |name| < NameMin then [Issue([Name("name")], "Name is required")] else []
  }

  /** The todo form's schema applied to a title and an optional description. */
  function ParseTodoCreate(title: string, description: Option<string>): SafeParse<TodoCreate> {
    var issues := TitleIssues(title) + DescriptionIssues(description);
    if issues == [] then Parsed(TodoCreate(title, description)) else Rejected(issues)
  }

  /** The login schema applied to an e-mail and a password. */
  function ParseLogin(email: string, password: string, emailWellFormed: bool): SafeParse<LoginRequest> {
    var issues := EmailIssues(emailWellFormed) + PasswordIssues(password);
    if issues == [] then Parsed(LoginRequest(email, password)) else Rejected(issues)
  }

  /** The signup schema applied to a name, an e-mail and a password. */
  function ParseSignup(name: string, email: string, password: string, emailWellFormed: bool): SafeParse<SignupRequest> {
    var issues := NameIssues(name) + EmailIssues(emailWellFormed) + PasswordIssues(password);
    if issues == [] then Parsed(SignupRequest(name, email, password)) else Rejected(issues)
  }

  /** A todo is accepted exactly when 1 <= |title| <= 200 and any description has at most 1000 characters. */
  lemma TodoCreateAccepted(title: string, description: Option<string>)
    ensures ParseTodoCreate(title, description).Parsed?
        <==> TitleMin <= |title| <= TitleMax && (description.None? || |description.value| <= DescriptionMax)
    ensures ParseTodoCreate(title, description).Parsed? ==>
              ParseTodoCreate(title, description).data == TodoCreate(title, description)
  {
  }

  /** The field errors shown for a rejected todo: which fields, and which message under each. */
  lemma TodoCreateFieldErrors(title: string, description: Option<string>)
    requires ParseTodoCreate(title, description).Rejected?
    ensures var errors := Collected(ParseTodoCreate(title, description).issues);
      && errors.Keys <= {"title", "description"}
      && ("title" in errors <==> !(TitleMin <= |title| <= TitleMax))
      && (|title| == 0 ==> errors["title"] == "Title is required")
      && (|title| > TitleMax ==> errors["title"] == "Title too long")
      && ("description" in errors <==> description.Some? && |description.value| > DescriptionMax)
      && ("description" in errors ==> errors["description"] == "Description too long")
  {
    var t := TitleIssues(title);
    var d := DescriptionIssues(description);
    var issues := t + d;
    assert issues == ParseTodoCreate(title, description).issues;
    assert |t| <= 1 && |d| <= 1;
    if |issues| == 1 {
      CollectedOne(issues[0]);
      assert issues == [issues[0]];
    } else {
      CollectedTwo(issues[0], issues[1]);
      assert issues == [issues[0], issues[1]];
    }
  }

  lemma CollectedOne(a: Issue)
    ensures Collected([a]) == Note(map[], a)
  {
    assert [a][..0] == [];
  }

  lemma CollectedTwo(a: Issue, b: Issue)
    ensures Collected([a, b]) == Note(Note(map[], a), b)
  {
    assert [a, b][..1] == [a];
    CollectedOne(a);
  }

  /** A login is accepted exactly when the address is well formed and the password has at least 6 characters. */
  lemma LoginAccepted(email: string, password: string, emailWellFormed: bool)
    ensures ParseLogin(email, password, emailWellFormed).Parsed? <==> emailWellFormed && |password| >= PasswordMin
    ensures |password| < PasswordMin ==>
              && "password" in Collected(ParseLogin(email, password, emailWellFormed).issues)
              && Collected(ParseLogin(email, password, emailWellFormed).issues)["password"]
                 == "Password must be at least 6 characters"
  {
    if |password| < PasswordMin {
      var issues := ParseLogin(email, password, emailWellFormed).issues;
      var k := |issues| - 1;
      assert issues[k] == Issue([Name("password")], "Password must be at least 6 characters");
      assert FieldOf(issues[k]) == Some("password");
      FirstMessageWins(issues, k);
    }
  }

  /** A signup is accepted exactly when the name is non-empty, the address well formed and the password long enough. */
  lemma SignupAccepted(name: string, email: string, password: string, emailWellFormed: bool)
    ensures ParseSignup(name, email, password, emailWellFormed).Parsed?
        <==> |name| >= NameMin && emailWellFormed && |password| >= PasswordMin
    ensures |name| == 0 ==>
              && "name" in Collected(ParseSignup(name, email, password, emailWellFormed).issues)
              && Collected(ParseSignup(name, email, password, emailWellFormed).issues)["name"] == "Name is required"
  {
    if |name| == 0 {
      var issues := ParseSignup(name, email, password, emailWellFormed).issues;
      assert issues[0] == Issue([Name("name")], "Name is required");
      assert FieldOf(issues[0]) == Some("name");
      FirstMessageWins(issues, 0);
    }
  }
}
