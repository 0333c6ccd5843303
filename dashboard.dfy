/**
  The dashboard's todo cache coordinator. `QueryCache` is the single cache slot for
  the query key ["todos"] with its "marked for refetch" flag; `DashboardScreen` holds
  the screen's form state and the two mutations' pending flags, and runs the create
  and toggle lifecycles against the slot step by step.
 */
module Dashboard {
  import opened Wrappers
  import opened TodoList
  import opened Validation

  /** The text shown when a request fails without a server `detail`. */
  const Fallback: string := "Try again."

  /** The variables the toggle mutation is called with. */
  datatype ToggleRequest = ToggleRequest(id: int, completed: bool)

  /** The alert text: the server's `detail` when the failure carries one, otherwise `Fallback`. */
  function AlertText(e: HttpFailure): string {
    if e.detail.Some? then e.detail.value else Fallback
  }

  // ---------------------------------------------------------------------------
  // String.prototype.trim
  // ---------------------------------------------------------------------------

  /** The characters `trim` removes: ECMAScript WhiteSpace and LineTerminator. */
  predicate IsTrimmed(c: char) {
    || c == '\t' || c == '\n' || c == '\U{B}' || c == '\U{C}' || c == '\r' || c == ' '
    || c == '\U{A0}' || c == '\U{1680}' || ('\U{2000}' <= c <= '\U{200A}')
    || c == '\U{2028}' || c == '\U{2029}' || c == '\U{202F}' || c == '\U{205F}'
    || c == '\U{3000}' || c == '\U{FEFF}'
  }

  function TrimStart(s: string): string {
    if s != [] && IsTrimmed(s[0]) then TrimStart(s[1..]) else s
  }

  function TrimEnd(s: string): string {
    if s != [] && IsTrimmed(s[|s| - 1]) then TrimEnd(s[..|s| - 1]) else s
  }

  /** `trim`: the text without its leading and trailing whitespace. */
  function Trim(s: string): string {
    TrimEnd(TrimStart(s))
  }

  /** Every character of `s` is one that `trim` removes. */
  predicate Blank(s: string) {
    forall i :: 0 <= i < |s| ==> IsTrimmed(s[i])
  }

  /** The description sent with a create: the untrimmed text, or absent when it is blank. */
  function SubmittedDescription(description: string): Option<string> {
    if Trim(description) != "" then Some(description) else None
  }

  lemma {:induction false} TrimStartBlank(s: string)
    ensures TrimStart(s) == [] <==> Blank(s)
    ensures TrimStart(s) != [] ==> !IsTrimmed(TrimStart(s)[0])
    decreases |s|
  {
    if s != [] && IsTrimmed(s[0]) {
      TrimStartBlank(s[1..]);
      assert Blank(s) <==> Blank(s[1..]) by {
        if Blank(s[1..]) {
          forall i | 0 <= i < |s| ensures IsTrimmed(s[i]) {
            if i > 0 { assert s[i] == s[1..][i - 1]; }
          }
        }
        if Blank(s) {
          forall i | 0 <= i < |s[1..]| ensures IsTrimmed(s[1..][i]) {
            assert s[1..][i] == s[i + 1];
          }
        }
      }
    }
  }

  lemma {:induction false} TrimEndKeepsFirst(s: string)
    requires s != [] && !IsTrimmed(s[0])
    ensures TrimEnd(s) != []
    decreases |s|
  {
    if IsTrimmed(s[|s| - 1]) {
      TrimEndKeepsFirst(s[..|s| - 1]);
    }
  }

  /** The trimmed text is empty exactly when every character is whitespace. */
  lemma TrimEmptyIffBlank(s: string)
    ensures Trim(s) == "" <==> Blank(s)
    ensures SubmittedDescription(s) == if Blank(s) then None else Some(s)
  {
    TrimStartBlank(s);
    if TrimStart(s) != [] {
      TrimEndKeepsFirst(TrimStart(s));
    }
  }

  // ---------------------------------------------------------------------------
  // The cache slot
  // ---------------------------------------------------------------------------

  class QueryCache {
    /** The data cached under ["todos"]; None until a first fetch or patch. */
    var todos: Option<seq<Todo>>
    /** The slot is marked for refetch and no list fetch has resolved since. */
    var stale: bool

    constructor ()
      ensures todos == None && stale
    {
      todos := None;
      stale := true;
    }

    /** A list fetch resolves: success replaces the data wholesale; failure keeps what is shown. */
    method ListResolved(outcome: Result<seq<Todo>, HttpFailure>)
      modifies this
      ensures outcome.Ok? ==> todos == Some(outcome.value) && !stale
      ensures outcome.Err? ==> todos == old(todos) && stale == old(stale)
    {
      if outcome.Ok? {
        todos := Some(outcome.value);
        stale := false;
      }
    }

    /** Marks the slot for refetch; the data shown stays until a list fetch resolves. */
    method Invalidate()
      modifies this
      ensures todos == old(todos) && stale
    {
      stale := true;
    }
  }

  // ---------------------------------------------------------------------------
  // The screen
  // ---------------------------------------------------------------------------

  class DashboardScreen {
    const qc: QueryCache
    var title: string
    var description: string
    var errors: map<string, string>
    var filter: Filter
    /** `createMutation.isPending` */
    var createPending: bool
    /** `toggleMutation.isPending` */
    var togglePending: bool
    /** The toggle mutation's context `{ previous }`, taken by `onMutate`. */
    var togglePrevious: Option<seq<Todo>>

    constructor (qc: QueryCache)
      ensures this.qc == qc
      ensures title == "" && description == "" && errors == map[] && filter == All
      ensures !createPending && !togglePending && togglePrevious == None
    {
      this.qc := qc;
      title := "";
      description := "";
      errors := map[];
      filter := All;
      createPending := false;
      togglePending := false;
      togglePrevious := None;
    }

    /** The list rendered under the current filter. */
    function Shown(): seq<Todo>
      reads this, qc
    {
      Filtered(Cached(qc.todos), filter)
    }

    /** The "N remaining" count: the entries not completed, the rest being the COMPLETED view. */
    function RemainingCount(): (n: nat)
      reads qc
      ensures n + |Filtered(Cached(qc.todos), Completed)| == |Cached(qc.todos)|
    {
      ActiveCompletedPartition(Cached(qc.todos));
      Remaining(qc.todos)
    }

    /** Typing in the title field, which is not editable while a create is pending. */
    method SetTitle(text: string)
      requires !createPending
      modifies this
      ensures title == text
      ensures description == old(description) && errors == old(errors) && filter == old(filter)
      ensures createPending == old(createPending) && togglePending == old(togglePending)
      ensures togglePrevious == old(togglePrevious)
    {
      title := text;
    }

    /** Typing in the description field, which is not editable while a create is pending. */
    method SetDescription(text: string)
      requires !createPending
      modifies this
      ensures description == text
      ensures title == old(title) && errors == old(errors) && filter == old(filter)
      ensures createPending == old(createPending) && togglePending == old(togglePending)
      ensures togglePrevious == old(togglePrevious)
    {
      description := text;
    }

    /** A filter pill is pressed. */
    method SetFilter(f: Filter)
      modifies this
      ensures filter == f && Shown() == Filtered(Cached(qc.todos), f)
      ensures title == old(title) && description == old(description) && errors == old(errors)
      ensures createPending == old(createPending) && togglePending == old(togglePending)
      ensures togglePrevious == old(togglePrevious)
    {
      filter := f;
    }

    /**
      `onCreate`: ignored while a create is pending; otherwise validates the form and
      either shows the field errors or issues the create mutation with the parsed data.
     */
    method OnCreate() returns (request: Option<TodoCreate>)
      modifies this
      ensures old(createPending) ==> request == None && errors == old(errors) && createPending
      ensures !old(createPending) ==>
        match ParseTodoCreate(old(title), SubmittedDescription(old(description)))
        case Parsed(data) => request == Some(data) && errors == map[] && createPending
        case Rejected(issues) => request == None && errors == Collected(issues) && !createPending
      ensures title == old(title) && description == old(description) && filter == old(filter)
      ensures togglePending == old(togglePending) && togglePrevious == old(togglePrevious)
    {
      if createPending {
        return None;
      }
      errors := map[];
      var parsed := ParseTodoCreate(title, SubmittedDescription(description));
      if parsed.Rejected? {
        errors := ZodFieldErrors(WithIssues(Some(parsed.issues)));
        return None;
      }
      createPending := true;
      request := Some(parsed.data);
    }

    /**
      The create mutation settles. Success prepends the server's todo to the cache
      without a refetch and clears the form; failure leaves the cache and the form as
      they are and returns the alert text.
     */
    method CreateSettled(outcome: Result<Todo, HttpFailure>) returns (alert: Option<string>)
      requires createPending
      modifies this, qc
      ensures !createPending
      ensures outcome.Ok? ==>
        && qc.todos == Some(WithCreated(old(qc.todos), outcome.value))
        && title == "" && description == "" && errors == map[] && alert == None
      ensures outcome.Err? ==>
        && qc.todos == old(qc.todos)
        && title == old(title) && description == old(description) && errors == old(errors)
        && alert == Some(AlertText(outcome.error))
      ensures outcome.Err? && outcome.error.detail.None? ==> alert == Some("Try again.")
      ensures qc.stale == old(qc.stale) && filter == old(filter)
      ensures togglePending == old(togglePending) && togglePrevious == old(togglePrevious)
    {
      match outcome {
        case Ok(created) =>
          // onSuccess
          qc.todos := Some(WithCreated(qc.todos, created));
          title := "";
          description := "";
          errors := map[];
          alert := None;
        case Err(e) =>
          // onError
          alert := Some(AlertText(e));
      }
      createPending := false;
    }

    /**
      `onToggle(todo)`: ignored while a toggle is pending; otherwise issues the toggle
      mutation for `!todo.completed`, which runs `onMutate` at once.
     */
    method OnToggle(todo: Todo) returns (request: Option<ToggleRequest>)
      modifies this, qc
      ensures old(togglePending) ==>
        request == None && qc.todos == old(qc.todos) && togglePrevious == old(togglePrevious)
      ensures !old(togglePending) ==>
        && request == Some(ToggleRequest(todo.id, !todo.completed))
        && togglePrevious == old(qc.todos)
        && qc.todos == Optimistic(old(qc.todos), todo.id, !todo.completed)
      ensures togglePending
      ensures qc.stale == old(qc.stale)
      ensures title == old(title) && description == old(description) && errors == old(errors)
      ensures filter == old(filter) && createPending == old(createPending)
    {
      if togglePending {
        return None;
      }
      togglePending := true;
      request := Some(ToggleRequest(todo.id, !todo.completed));
      ToggleMutate(request.value);
    }

    /** `onMutate`: snapshot the slot, then write the optimistic value. */
    method ToggleMutate(vars: ToggleRequest)
      modifies this, qc
      ensures togglePrevious == old(qc.todos)
      ensures qc.todos == Optimistic(old(qc.todos), vars.id, vars.completed)
      ensures qc.stale == old(qc.stale) && togglePending == old(togglePending)
      ensures title == old(title) && description == old(description) && errors == old(errors)
      ensures filter == old(filter) && createPending == old(createPending)
    {
      var previous := qc.todos;
      qc.todos := Optimistic(qc.todos, vars.id, vars.completed);
      togglePrevious := previous;
    }

    /**
      The toggle mutation settles. On error the snapshot, when there is one, is put back
      exactly; on success or error the slot is then marked for refetch.
     */
    method ToggleSettled(outcome: Result<Todo, HttpFailure>) returns (alert: Option<string>)
      requires togglePending
      modifies this, qc
      ensures outcome.Ok? ==> qc.todos == old(qc.todos) && alert == None
      ensures outcome.Err? ==>
        && qc.todos == (if old(togglePrevious).Some? then old(togglePrevious) else old(qc.todos))
        && alert == Some(AlertText(outcome.error))
      ensures qc.stale
      ensures !togglePending && togglePrevious == None
      ensures title == old(title) && description == old(description) && errors == old(errors)
      ensures filter == old(filter) && createPending == old(createPending)
    {
      alert := None;
      if outcome.Err? {
        // onError
        if togglePrevious.Some? {
          qc.todos := togglePrevious;
        }
        alert := Some(AlertText(outcome.error));
      }
      // onSettled
      qc.Invalidate();
      togglePending := false;
      togglePrevious := None;
    }

    /**
      One toggle from press to settlement with nothing in between: on error the cache is
      exactly what it was before the press, on success it holds the optimistic value,
      and either way it is marked for refetch.
     */
    method Toggle(todo: Todo, outcome: Result<Todo, HttpFailure>) returns (alert: Option<string>)
      requires !togglePending
      modifies this, qc
      ensures outcome.Err? ==> qc.todos == old(qc.todos)
      ensures outcome.Ok? ==> qc.todos == Optimistic(old(qc.todos), todo.id, !todo.completed)
      ensures qc.stale && !togglePending && togglePrevious == None
      ensures alert == (if outcome.Err? then Some(AlertText(outcome.error)) else None)
      ensures title == old(title) && description == old(description) && errors == old(errors)
      ensures filter == old(filter) && createPending == old(createPending)
    {
      var _ := OnToggle(todo);
      alert := ToggleSettled(outcome);
    }
  }
}
