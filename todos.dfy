/**
  The cached todo list as a value: the two cache patches the dashboard applies
  (prepend the created todo; set `completed` on the toggled entry) and the two
  projections it reads (the ALL/ACTIVE/COMPLETED filter and the remaining count).
 */
module TodoList {
  import opened Wrappers

  datatype Todo = Todo(
    id: int,
    title: string,
    description: Option<string>,
    completed: bool,
    createdAt: string,
    updatedAt: string)

  datatype Filter = All | Active | Completed

  /** The list the screen works with: the cached data, or the empty list when there is none. */
  function Cached(slot: Option<seq<Todo>>): seq<Todo> {
    if slot.Some? then slot.value else []
  }

  /** The create-success patch: the created todo first, then the cached list, if any. */
  function WithCreated(slot: Option<seq<Todo>>, created: Todo): (r: seq<Todo>)
    ensures |r| == |Cached(slot)| + 1
    ensures r[0] == created
    ensures r[1..] == Cached(slot)
  {
    match slot
    case Some(prior) => [created] + prior
    case None => [created]
  }

  /** The toggle patch: every entry with that id gets the requested flag; the others stay. */
  function WithCompleted(todos: seq<Todo>, id: int, completed: bool): (r: seq<Todo>)
    ensures |r| == |todos|
    ensures forall i :: 0 <= i < |r| && todos[i].id == id ==> r[i] == todos[i].(completed := completed)
    ensures forall i :: 0 <= i < |r| && todos[i].id != id ==> r[i] == todos[i]
  {
    if todos == [] then []
    else
      var head := if todos[0].id == id then todos[0].(completed := completed) else todos[0];
      [head] + WithCompleted(todos[1..], id, completed)
  }

  /** The optimistic updater: an absent list stays absent. */
  function Optimistic(slot: Option<seq<Todo>>, id: int, completed: bool): Option<seq<Todo>> {
    match slot
    case None => None
    case Some(todos) => Some(WithCompleted(todos, id, completed))
  }

  /** The entries whose flag is `completed`, in their order. */
  function Select(todos: seq<Todo>, completed: bool): (r: seq<Todo>)
    ensures |r| <= |todos|
    ensures forall i :: 0 <= i < |r| ==> r[i].completed == completed
  {
    if todos == [] then []
    else (if todos[0].completed == completed then [todos[0]] else []) + Select(todos[1..], completed)
  }

  /** `filteredTodos` */
  function Filtered(todos: seq<Todo>, filter: Filter): seq<Todo> {
    match filter
    case Active => Select(todos, false)
    case Completed => Select(todos, true)
    case All => todos
  }

  /** `remaining`: the length of the ACTIVE projection of the cached list. */
  function Remaining(slot: Option<seq<Todo>>): nat {
    |Select(Cached(slot), false)|
  }

  /** Ids are unique, as the server assigns them. */
  ghost predicate UniqueIds(todos: seq<Todo>) {
    forall i, j :: 0 <= i < j < |todos| ==> todos[i].id != todos[j].id
  }

  // ---------------------------------------------------------------------------
  // The filter projections
  // ---------------------------------------------------------------------------

  /** Filtering keeps relative order: it distributes over concatenation. */
  lemma {:induction false} SelectAppend(a: seq<Todo>, b: seq<Todo>, completed: bool)
    ensures Select(a + b, completed) == Select(a, completed) + Select(b, completed)
  {
    if a == [] {
      assert a + b == b;
    } else {
      var x, rest := a[0], a[1..];
      assert a == [x] + rest;
      assert a + b == [x] + (rest + b);
      SelectCons(x, rest + b, completed);
      SelectCons(x, rest, completed);
      SelectAppend(rest, b, completed);
    }
  }

  lemma SelectCons(x: Todo, rest: seq<Todo>, completed: bool)
    ensures Select([x] + rest, completed) == (if x.completed == completed then [x] else []) + Select(rest, completed)
  {
    assert ([x] + rest)[0] == x && ([x] + rest)[1..] == rest;
  }

  /** The projection holds exactly the entries with the requested flag, each as often as the list does. */
  lemma {:induction false} SelectExactly(todos: seq<Todo>, completed: bool)
    ensures forall x :: multiset(Select(todos, completed))[x] == if x.completed == completed then multiset(todos)[x] else 0
  {
    if todos != [] {
      SelectExactly(todos[1..], completed);
      assert todos == [todos[0]] + todos[1..];
    }
  }

  /** ACTIVE and COMPLETED split the list: their lengths add up and together they hold every entry. */
  lemma {:induction false} ActiveCompletedPartition(todos: seq<Todo>)
    ensures |Filtered(todos, Active)| + |Filtered(todos, Completed)| == |todos|
    ensures multiset(Filtered(todos, Active)) + multiset(Filtered(todos, Completed)) == multiset(todos)
  {
    if todos != [] {
      ActiveCompletedPartition(todos[1..]);
      assert todos == [todos[0]] + todos[1..];
    }
  }

  /** Each projection is a sub-list of the whole list, and ALL is the list itself. */
  lemma FilteredShape(todos: seq<Todo>, filter: Filter)
    ensures filter == All ==> Filtered(todos, filter) == todos
    ensures filter == Active ==> forall x :: x in Filtered(todos, filter) ==> x in todos && !x.completed
    ensures filter == Completed ==> forall x :: x in Filtered(todos, filter) ==> x in todos && x.completed
  {
    var r := Filtered(todos, filter);
    if filter != All {
      var c := filter == Completed;
      SelectExactly(todos, c);
      forall x | x in r ensures x in todos && x.completed == c {
        assert x in multiset(r);
        var i :| 0 <= i < |r| && r[i] == x;
      }
    }
  }

  /** The remaining count after a create: one more exactly when the created todo is not completed. */
  lemma RemainingAfterCreate(slot: Option<seq<Todo>>, created: Todo)
    ensures Remaining(Some(WithCreated(slot, created))) == Remaining(slot) + (if created.completed then 0 else 1)
  {
    var r := WithCreated(slot, created);
    assert r == [created] + Cached(slot);
    SelectAppend([created], Cached(slot), false);
  }

  /** The remaining count after the optimistic toggle of the one entry with that id. */
  lemma {:induction false} RemainingAfterToggle(todos: seq<Todo>, k: nat, completed: bool)
    requires UniqueIds(todos) && k < |todos|
    ensures Remaining(Some(WithCompleted(todos, todos[k].id, completed)))
         == Remaining(Some(todos)) + (if completed then 0 else 1) - (if todos[k].completed then 0 else 1)
  {
    var id := todos[k].id;
    var x := todos[0];
    var rest := todos[1..];
    assert todos == [x] + rest;
    var x' := if x.id == id then x.(completed := completed) else x;
    var patched := WithCompleted(rest, id, completed);
    assert WithCompleted(todos, id, completed) == [x'] + patched;
    SelectCons(x, rest, false);
    SelectCons(x', patched, false);
    if k == 0 {
      forall i | 0 <= i < |rest| ensures rest[i].id != id {
        assert rest[i] == todos[i + 1];
      }
      WithCompletedMissing(rest, id, completed);
    } else {
      assert UniqueIds(rest) by {
        forall i, j | 0 <= i < j < |rest| ensures rest[i].id != rest[j].id {
          assert rest[i] == todos[i + 1] && rest[j] == todos[j + 1];
        }
      }
      assert rest[k - 1] == todos[k];
      assert x.id != id;
      RemainingAfterToggle(rest, k - 1, completed);
    }
  }

  // ---------------------------------------------------------------------------
  // The toggle patch
  // ---------------------------------------------------------------------------

  /** With no entry of that id, the patch changes nothing. */
  lemma WithCompletedMissing(todos: seq<Todo>, id: int, completed: bool)
    requires forall i :: 0 <= i < |todos| ==> todos[i].id != id
    ensures WithCompleted(todos, id, completed) == todos
  {
  }

  /** Applying the same patch twice is applying it once. */
  lemma WithCompletedIdempotent(todos: seq<Todo>, id: int, completed: bool)
    ensures WithCompleted(WithCompleted(todos, id, completed), id, completed) == WithCompleted(todos, id, completed)
  {
  }

  /** Setting the flag back to what every entry of that id had undoes the patch. */
  lemma WithCompletedUndone(todos: seq<Todo>, id: int, completed: bool)
    requires forall i :: 0 <= i < |todos| && todos[i].id == id ==> todos[i].completed == completed
    ensures WithCompleted(WithCompleted(todos, id, !completed), id, completed) == todos
  {
    var r := WithCompleted(WithCompleted(todos, id, !completed), id, completed);
    assert forall i :: 0 <= i < |todos| ==> r[i] == todos[i];
  }

  /** The optimistic write is visible at once: the entries of that id read back the requested flag. */
  lemma OptimisticReadBack(slot: Option<seq<Todo>>, id: int, completed: bool)
    ensures Optimistic(slot, id, completed).Some? <==> slot.Some?
    ensures |Cached(Optimistic(slot, id, completed))| == |Cached(slot)|
    ensures forall i :: 0 <= i < |Cached(slot)| && Cached(slot)[i].id == id ==>
              Cached(Optimistic(slot, id, completed))[i].completed == completed
  {
  }
}
