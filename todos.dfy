/**
 * The task-list component: the task record, the list computations its
 * handlers are built from, and the component itself as an object whose four
 * fields are the component's four state cells, with one method per handler.
 */
module Todos {
  import opened JsString

  datatype Priority = High | Medium | Low

  datatype Status = ToDo | InProgress | Done

  /** One task of the list. */
  datatype Todo = Todo(id: int, title: string, priority: Priority, status: Status)

  /**
   * The `number | null` editing cell: Null means the form is closed, Num(0)
   * that it is open in create mode, and Num(n) for any other n that task n
   * is being edited.
   */
  datatype EditingId = Null | Num(n: int)

  /** JavaScript truthiness of a `number | null` value: null and 0 are falsy. */
  predicate Truthy(e: EditingId)
  {
    e.Num? && e.n != 0
  }

  /** No task of `todos` carries `id`. */
  predicate Absent(todos: seq<Todo>, id: int)
  {
    forall t :: t in todos ==> t.id != id
  }

  ghost predicate DistinctIds(todos: seq<Todo>)
  {
    forall i, j :: 0 <= i < j < |todos| ==> todos[i].id != todos[j].id
  }

  /**
   * What the rows rely on when they use the id as their key: ids are pairwise
   * distinct, and no task has the create-mode sentinel 0 as its id.
   */
  ghost predicate ValidIds(todos: seq<Todo>)
  {
    DistinctIds(todos) && Absent(todos, 0)
  }

  /**
   * No stored title is empty or white space only: titles enter the list only
   * through an add or a save, and both refuse a blank draft.
   */
  ghost predicate TitlesNonBlank(todos: seq<Todo>)
  {
    todos == [] || (!AllWhiteSpace(todos[0].title) && TitlesNonBlank(todos[1..]))
  }

  // ---------------------------------------------------------------------------
  // The list computations inside the handlers
  // ---------------------------------------------------------------------------

  /**
   * The status change of `updateStatus`: every task whose id is `id` gets
   * status `s`; everything else (length, order, ids, titles, priorities, the
   * other tasks) stays as it was.
   */
  function WithStatus(todos: seq<Todo>, id: int, s: Status): (r: seq<Todo>)
    ensures |r| == |todos|
    ensures forall i :: 0 <= i < |todos| ==>
      && r[i].id == todos[i].id
      && r[i].title == todos[i].title
      && r[i].priority == todos[i].priority
      && r[i].status == (if todos[i].id == id then s else todos[i].status)
    ensures Absent(todos, id) ==> r == todos
  {
    if todos == [] then []
    else
      var t := todos[0];
      [if t.id == id then t.(status := s) else t] + WithStatus(todos[1..], id, s)
  }

  /**
   * The removal of `deleteTodo`: a task remains exactly when it has another
   * id than `id`, and nothing happens when no task has that id.
   */
  function Without(todos: seq<Todo>, id: int): (r: seq<Todo>)
    ensures forall t :: t in r <==> t in todos && t.id != id
    ensures Absent(todos, id) ==> r == todos
  {
    if todos == [] then []
    else
      (if todos[0].id == id then [] else [todos[0]]) + Without(todos[1..], id)
  }

  /**
   * The rewrite of `saveEdit`: the task whose id is `id` takes the draft title
   * and priority and keeps its id and status; every other task, the length
   * and the order are unchanged.
   */
  function WithDraft(todos: seq<Todo>, id: int, title: string, priority: Priority): (r: seq<Todo>)
    ensures |r| == |todos|
    ensures forall i :: 0 <= i < |todos| ==>
      && r[i].id == todos[i].id
      && r[i].status == todos[i].status
      && (todos[i].id == id ==> r[i].title == title && r[i].priority == priority)
      && (todos[i].id != id ==> r[i] == todos[i])
    ensures Absent(todos, id) ==> r == todos
  {
    if todos == [] then []
    else
      var t := todos[0];
      [if t.id == id then t.(title := title, priority := priority) else t] + WithDraft(todos[1..], id, title, priority)
  }

  /**
   * Saving an edit whose draft still holds the task's own title and priority
   * gives back the same list, provided the ids are distinct.
   */
  lemma WithDraftOwnValues(todos: seq<Todo>, t: Todo)
    requires t in todos && DistinctIds(todos)
    ensures WithDraft(todos, t.id, t.title, t.priority) == todos
  {
  }

  /** Removal keeps the relative order: it distributes over concatenation. */
  lemma {:induction false} WithoutConcat(a: seq<Todo>, b: seq<Todo>, id: int)
    ensures Without(a + b, id) == Without(a, id) + Without(b, id)
  {
    if a == [] {
      assert a + b == b;
    } else {
      var head := if a[0].id == id then [] else [a[0]];
      assert (a + b)[0] == a[0] && (a + b)[1..] == a[1..] + b;
      assert Without(a + b, id) == head + Without(a[1..] + b, id);
      WithoutConcat(a[1..], b, id);
      assert Without(a, id) == head + Without(a[1..], id);
      var x, y := Without(a[1..], id), Without(b, id);
      ConcatAssoc(head, x, y);
    }
  }

  /** Associativity of concatenation, stated apart from the facts about Without that slow it down. */
  lemma ConcatAssoc(a: seq<Todo>, b: seq<Todo>, c: seq<Todo>)
    ensures a + (b + c) == (a + b) + c
  {
  }

  /**
   * Removal as a multiset: each task with the given id loses all its
   * occurrences, every other task keeps its number of occurrences.
   */
  lemma {:induction false} WithoutCounts(todos: seq<Todo>, id: int)
    ensures forall t :: multiset(Without(todos, id))[t] == if t.id == id then 0 else multiset(todos)[t]
  {
    if todos != [] {
      assert todos == [todos[0]] + todos[1..];
      WithoutCounts(todos[1..], id);
    }
  }

  /** Deleting the same id twice is the same as deleting it once. */
  lemma WithoutIdempotent(todos: seq<Todo>, id: int)
    ensures Without(Without(todos, id), id) == Without(todos, id)
  {
  }

  /** The ids of `[t] + s` are distinct exactly when those of `s` are and `t`'s id is not among them. */
  lemma DistinctCons(t: Todo, s: seq<Todo>)
    ensures DistinctIds([t] + s) <==> Absent(s, t.id) && DistinctIds(s)
  {
    var ts := [t] + s;
    if DistinctIds(ts) {
      forall u | u in s ensures u.id != t.id {
        var k :| 0 <= k < |s| && s[k] == u;
        assert ts[0] == t && ts[k + 1] == u;
      }
      forall i, j | 0 <= i < j < |s| ensures s[i].id != s[j].id {
        assert ts[i + 1] == s[i] && ts[j + 1] == s[j];
      }
    }
    if Absent(s, t.id) && DistinctIds(s) {
      forall i, j | 0 <= i < j < |ts| ensures ts[i].id != ts[j].id {
        assert ts[j] == s[j - 1];
        if i > 0 {
          assert ts[i] == s[i - 1];
        }
      }
    }
  }

  /** Removing tasks keeps the ids distinct and non-zero. */
  lemma {:induction false} WithoutKeepsValidIds(todos: seq<Todo>, id: int)
    requires ValidIds(todos)
    ensures ValidIds(Without(todos, id))
  {
    if todos != [] {
      var t, rest := todos[0], todos[1..];
      assert todos == [t] + rest;
      DistinctCons(t, rest);
      WithoutKeepsValidIds(rest, id);
      if t.id != id {
        DistinctCons(t, Without(rest, id));
      }
    }
  }

  /** Two lists with the same ids position by position agree on ValidIds. */
  lemma SameIdsKeepValidIds(a: seq<Todo>, b: seq<Todo>)
    requires |a| == |b| && forall i :: 0 <= i < |a| ==> a[i].id == b[i].id
    requires ValidIds(a)
    ensures ValidIds(b)
  {

  }

  /** Appending a task whose id is fresh and non-zero keeps the ids valid. */
  lemma AppendKeepsValidIds(todos: seq<Todo>, t: Todo)
    requires ValidIds(todos)
    requires t.id != 0 && Absent(todos, t.id)
    ensures ValidIds(todos + [t])
  {

  }

  /** TitlesNonBlank says of every task in the list that its trimmed title is non-empty. */
  lemma {:induction false} TitlesNonBlankMembers(todos: seq<Todo>)
    ensures TitlesNonBlank(todos) <==> forall t :: t in todos ==> Trim(t.title) != ""
  {
    if todos != [] {
      assert todos == [todos[0]] + todos[1..];
      TitlesNonBlankMembers(todos[1..]);
    }
  }

  /** A list with a task in front has non-blank titles exactly when that task's title and the rest's are non-blank. */
  lemma ConsTitles(t: Todo, s: seq<Todo>)
    ensures TitlesNonBlank([t] + s) <==> !AllWhiteSpace(t.title) && TitlesNonBlank(s)
  {
    assert ([t] + s)[0] == t && ([t] + s)[1..] == s;
  }

  /** Changing statuses keeps every title non-blank. */
  lemma {:induction false} WithStatusKeepsTitles(todos: seq<Todo>, id: int, s: Status)
    requires TitlesNonBlank(todos)
    ensures TitlesNonBlank(WithStatus(todos, id, s))
  {
    if todos != [] {
      var t := todos[0];
      WithStatusKeepsTitles(todos[1..], id, s);
      ConsTitles(if t.id == id then t.(status := s) else t, WithStatus(todos[1..], id, s));
    }
  }

  /** Removing tasks keeps every remaining title non-blank. */
  lemma {:induction false} WithoutKeepsTitles(todos: seq<Todo>, id: int)
    requires TitlesNonBlank(todos)
    ensures TitlesNonBlank(Without(todos, id))
  {
    if todos != [] {
      var rest := todos[1..];
      assert TitlesNonBlank(rest);
      WithoutKeepsTitles(rest, id);
      if todos[0].id != id {
        assert Without(todos, id) == [todos[0]] + Without(rest, id);
        ConsTitles(todos[0], Without(rest, id));
      } else {
        assert Without(todos, id) == [] + Without(rest, id) == Without(rest, id);
      }
    }
  }

  /** Saving a non-blank draft title keeps every title non-blank. */
  lemma {:induction false} WithDraftKeepsTitles(todos: seq<Todo>, id: int, title: string, priority: Priority)
    requires TitlesNonBlank(todos) && Trim(title) != ""
    ensures TitlesNonBlank(WithDraft(todos, id, title, priority))
  {
    if todos != [] {
      var t := todos[0];
      WithDraftKeepsTitles(todos[1..], id, title, priority);
      ConsTitles(
        if t.id == id then t.(title := title, priority := priority) else t,
        WithDraft(todos[1..], id, title, priority));
    }
  }

  lemma SplitHead(s: seq<Todo>, t: Todo)
    requires s != []
    ensures s + [t] == [s[0]] + (s[1..] + [t])
  {
  }

  /** Appending a task with a non-blank title keeps every title non-blank. */
  lemma {:induction false} AppendKeepsTitles(todos: seq<Todo>, t: Todo)
    requires TitlesNonBlank(todos) && Trim(t.title) != ""
    ensures TitlesNonBlank(todos + [t])
  {
    if todos == [] {
      ConsTitles(t, []);
      assert todos + [t] == [t] + [];
    } else {
      AppendKeepsTitles(todos[1..], t);
      SplitHead(todos, t);
      ConsTitles(todos[0], todos[1..] + [t]);
    }
  }

  /** Appending a task with a fresh non-zero id and a non-blank title keeps both list invariants. */
  lemma AppendKeepsValid(todos: seq<Todo>, t: Todo)
    requires ValidIds(todos) && TitlesNonBlank(todos)
    requires t.id != 0 && Absent(todos, t.id) && Trim(t.title) != ""
    ensures ValidIds(todos + [t]) && TitlesNonBlank(todos + [t])
  {
    AppendKeepsValidIds(todos, t);
    AppendKeepsTitles(todos, t);
  }

  /** Saving a non-blank draft keeps both parts of the list invariant. */
  lemma WithDraftKeepsValid(todos: seq<Todo>, id: int, title: string, priority: Priority)
    requires ValidIds(todos) && TitlesNonBlank(todos) && Trim(title) != ""
    ensures ValidIds(WithDraft(todos, id, title, priority)) && TitlesNonBlank(WithDraft(todos, id, title, priority))
  {
    SameIdsKeepValidIds(todos, WithDraft(todos, id, title, priority));
    WithDraftKeepsTitles(todos, id, title, priority);
  }

  // ---------------------------------------------------------------------------
  // Display mappings
  // ---------------------------------------------------------------------------

  /**
   * The style class of a priority. Every priority has its own non-empty
   * class; the switch's empty default is never reached by a typed priority.
   */
  function PriorityClass(p: Priority): (c: string)
    ensures c in {"text-danger", "text-warning", "text-success"}
  {
    match p
    case High => "text-danger"
    case Medium => "text-warning"
    case Low => "text-success"
  }

  /** Different priorities are styled differently. */
  lemma PriorityClassInjective(p: Priority, q: Priority)
    ensures PriorityClass(p) == PriorityClass(q) ==> p == q
  {

  }

  /** The word shown after "Prioritas" in a row: Tinggi, Sedang or Rendah. */
  function PriorityLabel(p: Priority): (w: string)
    ensures w in {"Tinggi", "Sedang", "Rendah"}
  {
    if p == High then "Tinggi" else if p == Medium then "Sedang" else "Rendah"
  }

  /** Different priorities get different labels. */
  lemma PriorityLabelInjective(p: Priority, q: Priority)
    ensures PriorityLabel(p) == PriorityLabel(q) ==> p == q
  {

  }

  // ---------------------------------------------------------------------------
  // The component
  // ---------------------------------------------------------------------------

  class TodoList {
    /** The tasks, in insertion order. */
    var todos: seq<Todo>
    /** The draft title bound to the text input. */
    var newTodo: string
    /** The draft priority bound to the priority selector. */
    var newPriority: Priority
    /** Which form, if any, is open. */
    var editingId: EditingId

    /**
     * The standing invariant: the row keys are distinct and none is 0, and
     * no stored title is blank.
     */
    ghost predicate Valid()
      reads this
    {
      ValidIds(todos) && TitlesNonBlank(todos)
    }

    /** Whether the add/edit form is rendered. */
    predicate FormShown()
      reads this
    {
      editingId != Null
    }

    /** Whether the submit button adds a task (rather than saving an edit). */
    predicate SubmitAdds()
      reads this
    {
      editingId == Num(0)
    }

    /** The whole effect of `addTodo` with `id` for the fresh id. */
    twostate predicate AddTodoEffect(id: int)
      reads this
    {
      && editingId == old(editingId)
      && if Trim(old(newTodo)) == "" then
           todos == old(todos) && newTodo == old(newTodo) && newPriority == old(newPriority)
         else
           && todos == old(todos) + [Todo(id, old(newTodo), old(newPriority), ToDo)]
           && newTodo == ""
           && newPriority == Medium
    }

    /** The whole effect of `saveEdit`. */
    twostate predicate SaveEditEffect()
      reads this
    {
      if Truthy(old(editingId)) && Trim(old(newTodo)) != "" then
        && todos == WithDraft(old(todos), old(editingId).n, old(newTodo), old(newPriority))
        && editingId == Null
        && newTodo == ""
        && newPriority == Medium
      else
        todos == old(todos) && newTodo == old(newTodo) && newPriority == old(newPriority)
        && editingId == old(editingId)
    }

    /** Mounting: no tasks, an empty draft of priority Medium, the form closed. */
    constructor ()
      ensures Valid()
      ensures todos == [] && newTodo == "" && newPriority == Medium && editingId == Null
    {
      todos := [];
      newTodo := "";
      newPriority := Medium;
      editingId := Null;
    }

    /**
     * Adds the draft as a new task with id `id` (the clock reading of the
     * component) if its trimmed title is non-empty, and resets the draft;
     * the form mode is left alone either way.
     */
    method AddTodo(id: int)
      requires Valid()
      requires id != 0 && Absent(todos, id)
      modifies this
      ensures Valid()
      ensures AddTodoEffect(id)
    {
      if Trim(newTodo) != "" {
        var t := Todo(id, newTodo, newPriority, ToDo);
        AppendKeepsValid(todos, t);
        todos := todos + [t];
        newTodo := "";
        newPriority := Medium;
      }
    }

    /** Sets the status of the task(s) with id `id`; the draft and the form are untouched. */
    method UpdateStatus(id: int, newStatus: Status)
      requires Valid()
      modifies this
      ensures Valid()
      ensures todos == WithStatus(old(todos), id, newStatus)
      ensures newTodo == old(newTodo) && newPriority == old(newPriority) && editingId == old(editingId)
    {
      SameIdsKeepValidIds(todos, WithStatus(todos, id, newStatus));
      WithStatusKeepsTitles(todos, id, newStatus);
      todos := WithStatus(todos, id, newStatus);
    }

    /** Removes the task(s) with id `id`; the draft and the form are untouched. */
    method DeleteTodo(id: int)
      requires Valid()
      modifies this
      ensures Valid()
      ensures todos == Without(old(todos), id)
      ensures newTodo == old(newTodo) && newPriority == old(newPriority) && editingId == old(editingId)
    {
      WithoutKeepsValidIds(todos, id);
      WithoutKeepsTitles(todos, id);
      todos := Without(todos, id);
    }

    /** Opens the form in edit mode for `todo`, seeding the draft from it; the list is untouched. */
    method StartEditing(todo: Todo)
      requires Valid()
      modifies this
      ensures Valid()
      ensures editingId == Num(todo.id) && newTodo == todo.title && newPriority == todo.priority
      ensures todos == old(todos)
    {
      editingId := Num(todo.id);
      newTodo := todo.title;
      newPriority := todo.priority;
    }

    /**
     * Writes the draft into the task being edited and closes the form, if an
     * edit is in progress (a truthy editing id) and the trimmed draft title
     * is non-empty; otherwise does nothing.
     */
    method SaveEdit()
      requires Valid()
      modifies this
      ensures Valid()
      ensures SaveEditEffect()
    {
      if Truthy(editingId) && Trim(newTodo) != "" {
        WithDraftKeepsValid(todos, editingId.n, newTodo, newPriority);
        todos := WithDraft(todos, editingId.n, newTodo, newPriority);
        editingId := Null;
        newTodo := "";
        newPriority := Medium;
      }
    }

    /** The "Tambah Tugas" header button: opens the form in create mode and keeps the draft as it is. */
    method OpenCreate()
      requires Valid()
      modifies this
      ensures Valid()
      ensures editingId == Num(0)
      ensures todos == old(todos) && newTodo == old(newTodo) && newPriority == old(newPriority)
    {
      editingId := Num(0);
    }

    /** The "Batal" button: closes the form and resets the draft; the list is untouched. */
    method Cancel()
      requires Valid()
      modifies this
      ensures Valid()
      ensures editingId == Null && newTodo == "" && newPriority == Medium
      ensures todos == old(todos)
    {
      editingId := Null;
      newTodo := "";
      newPriority := Medium;
    }

    /** The title input's change handler. */
    method SetNewTodo(value: string)
      requires Valid()
      modifies this
      ensures Valid()
      ensures newTodo == value
      ensures todos == old(todos) && newPriority == old(newPriority) && editingId == old(editingId)
    {
      newTodo := value;
    }

    /** The priority selector's change handler. */
    method SetNewPriority(value: Priority)
      requires Valid()
      modifies this
      ensures Valid()
      ensures newPriority == value
      ensures todos == old(todos) && newTodo == old(newTodo) && editingId == old(editingId)
    {
      newPriority := value;
    }

    /**
     * The form's submit button: adds a task in create mode (editing id 0)
     * and saves the edit in every other mode. `id` is the clock reading an
     * add would use.
     */
    method Submit(id: int)
      requires Valid()
      requires SubmitAdds() ==> id != 0 && Absent(todos, id)
      modifies this
      ensures Valid()
      ensures old(SubmitAdds()) ==> AddTodoEffect(id)
      ensures !old(SubmitAdds()) ==> SaveEditEffect()
    {
      if SubmitAdds() {
        AddTodo(id);
      } else {
        SaveEdit();
      }
    }
  }
}
