/**
 * Sequences of user interactions on the task-list component, with what the
 * handlers' contracts let a caller conclude about the resulting state.
 */
module TodoScenarios {
  import opened JsString
  import opened Todos

  /** Entering edit mode and cancelling leaves the list exactly as it was and resets the draft. */
  method EditThenCancel(list: TodoList, todo: Todo)
    requires list.Valid()
    modifies list
    ensures list.Valid()
    ensures list.todos == old(list.todos)
    ensures list.editingId == Null && list.newTodo == "" && list.newPriority == Medium
  {
    list.StartEditing(todo);
    list.Cancel();
  }

  /**
   * From a freshly mounted list: open the create form, type "Buy milk",
   * choose Low and submit. The list then holds exactly that task, the draft
   * is reset, and the form is still open in create mode.
   */
  method AddFirstTask(id: int) returns (list: TodoList)
    requires id != 0
    ensures list.Valid()
    ensures list.todos == [Todo(id, "Buy milk", Low, ToDo)]
    ensures list.newTodo == "" && list.newPriority == Medium
    ensures list.editingId == Num(0) && list.FormShown() && list.SubmitAdds()
  {
    list := new TodoList();
    list.OpenCreate();
    list.SetNewTodo("Buy milk");
    list.SetNewPriority(Low);
    assert !IsWhiteSpace("Buy milk"[0]);
    list.Submit(id);
  }

  /** Submitting a blank title in create mode changes nothing, and the form stays open. */
  method AddBlankTitle(list: TodoList, id: int)
    requires list.Valid()
    requires id != 0 && Absent(list.todos, id)
    modifies list
    ensures list.Valid()
    ensures list.todos == old(list.todos) && list.newPriority == old(list.newPriority)
    ensures list.newTodo == "   " && list.editingId == Num(0)
  {
    list.OpenCreate();
    list.SetNewTodo("   ");
    list.Submit(id);
  }

  /**
   * With the single task `a` in the list: edit it, retype its title and
   * submit. The task has the new title with its id, priority and status
   * unchanged, and the form is closed.
   */
  method RenameOnlyTask(list: TodoList, a: Todo)
    requires list.Valid() && list.todos == [a]
    modifies list
    ensures list.Valid()
    ensures list.todos == [a.(title := "New title")]
    ensures list.editingId == Null && !list.FormShown()
  {
    list.StartEditing(a);
    list.SetNewTodo("New title");
    assert !IsWhiteSpace("New title"[0]);
    assert a in list.todos;
    list.Submit(0);
  }

  /** Opening a task for editing and saving it without changing the draft leaves the list as it was. */
  method EditThenSaveUnchanged(list: TodoList, todo: Todo)
    requires list.Valid() && todo in list.todos
    modifies list
    ensures list.Valid()
    ensures list.todos == old(list.todos)
    ensures list.editingId == Null && list.newTodo == "" && list.newPriority == Medium
  {
    TitlesNonBlankMembers(list.todos);
    list.StartEditing(todo);
    list.Submit(0);
    WithDraftOwnValues(old(list.todos), todo);
  }

  /** Deleting the same id twice gives the same list as deleting it once. */
  method DeleteTwice(list: TodoList, id: int)
    requires list.Valid()
    modifies list
    ensures list.Valid()
    ensures list.todos == Without(old(list.todos), id)
  {
    list.DeleteTodo(id);
    list.DeleteTodo(id);
    WithoutIdempotent(old(list.todos), id);
  }
}
