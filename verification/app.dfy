/**
 * The state manager of the `App` component: the task list, the pending
 * input, the task under edit and the persisted "taskData" entry, with one
 * method per event handler. Each handler is an atomic transition on the
 * state it was called in; the persist effect that React runs after a render
 * in which the list changed is the separate method `PersistData`.
 */
module TaskApp {
  import opened Wrappers
  import opened JsSemantics
  import opened Tasks

  /** What the initial load makes of the stored entry: an absent key is the empty list. */
  function Load(saved: Option<seq<Task>>): (r: seq<Task>)
    ensures saved.None? ==> r == []
    ensures saved.Some? ==> r == saved.value
  {
    if saved.Some? then saved.value else []
  }

  class App {
    /** The ordered task list, in display order. */
    var data: seq<Task>
    /** The text of the task-name field. */
    var input: string
    /** The id of the task under edit, or `null`. */
    var editItemId: Option<int>
    /** The "taskData" entry of the browser's local storage. */
    ghost var store: Option<seq<Task>>

    /** Reloading the page now would show exactly the current list. */
    ghost predicate StoreInSync()
      reads this
    {
      Load(store) == data
    }

    /** The first render: read the stored list, nothing typed, no edit. */
    constructor (saved: Option<seq<Task>>)
      ensures saved.None? ==> data == []
      ensures saved.Some? ==> data == saved.value
      ensures input == "" && editItemId == None && store == saved
      ensures StoreInSync()
    {
      data := Load(saved);
      input := "";
      editItemId := None;
      store := saved;
    }

    /** The effect that rewrites the stored entry after the list has changed. */
    method PersistData()
      modifies this
      ensures store == Some(data) && StoreInSync()
      ensures data == old(data) && input == old(input) && editItemId == old(editItemId)
    {
      store := Some(data);
    }

    /** Typing in the task-name field. */
    method HandleChange(value: string)
      modifies this
      ensures input == value
      ensures data == old(data) && editItemId == old(editItemId) && store == old(store)
    {
      input := value;
    }

    /**
     * Adds a task named by the pending input, unless that input is blank.
     * `id` stands for the random draw and `formatDate` for the formatted
     * due date of the current render.
     */
    method AddTaskItem(id: int, formatDate: string)
      requires 0 <= id < IdBound
      modifies this
      ensures IsBlank(old(input)) ==> data == old(data) && input == old(input)
      ensures !IsBlank(old(input)) ==>
                data == old(data) + [Task(id, old(input), formatDate, ToDo)] && input == ""
      ensures editItemId == old(editItemId) && store == old(store)
    {
      if IsBlank(input) {
        return;
      }
      var newTask := Task(id, input, formatDate, ToDo);
      data := data + [newTask];
      input := "";
    }

    /** Deletes every task carrying `itemId` and writes the new list to the store. */
    method RemoveTask(itemId: int)
      modifies this
      ensures data == RemoveById(old(data), itemId)
      ensures !HasId(data, itemId) && |data| <= |old(data)|
      ensures !HasId(old(data), itemId) ==> data == old(data)
      ensures store == Some(data) && StoreInSync()
      ensures input == old(input) && editItemId == old(editItemId)
    {
      var modifiedData := RemoveById(data, itemId);
      data := modifiedData;
      store := Some(modifiedData);
    }

    /** Empties the list and deletes the "taskData" entry outright. */
    method RemoveAllTasks()
      modifies this
      ensures data == [] && store == None && StoreInSync()
      ensures input == old(input) && editItemId == old(editItemId)
    {
      data := [];
      store := None;
    }

    /**
     * Enters edit mode on the first task carrying `itemId`, loading its name
     * into the input; when no task carries it, only a diagnostic is logged.
     */
    method EditTask(itemId: int)
      modifies this
      ensures data == old(data) && store == old(store)
      ensures HasId(data, itemId) ==> editItemId == Some(itemId)
      ensures HasId(data, itemId) ==> input == FindById(data, itemId).value.nameTask
      ensures forall k :: FirstWithId(data, itemId, k) ==> input == data[k].nameTask
      ensures !HasId(data, itemId) ==> input == old(input) && editItemId == old(editItemId)
    {
      var taskEdit := FindById(data, itemId);
      forall k | FirstWithId(data, itemId, k) ensures taskEdit == Some(data[k]) {
        FindByIdIsFirst(data, itemId, k);
      }
      if taskEdit.Some? {
        input := taskEdit.value.nameTask;
        editItemId := Some(itemId);
      }
    }

    /**
     * Writes the pending input and `formatDate` into every task carrying the
     * edited id, persists the list and leaves edit mode. The guard is the
     * truthiness of the edited id, so an edit of id 0 is never saved.
     */
    method SaveEditedTask(formatDate: string)
      modifies this
      ensures !Truthy(old(editItemId)) ==>
                data == old(data) && input == old(input)
                && editItemId == old(editItemId) && store == old(store)
      ensures Truthy(old(editItemId)) ==>
                data == SaveEdits(old(data), old(editItemId).value, old(input), formatDate)
                && store == Some(data) && StoreInSync()
                && input == "" && editItemId == None
    {
      if !Truthy(editItemId) {
        return;
      }
      var updatedData := SaveEdits(data, editItemId.value, input, formatDate);
      data := updatedData;
      store := Some(updatedData);
      input := "";
      editItemId := None;
    }

    /**
     * `SaveEditedTask` with the guard the rendering uses (`editItemId !== null`):
     * every edit mode the buttons offer can be saved and left.
     */
    method SaveEditedTaskIntended(formatDate: string)
      modifies this
      ensures old(editItemId).None? ==>
                data == old(data) && input == old(input)
                && editItemId == None && store == old(store)
      ensures old(editItemId).Some? ==>
                data == SaveEdits(old(data), old(editItemId).value, old(input), formatDate)
                && store == Some(data) && StoreInSync()
                && input == ""
      ensures editItemId == None
    {
      if editItemId.None? {
        return;
      }
      var updatedData := SaveEdits(data, editItemId.value, input, formatDate);
      data := updatedData;
      store := Some(updatedData);
      input := "";
      editItemId := None;
    }
  }

  /**
   * A stored list holding a task with id 0: editing that task and saving a
   * new name changes nothing, and the component stays in edit mode.
   */
  method EditIdZeroThenSave(stored: seq<Task>, newName: string, formatDate: string)
    returns (finalData: seq<Task>, finalEdit: Option<int>, finalInput: string)
    requires HasId(stored, 0)
    ensures finalData == stored
    ensures finalEdit == Some(0)
    ensures finalInput == newName
  {
    var app := new App(Some(stored));
    app.EditTask(0);
    app.HandleChange(newName);
    app.SaveEditedTask(formatDate);
    finalData, finalEdit, finalInput := app.data, app.editItemId, app.input;
  }

  /** The same steps with the intended guard: the new name is written and edit mode ends. */
  method EditIdZeroThenSaveIntended(stored: seq<Task>, newName: string, formatDate: string)
    returns (finalData: seq<Task>, finalEdit: Option<int>, finalInput: string)
    requires HasId(stored, 0)
    ensures finalData == SaveEdits(stored, 0, newName, formatDate)
    ensures forall i :: 0 <= i < |stored| && stored[i].id == 0 ==> finalData[i].nameTask == newName
    ensures finalEdit == None
    ensures finalInput == ""
  {
    var app := new App(Some(stored));
    app.EditTask(0);
    app.HandleChange(newName);
    app.SaveEditedTaskIntended(formatDate);
    finalData, finalEdit, finalInput := app.data, app.editItemId, app.input;
  }

  /** The two names of the usual walk-through: "Buy milk" is a real name, two spaces are blank. */
  lemma WalkThroughNames()
    ensures !IsBlank("Buy milk") && IsBlank("  ")
  {
  }

  /**
   * Start with nothing stored, add a task named `name` without a due date,
   * try to add a task with the blank name `blank`, then delete everything
   * (for instance `name` = "Buy milk" and `blank` = two spaces). The
   * delete-all handler removes the stored key; the persist effect that
   * follows writes the empty list again.
   */
  method AddBlankClearWalkThrough(name: string, blank: string, id1: int, id2: int)
    returns (afterAdd: seq<Task>, afterBlank: seq<Task>, afterClear: seq<Task>,
             ghost storeAfterClear: Option<seq<Task>>, ghost finalStore: Option<seq<Task>>)
    requires !IsBlank(name) && IsBlank(blank)
    requires 0 <= id1 < IdBound && 0 <= id2 < IdBound
    ensures afterAdd == [Task(id1, name, "", ToDo)]
    ensures afterBlank == afterAdd
    ensures afterClear == [] && storeAfterClear == None
    ensures finalStore == Some([])
  {
    var app := new App(None);
    app.PersistData();
    app.HandleChange(name);
    app.AddTaskItem(id1, "");
    app.PersistData();
    afterAdd := app.data;
    app.HandleChange(blank);
    app.AddTaskItem(id2, "");
    afterBlank := app.data;
    app.RemoveAllTasks();
    afterClear, storeAfterClear := app.data, app.store;
    app.PersistData();
    finalStore := app.store;
  }
}
