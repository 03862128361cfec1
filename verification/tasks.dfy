/**
 * The task record and the pure list computations the component performs on
 * its ordered task list: `filter` by id, `find` by id and the `map` that
 * writes an edit back.
 */
module Tasks {
  import opened Wrappers

  /** The status every task is created with; no operation ever changes it. */
  const ToDo: string := "to do"

  /** New ids are drawn from [0, IdBound). */
  const IdBound: int := 10000

  /** A to-do item; `status` is the record's `Status` field. */
  datatype Task = Task(id: int, nameTask: string, dateDue: string, status: string)

  /** Some task in `data` carries `id`. */
  predicate HasId(data: seq<Task>, id: int) {
    exists i :: 0 <= i < |data| && data[i].id == id
  }

  /** Index `k` holds the first task of `data` that carries `id`. */
  predicate FirstWithId(data: seq<Task>, id: int, k: int) {
    0 <= k < |data| && data[k].id == id && forall j :: 0 <= j < k ==> data[j].id != id
  }

  /** No two tasks share an id (hoped for, never enforced by the component). */
  predicate UniqueIds(data: seq<Task>) {
    forall i, j :: 0 <= i < j < |data| ==> data[i].id != data[j].id
  }

  /** `r` keeps some of the elements of `s`, in their original order. */
  ghost predicate IsSubsequence(r: seq<Task>, s: seq<Task>)
    decreases |s|
  {
    r == [] || (s != [] && ((r[0] == s[0] && IsSubsequence(r[1..], s[1..])) || IsSubsequence(r, s[1..])))
  }

  /**
   * Every task of `r` has the id and status of some task of `s`: `r` holds no
   * id that `s` lacked and no status that `s` did not give to that id.
   */
  ghost predicate DerivedFrom(r: seq<Task>, s: seq<Task>) {
    forall t :: t in r ==> exists u :: u in s && u.id == t.id && u.status == t.status
  }

  /** `data.filter(item => item.id !== id)`. */
  function RemoveById(data: seq<Task>, id: int): (r: seq<Task>)
    ensures forall t :: t in r <==> t in data && t.id != id
    ensures !HasId(r, id)
    ensures !HasId(data, id) ==> r == data
    ensures HasId(data, id) ==> |r| < |data|
    ensures |r| <= |data|
  {
    if data == [] then []
    else
      var rest := RemoveById(data[1..], id);
      assert data == [data[0]] + data[1..];
      assert HasId(data, id) && data[0].id != id ==> HasId(data[1..], id) by {
        if HasId(data, id) && data[0].id != id {
          var i :| 0 <= i < |data| && data[i].id == id;
          assert data[1..][i - 1].id == id;
        }
      }
      if data[0].id != id then [data[0]] + rest else rest
  }

  /** `data.find(item => item.id === id)`: the first task carrying `id`, if any. */
  function FindById(data: seq<Task>, id: int): (r: Option<Task>)
    ensures r.None? <==> !HasId(data, id)
    ensures r.Some? ==> r.value.id == id && r.value in data
  {
    if data == [] then None
    else if data[0].id == id then Some(data[0])
    else
      assert HasId(data, id) ==> HasId(data[1..], id) by {
        if HasId(data, id) {
          var i :| 0 <= i < |data| && data[i].id == id;
          assert data[1..][i - 1].id == id;
        }
      }
      FindById(data[1..], id)
  }

  /**
   * `data.map(item => item.id === editId ? {...item, nameTask: name, dateDue} : item)`:
   * every task carrying `editId` takes the new name and due date.
   */
  function SaveEdits(data: seq<Task>, editId: int, name: string, dateDue: string): (r: seq<Task>)
    ensures |r| == |data|
    ensures forall i :: 0 <= i < |data| ==> r[i].id == data[i].id && r[i].status == data[i].status
    ensures forall i :: 0 <= i < |data| && data[i].id == editId ==>
              r[i].nameTask == name && r[i].dateDue == dateDue
    ensures forall i :: 0 <= i < |data| && data[i].id != editId ==> r[i] == data[i]
  {
    if data == [] then []
    else
      var head := if data[0].id == editId then data[0].(nameTask := name, dateDue := dateDue) else data[0];
      [head] + SaveEdits(data[1..], editId, name, dateDue)
  }

  /** `find` returns the FIRST task carrying the id, not just any one. */
  lemma {:induction false} FindByIdIsFirst(data: seq<Task>, id: int, k: int)
    requires FirstWithId(data, id, k)
    ensures FindById(data, id) == Some(data[k])
  {
    if data[0].id != id {
      assert FirstWithId(data[1..], id, k - 1);
      FindByIdIsFirst(data[1..], id, k - 1);
    }
  }

  /** Filtering keeps the surviving tasks in their original relative order. */
  lemma {:induction false} RemoveByIdKeepsOrder(data: seq<Task>, id: int)
    ensures IsSubsequence(RemoveById(data, id), data)
  {
    if data != [] {
      RemoveByIdKeepsOrder(data[1..], id);
      var rest := RemoveById(data[1..], id);
      if data[0].id != id {
        assert RemoveById(data, id) == [data[0]] + rest;
        assert ([data[0]] + rest)[1..] == rest;
      } else {
        assert RemoveById(data, id) == rest;
        if rest != [] {
          assert IsSubsequence(rest, data);
        }
      }
    }
  }

  /** Filtering distributes over concatenation: it never reorders across a split. */
  lemma {:induction false} RemoveByIdAppend(a: seq<Task>, b: seq<Task>, id: int)
    ensures RemoveById(a + b, id) == RemoveById(a, id) + RemoveById(b, id)
  {
    if a != [] {
      assert (a + b)[1..] == a[1..] + b;
      RemoveByIdAppend(a[1..], b, id);
    } else {
      assert a + b == b;
    }
  }

  /** Writing the same edit twice is the same as writing it once. */
  lemma SaveEditsIdempotent(data: seq<Task>, editId: int, name: string, dateDue: string)
    ensures SaveEdits(SaveEdits(data, editId, name, dateDue), editId, name, dateDue)
         == SaveEdits(data, editId, name, dateDue)
  {
  }

  /** An edit of an id that no task carries leaves the list as it was. */
  lemma SaveEditsNoMatch(data: seq<Task>, editId: int, name: string, dateDue: string)
    requires !HasId(data, editId)
    ensures SaveEdits(data, editId, name, dateDue) == data
  {
  }

  /**
   * Removing and writing back an edit commute; in particular removing the
   * task under edit discards the edit.
   */
  lemma {:induction false} RemoveByIdAfterSaveEdits(data: seq<Task>, id: int, editId: int, name: string, dateDue: string)
    ensures RemoveById(SaveEdits(data, editId, name, dateDue), id)
         == SaveEdits(RemoveById(data, id), editId, name, dateDue)
  {
    if data != [] {
      var saved := SaveEdits(data, editId, name, dateDue);
      assert saved[1..] == SaveEdits(data[1..], editId, name, dateDue);
      RemoveByIdAfterSaveEdits(data[1..], id, editId, name, dateDue);
    }
  }

  /** Filtering and writing back edits create no id and change no status. */
  lemma ListOperationsKeepIdsAndStatus(data: seq<Task>, id: int, editId: int, name: string, dateDue: string)
    ensures DerivedFrom(RemoveById(data, id), data)
    ensures DerivedFrom(SaveEdits(data, editId, name, dateDue), data)
  {
  }

  /**
   * Entering edit mode and saving with the pending text untouched keeps every
   * name, provided ids are unique (with a duplicate id, every task carrying it
   * would take the first one's name).
   */
  lemma EditThenSaveKeepsNames(data: seq<Task>, editId: int, dateDue: string)
    requires UniqueIds(data) && HasId(data, editId)
    ensures forall i :: 0 <= i < |data| ==>
              SaveEdits(data, editId, FindById(data, editId).value.nameTask, dateDue)[i].nameTask
              == data[i].nameTask
  {
  }

  /** With a duplicated id, saving with the first task's name renames the second one. */
  lemma DuplicateIdTakesFirstName(a: Task, b: Task, dateDue: string)
    requires a.id == b.id && a.nameTask != b.nameTask
    ensures SaveEdits([a, b], a.id, FindById([a, b], a.id).value.nameTask, dateDue)[1].nameTask
            != b.nameTask
  {
  }
}
