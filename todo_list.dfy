/**
 * The task-list logic of the to-do app (todo_list/src/main.rs): the
 * add, toggle, edit, delete and import callbacks of `app`, and the
 * non-empty guards of the add and edit forms.  Rendering and the browser
 * file plumbing are not modelled; an import arrives already decoded.
 */
module TodoList {
  import opened Wrappers

  type u32 = x: int | 0 <= x < 0x1_0000_0000
  const U32Max: u32 := 0xFFFF_FFFF

  /** main.rs:8-13 (and lib.rs). */
  datatype Task = Task(id: u32, description: string, completed: bool)

  /** The two `use_state` cells of `app` (main.rs:42-43). */
  datatype TodoState = TodoState(tasks: seq<Task>, nextId: u32)

  /** `x + 1` on a `u32` in a release build: wraps to 0 after `U32Max`. */
  function WrappingInc(x: u32): u32
  {
    if x == U32Max then 0 else x + 1
  }

  /** Position of the first task with `id` (`iter_mut().find`), `|s|` when there is none. */
  function FirstIndex(s: seq<Task>, id: u32): (k: nat)
    ensures k <= |s|
    ensures forall j :: 0 <= j < k ==> s[j].id != id
    ensures k < |s| ==> s[k].id == id
  {
    if s == [] then 0
    else if s[0].id == id then 0
    else 1 + FirstIndex(s[1..], id)
  }

  /** Reference definition of toggling: flip the first task with `id`, keep the rest. */
  function Toggled(s: seq<Task>, id: u32): seq<Task>
  {
    if s == [] then []
    else if s[0].id == id then [s[0].(completed := !s[0].completed)] + s[1..]
    else [s[0]] + Toggled(s[1..], id)
  }

  /** Reference definition of editing: re-describe the first task with `id`, keep the rest. */
  function Edited(s: seq<Task>, id: u32, description: string): seq<Task>
  {
    if s == [] then []
    else if s[0].id == id then [s[0].(description := description)] + s[1..]
    else [s[0]] + Edited(s[1..], id, description)
  }

  /** `tasks.iter().cloned().filter(|t| t.id != id).collect()` (main.rs:78). */
  function Deleted(s: seq<Task>, id: u32): (r: seq<Task>)
    ensures |r| <= |s|
    ensures forall t :: t in r ==> t in s && t.id != id
  {
    if s == [] then []
    else (if s[0].id == id then [] else [s[0]]) + Deleted(s[1..], id)
  }

  /** `tasks.iter().map(|task| task.id).max().unwrap_or(0)` (main.rs:132). */
  function MaxId(s: seq<Task>): (m: u32)
    ensures forall i :: 0 <= i < |s| ==> s[i].id <= m
    ensures s != [] ==> exists i :: 0 <= i < |s| && s[i].id == m
    ensures s == [] ==> m == 0
  {
    if s == [] then 0
    else
      var rest := MaxId(s[1..]);
      if s[0].id >= rest then s[0].id else rest
  }

  /** Every id is below `n`: a task created with id `n` is new. */
  ghost predicate IdsBelow(s: seq<Task>, n: u32)
  {
    forall i :: 0 <= i < |s| ==> s[i].id < n
  }

  ghost predicate Described(s: seq<Task>)
  {
    forall i :: 0 <= i < |s| ==> s[i].description != ""
  }

  /** Toggling flips `completed` of the first task with `id` only; no task moves and no id changes. */
  lemma {:induction false} ToggledAt(s: seq<Task>, id: u32)
    ensures |Toggled(s, id)| == |s|
    ensures forall i :: 0 <= i < |s| ==>
      Toggled(s, id)[i] == if i == FirstIndex(s, id) then s[i].(completed := !s[i].completed) else s[i]
  {
    if s != [] && s[0].id != id {
      ToggledAt(s[1..], id);
      var r := Toggled(s, id);
      forall i | 0 <= i < |s|
        ensures r[i] == if i == FirstIndex(s, id) then s[i].(completed := !s[i].completed) else s[i]
      {
        if i > 0 {
          assert r[i] == Toggled(s[1..], id)[i - 1];
        }
      }
    }
  }

  /** Editing re-describes the first task with `id` only; no task moves, no id or flag changes. */
  lemma {:induction false} EditedAt(s: seq<Task>, id: u32, description: string)
    ensures |Edited(s, id, description)| == |s|
    ensures forall i :: 0 <= i < |s| ==>
      Edited(s, id, description)[i] == if i == FirstIndex(s, id) then s[i].(description := description) else s[i]
  {
    if s != [] && s[0].id != id {
      EditedAt(s[1..], id, description);
      var r := Edited(s, id, description);
      forall i | 0 <= i < |s|
        ensures r[i] == if i == FirstIndex(s, id) then s[i].(description := description) else s[i]
      {
        if i > 0 {
          assert r[i] == Edited(s[1..], id, description)[i - 1];
        }
      }
    }
  }

  /** With no task carrying `id`, toggling and editing change nothing. */
  lemma AbsentIdUnchanged(s: seq<Task>, id: u32, description: string)
    requires forall i :: 0 <= i < |s| ==> s[i].id != id
    ensures Toggled(s, id) == s && Edited(s, id, description) == s
  {
    ToggledAt(s, id);
    EditedAt(s, id, description);
  }

  /** Deleting keeps exactly the tasks whose id differs. */
  lemma {:induction false} DeletedKeepsOthers(s: seq<Task>, id: u32)
    ensures forall t :: t in Deleted(s, id) <==> t in s && t.id != id
  {
    if s != [] {
      DeletedKeepsOthers(s[1..], id);
      assert s == [s[0]] + s[1..];
    }
  }

  /** Deleting works piecewise, so the kept tasks stay in their original order. */
  lemma {:induction false} DeletedConcat(a: seq<Task>, b: seq<Task>, id: u32)
    ensures Deleted(a + b, id) == Deleted(a, id) + Deleted(b, id)
  {
    if a == [] {
      assert a + b == b;
    } else {
      var head := if a[0].id == id then [] else [a[0]];
      assert (a + b)[0] == a[0] && (a + b)[1..] == a[1..] + b;
      calc {
        Deleted(a + b, id);
        head + Deleted(a[1..] + b, id);
        { DeletedConcat(a[1..], b, id); }
        head + (Deleted(a[1..], id) + Deleted(b, id));
        (head + Deleted(a[1..], id)) + Deleted(b, id);
        Deleted(a, id) + Deleted(b, id);
      }
    }
  }

  /** Deleting an id no task carries changes nothing. */
  lemma {:induction false} DeletedAbsent(s: seq<Task>, id: u32)
    requires forall i :: 0 <= i < |s| ==> s[i].id != id
    ensures Deleted(s, id) == s
  {
    if s != [] {
      DeletedAbsent(s[1..], id);
    }
  }

  /** A user action on the list: the two forms' submits, a checkbox, a delete button, an import. */
  datatype Event =
    | SubmitAdd(description: string)
    | Toggle(id: u32)
    | SaveEdit(id: u32, description: string)
    | Delete(id: u32)
    | Import(parsed: Option<seq<Task>>)

  /** The state after one event, forms' empty-input guards included (main.rs:176, 249). */
  function Apply(st: TodoState, e: Event): TodoState
  {
    match e
    case SubmitAdd(d) =>
      if d == "" then st
      else TodoState(st.tasks + [Task(st.nextId, d, false)], WrappingInc(st.nextId))
    case Toggle(id) => st.(tasks := Toggled(st.tasks, id))
    case SaveEdit(id, d) => if d == "" then st else st.(tasks := Edited(st.tasks, id, d))
    case Delete(id) => st.(tasks := Deleted(st.tasks, id))
    case Import(None) => st
    case Import(Some(imported)) => TodoState(imported, WrappingInc(MaxId(imported)))
  }

  function Run(st: TodoState, events: seq<Event>): TodoState
    decreases |events|
  {
    if events == [] then st else Run(Apply(st, events[0]), events[1..])
  }

  /** The event does not push the id counter past `u32`'s range. */
  predicate InRange(st: TodoState, e: Event)
  {
    match e
    case SubmitAdd(d) => d != "" ==> st.nextId < U32Max
    case Import(Some(imported)) => MaxId(imported) < U32Max
    case _ => true
  }

  ghost predicate AllInRange(st: TodoState, events: seq<Event>)
    decreases |events|
  {
    events != [] ==> InRange(st, events[0]) && AllInRange(Apply(st, events[0]), events[1..])
  }

  /** One event keeps every id below the counter, as long as the counter stays in range. */
  lemma StepKeepsIdsBelow(st: TodoState, e: Event)
    requires IdsBelow(st.tasks, st.nextId) && InRange(st, e)
    ensures IdsBelow(Apply(st, e).tasks, Apply(st, e).nextId)
  {
    match e
    case Toggle(id) => ToggledAt(st.tasks, id);
    case SaveEdit(id, d) => EditedAt(st.tasks, id, d);
    case Delete(id) =>
      var r := Deleted(st.tasks, id);
      forall i | 0 <= i < |r|
        ensures r[i].id < st.nextId
      {
        assert r[i] in r;
      }
    case _ =>
  }

  /**
   * From the initial state (no tasks, counter 1), every id stays below the
   * counter, so each added task gets an id no other task has, for as long
   * as the counter stays below `U32Max`.
   */
  lemma {:induction false} IdsStayBelow(st: TodoState, events: seq<Event>)
    requires IdsBelow(st.tasks, st.nextId) && AllInRange(st, events)
    ensures IdsBelow(Run(st, events).tasks, Run(st, events).nextId)
    decreases |events|
  {
    if events != [] {
      StepKeepsIdsBelow(st, events[0]);
      IdsStayBelow(Apply(st, events[0]), events[1..]);
    }
  }

  /** An added task's id is new whenever ids are below the counter. */
  lemma AddedIdFresh(st: TodoState, d: string)
    requires IdsBelow(st.tasks, st.nextId) && d != ""
    ensures var r := Apply(st, SubmitAdd(d));
      && r.tasks[|st.tasks|].id == st.nextId
      && forall i :: 0 <= i < |st.tasks| ==> r.tasks[i].id != r.tasks[|st.tasks|].id
  {
  }

  /**
   * At the edge of `u32` the wrap-around reuses an id: importing tasks with
   * ids 0 and `U32Max` resets the counter to 0, and the next added task
   * gets id 0 a second time.
   */
  lemma WrapReusesId()
    ensures var r := Run(TodoState([], 1), [Import(Some([Task(0, "a", false), Task(U32Max, "b", false)])), SubmitAdd("c")]);
      |r.tasks| == 3 && r.tasks[0].id == 0 && r.tasks[2].id == 0
  {
    var imported := [Task(0, "a", false), Task(U32Max, "b", false)];
    var events := [Import(Some(imported)), SubmitAdd("c")];
    assert MaxId(imported) == U32Max;
    var afterImport := Apply(TodoState([], 1), events[0]);
    assert afterImport == TodoState(imported, 0);
    assert events[1..] == [SubmitAdd("c")];
    assert Run(TodoState([], 1), events) == Run(afterImport, [SubmitAdd("c")]);
    assert Run(afterImport, [SubmitAdd("c")]) == Apply(afterImport, SubmitAdd("c"));
  }

  /** Forms never store an empty description: only an import can bring one in. */
  lemma StepKeepsDescribed(st: TodoState, e: Event)
    requires Described(st.tasks)
    requires e.Import? && e.parsed.Some? ==> Described(e.parsed.value)
    ensures Described(Apply(st, e).tasks)
  {
    match e
    case Toggle(id) => ToggledAt(st.tasks, id);
    case SaveEdit(id, d) => EditedAt(st.tasks, id, d);
    case Delete(id) =>
      var r := Deleted(st.tasks, id);
      forall i | 0 <= i < |r|
        ensures r[i].description != ""
      {
        assert r[i] in r;
      }
    case _ =>
  }

  /** `iter_mut().find(|t| t.id == id)` as a scan from the front. */
  method FindTask(s: seq<Task>, id: u32) returns (k: nat)
    ensures k <= |s|
    ensures forall j :: 0 <= j < k ==> s[j].id != id
    ensures k < |s| ==> s[k].id == id
    ensures k == FirstIndex(s, id)
  {
    k := 0;
    while k < |s| && s[k].id != id
      invariant k <= |s|
      invariant forall j :: 0 <= j < k ==> s[j].id != id
    {
      k := k + 1;
    }
  }

  /** The state of the `app` component. */
  class TodoApp {
    var tasks: seq<Task>
    var nextId: u32

    /** main.rs:42-43. */
    constructor ()
      ensures tasks == [] && nextId == 1
      ensures IdsBelow(tasks, nextId)
    {
      tasks, nextId := [], 1;
    }

    function State(): TodoState
      reads this
    {
      TodoState(tasks, nextId)
    }

    /** `add_task` (main.rs:49-59): append a new open task numbered by the counter, then bump the counter. */
    method AddTask(description: string)
      modifies this
      ensures tasks == old(tasks) + [Task(old(nextId), description, false)]
      ensures nextId == WrappingInc(old(nextId))
    {
      var newTasks := tasks + [Task(nextId, description, false)];
      tasks := newTasks;
      nextId := WrappingInc(nextId);
    }

    /** `toggle_task` (main.rs:65-72). */
    method ToggleTask(id: u32)
      modifies this`tasks
      ensures tasks == Toggled(old(tasks), id)
    {
      var k := FindTask(tasks, id);
      ToggledAt(tasks, id);
      if k < |tasks| {
        tasks := tasks[k := tasks[k].(completed := !tasks[k].completed)];
      }
    }

    /** `delete_task` (main.rs:77-80). */
    method DeleteTask(id: u32)
      modifies this`tasks
      ensures tasks == Deleted(old(tasks), id)
    {
      tasks := Deleted(tasks, id);
    }

    /** `edit_task` (main.rs:86-92). */
    method EditTask(id: u32, description: string)
      modifies this`tasks
      ensures tasks == Edited(old(tasks), id, description)
    {
      var k := FindTask(tasks, id);
      EditedAt(tasks, id, description);
      if k < |tasks| {
        tasks := tasks[k := tasks[k].(description := description)];
      }
    }

    /** The decoded-file branch of `import_tasks` (main.rs:128-136); `None` is a file that did not read or parse. */
    method ImportTasks(parsed: Option<seq<Task>>)
      modifies this
      ensures parsed.None? ==> tasks == old(tasks) && nextId == old(nextId)
      ensures parsed.Some? ==> tasks == parsed.value && nextId == WrappingInc(MaxId(parsed.value))
    {
      if parsed.Some? {
        var imported := parsed.value;
        tasks := imported;
        nextId := WrappingInc(MaxId(imported));
      }
    }

    /** The add form's submit (main.rs:173-180): an empty input is not passed on. */
    method SubmitAddForm(description: string)
      modifies this
      ensures State() == Apply(old(State()), SubmitAdd(description))
    {
      if description != "" {
        AddTask(description);
      }
    }

    /** The edit form's save (main.rs:247-253): an empty input is not passed on. */
    method SaveEditForm(id: u32, description: string)
      modifies this`tasks
      ensures State() == Apply(old(State()), SaveEdit(id, description))
    {
      if description != "" {
        EditTask(id, description);
      }
    }
  }
}
