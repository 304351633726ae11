/** gp1/TodoList/Task.java and gp1/TodoList/TodoList.java: a to-do list of
    fixed capacity, filled front to back, whose tasks can be edited in place. */
module Todo {

  /** The status of a task. Only the constant `NEW` is named by the list;
      the enum's other constants are represented by their names. */
  datatype TaskStatus = NEW | Other(name: string)

  /** A task: a description and a status, both reassigned by setters. */
  class Task {
    var description: string
    var status: TaskStatus

    constructor (d: string)
      ensures description == d && status == NEW
    {
      description := d;
      status := NEW;
    }

    method SetDescription(description: string)
      modifies this
      ensures this.description == description && status == old(status)
    {
      this.description := description;
    }

    method SetStatus(status: TaskStatus)
      modifies this
      ensures this.status == status && description == old(description)
    {
      this.status := status;
    }

    method GetDescription() returns (d: string)
      ensures d == description
    {
      d := description;
    }

    method GetStatus() returns (s: TaskStatus)
      ensures s == status
    {
      s := status;
    }
  }

  /** What a task holds at a given moment. */
  datatype Entry = Entry(description: string, status: TaskStatus)

  class TodoList {
    var tasks: array<Task?>
    const capacity: nat
    var count: nat

    /** The tasks added so far, in order of addition. */
    ghost var Contents: seq<Entry>
    /** The list, its array and its tasks. */
    ghost var Repr: set<object>

    /** Slots below `count` hold distinct tasks that agree with `Contents`;
        the slots from `count` on are still empty. */
    ghost predicate Valid()
      reads this, Repr
    {
      && this in Repr && tasks in Repr
      && tasks.Length == capacity
      && count <= capacity
      && |Contents| == count
      && (forall i :: 0 <= i < count ==> tasks[i] != null && tasks[i] in Repr)
      && (forall i, j :: 0 <= i < j < count ==> tasks[i] != tasks[j])
      && (forall i :: 0 <= i < count ==>
            tasks[i].description == Contents[i].description && tasks[i].status == Contents[i].status)
      && (forall i :: count <= i < capacity ==> tasks[i] == null)
    }

    constructor (capacity: nat)
      ensures Valid() && fresh(Repr)
      ensures this.capacity == capacity && tasks.Length == capacity
      ensures count == 0 && Contents == []
    {
      this.capacity := capacity;
      tasks := new Task?[capacity](_ => null);
      count := 0;
      Contents := [];
      new;
      Repr := {this, tasks};
    }

    /** Appends a task with status NEW while there is room; a full list is left as it was. */
    method AddTask(description: string)
      requires Valid()
      modifies Repr
      ensures Valid() && fresh(Repr - old(Repr))
      ensures tasks == old(tasks)
      ensures forall i :: 0 <= i < old(count) ==> tasks[i] == old(tasks[i])
      ensures old(count) < capacity ==>
        count == old(count) + 1 && Contents == old(Contents) + [Entry(description, NEW)]
      ensures old(count) == capacity ==>
        count == old(count) && Contents == old(Contents) && Repr == old(Repr)
        && tasks[..] == old(tasks[..])
    {
      if count < capacity {
        var t := new Task(description);
        tasks[count] := t;
        count := count + 1;
        Contents := Contents + [Entry(description, NEW)];
        Repr := Repr + {t};
      }
    }

    /** Sets the status of the task at `index`; an index outside the tasks
        added so far changes nothing. */
    method SetStatus(index: int, status: TaskStatus)
      requires Valid()
      modifies Repr
      ensures Valid() && Repr == old(Repr)
      ensures tasks == old(tasks) && tasks[..] == old(tasks[..]) && count == old(count)
      ensures 0 <= index < count ==>
        Contents == old(Contents)[index := Entry(old(Contents)[index].description, status)]
      ensures !(0 <= index < count) ==> Contents == old(Contents)
    {
      if 0 <= index < count {
        tasks[index].SetStatus(status);
        Contents := Contents[index := Entry(Contents[index].description, status)];
      }
    }

    /** Sets the description of the task at `index`; an index outside the
        tasks added so far changes nothing. */
    method SetDescription(index: int, newDescription: string)
      requires Valid()
      modifies Repr
      ensures Valid() && Repr == old(Repr)
      ensures tasks == old(tasks) && tasks[..] == old(tasks[..]) && count == old(count)
      ensures 0 <= index < count ==>
        Contents == old(Contents)[index := Entry(newDescription, old(Contents)[index].status)]
      ensures !(0 <= index < count) ==> Contents == old(Contents)
    {
      if 0 <= index < count {
        tasks[index].SetDescription(newDescription);
        Contents := Contents[index := Entry(newDescription, Contents[index].status)];
      }
    }
  }
}
