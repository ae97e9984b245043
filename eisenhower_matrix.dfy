/** The Eisenhower priority matrix: tasks sorted into four quadrants, one shared input box. */
module EisenhowerMatrix {
  import opened Text
  import opened Seqs

  datatype Task = Task(id: string, title: string, quadrant: string)

  /** The quadrant ids of the four cards. */
  const Quadrants: seq<string> := ["urgent-important", "important", "urgent", "neither"]

  datatype Matrix = Matrix(tasks: seq<Task>, newTask: string)

  /** Every task sits in one of the four quadrants, as every task the component creates does. */
  ghost predicate WellPlaced(tasks: seq<Task>)
  {
    forall i :: 0 <= i < |tasks| ==> tasks[i].quadrant in Quadrants
  }

  /** `addTask` with the `Date.now()` id supplied: a blank input changes nothing; otherwise the task is
      appended to the quadrant as typed and the input is cleared. */
  function AddTask(m: Matrix, quadrant: string, id: string): (r: Matrix)
    ensures IsBlank(m.newTask) ==> r == m
    ensures !IsBlank(m.newTask) ==> r.tasks == m.tasks + [Task(id, m.newTask, quadrant)] && r.newTask == ""
    ensures WellPlaced(m.tasks) && quadrant in Quadrants ==> WellPlaced(r.tasks)
  {
    if IsBlank(m.newTask) then m
    else Matrix(m.tasks + [Task(id, m.newTask, quadrant)], "")
  }

  function InQuadrant(q: string): Task -> bool
  {
    (t: Task) => t.quadrant == q
  }

  /** `getTasksForQuadrant`: the tasks of one quadrant, in list order. */
  function TasksForQuadrant(tasks: seq<Task>, q: string): (r: seq<Task>)
    ensures forall i :: 0 <= i < |r| ==> r[i].quadrant == q && r[i] in tasks
    ensures forall i :: 0 <= i < |tasks| && tasks[i].quadrant == q ==> tasks[i] in r
  {
    Filter(tasks, InQuadrant(q))
  }

  /** Each task of the quadrant is listed as often as it occurs, and no other task is. */
  lemma TasksForQuadrantCount(tasks: seq<Task>, q: string, t: Task)
    ensures multiset(TasksForQuadrant(tasks, q))[t] == if t.quadrant == q then multiset(tasks)[t] else 0
  {
    FilterCount(tasks, InQuadrant(q), t);
  }

  lemma TasksForQuadrantOrder(tasks: seq<Task>, q: string)
    ensures IsSubsequence(TasksForQuadrant(tasks, q), tasks)
  {
    FilterIsSubsequence(tasks, InQuadrant(q));
  }

  function QuadrantSizes(tasks: seq<Task>): nat
  {
    |TasksForQuadrant(tasks, Quadrants[0])| + |TasksForQuadrant(tasks, Quadrants[1])|
    + |TasksForQuadrant(tasks, Quadrants[2])| + |TasksForQuadrant(tasks, Quadrants[3])|
  }

  /** The four quadrant lists partition the tasks: their sizes add up to the number of tasks. */
  lemma {:induction false} QuadrantsPartition(tasks: seq<Task>)
    requires WellPlaced(tasks)
    ensures QuadrantSizes(tasks) == |tasks|
  {
    if tasks != [] {
      QuadrantsPartition(tasks[1..]);
    }
  }

  /** Adding to quadrant `q` grows that quadrant's list by the new task at its end and leaves the other
      quadrants' lists as they were. */
  lemma {:induction false} AddTaskQuadrants(m: Matrix, quadrant: string, id: string, q: string)
    requires !IsBlank(m.newTask)
    ensures var r := AddTask(m, quadrant, id);
      TasksForQuadrant(r.tasks, q) ==
        if q == quadrant then TasksForQuadrant(m.tasks, q) + [Task(id, m.newTask, quadrant)]
        else TasksForQuadrant(m.tasks, q)
  {
    FilterAppend(m.tasks, [Task(id, m.newTask, quadrant)], InQuadrant(q));
  }
}
