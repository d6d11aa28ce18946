/** The task list page (pages/TaskList.tsx): the tasks on show for the
    chosen type filter, the card and delete clicks, and the filter buttons.
    The role is the string the page is given (`None` when the prop is
    left out, which defaults to "contributor"); the only state is the
    chosen filter, which the buttons overwrite. */
module TaskListPage {
  import opened Common
  import opened Types

  /** The filter value that shows every type. */
  const AllTypes: string := "All"

  predicate IsAvailable(t: Task)
  {
    t.status == "AVAILABLE"
  }

  predicate OfType(filterType: string, t: Task)
  {
    filterType == AllTypes || t.taskType == filterType
  }

  /** `filteredTasks`: the tasks whose status is "AVAILABLE", then those of
      the chosen type. */
  function FilteredTasks(tasks: seq<Task>, filterType: string): seq<Task>
  {
    Filter(Filter(tasks, IsAvailable), (t: Task) => OfType(filterType, t))
  }

  /** A task is shown exactly when its status is "AVAILABLE" and its type
      matches the filter; the list keeps the order of `tasks` and each
      shown task as often as it occurs there. */
  lemma ShownTasks(tasks: seq<Task>, filterType: string)
    ensures var shown := FilteredTasks(tasks, filterType);
      IsSubsequence(shown, tasks) &&
      (forall t :: t in shown <==> t in tasks && t.status == "AVAILABLE" &&
                                   (filterType == "All" || t.taskType == filterType)) &&
      (forall t :: multiset(shown)[t] == if IsAvailable(t) && OfType(filterType, t) then multiset(tasks)[t] else 0)
  {
    var available := Filter(tasks, IsAvailable);
    FilterIsSubsequence(available, (t: Task) => OfType(filterType, t));
    FilterIsSubsequence(tasks, IsAvailable);
    SubsequenceTransitive(FilteredTasks(tasks, filterType), available, tasks);
    forall t ensures multiset(FilteredTasks(tasks, filterType))[t] ==
                     if IsAvailable(t) && OfType(filterType, t) then multiset(tasks)[t] else 0 {
      FilterCount(tasks, IsAvailable, t);
      FilterCount(available, (t: Task) => OfType(filterType, t), t);
    }
  }

  lemma {:induction false} SubsequenceTransitive<T>(xs: seq<T>, ys: seq<T>, zs: seq<T>)
    requires IsSubsequence(xs, ys) && IsSubsequence(ys, zs)
    ensures IsSubsequence(xs, zs)
    decreases |zs|
  {
    if xs != [] && zs != [] {
      if ys[0] == zs[0] && IsSubsequence(ys[1..], zs[1..]) {
        if xs[0] == ys[0] && IsSubsequence(xs[1..], ys[1..]) {
          SubsequenceTransitive(xs[1..], ys[1..], zs[1..]);
        } else {
          SubsequenceTransitive(xs, ys[1..], zs[1..]);
        }
      } else {
        SubsequenceTransitive(xs, ys, zs[1..]);
      }
    }
  }

  /** With the filter "All" the list is exactly the "AVAILABLE" tasks, in
      their order. */
  lemma AllShowsEveryAvailableTask(tasks: seq<Task>)
    ensures FilteredTasks(tasks, "All") == Filter(tasks, IsAvailable)
  {
    FilterAll(Filter(tasks, IsAvailable), (t: Task) => OfType("All", t));
  }

  /** A task whose status is spelled as a member of the status enumeration
      ("Available", "In Progress", ...) is never shown. */
  lemma EnumerationStatusIsNeverShown(tasks: seq<Task>, filterType: string, t: Task, s: TaskStatus)
    requires t.status == s.Value()
    ensures t !in FilteredTasks(tasks, filterType)
  {
    StatusValuesAreNotTheComparedStrings(s);
  }

  /** The values of the task types, in declaration order. */
  const TypeValues: seq<string> := [AudioCollection.Value(), ImageCollection.Value(), TextAnnotation.Value(),
                                    ImageLabeling.Value(), Survey.Value()]

  /** Every task type has its value among `TypeValues`, and the filter
      values differ: all but two by their length, and those two by their
      first letter. */
  lemma TypeValuesAreDistinct()
    ensures forall ty: TaskType :: ty.Value() in TypeValues
    ensures forall i, j :: 0 <= i < j < |[AllTypes] + TypeValues| ==> ([AllTypes] + TypeValues)[i] != ([AllTypes] + TypeValues)[j]
  {
    var b := [AllTypes] + TypeValues;
    assert |b[0]| == 3 && |b[1]| == 16 && |b[2]| == 16 && |b[3]| == 15 && |b[4]| == 14 && |b[5]| == 10;
    assert b[1][0] != b[2][0];
    forall ty: TaskType ensures ty.Value() in TypeValues {
      match ty
      case AudioCollection => assert TypeValues[0] == ty.Value();
      case ImageCollection => assert TypeValues[1] == ty.Value();
      case TextAnnotation => assert TypeValues[2] == ty.Value();
      case ImageLabeling => assert TypeValues[3] == ty.Value();
      case Survey => assert TypeValues[4] == ty.Value();
    }
  }

  /** The filter buttons, in order: "All", then the value of each task
      type, each type once; no two buttons carry the same value. */
  function FilterButtons(): (b: seq<string>)
    ensures |b| == 6 && b[0] == AllTypes
    ensures forall k :: 1 <= k < 6 ==> exists ty: TaskType :: b[k] == ty.Value()
    ensures forall ty: TaskType :: ty.Value() in b[1..]
    ensures forall i, j :: 0 <= i < j < |b| ==> b[i] != b[j]
  {
    var b := [AllTypes] + TypeValues;
    assert b[1] == AudioCollection.Value() && b[2] == ImageCollection.Value();
    assert b[3] == TextAnnotation.Value() && b[4] == ImageLabeling.Value() && b[5] == Survey.Value();
    assert b[1..] == TypeValues;
    TypeValuesAreDistinct();
    b
  }

  /** "Clear Filters" appears when nothing is shown and sets the filter to
      "All". Clearing never hides a task that was shown, and after it the
      list is empty only when no task is "AVAILABLE". */
  function ClearFilters(): string
  {
    AllTypes
  }

  lemma ClearingShowsMore(tasks: seq<Task>, filterType: string)
    ensures forall t :: t in FilteredTasks(tasks, filterType) ==> t in FilteredTasks(tasks, ClearFilters())
    ensures FilteredTasks(tasks, ClearFilters()) == [] <==> forall t :: t in tasks ==> t.status != "AVAILABLE"
  {
    ShownTasks(tasks, filterType);
    ShownTasks(tasks, ClearFilters());
    if FilteredTasks(tasks, ClearFilters()) != [] {
      assert FilteredTasks(tasks, ClearFilters())[0] in FilteredTasks(tasks, ClearFilters());
    }
  }

  /** A click on a card: `onSelectTask(task)` is called exactly when the
      role is "contributor"; other roles' cards do nothing. */
  function CardClick(userRole: Option<string>, task: Task): (selected: Option<Task>)
    ensures selected.Some? <==> RoleProp(userRole) == "contributor"
    ensures selected.Some? ==> selected.value == task
  {
    if RoleProp(userRole) == "contributor" then Some(task) else None
  }

  /** A click on the delete button, which only the "admin" role sees:
      `onDeleteTask(task.id)` is called when the user confirms and the
      handler was given. */
  function DeleteClick(userRole: Option<string>, confirmed: bool, hasHandler: bool, task: Task): (deleted: Option<string>)
    ensures deleted.Some? <==> RoleProp(userRole) == "admin" && confirmed && hasHandler
    ensures deleted.Some? ==> deleted.value == task.id
  {
    if RoleProp(userRole) == "admin" && confirmed && hasHandler then Some(task.id) else None
  }

  /** No role both selects and deletes a task. */
  lemma SelectAndDeleteExclusive(userRole: Option<string>, confirmed: bool, hasHandler: bool, task: Task)
    ensures !(CardClick(userRole, task).Some? && DeleteClick(userRole, confirmed, hasHandler, task).Some?)
  {
  }
}
