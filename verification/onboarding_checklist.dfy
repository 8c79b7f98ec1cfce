/** The onboarding checklist's progress rule (`OnboardingChecklist::updateProgress`):
    a 0-100 percentage and a status derived from the checklist's required tasks. */
module OnboardingChecklist {

  import opened Seqs
  import opened Numeric

  /** The `status` column of `onboarding_tasks`. */
  datatype TaskStatus = Pending | InProgress | Completed | Skipped

  /** The two columns of a task that the rule reads. */
  datatype Task = Task(isRequired: bool, status: TaskStatus)

  /** The `status` column of `onboarding_checklists`. */
  datatype ChecklistStatus = NotStarted | Started | Done | Overdue

  /** What `updateProgress` writes back to the checklist. */
  datatype Progress = Progress(percent: int, status: ChecklistStatus)

  predicate IsRequired(t: Task) {
    t.isRequired
  }

  predicate IsCompletedRequired(t: Task) {
    t.isRequired && t.status == TaskStatus.Completed
  }

  function RequiredCount(tasks: seq<Task>): nat {
    Count(IsRequired, tasks)
  }

  function CompletedRequiredCount(tasks: seq<Task>): nat {
    Count(IsCompletedRequired, tasks)
  }

  /** Completed required tasks are a subset of required tasks. */
  lemma CompletedWithinRequired(tasks: seq<Task>)
    ensures CompletedRequiredCount(tasks) <= RequiredCount(tasks)
    ensures CompletedRequiredCount(tasks) == RequiredCount(tasks) <==>
              forall i :: 0 <= i < |tasks| && tasks[i].isRequired ==> tasks[i].status == TaskStatus.Completed
  {
    CountImplied(IsRequired, IsCompletedRequired, tasks);
  }

  /** The status the source derives from a percentage. */
  function StatusFromPercent(percent: int): (s: ChecklistStatus)
    ensures s == Done <==> percent >= 100
    ensures s == Started <==> 0 < percent < 100
    ensures s == NotStarted <==> percent <= 0
    ensures s != Overdue
  {
    if percent >= 100 then Done else if percent > 0 then Started else NotStarted
  }

  /** `updateProgress` as written: the rounded share of completed required
      tasks, and a status read off that rounded share. */
  function UpdateProgress(tasks: seq<Task>): (p: Progress)
    ensures RequiredCount(tasks) == 0 ==> p == Progress(0, NotStarted)
    ensures RequiredCount(tasks) > 0 ==>
              (2 * p.percent - 1) * RequiredCount(tasks) <= 200 * CompletedRequiredCount(tasks)
                                                           < (2 * p.percent + 1) * RequiredCount(tasks)
    ensures 0 <= p.percent <= 100
    ensures p.status == Done <==> p.percent >= 100
    ensures p.status == Started <==> 0 < p.percent < 100
    ensures p.status == NotStarted <==> p.percent == 0
    ensures p.status != Overdue
  {
    var total := RequiredCount(tasks);
    var completed := CompletedRequiredCount(tasks);
    CompletedWithinRequired(tasks);
    if total > 0 then
      RoundedPercentRange(completed, total);
      var percent := RoundedPercent(completed, total);
      Progress(percent, StatusFromPercent(percent))
    else
      Progress(0, StatusFromPercent(0))
  }

  /** Tasks that are not required never influence progress or status:
      the result depends on the required tasks alone. */
  lemma {:induction false} OnlyRequiredTasksCount(tasks: seq<Task>)
    ensures UpdateProgress(tasks) == UpdateProgress(Filter(IsRequired, tasks))
  {
    FilterFilter(IsRequired, IsRequired, IsRequired, tasks);
    FilterFilter(IsCompletedRequired, IsRequired, IsCompletedRequired, tasks);
  }

  /** Two checklists whose required tasks agree get the same progress and status,
      whatever their optional tasks are. */
  lemma SameRequiredTasksSameProgress(a: seq<Task>, b: seq<Task>)
    requires Filter(IsRequired, a) == Filter(IsRequired, b)
    ensures UpdateProgress(a) == UpdateProgress(b)
  {
    OnlyRequiredTasksCount(a);
    OnlyRequiredTasksCount(b);
  }

  /** Completing one more task never lowers the progress percentage. */
  lemma {:induction false} CompletingTaskNeverLowersProgress(tasks: seq<Task>, i: nat)
    requires i < |tasks|
    ensures UpdateProgress(tasks[i := tasks[i].(status := TaskStatus.Completed)]).percent
            >= UpdateProgress(tasks).percent
  {
    var x := tasks[i].(status := TaskStatus.Completed);
    var after := tasks[i := x];
    CountUpdate(IsRequired, tasks, i, x);
    CountUpdate(IsCompletedRequired, tasks, i, x);
    var total := RequiredCount(tasks);
    if total > 0 {
      RoundedPercentMonotone(CompletedRequiredCount(tasks), CompletedRequiredCount(after), total);
    }
  }

  /** A checklist with 199 of its 200 required tasks done: the share 99.5
      rounds to 100, so the as-written rule reports it completed. */
  function NearlyDoneChecklist(): (tasks: seq<Task>)
    ensures |tasks| == 200
    ensures tasks[199] == Task(true, TaskStatus.Pending)
    ensures RequiredCount(tasks) == 200
    ensures CompletedRequiredCount(tasks) == 199
  {
    var done := seq(199, _ => Task(true, TaskStatus.Completed));
    var pending := [Task(true, TaskStatus.Pending)];
    CountConstant(IsRequired, Task(true, TaskStatus.Completed), 199);
    CountConstant(IsCompletedRequired, Task(true, TaskStatus.Completed), 199);
    FilterAppend(IsRequired, done, pending);
    FilterAppend(IsCompletedRequired, done, pending);
    done + pending
  }

  /** The as-written rule marks a checklist completed while a required task
      is still pending. */
  lemma CompletedWithPendingRequiredTask()
    ensures var tasks := NearlyDoneChecklist();
            && UpdateProgress(tasks).status == Done
            && exists i :: 0 <= i < |tasks| && tasks[i].isRequired && tasks[i].status != TaskStatus.Completed
  {
    var tasks := NearlyDoneChecklist();
    var p := UpdateProgress(tasks);
    MulCancelLt(199, 2 * p.percent + 1, 200);
    assert tasks[199].isRequired && tasks[199].status != TaskStatus.Completed;
  }

  /** A checklist with 1 of its 201 required tasks done: the share 0.497
      rounds to 0. */
  function BarelyStartedChecklist(): (tasks: seq<Task>)
    ensures |tasks| == 201
    ensures tasks[0] == Task(true, TaskStatus.Completed)
    ensures RequiredCount(tasks) == 201
    ensures CompletedRequiredCount(tasks) == 1
  {
    var done := [Task(true, TaskStatus.Completed)];
    var pending := seq(200, _ => Task(true, TaskStatus.Pending));
    CountConstant(IsRequired, Task(true, TaskStatus.Pending), 200);
    CountConstant(IsCompletedRequired, Task(true, TaskStatus.Pending), 200);
    FilterAppend(IsRequired, done, pending);
    FilterAppend(IsCompletedRequired, done, pending);
    done + pending
  }

  /** The as-written rule reports a checklist not started although one of its
      required tasks is completed. */
  lemma NotStartedWithCompletedTask()
    ensures var tasks := BarelyStartedChecklist();
            && UpdateProgress(tasks).status == NotStarted
            && exists i :: 0 <= i < |tasks| && tasks[i].isRequired && tasks[i].status == TaskStatus.Completed
  {
    var tasks := BarelyStartedChecklist();
    var p := UpdateProgress(tasks);
    MulCancelLt(0, 2 * p.percent + 1, 201);
    assert tasks[0].isRequired && tasks[0].status == TaskStatus.Completed;
  }

  /** The intended rule: the same percentage, but a status read off the
      counts, so that "completed" means every required task is completed. */
  function UpdateProgressByCount(tasks: seq<Task>): (p: Progress)
    ensures p.percent == UpdateProgress(tasks).percent
    ensures p.status == Done <==>
              RequiredCount(tasks) > 0 &&
              forall i :: 0 <= i < |tasks| && tasks[i].isRequired ==> tasks[i].status == TaskStatus.Completed
    ensures p.status == Started <==>
              0 < CompletedRequiredCount(tasks) < RequiredCount(tasks)
    ensures p.status == NotStarted <==> CompletedRequiredCount(tasks) == 0
    ensures p.status != Overdue
  {
    var total := RequiredCount(tasks);
    var completed := CompletedRequiredCount(tasks);
    CompletedWithinRequired(tasks);
    var status :=
      if total > 0 && completed == total then Done
      else if completed > 0 then Started
      else NotStarted;
    Progress(UpdateProgress(tasks).percent, status)
  }
}
