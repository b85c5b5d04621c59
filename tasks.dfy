/** create_default_tasks: the checklist generated when an event is first
    saved, with deadlines a fixed number of days before the event date. */
module Tasks {
  import opened EventModel

  /** What each default task asks for; the wording is not modelled. */
  datatype TaskContent =
    | KickOffAndSiteVisit
    | DrawingsAnd3DSignOff
    | CueSheetAndRehearsalPlan
    | FinalMediaSourceCheck
    | PresentationsAndRehearsal

  /** A task row: the event it belongs to, its content, its deadline as a day
      number and whether it is done. */
  datatype Task = Task(event: Event, content: TaskContent, deadline: int, isDone: bool)

  /** A new task starts not done. */
  function NewTask(event: Event, content: TaskContent, deadline: int): Task
  {
    Task(event, content, deadline, false)
  }

  /** The tasks bulk-inserted after `instance` is saved: none unless the
      save created it; otherwise kick-off (30 days out) and drawing sign-off
      (14 days out), then for concerts and festivals the cue sheet (7 days)
      and the media check (3 days), and for other events the presentations
      and rehearsal (3 days). */
  method CreateDefaultTasks(instance: Event, created: bool) returns (tasks: seq<Task>)
    ensures !created ==> tasks == []
    ensures created ==> |tasks| == if IsPerformance(instance.eventType) then 4 else 3
    ensures created ==>
              && tasks[0].content == KickOffAndSiteVisit && tasks[0].deadline == instance.date - 30
              && tasks[1].content == DrawingsAnd3DSignOff && tasks[1].deadline == instance.date - 14
    ensures created && IsPerformance(instance.eventType) ==>
              && tasks[2].content == CueSheetAndRehearsalPlan && tasks[2].deadline == instance.date - 7
              && tasks[3].content == FinalMediaSourceCheck && tasks[3].deadline == instance.date - 3
    ensures created && !IsPerformance(instance.eventType) ==>
              tasks[2].content == PresentationsAndRehearsal && tasks[2].deadline == instance.date - 3
    ensures forall t :: t in tasks ==>
              && t.event == instance && !t.isDone
              && instance.date - 30 <= t.deadline < instance.date
    ensures forall i, j :: 0 <= i < j < |tasks| ==>
              tasks[i].deadline < tasks[j].deadline && tasks[i].content != tasks[j].content
  {
    tasks := [];
    if created {
      var dDay := instance.date;
      tasks := tasks + [NewTask(instance, KickOffAndSiteVisit, dDay - 30)];
      tasks := tasks + [NewTask(instance, DrawingsAnd3DSignOff, dDay - 14)];
      if IsPerformance(instance.eventType) {
        tasks := tasks + [NewTask(instance, CueSheetAndRehearsalPlan, dDay - 7)];
        tasks := tasks + [NewTask(instance, FinalMediaSourceCheck, dDay - 3)];
      } else {
        tasks := tasks + [NewTask(instance, PresentationsAndRehearsal, dDay - 3)];
      }
    }
  }
}
