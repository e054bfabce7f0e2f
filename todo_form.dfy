/** The task form (src/components/todos/TodoForm.tsx): a local draft of a
    task that is reset or copied when the form opens or closes, validated
    and turned into a task record on submit, and extended by time tracking.
    The store's state (the task being edited), the clock and freshly minted
    ids are parameters; what the form dispatches is returned as effects. */
module TodoForm {
  import opened Wrappers
  import opened TodoTypes

  /** The draft: every field of a task, each possibly unset. */
  datatype Draft = Draft(
    id: Option<string>,
    title: Option<string>,
    description: Option<string>,
    completed: Option<bool>,
    createdAt: Option<Time>,
    updatedAt: Option<Time>,
    dueDate: Option<Time>,
    category: Option<string>,
    priority: Option<Priority>,
    notes: Option<string>,
    recurrence: Option<Recurrence>,
    recurrenceEndDate: Option<Time>,
    subtasks: Option<seq<Subtask>>,
    timeEntries: Option<seq<TimeEntry>>,
    sharedWith: Option<seq<string>>,
    status: Option<Status>,
    activeTracking: Option<TimeEntry>)

  datatype TrackingMode = Elapsed | Countdown

  /** The store actions the form dispatches. */
  datatype Action = AddTask(task: Task) | UpdateTask(task: Task) | SetEditingTask(editing: Option<Task>)

  /** What a handler does outside the form: dispatch an action, or call
      the caller's `onClose`. */
  datatype Effect = Dispatch(action: Action) | RequestClose

  const TitleRequired: string := "Title is required"

  /** The draft a fresh form starts from: an empty title and description,
      the first default category and the default priority, recurrence and
      status, empty lists, no running session, and no identity or dates. */
  function EmptyDraft(defaultCategory: string): (d: Draft)
    ensures d.title == Some("") && d.description == Some("")
    ensures d.category == Some(defaultCategory) && d.priority == Some(Medium)
    ensures d.recurrence == Some(NoRecurrence) && d.status == Some(Pending)
    ensures d.subtasks == Some([]) && d.timeEntries == Some([]) && d.sharedWith == Some([])
    ensures d.activeTracking.None?
    ensures d.id.None? && d.completed.None? && d.createdAt.None? && d.updatedAt.None?
    ensures d.dueDate.None? && d.notes.None? && d.recurrenceEndDate.None?
  {
    Draft(
      id := None, title := Some(""), description := Some(""), completed := None,
      createdAt := None, updatedAt := None, dueDate := None,
      category := Some(defaultCategory), priority := Some(Medium), notes := None,
      recurrence := Some(NoRecurrence), recurrenceEndDate := None,
      subtasks := Some([]), timeEntries := Some([]), sharedWith := Some([]),
      status := Some(Pending), activeTracking := None)
  }

  /** The draft copied from the task being edited: every field of the task,
      the required ones set and the optional ones as the task has them. */
  function DraftOf(t: Task): (d: Draft)
    ensures d.id == Some(t.id) && d.title == Some(t.title) && d.completed == Some(t.completed)
    ensures d.createdAt == Some(t.createdAt) && d.updatedAt == Some(t.updatedAt)
    ensures d.category == Some(t.category) && d.priority == Some(t.priority) && d.status == Some(t.status)
    ensures d.description == t.description && d.dueDate == t.dueDate && d.notes == t.notes
    ensures d.recurrence == t.recurrence && d.recurrenceEndDate == t.recurrenceEndDate
    ensures d.subtasks == t.subtasks && d.timeEntries == t.timeEntries && d.sharedWith == t.sharedWith
    ensures d.activeTracking == t.activeTracking
  {
    Draft(
      id := Some(t.id), title := Some(t.title), description := t.description,
      completed := Some(t.completed), createdAt := Some(t.createdAt),
      updatedAt := Some(t.updatedAt), dueDate := t.dueDate,
      category := Some(t.category), priority := Some(t.priority), notes := t.notes,
      recurrence := t.recurrence, recurrenceEndDate := t.recurrenceEndDate,
      subtasks := t.subtasks, timeEntries := t.timeEntries, sharedWith := t.sharedWith,
      status := Some(t.status), activeTracking := t.activeTracking)
  }

  /** The countdown length the edited task's session carries, if it is truthy. */
  function InferredCountdown(t: Task): (r: Option<int>)
    ensures r.Some? <==> t.activeTracking.Some? && TruthyNumber(t.activeTracking.value.countdownDuration)
    ensures r.Some? ==> r == t.activeTracking.value.countdownDuration && r.value != 0
  {
    if t.activeTracking.Some? && TruthyNumber(t.activeTracking.value.countdownDuration)
    then t.activeTracking.value.countdownDuration
    else None
  }

  /** The tracking mode shown for the edited task. */
  function InferredMode(t: Task): (m: TrackingMode)
    ensures m == Countdown <==> InferredCountdown(t).Some?
  {
    if t.activeTracking.Some? && TruthyNumber(t.activeTracking.value.countdownDuration)
    then Countdown
    else Elapsed
  }

  /** The validation errors of a draft: only the title is required. */
  function ValidationErrors(d: Draft): (errors: map<string, string>)
    ensures errors == map[] <==> TruthyString(d.title)
    ensures !TruthyString(d.title) ==> errors == map["title" := TitleRequired]
  {
    if TruthyString(d.title) then map[]
    else
      var required := map["title" := TitleRequired];
      // the key is the witness that this map differs from the empty one
      assert "title" in required;
      required
  }

  /** The committed task built from a draft on submit. */
  function BuildTask(d: Draft, editing: Option<Task>, now: Time, freshId: string,
                     defaultCategory: string): (t: Task)
    ensures t.updatedAt == now
    ensures editing.Some? ==> t.createdAt == editing.value.createdAt && t.completed == editing.value.completed
    ensures editing.Some? && editing.value.id != "" ==> t.id == editing.value.id
    ensures editing.Some? && editing.value.id == "" ==> t.id == freshId
    ensures editing.None? ==> t.id == freshId && t.createdAt == now && !t.completed
    ensures TruthyString(d.category) ==> t.category == d.category.value
    ensures !TruthyString(d.category) ==> t.category == defaultCategory
    ensures t.priority == d.priority.GetOr(Medium)
    ensures t.recurrence == Some(d.recurrence.GetOr(NoRecurrence))
    ensures t.status == d.status.GetOr(Pending)
    ensures t.subtasks == Some(d.subtasks.GetOr([]))
    ensures t.timeEntries == Some(d.timeEntries.GetOr([]))
    ensures t.sharedWith == Some(d.sharedWith.GetOr([]))
    ensures t.title == d.title.GetOr("")
    ensures t.description == d.description && t.dueDate == d.dueDate
    ensures t.notes == d.notes && t.recurrenceEndDate == d.recurrenceEndDate
    ensures t.activeTracking == d.activeTracking
  {
    Task(
      id := if editing.Some? && editing.value.id != "" then editing.value.id else freshId,
      title := d.title.GetOr(""),
      description := d.description,
      completed := editing.Some? && editing.value.completed,
      createdAt := if editing.Some? then editing.value.createdAt else now,
      updatedAt := now,
      dueDate := d.dueDate,
      category := if TruthyString(d.category) then d.category.value else defaultCategory,
      priority := d.priority.GetOr(Medium),
      notes := d.notes,
      recurrence := Some(d.recurrence.GetOr(NoRecurrence)),
      recurrenceEndDate := d.recurrenceEndDate,
      subtasks := Some(d.subtasks.GetOr([])),
      timeEntries := Some(d.timeEntries.GetOr([])),
      sharedWith := Some(d.sharedWith.GetOr([])),
      status := d.status.GetOr(Pending),
      activeTracking := d.activeTracking)
  }

  /** UPDATE when a task is being edited, ADD otherwise. */
  function SubmitIntent(editing: Option<Task>, t: Task): (a: Action)
    ensures a.UpdateTask? <==> editing.Some?
    ensures a.AddTask? <==> editing.None?
    ensures !a.SetEditingTask? && a.task == t
  {
    if editing.Some? then UpdateTask(t) else AddTask(t)
  }

  /** The effects of closing: clear the store's editing task, then ask the
      caller to close. */
  function CloseEffects(): (effects: seq<Effect>)
    ensures |effects| == 2
    ensures effects[0] == Dispatch(SetEditingTask(None)) && effects[1] == RequestClose
  {
    [Dispatch(SetEditingTask(None)), RequestClose]
  }

  /** Every finished entry has an end time; the running session, if any,
      has none. So a draft has at most one running session. */
  predicate SessionsWellFormed(d: Draft) {
    && (d.timeEntries.Some? ==> forall i :: 0 <= i < |d.timeEntries.value| ==> d.timeEntries.value[i].end.Some?)
    && (d.activeTracking.Some? ==> d.activeTracking.value.end.None?)
  }

  /** The draft after starting a session at `now`. */
  function Started(d: Draft, now: Time, countdown: Option<int>): (r: Draft)
    ensures r.activeTracking == Some(TimeEntry(ActiveSessionId, now, None, None, countdown))
    ensures r.timeEntries == d.timeEntries
    ensures r.(activeTracking := d.activeTracking) == d
  {
    d.(activeTracking := Some(TimeEntry(ActiveSessionId, now, None, None, countdown)))
  }

  /** The draft after stopping the running session at `now`, the caller
      having measured `duration`; `entryId` is the new entry's id. */
  function Stopped(d: Draft, duration: int, now: Time, entryId: string): (r: Draft)
    ensures d.activeTracking.None? ==> r == d
    ensures d.activeTracking.Some? ==>
      var before := d.timeEntries.GetOr([]);
      && r.activeTracking.None?
      && r.timeEntries.Some?
      && |r.timeEntries.value| == |before| + 1
      && r.timeEntries.value[..|before|] == before
      && r.timeEntries.value[|before|] ==
           TimeEntry(entryId, d.activeTracking.value.start, Some(now), Some(duration), None)
    ensures r.(timeEntries := d.timeEntries, activeTracking := d.activeTracking) == d
  {
    if d.activeTracking.None? then d
    else
      var entry := TimeEntry(entryId, d.activeTracking.value.start, Some(now), Some(duration), None);
      d.(timeEntries := Some(d.timeEntries.GetOr([]) + [entry]), activeTracking := None)
  }

  /** A session started at `t0` and stopped at `t1` leaves exactly one new
      entry spanning `t0` to `t1`, after the earlier ones. */
  lemma StartThenStop(d: Draft, t0: Time, countdown: Option<int>, duration: int, t1: Time, entryId: string)
    ensures var r := Stopped(Started(d, t0, countdown), duration, t1, entryId);
      && r.timeEntries == Some(d.timeEntries.GetOr([]) + [TimeEntry(entryId, t0, Some(t1), Some(duration), None)])
      && r.activeTracking.None?
      && r.(timeEntries := d.timeEntries, activeTracking := d.activeTracking) == d
  {
  }

  /** Starting and stopping keep every finished entry finished. */
  lemma TrackingKeepsSessionsWellFormed(d: Draft, now: Time, countdown: Option<int>, duration: int, entryId: string)
    requires SessionsWellFormed(d)
    ensures SessionsWellFormed(Started(d, now, countdown))
    ensures SessionsWellFormed(Stopped(d, duration, now, entryId))
  {
  }

  /** Opening an existing task and submitting it unchanged gives back the
      same task, stamped with the submission time, once its optional
      recurrence and lists are filled with their defaults. */
  lemma EditRoundTrip(t: Task, now: Time, freshId: string, defaultCategory: string)
    requires t.id != "" && t.category != ""
    ensures BuildTask(DraftOf(t), Some(t), now, freshId, defaultCategory) ==
      t.(updatedAt := now,
         recurrence := Some(t.recurrence.GetOr(NoRecurrence)),
         subtasks := Some(t.subtasks.GetOr([])),
         timeEntries := Some(t.timeEntries.GetOr([])),
         sharedWith := Some(t.sharedWith.GetOr([])))
  {
  }

  /** Submitting is stable: opening a submitted task and submitting it
      again, unchanged, gives back the same record with only `updatedAt`
      refreshed, whatever draft it was built from (as long as the built id
      and category are non-empty, which the `||` fallbacks need). */
  lemma ResubmitIsStable(d: Draft, editing: Option<Task>, now: Time, freshId: string,
                         later: Time, laterId: string, defaultCategory: string)
    requires BuildTask(d, editing, now, freshId, defaultCategory).id != ""
    requires BuildTask(d, editing, now, freshId, defaultCategory).category != ""
    ensures var t := BuildTask(d, editing, now, freshId, defaultCategory);
      BuildTask(DraftOf(t), Some(t), later, laterId, defaultCategory) == t.(updatedAt := later)
  {
    var t := BuildTask(d, editing, now, freshId, defaultCategory);
    EditRoundTrip(t, later, laterId, defaultCategory);
  }

  /** A new task typed into the empty template gets all the defaults. */
  lemma CreateFromTemplate(title: string, now: Time, freshId: string, defaultCategory: string)
    requires title != ""
    ensures ValidationErrors(EmptyDraft(defaultCategory).(title := Some(title))) == map[]
    ensures BuildTask(EmptyDraft(defaultCategory).(title := Some(title)), None, now, freshId, defaultCategory) ==
      Task(freshId, title, Some(""), false, now, now, None, defaultCategory, Medium, None,
           Some(NoRecurrence), None, Some([]), Some([]), Some([]), Pending, None)
  {
  }

  /** The empty template is invalid until a title is typed, and has no
      running session. */
  lemma TemplateNeedsTitle(defaultCategory: string)
    ensures ValidationErrors(EmptyDraft(defaultCategory)) == map["title" := TitleRequired]
    ensures SessionsWellFormed(EmptyDraft(defaultCategory))
  {
  }

  /** The form component's state. */
  class TodoFormState {
    var task: Draft
    var errors: map<string, string>
    var trackingMode: TrackingMode
    var countdownDuration: Option<int>
    /** The name of the first default category. */
    const defaultCategory: string

    constructor (defaultCategory: string)
      ensures this.defaultCategory == defaultCategory
      ensures task == EmptyDraft(defaultCategory)
      ensures errors == map[] && trackingMode == Elapsed && countdownDuration.None?
    {
      this.defaultCategory := defaultCategory;
      task := EmptyDraft(defaultCategory);
      errors := map[];
      trackingMode := Elapsed;
      countdownDuration := None;
    }

    /** The effect that runs when `isOpen` or the store's editing task
        changes. */
    method SyncWithProps(isOpen: bool, editing: Option<Task>)
      modifies this
      ensures !isOpen ==>
        && task == EmptyDraft(defaultCategory) && trackingMode == Elapsed
        && countdownDuration.None? && errors == map[]
      ensures isOpen && editing.Some? ==>
        && task == DraftOf(editing.value)
        && trackingMode == InferredMode(editing.value)
        && countdownDuration == InferredCountdown(editing.value)
        && errors == old(errors)
      ensures isOpen && editing.None? ==>
        && task == EmptyDraft(defaultCategory) && trackingMode == Elapsed
        && countdownDuration.None? && errors == old(errors)
    {
      if !isOpen {
        task := EmptyDraft(defaultCategory);
        trackingMode := Elapsed;
        countdownDuration := None;
        errors := map[];
        return;
      }
      if editing.Some? {
        var t := editing.value;
        task := DraftOf(t);
        trackingMode := InferredMode(t);
        countdownDuration := InferredCountdown(t);
      } else {
        task := EmptyDraft(defaultCategory);
        trackingMode := Elapsed;
        countdownDuration := None;
      }
    }

    /** Records the draft's errors; true when there are none. */
    method Validate() returns (valid: bool)
      modifies this`errors
      ensures errors == ValidationErrors(task)
      ensures valid <==> TruthyString(task.title)
    {
      var newErrors: map<string, string> := map[];
      if !TruthyString(task.title) {
        newErrors := newErrors["title" := TitleRequired];
      }
      errors := newErrors;
      valid := |newErrors.Keys| == 0;
    }

    /** Submitting: nothing is dispatched for an invalid draft; otherwise
        the built task is added or updated and the form closes. */
    method HandleSubmit(editing: Option<Task>, now: Time, freshId: string) returns (effects: seq<Effect>)
      modifies this`errors
      ensures errors == ValidationErrors(task)
      ensures !TruthyString(task.title) ==> effects == []
      ensures TruthyString(task.title) ==>
        effects == [Dispatch(SubmitIntent(editing, BuildTask(task, editing, now, freshId, defaultCategory)))]
                   + CloseEffects()
    {
      var valid := Validate();
      if !valid {
        return [];
      }
      var newTask := BuildTask(task, editing, now, freshId, defaultCategory);
      var intent := SubmitIntent(editing, newTask);
      var closing := HandleClose();
      effects := [Dispatch(intent)] + closing;
    }

    /** Cancelling: clear the store's editing task and ask to be closed;
        the draft is reset when the caller closes the form. */
    method HandleClose() returns (effects: seq<Effect>)
      ensures effects == CloseEffects()
    {
      effects := CloseEffects();
    }

    /** Starts a session at `now`; a truthy countdown is also remembered
        by the form. */
    method HandleStartTracking(now: Time, countdown: Option<int>)
      modifies this`task, this`countdownDuration
      ensures task == Started(old(task), now, countdown)
      ensures countdownDuration == if TruthyNumber(countdown) then countdown else old(countdownDuration)
    {
      task := Started(task, now, countdown);
      if TruthyNumber(countdown) {
        countdownDuration := countdown;
      }
    }

    /** Stops the running session, if there is one. */
    method HandleStopTracking(duration: int, now: Time, entryId: string)
      modifies this`task, this`countdownDuration
      ensures old(task).activeTracking.None? ==>
        task == old(task) && countdownDuration == old(countdownDuration)
      ensures old(task).activeTracking.Some? ==>
        task == Stopped(old(task), duration, now, entryId) && countdownDuration.None?
    {
      if task.activeTracking.Some? {
        task := Stopped(task, duration, now, entryId);
        countdownDuration := None;
      }
    }
  }
}
