/**
 * The non-rendering logic of the dashboard's TaskCard component: the
 * schedule text, the active test, the status toggle, renaming, label
 * clicks, the label list, export and the runs route.
 *
 * The card receives its task object as a prop, so the task is an object; a callback the card invokes is modelled by returning the
 * value it passes to that callback.
 */
module TaskCard {

  datatype Option<T> = None | Some(value: T)

  datatype Status = Active | Inactive

  datatype LabelProperties = LabelProperties(color: string, description: string)

  datatype Label = Label(id: string, name: string, properties: LabelProperties)

  datatype Organization = Organization(id: string, name: string)

  /**
   * A task as the card receives it. The optional string fields every, offset
   * and cron are "" when unset: the component only tests their truthiness,
   * and an absent string and the empty string are both falsy.
   */
  class Task {
    var id: string
    var name: string
    var status: Status
    var every: string
    var offset: string
    var cron: string
    var flux: string
    var labels: seq<Label>
    var organization: Organization
    var latestCompleted: string

    constructor (id: string, name: string, status: Status, every: string, offset: string, cron: string,
                 flux: string, labels: seq<Label>, organization: Organization, latestCompleted: string)
      ensures this.id == id && this.name == name && this.status == status
      ensures this.every == every && this.offset == offset && this.cron == cron
      ensures this.flux == flux && this.labels == labels
      ensures this.organization == organization && this.latestCompleted == latestCompleted
    {
      this.id := id;
      this.name := name;
      this.status := status;
      this.every := every;
      this.offset := offset;
      this.cron := cron;
      this.flux := flux;
      this.labels := labels;
      this.organization := organization;
      this.latestCompleted := latestCompleted;
    }
  }

  /** The two tasks agree on every field except, possibly, the name. */
  predicate SameExceptName(a: Task, b: Task)
    reads a, b
  {
    && a.id == b.id && a.status == b.status
    && a.every == b.every && a.offset == b.offset && a.cron == b.cron
    && a.flux == b.flux && a.labels == b.labels
    && a.organization == b.organization && a.latestCompleted == b.latestCompleted
  }

  // ---------------------------------------------------------------------------
  // Schedule text

  /**
   * The text of the `schedule` getter for the given every, offset and cron
   * fields, in priority order: "every E, offset O" when both are set, else
   * "every E" when the interval is set, else the cron string verbatim, else "".
   */
  function ScheduleText(every: string, offset: string, cron: string): (s: string)
    ensures every != "" ==> |s| >= 6 + |every| && s[..6 + |every|] == "every " + every
    ensures every != "" ==> s[6 + |every|..] == (if offset != "" then ", offset " + offset else "")
    ensures every == "" ==> s == cron
    ensures s == "" <==> every == "" && cron == ""
  {
    if every != "" && offset != "" then "every " + every + ", offset " + offset
    else if every != "" then "every " + every
    else if cron != "" then cron
    else ""
  }

  /** The `schedule` getter of the card: it reads only the every, offset and cron fields. */
  function Schedule(task: Task): (s: string)
    reads task`every, task`offset, task`cron
    ensures task.every != "" ==> |s| >= 6 + |task.every| && s[..6 + |task.every|] == "every " + task.every
    ensures task.every != "" ==>
      s[6 + |task.every|..] == (if task.offset != "" then ", offset " + task.offset else "")
    ensures task.every == "" ==> s == task.cron
    ensures s == "" <==> task.every == "" && task.cron == ""
  {
    ScheduleText(task.every, task.offset, task.cron)
  }

  /** A set interval wins over any cron string: the cron field is then never read. */
  lemma ScheduleIntervalBeatsCron(every: string, offset: string, cron1: string, cron2: string)
    requires every != ""
    ensures ScheduleText(every, offset, cron1) == ScheduleText(every, offset, cron2)
    ensures ScheduleText(every, offset, cron1)[..6 + |every|] == "every " + every
  {
  }

  /** Without an interval the offset is ignored and the cron string is the text verbatim. */
  lemma ScheduleOffsetNeedsInterval(offset1: string, offset2: string, cron: string)
    ensures ScheduleText("", offset1, cron) == ScheduleText("", offset2, cron) == cron
  {
  }

  // ---------------------------------------------------------------------------
  // Status

  /** The `isTaskActive` getter. */
  function IsTaskActive(task: Task): (active: bool)
    reads task
    ensures active <==> task.status == Active
  {
    if task.status == Active then true else false
  }

  /** The status changeToggle assigns: Inactive for an active task, Active otherwise. */
  function Toggled(s: Status): (t: Status)
    ensures t != s
  {
    if s == Active then Inactive else Active
  }

  lemma ToggledTwice(s: Status)
    ensures Toggled(Toggled(s)) == s
  {
  }

  /**
   * The changeToggle handler: flips the status of the task object itself and
   * returns the object it hands to onActivate, which is that same task.
   */
  method ChangeToggle(task: Task) returns (activated: Task)
    modifies task`status
    ensures activated == task
    ensures task.status == Toggled(old(task.status))
    ensures IsTaskActive(task) == !old(IsTaskActive(task))
  {
    if task.status == Active {
      task.status := Inactive;
    } else {
      task.status := Active;
    }
    activated := task;
  }

  /** Two toggles of the same task restore its status and hand the task itself to onActivate both times. */
  method ChangeToggleTwice(task: Task) returns (first: Task, second: Task)
    modifies task`status
    ensures first == task && second == task
    ensures task.status == old(task.status)
  {
    first := ChangeToggle(task);
    second := ChangeToggle(task);
    ToggledTwice(old(task.status));
  }

  // ---------------------------------------------------------------------------
  // Renaming

  /**
   * The handleUpdateTask handler. `onUpdate` is an optional prop that the
   * handler calls unguarded: when the parent supplied it (`hasOnUpdate`), the
   * task handed to it is a new object, `{...task, name}`; when it did not, the
   * call throws a TypeError and nothing is handed over (None). Either way the
   * card's own task is left as it was.
   */
  method HandleUpdateTask(task: Task, name: string, hasOnUpdate: bool) returns (updated: Option<Task>)
    ensures updated.Some? <==> hasOnUpdate
    ensures updated.Some? ==> fresh(updated.value)
    ensures updated.Some? ==> updated.value.name == name && SameExceptName(task, updated.value)
  {
    var copy := new Task(task.id, name, task.status, task.every, task.offset, task.cron,
                         task.flux, task.labels, task.organization, task.latestCompleted);
    if !hasOnUpdate {
      return None;
    }
    updated := Some(copy);
  }

  // ---------------------------------------------------------------------------
  // Labels

  /** Some label of `labels` has the id `id`. */
  predicate HasLabel(labels: seq<Label>, id: string)
  {
    exists i :: 0 <= i < |labels| && labels[i].id == id
  }

  /** The position Array.prototype.find stops at: the first label whose id is `id`. */
  function FindLabel(labels: seq<Label>, id: string): (i: nat)
    requires HasLabel(labels, id)
    ensures i < |labels| && labels[i].id == id
    ensures forall j :: 0 <= j < i ==> labels[j].id != id
  {
    if labels[0].id == id then 0
    else
      assert HasLabel(labels[1..], id) by {
        var k :| 0 <= k < |labels| && labels[k].id == id;
        assert labels[1..][k - 1].id == id;
      }
      1 + FindLabel(labels[1..], id)
  }

  /** The handleLabelClick handler: the one search term it hands to onFilterChange. */
  function HandleLabelClick(task: Task, id: string): (term: string)
    reads task
    requires HasLabel(task.labels, id)
    ensures exists i :: 0 <= i < |task.labels| && task.labels[i].id == id && term == task.labels[i].name
                        && forall j :: 0 <= j < i ==> task.labels[j].id != id
  {
    task.labels[FindLabel(task.labels, id)].name
  }

  /** One rendered label: its id, colour, name and description. */
  datatype LabelEntry = LabelEntry(id: string, colorHex: string, name: string, description: string)

  /** The label area of the card: the empty add-label affordance, or one entry per label. */
  datatype LabelsView = NoLabels | LabelList(entries: seq<LabelEntry>)

  function EntryOf(l: Label): LabelEntry
  {
    LabelEntry(l.id, l.properties.color, l.name, l.properties.description)
  }

  /** The `labels` getter, without its component tree. */
  function LabelsOf(task: Task): (v: LabelsView)
    reads task
    ensures v.NoLabels? <==> |task.labels| == 0
    ensures v.LabelList? ==>
      && |v.entries| == |task.labels|
      && forall i :: 0 <= i < |task.labels| ==> v.entries[i] == EntryOf(task.labels[i])
  {
    if |task.labels| == 0 then NoLabels
    else LabelList(seq(|task.labels|, i requires 0 <= i < |task.labels| reads task => EntryOf(task.labels[i])))
  }

  /**
   * Clicking the i-th rendered entry filters by the name of the first label
   * sharing its id, which is the entry's own name when label ids are distinct.
   */
  lemma ClickFiltersByLabelName(task: Task, i: nat)
    requires LabelsOf(task).LabelList? && i < |LabelsOf(task).entries|
    ensures HasLabel(task.labels, LabelsOf(task).entries[i].id)
    ensures (forall j, k :: 0 <= j < k < |task.labels| ==> task.labels[j].id != task.labels[k].id) ==>
      HandleLabelClick(task, LabelsOf(task).entries[i].id) == LabelsOf(task).entries[i].name
  {
  }

  // ---------------------------------------------------------------------------
  // Export and navigation

  /** What downloadTextFile is handed: the file content and its name. */
  datatype Download = Download(content: string, filename: string)

  /** The handleExport handler: the script body, in a file named after the task with a .flux suffix. */
  function HandleExport(task: Task): (d: Download)
    reads task
    ensures d.content == task.flux
    ensures |d.filename| == |task.name| + 5
    ensures d.filename[..|task.name|] == task.name && d.filename[|task.name|..] == ".flux"
  {
    Download(task.flux, task.name + ".flux")
  }

  /** The route handleViewRuns pushes for the task with id `taskID`. */
  function RunsRoute(taskID: string): (route: string)
    ensures |route| == |taskID| + 11
    ensures route[..6] == "tasks/" && route[6..|route| - 5] == taskID && route[|route| - 5..] == "/runs"
  {
    "tasks/" + taskID + "/runs"
  }

  /** The task id a runs route names, if `route` is one. */
  function RunsRouteTaskID(route: string): (id: Option<string>)
    ensures id.Some? ==> RunsRoute(id.value) == route
  {
    if |route| >= 11 && route[..6] == "tasks/" && route[|route| - 5..] == "/runs" then
      assert route == route[..6] + route[6..|route| - 5] + route[|route| - 5..];
      Some(route[6..|route| - 5])
    else None
  }

  /** The route is exactly "tasks/" + id + "/runs": the id is recovered from it. */
  lemma RunsRouteRoundTrip(taskID: string)
    ensures RunsRouteTaskID(RunsRoute(taskID)) == Some(taskID)
  {
  }
}
