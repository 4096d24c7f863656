/**
 * The task status table: one configuration per status key, and the option
 * lists derived from it for the status select and the filter select.
 */
module TaskStatus {
  import opened Wrappers

  /** The four statuses a stored task can have. */
  datatype Status = Todo | InProgress | Done | Blocked

  /** The key a status is stored under. */
  function Key(s: Status): string
  {
    match s
    case Todo => "todo"
    case InProgress => "in_progress"
    case Done => "done"
    case Blocked => "blocked"
  }

  /** The status stored under a key, if any. */
  function StatusOfKey(key: string): (r: Option<Status>)
    ensures r.Some? ==> Key(r.value) == key
    ensures forall s: Status :: Key(s) == key ==> r == Some(s)
  {
    if key == "todo" then Some(Todo)
    else if key == "in_progress" then Some(InProgress)
    else if key == "done" then Some(Done)
    else if key == "blocked" then Some(Blocked)
    else None
  }

  datatype Config = Config(caption: string, color: string, dotColor: string)

  /** `statusConfig`, as its entries in declaration order. */
  const StatusConfig: seq<(Status, Config)> := [
    (Todo, Config("To Do", "bg-gray-500", "bg-gray-400")),
    (InProgress, Config("In Progress", "bg-blue-500", "bg-blue-400")),
    (Done, Config("Done", "bg-green-500", "bg-green-400")),
    (Blocked, Config("Blocked", "bg-red-500", "bg-red-400"))
  ]

  /** An entry of a select; the "all" entry has no colour. */
  datatype SelectOption = SelectOption(value: string, caption: string, color: Option<string>)

  /** `Object.entries(statusConfig).map(...)`: one option per entry, in entry order. */
  function Describe(entries: seq<(Status, Config)>): (r: seq<SelectOption>)
    ensures |r| == |entries|
    ensures forall i :: 0 <= i < |entries| ==>
              r[i] == SelectOption(Key(entries[i].0), entries[i].1.caption, Some(entries[i].1.dotColor))
  {
    if |entries| == 0 then []
    else [SelectOption(Key(entries[0].0), entries[0].1.caption, Some(entries[0].1.dotColor))] + Describe(entries[1..])
  }

  const AllOption: SelectOption := SelectOption("all", "All Tasks", None)

  function StatusOptions(): seq<SelectOption> { Describe(StatusConfig) }

  function FilterOptions(): seq<SelectOption> { [AllOption] + Describe(StatusConfig) }

  /** The status options are the four statuses, in order todo, in_progress, done, blocked. */
  lemma StatusOptionsInOrder()
    ensures |StatusOptions()| == 4
    ensures StatusOptions()[0].value == "todo" && StatusOptions()[1].value == "in_progress"
    ensures StatusOptions()[2].value == "done" && StatusOptions()[3].value == "blocked"
  {
  }

  /** The filter options start with "all" / "All Tasks" and continue with exactly the status options. */
  lemma FilterOptionsShape()
    ensures |FilterOptions()| == 5
    ensures FilterOptions()[0].value == "all" && FilterOptions()[0].caption == "All Tasks"
    ensures FilterOptions()[1..] == StatusOptions()
  {
    assert FilterOptions()[1..] == Describe(StatusConfig);
  }

  /** Every status option shows its status's label and dot colour. */
  lemma OptionsFollowConfig()
    ensures forall i :: 0 <= i < 4 ==>
              StatusOptions()[i].value == Key(StatusConfig[i].0) &&
              StatusOptions()[i].caption == StatusConfig[i].1.caption &&
              StatusOptions()[i].color == Some(StatusConfig[i].1.dotColor)
  {
  }

  /** No two filter options share a value, and every status option names a status. */
  lemma OptionValuesDistinct()
    ensures forall i, j :: 0 <= i < j < |FilterOptions()| ==> FilterOptions()[i].value != FilterOptions()[j].value
    ensures forall i :: 0 <= i < |StatusOptions()| ==> StatusOfKey(StatusOptions()[i].value).Some?
  {
    var f := FilterOptions();
    assert f[0].value == "all" && f[1].value == "todo" && f[2].value == "in_progress";
    assert f[3].value == "done" && f[4].value == "blocked";
  }

  /** Distinct statuses have distinct keys. */
  lemma KeyInjective(a: Status, b: Status)
    ensures Key(a) == Key(b) ==> a == b
  {
  }
}
