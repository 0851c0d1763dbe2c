/**
 * The view items the C API hands to the user interface
 * (next/legacy/toggl_api_tools.cc): the time entry view with its
 * quarter-hour placement on the timeline, the country list and the
 * generic view list. The C structs become datatypes and a linked list of
 * them becomes the sequence of items reached by following `Next`.
 */
module ApiTools {
  import opened Wrappers
  import opened TimeEntries
  import opened Workspaces
  import opened Projects
  import opened Tasks
  import opened Clients
  import opened Users

  /** The length of a timeline slot, in seconds. */
  const Quarter: int := 900

  const TwoTo32: int := 0x1_0000_0000
  const TwoTo64: int := 0x1_0000_0000_0000_0000

  /** C++ integer division by a positive divisor: the quotient is truncated toward zero. */
  function TruncDiv(a: int, b: int): (q: int)
    requires b > 0
    ensures a >= 0 ==> 0 <= a - q * b < b
    ensures a < 0 ==> -b < a - q * b <= 0
  {
    if a >= 0 then a / b else -((-a) / b)
  }

  /** A conversion to `uint64_t`: the value modulo 2^64. */
  function ToUint64(x: int): (r: nat)
    ensures r < TwoTo64 && (r - x) % TwoTo64 == 0
    ensures 0 <= x < TwoTo64 ==> r == x
  {
    x % TwoTo64
  }

  /** A conversion to `unsigned int`: the value modulo 2^32. */
  function ToUint32(x: int): (r: nat)
    ensures r < TwoTo32 && (r - x) % TwoTo32 == 0
    ensures 0 <= x < TwoTo32 ==> r == x
  {
    x % TwoTo32
  }

  /** A conversion to `int`: the value wrapped into the signed 32-bit range. */
  function ToInt32(x: int): (r: int)
    ensures -0x8000_0000 <= r < 0x8000_0000 && (r - x) % TwoTo32 == 0
    ensures -0x8000_0000 <= x < 0x8000_0000 ==> r == x
  {
    (x + 0x8000_0000) % TwoTo32 - 0x8000_0000
  }

  /**
   * The margin from the top of a time entry's first quarter hour: how far
   * into its quarter hour the entry starts, in hundredths of the quarter.
   * This is the intended computation, with the quarter-hour boundary in
   * 64-bit arithmetic like the start itself.
   */
  function RoundedStart(start: int): (r: int)
    ensures start >= 0 ==> r == (start % Quarter) / 9 && 0 <= r <= 99
    ensures start < 0 ==> -99 <= r <= 0
  {
    var rounded := TruncDiv(start, Quarter) * Quarter;
    TruncDiv(start - rounded, 9)
  }

  /**
   * The margin from the bottom of a time entry's last quarter hour: how
   * much of the quarter hour is left after the stop, in hundredths. A stop
   * on a quarter-hour boundary leaves the whole next quarter, 100.
   */
  function RoundedEnd(stop: int): (r: int)
    ensures stop >= 0 ==> r == (Quarter - stop % Quarter) / 9 && 0 <= r <= 100
    ensures stop >= 0 ==> (r == 100 <==> stop % Quarter == 0)
    ensures stop < 0 ==> 100 <= r <= 199
  {
    var rounded := TruncDiv(stop, Quarter) * Quarter + Quarter;
    TruncDiv(rounded - stop, 9)
  }

  /** The first start whose quarter-hour boundary no longer fits a 32-bit `int` (2038-01-19 03:15 UTC). */
  const StartOverflow: int := 2147483700
  /** The first stop whose following quarter-hour boundary no longer fits a 32-bit `int`. */
  const StopOverflow: int := 2147482800

  /**
   * The top margin as the view code computes it: the quotient is cast to
   * `int` and multiplied by the `int` quarter, so the boundary wraps in
   * 32 bits (signed overflow taken as two's complement wrap-around); the
   * subtraction and the division by 9 are in 64 bits again.
   */
  function RoundedStartAsWritten(start: int): (r: int)
    ensures 0 <= start < StartOverflow ==> r == RoundedStart(start)
    ensures -0x8000_0000 <= start < 0 ==> r == RoundedStart(start)
  {
    var rounded := ToInt32(ToInt32(TruncDiv(start, Quarter)) * Quarter);
    TruncDiv(start - rounded, 9)
  }

  /** The bottom margin as the view code computes it, the boundary and the added quarter wrapping in 32 bits. */
  function RoundedEndAsWritten(stop: int): (r: int)
    ensures 0 <= stop < StopOverflow ==> r == RoundedEnd(stop)
    ensures -0x8000_0000 <= stop < 0 ==> r == RoundedEnd(stop)
  {
    var rounded := ToInt32(ToInt32(ToInt32(TruncDiv(stop, Quarter)) * Quarter) + Quarter);
    TruncDiv(rounded - stop, 9)
  }

  /**
   * From 2038-01-19 03:15 UTC on, the 32-bit boundary wraps and the margins
   * leave their ranges: a start of exactly that second gets a top margin of
   * 477218588 hundredths instead of 0, and a stop 900 seconds earlier a
   * negative bottom margin instead of 100.
   */
  lemma MarginsOverflowIn2038()
    ensures RoundedStartAsWritten(StartOverflow) == 477218588
    ensures RoundedStart(StartOverflow) == 0
    ensures RoundedEndAsWritten(StopOverflow) == -477218488
    ensures RoundedEnd(StopOverflow) == 100
  {
  }

  /** Two starts in the same quarter hour, the later one lower on the timeline, get a larger top margin. */
  lemma RoundedStartMonotoneInQuarter(a: int, b: int)
    requires 0 <= a <= b && a / Quarter == b / Quarter
    ensures RoundedStart(a) <= RoundedStart(b)
  {
    assert a % Quarter <= b % Quarter;
  }

  /** The top margin depends only on the position within the quarter hour. */
  lemma RoundedStartPeriodic(start: int, k: nat)
    requires start >= 0
    ensures RoundedStart(start + k * Quarter) == RoundedStart(start)
  {
    assert (start + k * Quarter) % Quarter == start % Quarter;
  }

  /** For times that are not negative, the margins fit the view's unsigned fields unchanged. */
  lemma MarginsFitTheView(start: int, stop: int)
    requires start >= 0 && stop >= 0
    ensures ToUint64(RoundedStart(start)) == RoundedStart(start) <= 99
    ensures ToUint64(RoundedEnd(stop)) == RoundedEnd(stop) <= 100
  {
  }

  /** `TogglTimeEntryView`, without the fields the formatter renders. A null string is None. */
  datatype TimeEntryView = TimeEntryView(
    id: nat,
    durationInSeconds: int,
    description: string,
    guid: string,
    wid: nat,
    tid: nat,
    pid: nat,
    started: nat,
    ended: nat,
    workspaceName: Option<string>,
    projectAndTaskLabel: Option<string>,
    taskLabel: Option<string>,
    projectLabel: Option<string>,
    color: Option<string>,
    clientLabel: Option<string>,
    tags: Option<string>,
    billable: bool,
    updatedAt: nat,
    durOnly: bool,
    isHeader: bool,
    canAddProjects: bool,
    canSeeBillable: bool,
    defaultWid: nat,
    unsynced: bool,
    roundedStart: nat,
    roundedEnd: nat)

  /**
   * The view of a time entry, given the entry's workspace, project, task
   * and the project's client (null when there is none; `client` is only
   * looked at when there is a project), the two permissions and the
   * user's default workspace. `joinTaskName` is the formatter's
   * task-and-project label. Fields that are not set keep the zero of a new
   * struct; numbers go through the casts of the C struct's field types.
   */
  function ViewItem(te: TimeEntry, ws: Workspace?, project: Project?, task: Task?, client: Client?,
                    canAddProjects: bool, canSeeBillable: bool, defaultWid: nat,
                    joinTaskName: (string, string) -> string): (v: TimeEntryView)
    reads te, te.base, ws, project, task, client
    ensures v.tags.None? <==> te.Tags() == ""
    ensures v.tags.Some? ==> v.tags.value == te.Tags()
    ensures v.roundedStart == ToUint64(RoundedStart(te.start)) && v.roundedEnd == ToUint64(RoundedEnd(te.stop))
    ensures v.workspaceName.Some? <==> ws != null
    ensures v.projectAndTaskLabel.Some? <==> task != null && project != null
    ensures v.taskLabel.Some? <==> task != null
    ensures v.projectLabel.Some? <==> project != null
    ensures v.color.Some? <==> project != null
    ensures v.clientLabel.Some? <==> project != null && client != null
    ensures v.canAddProjects == canAddProjects && v.canSeeBillable == canSeeBillable
  {
    TimeEntryView(
      id := ToUint32(te.base.id),
      durationInSeconds := ToInt32(te.durationInSeconds),
      description := te.description,
      guid := te.base.guid,
      wid := ToUint32(te.wid),
      tid := ToUint32(te.tid),
      pid := ToUint32(te.pid),
      started := ToUint32(te.start),
      ended := ToUint32(te.stop),
      workspaceName := if ws != null then Some(ws.name) else None,
      projectAndTaskLabel := if task != null && project != null then Some(joinTaskName(task.name, project.name)) else None,
      taskLabel := if task != null then Some(task.name) else None,
      projectLabel := if project != null then Some(project.name) else None,
      color := if project != null then Some(project.color) else None,
      clientLabel := if project != null && client != null then Some(client.name) else None,
      tags := if te.Tags() == "" then None else Some(te.Tags()),
      billable := te.billable,
      updatedAt := ToUint32(te.base.updatedAt),
      durOnly := te.durOnly,
      isHeader := false,
      canAddProjects := canAddProjects,
      canSeeBillable := canSeeBillable,
      defaultWid := defaultWid,
      unsynced := te.base.unsynced,
      roundedStart := ToUint64(RoundedStart(te.start)),
      roundedEnd := ToUint64(RoundedEnd(te.stop)))
  }

  /**
   * `time_entry_view_item_init`: an entry with a workspace may have
   * projects added when the user is an admin there or the workspace lets
   * everyone create projects; an entry without one asks the user. Billable
   * is shown only for an entry with a workspace, as the user decides.
   */
  method TimeEntryViewItemInit(te: TimeEntry, ws: Workspace?, project: Project?, task: Task?, client: Client?,
                               user: User, joinTaskName: (string, string) -> string)
    returns (v: TimeEntryView)
    ensures v.canAddProjects ==
              if ws != null then ws.admin || !ws.onlyAdminsMayCreateProjects
              else forall w | w in user.related.workspaces :: !w.onlyAdminsMayCreateProjects
    ensures v.canSeeBillable <==>
              ws != null && ws.premium && exists w | w in user.related.workspaces :: w.premium
    ensures v == ViewItem(te, ws, project, task, client, v.canAddProjects, v.canSeeBillable, user.defaultWid, joinTaskName)
  {
    var canAdd: bool;
    if ws != null {
      canAdd := ws.admin || !ws.onlyAdminsMayCreateProjects;
    } else {
      canAdd := user.CanAddProjects();
    }
    var canSee := false;
    if ws != null {
      canSee := user.CanSeeBillable(ws);
    }
    v := ViewItem(te, ws, project, task, client, canAdd, canSee, user.defaultWid, joinTaskName);
  }

  /** `TogglCountryView`, without its `Next` link. */
  datatype CountryView = CountryView(
    id: int,
    name: string,
    vatApplicable: bool,
    vatRegex: string,
    vatPercentage: string,
    code: string)

  /** `xs` back to front. */
  function Reversed<T>(xs: seq<T>): (r: seq<T>)
    ensures |r| == |xs|
    ensures forall i :: 0 <= i < |xs| ==> r[i] == xs[|xs| - 1 - i]
  {
    if |xs| == 0 then [] else Reversed(xs[1..]) + [xs[0]]
  }

  /** Reversing twice gives the list back. */
  lemma ReversedTwice<T>(xs: seq<T>)
    ensures Reversed(Reversed(xs)) == xs
  {
  }

  /** Reversing a list with one more item at the end puts that item first. */
  lemma ReversedSnoc<T>(xs: seq<T>, x: T)
    ensures Reversed(xs + [x]) == [x] + Reversed(xs)
  {
    var l, r := Reversed(xs + [x]), [x] + Reversed(xs);
    forall i | 0 <= i < |l|
      ensures l[i] == r[i]
    {
      if i > 0 {
        assert (xs + [x])[|xs| - i] == xs[|xs| - 1 - (i - 1)];
      }
    }
  }

  /**
   * `country_list_init`: each country is copied into a new item that is
   * put in front of the list built so far, so the list holds every
   * country, last one first.
   */
  method CountryListInit(items: seq<CountryView>) returns (list: seq<CountryView>)
    ensures list == Reversed(items)
    ensures |list| == |items|
    ensures forall i :: 0 <= i < |items| ==> list[i] == items[|items| - 1 - i]
  {
    list := [];
    var i := 0;
    while i < |items|
      invariant 0 <= i <= |items|
      invariant list == Reversed(items[..i])
    {
      ReversedSnoc(items[..i], items[i]);
      assert items[..i + 1] == items[..i] + [items[i]];
      list := [items[i]] + list;
      i := i + 1;
    }
    assert items[..i] == items;
  }

  /** `view::Generic`: the fields a generic view item would carry. */
  datatype GenericView = GenericView(id: nat, wid: nat, guid: string, name: string, workspaceName: string, premium: bool)

  /** `generic_to_view_item_list`: its loop is commented out, so the list is always empty (null). */
  method GenericToViewItemList(list: seq<GenericView>) returns (r: seq<GenericView>)
    ensures r == []
  {
    r := [];
  }
}
