/**
 * The signed-in user (next/model/user.h, next/model/user.cc): the account
 * settings, the rules that look across the user's workspaces, the placing
 * of a new project in the project list, stopping every running time entry,
 * and the relation maintenance the user hands to its data.
 */
module Users {
  import opened Wrappers
  import opened Strings
  import opened Containers
  import opened BaseModels
  import opened Projects
  import opened TimeEntries
  import opened Workspaces
  import opened Userdata

  /** Sixty days, in seconds: how old the user data may be before it is fetched afresh. */
  const SixtyDays: int := 60 * 86400

  /** The members of the user's JSON that loadUserAndRelatedDataFromJSON reads; missing ones read as 0, "" or false. */
  datatype UserJson = UserJson(
    id: nat, defaultWid: nat, apiToken: string, email: string, fullname: string,
    recordTimeline: bool, storeStartAndStopTime: bool, timeOfDayFormat: string, durationFormat: string)

  // ------------------------------------------------ placing a new project

  /** What AddProjectToList compares of a project. */
  datatype ProjectKey = ProjectKey(
    wid: nat, cid: nat, clientGuid: string, name: string, clientName: string, fullName: string)

  function KeyOf(p: Project): (k: ProjectKey)
    reads p
    ensures k.wid == p.wid && k.cid == p.cid && k.name == p.name
  {
    ProjectKey(p.wid, p.cid, p.clientGuid, p.name, p.clientName, p.fullName)
  }

  function KeysOf(ps: seq<Project>): (r: seq<ProjectKey>)
    reads ps
    ensures |r| == |ps|
    ensures forall i :: 0 <= i < |ps| ==> r[i] == KeyOf(ps[i])
  {
    seq(|ps|, i requires 0 <= i < |ps| reads ps => KeyOf(ps[i]))
  }

  /**
   * The position at which the loop of AddProjectToList puts `p`, having
   * passed the projects before position `i` with the two flags it keeps:
   * whether a project of p's workspace was seen, and whether a project of
   * p's client group was seen. Inside the workspace a project without a
   * client goes before the first client-less project whose name is greater
   * (ignoring case), a project with a client before the first project of
   * the same client name whose full name is greater, or else right after
   * that client's group; a project is put right after the last project of
   * its workspace, and at the end when its workspace has none.
   */
  function InsertionScan(p: ProjectKey, list: seq<ProjectKey>, i: nat, widMatch: bool, cidMatch: bool): (k: nat)
    requires i <= |list|
    ensures i <= k <= |list|
    decreases |list| - i
  {
    if i == |list| then |list|
    else
      var pr := list[i];
      if p.wid == pr.wid then
        if p.cid == 0 && p.clientGuid == "" && pr.cid == 0 then
          if ICompare(p.name, pr.name) < 0 then i else InsertionScan(p, list, i + 1, true, true)
        else if ICompare(p.clientName, pr.clientName) == 0 then
          if ICompare(p.fullName, pr.fullName) < 0 then i else InsertionScan(p, list, i + 1, true, true)
        else if cidMatch then i
        else if (p.cid != 0 || p.clientGuid != "") && pr.cid != 0 then
          if ICompare(p.fullName, pr.fullName) < 0 then i else InsertionScan(p, list, i + 1, true, cidMatch)
        else InsertionScan(p, list, i + 1, true, cidMatch)
      else if widMatch then i
      else InsertionScan(p, list, i + 1, widMatch, cidMatch)
  }

  /** Where AddProjectToList puts `p` in `list`. */
  function InsertionIndex(p: ProjectKey, list: seq<ProjectKey>): (k: nat)
    ensures k <= |list|
  {
    InsertionScan(p, list, 0, false, false)
  }

  /** While no project of p's workspace has been passed, none of the rest having it means p goes last. */
  lemma {:induction false} ScanWithoutWorkspaceAppends(p: ProjectKey, list: seq<ProjectKey>, i: nat, cidMatch: bool)
    requires i <= |list|
    requires forall j :: i <= j < |list| ==> list[j].wid != p.wid
    ensures InsertionScan(p, list, i, false, cidMatch) == |list|
    decreases |list| - i
  {
    if i < |list| {
      ScanWithoutWorkspaceAppends(p, list, i + 1, cidMatch);
    }
  }

  /** A project whose workspace has no project yet is put at the end of the list. */
  lemma NoWorkspaceMatchAppends(p: ProjectKey, list: seq<ProjectKey>)
    requires forall j :: 0 <= j < |list| ==> list[j].wid != p.wid
    ensures InsertionIndex(p, list) == |list|
  {
    ScanWithoutWorkspaceAppends(p, list, 0, false);
  }

  lemma {:induction false} ScanStaysInWorkspace(p: ProjectKey, list: seq<ProjectKey>, i: nat, widMatch: bool, cidMatch: bool)
    requires i <= |list|
    requires widMatch ==> 0 < i && list[i - 1].wid == p.wid
    requires widMatch || exists j :: i <= j < |list| && list[j].wid == p.wid
    ensures var k := InsertionScan(p, list, i, widMatch, cidMatch);
            (k < |list| && list[k].wid == p.wid) || (0 < k && list[k - 1].wid == p.wid)
    decreases |list| - i
  {
    if i < |list| {
      if list[i].wid == p.wid {
        if InsertionScan(p, list, i, widMatch, cidMatch) != i {
          ScanStaysInWorkspace(p, list, i + 1, true, cidMatch || (p.cid == 0 && p.clientGuid == "" && list[i].cid == 0)
                               || ICompare(p.clientName, list[i].clientName) == 0);
        }
      } else if !widMatch {
        ScanStaysInWorkspace(p, list, i + 1, false, cidMatch);
      }
    }
  }

  /**
   * A project whose workspace already has projects is put next to one of
   * them: just before one, or just after one.
   */
  lemma LandsNextToItsWorkspace(p: ProjectKey, list: seq<ProjectKey>)
    requires exists j :: 0 <= j < |list| && list[j].wid == p.wid
    ensures var k := InsertionIndex(p, list);
            (k < |list| && list[k].wid == p.wid) || (0 < k && list[k - 1].wid == p.wid)
  {
    ScanStaysInWorkspace(p, list, 0, false, false);
  }

  /** The first position of an entry in the list. */
  function Position(entries: seq<TimeEntry>, e: TimeEntry): (k: nat)
    requires e in entries
    ensures k < |entries| && entries[k] == e && e !in entries[..k]
  {
    FirstIndex(entries, e).value
  }

  /**
   * `deleteZombies`: every model with a server ID that the server no
   * longer lists among the `alive` IDs is marked as deleted on the server;
   * a model without a server ID was never pushed and is left alone.
   */
  method DeleteZombies(models: seq<BaseModel>, alive: set<nat>)
    modifies (set m | m in models)`markedAsDeletedOnServer, (set m | m in models)`dirty
    ensures forall m | m in models ::
              m.markedAsDeletedOnServer == (old(m.markedAsDeletedOnServer) || (m.id != 0 && m.id !in alive))
              && m.dirty == (old(m.dirty) || (m.id != 0 && m.id !in alive))
  {
    var i := 0;
    while i < |models|
      invariant 0 <= i <= |models|
      invariant forall m | m in models ::
                  m.markedAsDeletedOnServer == (old(m.markedAsDeletedOnServer) || (m in models[..i] && m.id != 0 && m.id !in alive))
                  && m.dirty == (old(m.dirty) || (m in models[..i] && m.id != 0 && m.id !in alive))
    {
      assert models[..i + 1] == models[..i] + [models[i]];
      var model := models[i];
      if model.id != 0 && model.id !in alive {
        model.MarkAsDeletedOnServer();
      }
      i := i + 1;
    }
    assert models[..i] == models;
  }

  /** The search RunningTimeEntry runs: the first entry whose duration is negative, or null. */
  method FindRunning(entries: seq<TimeEntry>) returns (te: TimeEntry?)
    ensures te == null <==> forall j :: 0 <= j < |entries| ==> !entries[j].IsTracking()
    ensures te != null ==>
              te in entries && te.IsTracking()
              && forall j :: 0 <= j < Position(entries, te) ==> !entries[j].IsTracking()
  {
    var i := 0;
    while i < |entries|
      invariant 0 <= i <= |entries|
      invariant forall j :: 0 <= j < i ==> !entries[j].IsTracking()
    {
      if entries[i].durationInSeconds < 0 {
        FirstIndexUnique(entries, entries[i], i);
        return entries[i];
      }
      i := i + 1;
    }
    return null;
  }

  /** The durations of the entries, position by position. */
  function Durations(entries: seq<TimeEntry>): (r: seq<int>)
    reads entries
    ensures |r| == |entries|
    ensures forall j :: 0 <= j < |entries| ==> r[j] == entries[j].durationInSeconds
  {
    seq(|entries|, j requires 0 <= j < |entries| reads entries => entries[j].durationInSeconds)
  }

  /** The stop times of the entries, position by position. */
  function Stops(entries: seq<TimeEntry>): (r: seq<int>)
    reads entries
    ensures |r| == |entries|
    ensures forall j :: 0 <= j < |entries| ==> r[j] == entries[j].stop
  {
    seq(|entries|, j requires 0 <= j < |entries| reads entries => entries[j].stop)
  }

  /** The start times of the entries, position by position. */
  function Starts(entries: seq<TimeEntry>): (r: seq<int>)
    reads entries
    ensures |r| == |entries|
    ensures forall j :: 0 <= j < |entries| ==> r[j] == entries[j].start
  {
    seq(|entries|, j requires 0 <= j < |entries| reads entries => entries[j].start)
  }

  /** No entry before position `n` is running. */
  predicate NoneRunningBefore(entries: seq<TimeEntry>, n: int)
    reads entries
  {
    forall j :: 0 <= j < n && j < |entries| ==> entries[j].durationInSeconds >= 0
  }

  /**
   * `stopped` lists entries that were running when `durations` was taken,
   * in list order, all of them before position `frontier`.
   */
  predicate StoppedInOrder(entries: seq<TimeEntry>, stopped: seq<TimeEntry>, frontier: int, durations: seq<int>) {
    |durations| == |entries|
    && (forall k :: 0 <= k < |stopped| ==>
          stopped[k] in entries && Position(entries, stopped[k]) < frontier
          && durations[Position(entries, stopped[k])] < 0)
    && forall a, b :: 0 <= a < b < |stopped| ==> Position(entries, stopped[a]) < Position(entries, stopped[b])
  }

  /**
   * Every entry keeps the start time it had in `starts`; every entry of
   * `stopped` stopped at `now`, and every other entry keeps the duration and
   * stop time it had in `durations` and `stops`.
   */
  predicate StoppedAt(entries: seq<TimeEntry>, stopped: seq<TimeEntry>, now: int,
                      durations: seq<int>, stops: seq<int>, starts: seq<int>)
    reads entries
  {
    |durations| == |entries| && |stops| == |entries| && |starts| == |entries|
    && forall j :: 0 <= j < |entries| ==>
         entries[j].start == starts[j]
         && if entries[j] in stopped then
              entries[j].stop == now && entries[j].durationInSeconds == now - entries[j].start
              && entries[j].durationInSeconds >= 0
            else
              entries[j].stop == stops[j] && entries[j].durationInSeconds == durations[j]
  }

  /** One turn of the loop of `Stop`: the first running entry, at position `idx`, is stopped. */
  method StopNext(entries: seq<TimeEntry>, now: int, te: TimeEntry, ghost idx: nat, ghost stopped: seq<TimeEntry>,
                  ghost frontier: nat, ghost durations: seq<int>, ghost stops: seq<int>, ghost starts: seq<int>)
    requires now != 0
    requires frontier <= idx < |entries| && te == entries[idx] && te.durationInSeconds < 0 && te.start <= now
    requires NoneRunningBefore(entries, idx)
    requires StoppedInOrder(entries, stopped, frontier, durations)
    requires StoppedAt(entries, stopped, now, durations, stops, starts)
    modifies te`durationInSeconds, te`stop, te.base`uiModifiedAt, te.base`dirty
    ensures NoneRunningBefore(entries, idx + 1)
    ensures StoppedInOrder(entries, stopped + [te], idx + 1, durations)
    ensures StoppedAt(entries, stopped + [te], now, durations, stops, starts)
  {
    FirstIndexUnique(entries, te, idx);
    assert te !in stopped;
    assert durations[idx] < 0;
    te.StopTracking(now);
    forall j | 0 <= j < |entries| && entries[j] != te
      ensures entries[j].stop == old(entries[j].stop) && entries[j].durationInSeconds == old(entries[j].durationInSeconds)
    {
    }
  }

  /**
   * The `RunningTimeEntry` call of the loop of `Stop`: the entry it finds
   * lies at or past `frontier`, was running from the start, and starts no
   * later than `now`; none is found once every entry is stopped.
   */
  method NextRunning(entries: seq<TimeEntry>, now: int, ghost stopped: seq<TimeEntry>, ghost frontier: nat,
                     ghost durations: seq<int>, ghost stops: seq<int>, ghost starts: seq<int>)
    returns (te: TimeEntry?, ghost idx: nat)
    requires NoneRunningBefore(entries, frontier)
    requires StoppedAt(entries, stopped, now, durations, stops, starts)
    requires forall j :: 0 <= j < |entries| && durations[j] < 0 ==> starts[j] <= now
    ensures te != null ==>
              frontier <= idx < |entries| && te == entries[idx] && te.durationInSeconds < 0 && te.start <= now
              && NoneRunningBefore(entries, idx)
    ensures te == null ==> NoneRunningBefore(entries, |entries|)
  {
    te := FindRunning(entries);
    idx := 0;
    if te != null {
      idx := Position(entries, te);
      assert te !in stopped;
      assert durations[idx] < 0;
    }
  }

  /** The loop of `Stop` as written, on the inputs where it ends: stop the first running entry until none is running. */
  method StopAll(entries: seq<TimeEntry>, now: int) returns (stopped: seq<TimeEntry>)
    requires now != 0
    requires forall j :: 0 <= j < |entries| && entries[j].durationInSeconds < 0 ==> entries[j].start <= now
    modifies (set e | e in entries)`durationInSeconds, (set e | e in entries)`stop
    modifies (set e | e in entries :: e.base)`uiModifiedAt, (set e | e in entries :: e.base)`dirty
    ensures NoneRunningBefore(entries, |entries|)
    ensures StoppedInOrder(entries, stopped, |entries|, old(Durations(entries)))
    ensures StoppedAt(entries, stopped, now, old(Durations(entries)), old(Stops(entries)), old(Starts(entries)))
    ensures forall j :: 0 <= j < |entries| && old(entries[j].durationInSeconds) < 0 ==> entries[j] in stopped
  {
    ghost var durations, stops, starts := Durations(entries), Stops(entries), Starts(entries);
    ghost var frontier := 0;
    stopped := [];
    var te, idx := NextRunning(entries, now, stopped, frontier, durations, stops, starts);
    while te != null
      invariant 0 <= frontier <= |entries|
      invariant durations == old(Durations(entries)) && stops == old(Stops(entries)) && starts == old(Starts(entries))
      invariant forall j :: 0 <= j < |entries| && durations[j] < 0 ==> starts[j] <= now
      invariant NoneRunningBefore(entries, frontier)
      invariant te != null ==>
                  frontier <= idx < |entries| && te == entries[idx] && te.durationInSeconds < 0 && te.start <= now
                  && NoneRunningBefore(entries, idx)
      invariant te == null ==> NoneRunningBefore(entries, |entries|)
      invariant StoppedInOrder(entries, stopped, frontier, durations)
      invariant StoppedAt(entries, stopped, now, durations, stops, starts)
      decreases |entries| - frontier
    {
      StopNext(entries, now, te, idx, stopped, frontier, durations, stops, starts);
      stopped := stopped + [te];
      frontier := idx + 1;
      te, idx := NextRunning(entries, now, stopped, frontier, durations, stops, starts);
    }
    forall j | 0 <= j < |entries| && durations[j] < 0
      ensures entries[j] in stopped
    {
    }
  }

  /** A running entry that StopTracking at `now` can stop: `now` is set and not before its start. */
  predicate Stoppable(duration: int, start: int, now: int) {
    duration < 0 && now != 0 && start <= now
  }

  /**
   * Every position before `frontier` whose entry was stoppable when
   * `durations` and `starts` were taken has its entry in `stopped`, and
   * only such entries are there.
   */
  predicate Visited(entries: seq<TimeEntry>, stopped: seq<TimeEntry>, frontier: int, now: int,
                    durations: seq<int>, starts: seq<int>) {
    |durations| == |entries| && |starts| == |entries|
    && (forall j :: 0 <= j < frontier && j < |entries| && Stoppable(durations[j], starts[j], now) ==>
          entries[j] in stopped)
    && (forall k :: 0 <= k < |stopped| ==>
          stopped[k] in entries
          && Stoppable(durations[Position(entries, stopped[k])], starts[Position(entries, stopped[k])], now))
  }

  /** One turn of the corrected loop of `Stop`: the entry at position `i` is stopped when it can be. */
  method StopOne(entries: seq<TimeEntry>, now: int, te: TimeEntry, i: nat, stopped: seq<TimeEntry>,
                 ghost durations: seq<int>, ghost stops: seq<int>, ghost starts: seq<int>)
    returns (stopped': seq<TimeEntry>)
    requires i < |entries| && te == entries[i]
    requires Visited(entries, stopped, i, now, durations, starts)
    requires StoppedInOrder(entries, stopped, i, durations)
    requires StoppedAt(entries, stopped, now, durations, stops, starts)
    modifies te`durationInSeconds, te`stop, te.base`uiModifiedAt, te.base`dirty
    ensures Visited(entries, stopped', i + 1, now, durations, starts)
    ensures StoppedInOrder(entries, stopped', i + 1, durations)
    ensures StoppedAt(entries, stopped', now, durations, stops, starts)
  {
    stopped' := stopped;
    if !te.IsTracking() {
      return;
    }
    var p := Position(entries, te);
    assert te !in stopped;
    assert durations[p] < 0 && starts[p] == starts[i];
    te.StopTracking(now);
    forall j | 0 <= j < |entries| && entries[j] != te
      ensures entries[j].stop == old(entries[j].stop) && entries[j].durationInSeconds == old(entries[j].durationInSeconds)
    {
    }
    if !te.IsTracking() {
      FirstIndexUnique(entries, te, p);
      assert p == i;
      stopped' := stopped + [te];
    }
  }

  /**
   * The loop of `Stop` as evidently intended: each running entry is tried
   * once, so an entry that started after `now` (or a `now` of 0) is left
   * running instead of being searched for again forever. On the inputs
   * StopAll accepts, it stops the same entries in the same order.
   */
  method StopRunning(entries: seq<TimeEntry>, now: int) returns (stopped: seq<TimeEntry>)
    modifies (set e | e in entries)`durationInSeconds, (set e | e in entries)`stop
    modifies (set e | e in entries :: e.base)`uiModifiedAt, (set e | e in entries :: e.base)`dirty
    ensures forall j :: 0 <= j < |entries| ==>
              (entries[j] in stopped <==> Stoppable(old(entries[j].durationInSeconds), entries[j].start, now))
    ensures forall j :: 0 <= j < |entries| && entries[j].IsTracking() ==> now == 0 || entries[j].start > now
    ensures StoppedInOrder(entries, stopped, |entries|, old(Durations(entries)))
    ensures StoppedAt(entries, stopped, now, old(Durations(entries)), old(Stops(entries)), old(Starts(entries)))
  {
    ghost var durations, stops, starts := Durations(entries), Stops(entries), Starts(entries);
    stopped := [];
    var i := 0;
    while i < |entries|
      invariant 0 <= i <= |entries|
      invariant durations == old(Durations(entries)) && stops == old(Stops(entries)) && starts == old(Starts(entries))
      invariant Visited(entries, stopped, i, now, durations, starts)
      invariant StoppedInOrder(entries, stopped, i, durations)
      invariant StoppedAt(entries, stopped, now, durations, stops, starts)
    {
      stopped := StopOne(entries, now, entries[i], i, stopped, durations, stops, starts);
      i := i + 1;
    }
    forall j | 0 <= j < |entries|
      ensures entries[j] in stopped <==> Stoppable(durations[j], starts[j], now)
    {
      if entries[j] in stopped {
        var k :| 0 <= k < |stopped| && stopped[k] == entries[j];
        FirstIndexUnique(entries, entries[j], Position(entries, entries[j]));
      }
    }
  }

  /**
   * One turn of the loop of `Stop` as written, with no precondition: when
   * the first running entry started after `now` (or `now` is 0), stopping
   * it is refused, nothing changes, and the next search finds the same
   * entry again, so the loop never ends. StopAll's precondition excludes
   * exactly these inputs.
   */
  method StopTurnAsWritten(entries: seq<TimeEntry>, now: int) returns (te: TimeEntry?, next: TimeEntry?)
    modifies (set e | e in entries)`durationInSeconds, (set e | e in entries)`stop
    modifies (set e | e in entries :: e.base)`uiModifiedAt, (set e | e in entries :: e.base)`dirty
    ensures te == null ==> next == null
    ensures te != null && (now == 0 || te.start > now) ==>
              next == te
              && forall e | e in entries :: e.durationInSeconds == old(e.durationInSeconds) && e.stop == old(e.stop)
  {
    te := FindRunning(entries);
    if te != null {
      te.StopTracking(now);
    }
    next := FindRunning(entries);
  }

  class User {
    const base: BaseModel
    /** The user's data: every list of models that belongs to the account. */
    const related: UserData
    var apiToken: string
    var defaultWid: nat
    /** The time stamp of the user data, as the server returns it. */
    var since: int
    var fullname: string
    var email: string
    var recordTimeline: bool
    var storeStartAndStopTime: bool
    var timeOfDayFormat: string
    var durationFormat: string
    var offlineData: string
    var defaultPid: nat
    var defaultTid: nat
    var hasLoadedMore: bool
    var collapseEntries: bool

    /** A new user: start and stop times are stored; every other flag is off and every number 0. */
    constructor(data: UserData)
      ensures fresh(base) && related == data
      ensures base.localId == 0 && base.id == 0 && !base.dirty
      ensures apiToken == "" && defaultWid == 0 && since == 0 && fullname == "" && email == ""
      ensures !recordTimeline && storeStartAndStopTime
      ensures timeOfDayFormat == "" && durationFormat == "" && offlineData == ""
      ensures defaultPid == 0 && defaultTid == 0 && !hasLoadedMore && !collapseEntries
    {
      base := new BaseModel();
      related := data;
      apiToken, defaultWid, since, fullname, email := "", 0, 0, "", "";
      recordTimeline, storeStartAndStopTime := false, true;
      timeOfDayFormat, durationFormat, offlineData := "", "", "";
      defaultPid, defaultTid, hasLoadedMore, collapseEntries := 0, 0, false, false;
    }

    /** `ModelURL`: the user's own resource. */
    function ModelURL(): (r: string)
      ensures r == "/api/v9/me"
    {
      "/api/v9/me"
    }

    /** `String`: the user's ID, local ID, default workspace, API token, data time stamp and timeline flag, for logs. */
    function String(): (r: string)
      reads this, base
      ensures |r| >= 3 && r[..3] == "ID="
      ensures Contains(r, " api_token=" + apiToken)
    {
      var head := "ID=" + NatToString(base.id) + " local_id=" + IntToString(base.localId)
                  + " default_wid=" + NatToString(defaultWid);
      var token := " api_token=" + apiToken;
      var r := head + token + " since=" + IntToString(since)
               + " record_timeline=" + (if recordTimeline then "1" else "0");
      assert r[|head|..|head| + |token|] == token;
      assert OccursAt(r, token, |head|);
      r
    }

    /** `HasLoadedMore`: whether older entries were loaded on request. */
    predicate HasLoadedMore()
      reads this
    {
      hasLoadedMore
    }

    /** `ConfirmLoadedMore`: from now on HasLoadedMore holds. */
    method ConfirmLoadedMore()
      modifies this`hasLoadedMore
      ensures HasLoadedMore()
    {
      hasLoadedMore := true;
    }

    /**
     * `HasValidSinceDate` at time `now`: the user data has a time stamp,
     * and it is at most sixty days old.
     */
    function HasValidSinceDate(now: int): (r: bool)
      reads this
      ensures r ==> since != 0
      ensures since != 0 ==> (r <==> now - since <= SixtyDays)
    {
      if since == 0 then false
      else if since < now - SixtyDays then false
      else true
    }

    // ------------------------------------------------ setters

    method SetFullname(value: string)
      modifies this`fullname, base`dirty
      ensures fullname == value
      ensures base.dirty == (old(base.dirty) || old(fullname) != value)
    {
      if fullname != value {
        fullname := value;
        base.SetDirty();
      }
    }

    /** `SetTimeOfDayFormat`; the formatter's global copy of the format is not part of this model. */
    method SetTimeOfDayFormat(value: string)
      modifies this`timeOfDayFormat, base`dirty
      ensures timeOfDayFormat == value
      ensures base.dirty == (old(base.dirty) || old(timeOfDayFormat) != value)
    {
      if timeOfDayFormat != value {
        timeOfDayFormat := value;
        base.SetDirty();
      }
    }

    /** `SetDurationFormat`; the formatter's global copy of the format is not part of this model. */
    method SetDurationFormat(value: string)
      modifies this`durationFormat, base`dirty
      ensures durationFormat == value
      ensures base.dirty == (old(base.dirty) || old(durationFormat) != value)
    {
      if durationFormat != value {
        durationFormat := value;
        base.SetDirty();
      }
    }

    method SetOfflineData(value: string)
      modifies this`offlineData, base`dirty
      ensures offlineData == value
      ensures base.dirty == (old(base.dirty) || old(offlineData) != value)
    {
      if offlineData != value {
        offlineData := value;
        base.SetDirty();
      }
    }

    method SetStoreStartAndStopTime(value: bool)
      modifies this`storeStartAndStopTime, base`dirty
      ensures storeStartAndStopTime == value
      ensures base.dirty == (old(base.dirty) || old(storeStartAndStopTime) != value)
    {
      if storeStartAndStopTime != value {
        storeStartAndStopTime := value;
        base.SetDirty();
      }
    }

    method SetRecordTimeline(value: bool)
      modifies this`recordTimeline, base`dirty
      ensures recordTimeline == value
      ensures base.dirty == (old(base.dirty) || old(recordTimeline) != value)
    {
      if recordTimeline != value {
        recordTimeline := value;
        base.SetDirty();
      }
    }

    method SetEmail(value: string)
      modifies this`email, base`dirty
      ensures email == value
      ensures base.dirty == (old(base.dirty) || old(email) != value)
    {
      if email != value {
        email := value;
        base.SetDirty();
      }
    }

    /** `SetAPIToken`: the token is never stored locally, so it never makes the user dirty. */
    method SetAPIToken(value: string)
      modifies this`apiToken
      ensures apiToken == value
    {
      apiToken := value;
    }

    method SetSince(value: int)
      modifies this`since, base`dirty
      ensures since == value
      ensures base.dirty == (old(base.dirty) || old(since) != value)
    {
      if since != value {
        since := value;
        base.SetDirty();
      }
    }

    method SetDefaultWID(value: nat)
      modifies this`defaultWid, base`dirty
      ensures defaultWid == value
      ensures base.dirty == (old(base.dirty) || old(defaultWid) != value)
    {
      if defaultWid != value {
        defaultWid := value;
        base.SetDirty();
      }
    }

    method SetDefaultPID(value: nat)
      modifies this`defaultPid, base`dirty
      ensures defaultPid == value
      ensures base.dirty == (old(base.dirty) || old(defaultPid) != value)
    {
      if defaultPid != value {
        defaultPid := value;
        base.SetDirty();
      }
    }

    method SetDefaultTID(value: nat)
      modifies this`defaultTid, base`dirty
      ensures defaultTid == value
      ensures base.dirty == (old(base.dirty) || old(defaultTid) != value)
    {
      if defaultTid != value {
        defaultTid := value;
        base.SetDirty();
      }
    }

    method SetCollapseEntries(value: bool)
      modifies this`collapseEntries, base`dirty
      ensures collapseEntries == value
      ensures base.dirty == (old(base.dirty) || old(collapseEntries) != value)
    {
      if collapseEntries != value {
        collapseEntries := value;
        base.SetDirty();
      }
    }

    // ------------------------------------------------ loading

    /**
     * `loadUserAndRelatedDataFromJSON`: an update without a user ID is
     * ignored; otherwise the ID, default workspace, API token, e-mail, name,
     * timeline and start-stop flags and the two formats are taken over.
     */
    method LoadUserFromJSON(data: UserJson)
      modifies base`id, base`dirty, this`defaultWid, this`apiToken, this`email, this`fullname
      modifies this`recordTimeline, this`storeStartAndStopTime, this`timeOfDayFormat, this`durationFormat
      ensures data.id == 0 ==>
                base.id == old(base.id) && base.dirty == old(base.dirty) && defaultWid == old(defaultWid)
                && apiToken == old(apiToken) && email == old(email) && fullname == old(fullname)
                && recordTimeline == old(recordTimeline) && storeStartAndStopTime == old(storeStartAndStopTime)
                && timeOfDayFormat == old(timeOfDayFormat) && durationFormat == old(durationFormat)
      ensures data.id != 0 ==>
                base.id == data.id && defaultWid == data.defaultWid && apiToken == data.apiToken
                && email == data.email && fullname == data.fullname && recordTimeline == data.recordTimeline
                && storeStartAndStopTime == data.storeStartAndStopTime
                && timeOfDayFormat == data.timeOfDayFormat && durationFormat == data.durationFormat
      // Every setter but the API token's dirties the user on a change.
      ensures data.id != 0 ==>
                base.dirty == (old(base.dirty) || old(base.id) != data.id || old(defaultWid) != data.defaultWid
                               || old(email) != data.email || old(fullname) != data.fullname
                               || old(recordTimeline) != data.recordTimeline
                               || old(storeStartAndStopTime) != data.storeStartAndStopTime
                               || old(timeOfDayFormat) != data.timeOfDayFormat
                               || old(durationFormat) != data.durationFormat)
    {
      if data.id == 0 {
        return;
      }
      base.SetID(data.id);
      SetDefaultWID(data.defaultWid);
      SetAPIToken(data.apiToken);
      SetEmail(data.email);
      SetFullname(data.fullname);
      SetRecordTimeline(data.recordTimeline);
      SetStoreStartAndStopTime(data.storeStartAndStopTime);
      SetTimeOfDayFormat(data.timeOfDayFormat);
      SetDurationFormat(data.durationFormat);
    }

    /**
     * `LoadUserPreferencesFromJSON`: `collapse` is the "CollapseTimeEntries"
     * member, None when it is missing. The setting changes, and the result
     * is true, exactly when the member is there and differs from it.
     */
    method LoadUserPreferencesFromJSON(collapse: Option<bool>) returns (changed: bool)
      modifies this`collapseEntries, base`dirty
      ensures changed <==> collapse.Some? && collapse.value != old(collapseEntries)
      ensures collapseEntries == (if changed then collapse.value else old(collapseEntries))
      ensures base.dirty == (old(base.dirty) || changed)
    {
      if collapse.Some? && collapse.value != collapseEntries {
        SetCollapseEntries(collapse.value);
        return true;
      }
      return false;
    }

    // ------------------------------------------------ questions about the workspaces

    /** `HasPremiumWorkspaces`: some workspace of the user is premium. */
    method HasPremiumWorkspaces() returns (r: bool)
      ensures r <==> exists w | w in related.workspaces :: w.premium
    {
      var i := 0;
      while i < |related.workspaces|
        invariant 0 <= i <= |related.workspaces|
        invariant forall j :: 0 <= j < i ==> !related.workspaces[j].premium
      {
        if related.workspaces[i].premium {
          return true;
        }
        i := i + 1;
      }
      return false;
    }

    /** `CanAddProjects`: no workspace of the user restricts project creation to admins. */
    method CanAddProjects() returns (r: bool)
      ensures r <==> forall w | w in related.workspaces :: !w.onlyAdminsMayCreateProjects
    {
      var i := 0;
      while i < |related.workspaces|
        invariant 0 <= i <= |related.workspaces|
        invariant forall j :: 0 <= j < i ==> !related.workspaces[j].onlyAdminsMayCreateProjects
      {
        if related.workspaces[i].onlyAdminsMayCreateProjects {
          return false;
        }
        i := i + 1;
      }
      return true;
    }

    /**
     * `CanSeeBillable`: the user has a premium workspace, and the workspace
     * asked about, when there is one, is premium.
     */
    method CanSeeBillable(ws: Workspace?) returns (r: bool)
      ensures r <==> (exists w | w in related.workspaces :: w.premium) && (ws == null || ws.premium)
    {
      var premium := HasPremiumWorkspaces();
      if !premium {
        return false;
      }
      if ws != null && !ws.premium {
        return false;
      }
      return true;
    }

    // ------------------------------------------------ projects

    /**
     * `AddProjectToList`: puts the project into the project list at the
     * position InsertionIndex computes, without sorting the list; every
     * project already there keeps its relative order.
     */
    method AddProjectToList(p: Project)
      modifies related`projects
      ensures var k := old(InsertionIndex(KeyOf(p), KeysOf(related.projects)));
              related.projects == old(related.projects)[..k] + [p] + old(related.projects)[k..]
    {
      ghost var keys := KeysOf(related.projects);
      ghost var key := KeyOf(p);
      var widMatch, cidMatch := false, false;
      var i := 0;
      while i < |related.projects|
        invariant 0 <= i <= |related.projects|
        invariant InsertionScan(key, keys, i, widMatch, cidMatch) == InsertionIndex(key, keys)
      {
        var pr := related.projects[i];
        if p.wid == pr.wid {
          widMatch := true;
          if p.cid == 0 && p.clientGuid == "" && pr.cid == 0 {
            cidMatch := true;
            if ICompare(p.name, pr.name) < 0 {
              related.projects := related.projects[..i] + [p] + related.projects[i..];
              return;
            }
          } else if ICompare(p.clientName, pr.clientName) == 0 {
            cidMatch := true;
            if ICompare(p.fullName, pr.fullName) < 0 {
              related.projects := related.projects[..i] + [p] + related.projects[i..];
              return;
            }
          } else if cidMatch {
            related.projects := related.projects[..i] + [p] + related.projects[i..];
            return;
          } else if (p.cid != 0 || p.clientGuid != "") && pr.cid != 0 {
            if ICompare(p.fullName, pr.fullName) < 0 {
              related.projects := related.projects[..i] + [p] + related.projects[i..];
              return;
            }
          }
        } else if widMatch {
          related.projects := related.projects[..i] + [p] + related.projects[i..];
          return;
        }
        i := i + 1;
      }
      related.projects := related.projects + [p];
    }

    // ------------------------------------------------ running time entries

    /** `RunningTimeEntry`: the first time entry whose duration is negative, or null. */
    method RunningTimeEntry() returns (te: TimeEntry?)
      ensures te == null <==> forall e | e in related.timeEntries :: !e.IsTracking()
      ensures te != null ==>
                te in related.timeEntries && te.IsTracking()
                && forall j :: 0 <= j < Position(related.timeEntries, te) ==> !related.timeEntries[j].IsTracking()
    {
      te := FindRunning(related.timeEntries);
    }

    /**
     * `Stop` at time `now`: stops every running time entry at `now`, and
     * returns them in their order in the list. An entry that started after
     * `now` cannot be stopped at `now`; it is left running, where the loop
     * as written would search for it forever (StopTurnAsWritten), so this
     * is the corrected loop StopRunning.
     */
    method Stop(now: int) returns (stopped: seq<TimeEntry>)
      modifies (set e | e in related.timeEntries)`durationInSeconds, (set e | e in related.timeEntries)`stop
      modifies (set e | e in related.timeEntries :: e.base)`uiModifiedAt, (set e | e in related.timeEntries :: e.base)`dirty
      ensures forall e | e in related.timeEntries && e.IsTracking() :: now == 0 || e.start > now
      ensures forall e :: e in stopped <==> e in related.timeEntries && Stoppable(old(e.durationInSeconds), e.start, now)
      ensures forall a, b | 0 <= a < b < |stopped| ::
                Position(related.timeEntries, stopped[a]) < Position(related.timeEntries, stopped[b])
      ensures forall e | e in stopped :: e.stop == now && e.durationInSeconds == now - e.start
      ensures forall e | e in related.timeEntries && e !in stopped ::
                e.stop == old(e.stop) && e.durationInSeconds == old(e.durationInSeconds)
    {
      stopped := StopRunning(related.timeEntries, now);
      ghost var entries := related.timeEntries;
      forall e | e in stopped
        ensures e in entries && Stoppable(old(e.durationInSeconds), e.start, now)
      {
        var k :| 0 <= k < |stopped| && stopped[k] == e;
        var j := Position(entries, e);
      }
      forall e | e in entries && e !in stopped
        ensures e.stop == old(e.stop) && e.durationInSeconds == old(e.durationInSeconds)
      {
        var j := Position(entries, e);
      }
    }

    // ------------------------------------------------ relation maintenance

    /**
     * `DeleteRelatedModelsWithWorkspace`: the clients, projects, tasks, time
     * entries and tags of the workspace are marked as deleted on the server
     * and dirtied; every other model keeps both flags.
     */
    method DeleteRelatedModelsWithWorkspace(wid: nat)
      modifies (set m | m in related.RelatedModels())`markedAsDeletedOnServer
      modifies (set m | m in related.RelatedModels())`dirty
      ensures forall m | m in related.RelatedModels() ::
                m.markedAsDeletedOnServer == (old(m.markedAsDeletedOnServer) || related.InWorkspace(m, wid))
                && m.dirty == (old(m.dirty) || related.InWorkspace(m, wid))
    {
      related.DeleteRelatedModelsWithWorkspace(wid);
    }

    /** `RemoveClientFromRelatedModels`: every project of the client loses it and is dirtied; no other project changes. */
    method RemoveClientFromRelatedModels(cid: nat)
      modifies (set p | p in related.projects)`cid, (set p | p in related.projects :: p.base)`dirty
      ensures forall p | p in related.projects :: p.cid == (if old(p.cid) == cid then 0 else old(p.cid))
      ensures forall p | p in related.projects ::
                p.base.dirty == (old(p.base.dirty) || (cid != 0 && old(related.OfClient(p.base, cid))))
    {
      related.RemoveClientFromRelatedModels(cid);
    }

    /** `RemoveProjectFromRelatedModels`: the tasks and time entries of the project lose it and are dirtied; nothing else changes. */
    method RemoveProjectFromRelatedModels(pid: nat)
      modifies (set t | t in related.tasks)`pid, (set t | t in related.tasks :: t.base)`dirty
      modifies (set te | te in related.timeEntries)`pid, (set te | te in related.timeEntries :: te.base)`dirty
      ensures forall t | t in related.tasks :: t.pid == (if old(t.pid) == pid then 0 else old(t.pid))
      ensures forall te | te in related.timeEntries :: te.pid == (if old(te.pid) == pid then 0 else old(te.pid))
      ensures forall t | t in related.tasks ::
                t.base.dirty == (old(t.base.dirty) || (pid != 0 && old(related.OfProject(t.base, pid))))
      ensures forall te | te in related.timeEntries ::
                te.base.dirty == (old(te.base.dirty) || (pid != 0 && old(related.OfProject(te.base, pid))))
    {
      related.RemoveProjectFromRelatedModels(pid);
    }
  }
}
