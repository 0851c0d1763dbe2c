/**
 * The parts of the local database (next/db/database.cc) that decide what
 * is stored: the guards in front of each statement, the clamping of the
 * minute settings, the allowed update channels, the single stored
 * session, the migrations that run once, and the saving of models with
 * the changes it reports. The SQLite tables become fields of the
 * `Database` object; every statement is taken to succeed, and the row id
 * SQLite hands out for an insert is a parameter.
 */
module Databases {
  import opened Wrappers
  import opened Errors
  import opened BaseModels
  import Containers
  import TimelineEvents
  import Users

  /** A value of the one-row `settings` table. */
  datatype Setting = Count(n: nat) | Text(s: string)

  /** A row of the `sessions` table. */
  datatype Session = Session(apiToken: string, uid: nat)

  /** A row of a model table, as far as the deletes look at it. */
  datatype Row = Row(localId: int, uid: nat)

  datatype ChangeType = Insert | Update | Delete

  /** `ModelChange`: what a save did to one model, reported to the user interface. */
  datatype ModelChange = ModelChange(modelName: string, changeType: ChangeType, modelId: nat, guid: string)

  /** A row of the `timeline_events` table. */
  datatype TimelineRow = TimelineRow(
    guid: string, title: string, filename: string, uid: nat,
    startTime: int, endTime: int, idle: bool, uploaded: bool, chunked: bool)

  /** A row of the `users` table; `collapseEntries` is None where the column keeps its default. */
  datatype UserRow = UserRow(
    id: nat, defaultWid: nat, since: int, fullname: string, email: string,
    recordTimeline: bool, storeStartAndStopTime: bool, timeOfDayFormat: string,
    durationFormat: string, offlineData: string, defaultPid: nat, defaultTid: nat,
    collapseEntries: Option<bool>)

  /** `kMaxTimelineStringSize`: the longest title or filename a timeline event keeps. */
  const MaxTimelineStringSize: nat := 300

  /** The update channels a user may choose. */
  const UpdateChannels: set<string> := {"stable", "beta", "dev"}

  /** A minute setting below one minute is stored as one minute. */
  function ClampedMinutes(v: nat): (r: nat)
    ensures r >= 1
    ensures v >= 1 ==> r == v
    ensures v < 1 ==> r == 1
  {
    if v < 1 then 1 else v
  }

  /** Clamping a clamped value changes nothing: storing what was read back stores the same. */
  lemma ClampedMinutesIdempotent(v: nat)
    ensures ClampedMinutes(ClampedMinutes(v)) == ClampedMinutes(v)
  {
  }

  /** `substr(0, kMaxTimelineStringSize)` where the string is too long. */
  function Truncated(s: string): (r: string)
    ensures |r| <= MaxTimelineStringSize
    ensures r <= s
    ensures |s| <= MaxTimelineStringSize ==> r == s
    ensures |s| > MaxTimelineStringSize ==> |r| == MaxTimelineStringSize
  {
    if |s| > MaxTimelineStringSize then s[..MaxTimelineStringSize] else s
  }

  /** What the save of a list looks at in one of its models, as it was when the save began. */
  datatype ModelState = ModelState(model: BaseModel, marked: bool, id: nat, guid: string, localId: int, uid: nat, dirty: bool)

  /** The state of each model of `xs`. */
  function Snapshot(xs: seq<BaseModel>): (r: seq<ModelState>)
    reads xs
    ensures |r| == |xs|
    ensures forall j :: 0 <= j < |xs| ==> r[j] == StateOf(xs[j])
  {
    if |xs| == 0 then [] else Snapshot(xs[..|xs| - 1]) + [StateOf(xs[|xs| - 1])]
  }

  /** The state of one model. */
  function StateOf(m: BaseModel): (r: ModelState)
    reads m
  {
    ModelState(m, m.markedAsDeletedOnServer, m.id, m.guid, m.localId, m.uid, m.dirty)
  }

  /** The models of `s` that are not marked as deleted on the server, in order. */
  function Unmarked(s: seq<ModelState>): (r: seq<BaseModel>)
    ensures |r| <= |s|
  {
    if |s| == 0 then []
    else Unmarked(s[..|s| - 1]) + (if s[|s| - 1].marked then [] else [s[|s| - 1].model])
  }

  /** The purge keeps exactly the models that are not marked. */
  lemma {:induction false} UnmarkedMembers(s: seq<ModelState>)
    ensures forall j :: 0 <= j < |s| && !s[j].marked ==> s[j].model in Unmarked(s)
    ensures forall m :: m in Unmarked(s) ==> exists j :: 0 <= j < |s| && !s[j].marked && s[j].model == m
  {
    if |s| > 0 {
      var init := s[..|s| - 1];
      UnmarkedMembers(init);
      forall m | m in Unmarked(s)
        ensures exists j :: 0 <= j < |s| && !s[j].marked && s[j].model == m
      {
        if m in Unmarked(init) {
          var j :| 0 <= j < |init| && !init[j].marked && init[j].model == m;
          assert s[j] == init[j];
        } else {
          assert s[|s| - 1].model == m;
        }
      }
    }
  }

  /** The delete changes reported for the marked models of `s`, in order. */
  function DeleteChanges(modelName: string, s: seq<ModelState>): (r: seq<ModelChange>)
    ensures |r| <= |s|
  {
    if |s| == 0 then []
    else
      var last := s[|s| - 1];
      DeleteChanges(modelName, s[..|s| - 1]) + (if last.marked then [ModelChange(modelName, Delete, last.id, last.guid)] else [])
  }

  /** Every marked model is reported as deleted, and nothing else is reported. */
  lemma {:induction false} DeleteChangesMembers(modelName: string, s: seq<ModelState>)
    ensures forall j :: 0 <= j < |s| && s[j].marked ==> ModelChange(modelName, Delete, s[j].id, s[j].guid) in DeleteChanges(modelName, s)
    ensures forall c :: c in DeleteChanges(modelName, s) ==> c.modelName == modelName && c.changeType == Delete
  {
    if |s| > 0 {
      DeleteChangesMembers(modelName, s[..|s| - 1]);
    }
  }

  /** The local ids the deletes of the marked models of `s` remove: a model never stored (local id 0) removes nothing. */
  function MarkedLocalIds(s: seq<ModelState>): (r: set<int>)
    ensures 0 !in r
    ensures forall j :: 0 <= j < |s| && s[j].marked && s[j].localId != 0 ==> s[j].localId in r
    ensures forall x :: x in r ==> exists j :: 0 <= j < |s| && s[j].marked && s[j].localId == x
  {
    set j | 0 <= j < |s| && s[j].marked && s[j].localId != 0 :: s[j].localId
  }

  /** The functions above, on a list one model longer. */
  lemma SnapshotStep(modelName: string, s: seq<ModelState>, i: nat)
    requires i < |s|
    ensures Unmarked(s[..i + 1]) == Unmarked(s[..i]) + (if s[i].marked then [] else [s[i].model])
    ensures DeleteChanges(modelName, s[..i + 1])
              == DeleteChanges(modelName, s[..i]) + (if s[i].marked then [ModelChange(modelName, Delete, s[i].id, s[i].guid)] else [])
    ensures MarkedLocalIds(s[..i + 1]) == MarkedLocalIds(s[..i]) + (if s[i].marked && s[i].localId != 0 then {s[i].localId} else {})
  {
    assert s[..i + 1][..i] == s[..i];
    var l, r := MarkedLocalIds(s[..i + 1]), MarkedLocalIds(s[..i]) + (if s[i].marked && s[i].localId != 0 then {s[i].localId} else {});
    forall x | x in l ensures x in r {
      var j :| 0 <= j < i + 1 && s[..i + 1][j].marked && s[..i + 1][j].localId != 0 && s[..i + 1][j].localId == x;
      if j < i {
        assert s[..i][j] == s[j];
      }
    }
    forall x | x in r ensures x in l {
      if x in MarkedLocalIds(s[..i]) {
        var j :| 0 <= j < i && s[..i][j].marked && s[..i][j].localId != 0 && s[..i][j].localId == x;
        assert s[..i + 1][j] == s[j];
      } else {
        assert s[..i + 1][i] == s[i];
      }
    }
  }

  /** Erasing the item between two parts joins the parts. */
  lemma WithoutJoint<T>(front: seq<T>, x: T, back: seq<T>)
    ensures Containers.Without(front + [x] + back, |front|) == front + back
  {
    assert (front + [x] + back)[..|front|] == front;
    assert (front + [x] + back)[|front| + 1..] == back;
  }

  /** The local SQLite database of the desktop app, as the tables the model looks at. */
  class Database {
    /** The one row of `settings`, by column. */
    var settings: map<string, Setting>
    /** `sessions`: the API token and user of the signed-in session. */
    var sessions: seq<Session>
    /** `kopsik_migrations`: the names of the migrations already run, in order. */
    var migrations: seq<string>
    /** The SQL the migrations ran, in order. */
    var executed: seq<string>
    /** The model tables, by name. */
    var tables: map<string, set<Row>>
    /** `timeline_events`, by local id. */
    var timelineEvents: map<int, TimelineRow>
    /** `users`, by local id. */
    var users: map<int, UserRow>
    /** The models handed to the saveModel of their own type, in order. */
    var saved: seq<BaseModel>

    /** An empty database. */
    constructor()
      ensures settings == map[] && sessions == [] && migrations == [] && executed == []
      ensures tables == map[] && timelineEvents == map[] && users == map[] && saved == []
    {
      settings, sessions, migrations, executed := map[], [], [], [];
      tables, timelineEvents, users, saved := map[], map[], map[], [];
    }

    /** The rows of table `name`; a table never written is empty. */
    function Rows(name: string): set<Row>
      reads this
    {
      if name in tables then tables[name] else {}
    }

    /** `setSettingsValue`: writes one column of the settings row. */
    method SetSettingsValue(field: string, value: Setting) returns (err: Code)
      modifies this`settings
      ensures err == NoError
      ensures settings == old(settings)[field := value]
    {
      settings := settings[field := value];
      return NoError;
    }

    /** `SetSettingsIdleMinutes`: at least one minute is stored. */
    method SetSettingsIdleMinutes(idleMinutes: nat) returns (err: Code)
      modifies this`settings
      ensures err == NoError
      ensures settings == old(settings)["idle_minutes" := Count(ClampedMinutes(idleMinutes))]
    {
      err := SetSettingsValue("idle_minutes", Count(ClampedMinutes(idleMinutes)));
    }

    /** `SetSettingsReminderMinutes`: at least one minute is stored. */
    method SetSettingsReminderMinutes(reminderMinutes: nat) returns (err: Code)
      modifies this`settings
      ensures err == NoError
      ensures settings == old(settings)["reminder_minutes" := Count(ClampedMinutes(reminderMinutes))]
    {
      err := SetSettingsValue("reminder_minutes", Count(ClampedMinutes(reminderMinutes)));
    }

    /** `SetSettingsPomodoroMinutes`: at least one minute is stored. */
    method SetSettingsPomodoroMinutes(pomodoroMinutes: nat) returns (err: Code)
      modifies this`settings
      ensures err == NoError
      ensures settings == old(settings)["pomodoro_minutes" := Count(ClampedMinutes(pomodoroMinutes))]
    {
      err := SetSettingsValue("pomodoro_minutes", Count(ClampedMinutes(pomodoroMinutes)));
    }

    /** `SetSettingsPomodoroBreakMinutes`: at least one minute is stored. */
    method SetSettingsPomodoroBreakMinutes(pomodoroBreakMinutes: nat) returns (err: Code)
      modifies this`settings
      ensures err == NoError
      ensures settings == old(settings)["pomodoro_break_minutes" := Count(ClampedMinutes(pomodoroBreakMinutes))]
    {
      err := SetSettingsValue("pomodoro_break_minutes", Count(ClampedMinutes(pomodoroBreakMinutes)));
    }

    /** `SaveUpdateChannel`: only "stable", "beta" and "dev" are stored; anything else is refused. */
    method SaveUpdateChannel(channel: string) returns (err: Code)
      modifies this`settings
      ensures err == NoError <==> channel in UpdateChannels
      ensures err != NoError ==> err == InvalidUpdateChannel && settings == old(settings)
      ensures err == NoError ==> settings == old(settings)["update_channel" := Text(channel)]
    {
      if channel != "stable" && channel != "beta" && channel != "dev" {
        return InvalidUpdateChannel;
      }
      err := SetSettingsValue("update_channel", Text(channel));
    }

    /**
     * `DeleteFromTable`: a table must be named; a model never stored
     * (local id 0) has nothing to delete; otherwise its row goes.
     */
    method DeleteFromTable(tableName: string, localId: int) returns (err: Code)
      modifies this`tables
      ensures err == (if tableName == "" then MissingArgument else NoError)
      ensures tableName == "" || localId == 0 ==> tables == old(tables)
      ensures tableName != "" ==> forall r :: r in Rows(tableName) <==> r in old(Rows(tableName)) && (r.localId != localId || localId == 0)
      ensures forall t :: t != tableName ==> Rows(t) == old(Rows(t))
    {
      if tableName == "" {
        return MissingArgument;
      }
      if localId == 0 {
        return NoError;
      }
      tables := tables[tableName := set r | r in Rows(tableName) && r.localId != localId];
      return NoError;
    }

    /** `deleteAllFromTableByUID`: a user and a table must be given; every row of that user goes. */
    method DeleteAllFromTableByUID(tableName: string, uid: nat) returns (err: Code)
      modifies this`tables
      ensures err == (if uid == 0 || tableName == "" then MissingArgument else NoError)
      ensures err != NoError ==> tables == old(tables)
      ensures err == NoError ==> forall r :: r in Rows(tableName) <==> r in old(Rows(tableName)) && r.uid != uid
      ensures forall t :: t != tableName ==> Rows(t) == old(Rows(t))
    {
      if uid == 0 || tableName == "" {
        return MissingArgument;
      }
      tables := tables[tableName := set r | r in Rows(tableName) && r.uid != uid];
      return NoError;
    }

    /** `ClearCurrentAPIToken`: no session is left. */
    method ClearCurrentAPIToken() returns (err: Code)
      modifies this`sessions
      ensures err == NoError && sessions == []
    {
      sessions := [];
      return NoError;
    }

    /**
     * `SetCurrentAPIToken`: a token and a user are required; the old
     * sessions are cleared, so the new one is the only session.
     */
    method SetCurrentAPIToken(token: string, uid: nat) returns (err: Code)
      modifies this`sessions
      ensures err == (if token == "" || uid == 0 then MissingArgument else NoError)
      ensures err != NoError ==> sessions == old(sessions)
      ensures err == NoError ==> sessions == [Session(token, uid)]
    {
      if token == "" || uid == 0 {
        return MissingArgument;
      }
      err := ClearCurrentAPIToken();
      sessions := sessions + [Session(token, uid)];
    }

    /** `execute`: runs a statement that must not be empty. */
    method Execute(sql: string) returns (err: Code)
      modifies this`executed
      ensures err == (if sql == "" then MissingArgument else NoError)
      ensures err != NoError ==> executed == old(executed)
      ensures err == NoError ==> executed == old(executed) + [sql]
    {
      if sql == "" {
        return MissingArgument;
      }
      executed := executed + [sql];
      return NoError;
    }

    /**
     * `Migrate`: a migration needs a name and SQL; one already recorded
     * is skipped; otherwise its SQL runs and its name is recorded.
     */
    method Migrate(name: string, sql: string) returns (err: Code)
      modifies this`executed, this`migrations
      ensures err == (if name == "" || sql == "" then MissingArgument else NoError)
      ensures err != NoError || name in old(migrations) ==> executed == old(executed) && migrations == old(migrations)
      ensures err == NoError && name !in old(migrations) ==>
                executed == old(executed) + [sql] && migrations == old(migrations) + [name]
      ensures err == NoError ==> name in migrations
    {
      if name == "" || sql == "" {
        return MissingArgument;
      }
      if name in migrations {
        return NoError;
      }
      err := Execute(sql);
      migrations := migrations + [name];
    }

    /** Running the same migration twice runs its SQL at most once. */
    method MigrateTwice(name: string, sql: string) returns (first: Code, second: Code)
      modifies this`executed, this`migrations
      ensures first == second
      ensures |executed| <= |old(executed)| + 1
      ensures name in old(migrations) ==> executed == old(executed)
    {
      first := Migrate(name, sql);
      ghost var between := executed;
      second := Migrate(name, sql);
      assert executed == between;
    }

    /** `snap` records the models of `items`, one state per position. */
    static ghost predicate Consistent(items: seq<BaseModel>, snap: seq<ModelState>) {
      |snap| == |items| && forall j :: 0 <= j < |items| ==> snap[j].model == items[j]
    }

    /**
     * The purge has looked at the first `k` models of `items0`, recorded in
     * `snap`: the list holds the unmarked ones among them, then the rest of
     * `items0`, and `i` is the position of the first model not looked at.
     */
    static ghost predicate Purged(items: seq<BaseModel>, snap: seq<ModelState>, items0: seq<BaseModel>, k: nat, i: nat) {
      && k <= |snap| == |items0|
      && items == Unmarked(snap[..k]) + items0[k..]
      && i + |items0| - k == |items|
    }

    /** Before the purge nothing has been looked at. */
    static lemma PurgeStart(snap: seq<ModelState>, items0: seq<BaseModel>)
      requires |snap| == |items0|
      ensures Purged(items0, snap, items0, 0, 0)
    {
      assert snap[..0] == [] && items0[0..] == items0;
    }

    /** Once the position has reached the end of the list, every model has been looked at. */
    static lemma PurgeEnd(items: seq<BaseModel>, snap: seq<ModelState>, items0: seq<BaseModel>, k: nat, i: nat)
      requires Purged(items, snap, items0, k, i) && i >= |items|
      ensures items == Unmarked(snap)
    {
      assert snap[..k] == snap;
    }

    /** One pass of the purge: model `i`, the `k`th of the list, is erased when it is marked. */
    static method PurgeAt(list: Containers.ProtectedModel, i: nat,
                          ghost snap: seq<ModelState>, ghost items0: seq<BaseModel>, ghost k: nat)
      returns (i': nat)
      requires Consistent(items0, snap) && Purged(list.items, snap, items0, k, i) && i < |list.items|
      requires k < |snap| ==> snap[k].marked == items0[k].markedAsDeletedOnServer
      modifies list`items
      ensures k < |snap| && Purged(list.items, snap, items0, k + 1, i')
    {
      ghost var kept, rest := Unmarked(snap[..k]), items0[k + 1..];
      assert items0[k..] == [items0[k]] + rest;
      SnapshotStep("", snap, k);
      if list.items[i].markedAsDeletedOnServer {
        WithoutJoint(kept, items0[k], rest);
        list.Erase(i);
        i' := i;
      } else {
        i' := i + 1;
      }
    }

    /**
     * The purge at the end of `saveRelatedModels`: models marked as deleted
     * on the server leave the list, and the others keep their order.
     * `snap` records the list's models and their marks.
     */
    static method PurgeDeleted(list: Containers.ProtectedModel, ghost snap: seq<ModelState>)
      requires Consistent(list.items, snap)
      requires forall j :: 0 <= j < |snap| ==> snap[j].marked == list.items[j].markedAsDeletedOnServer
      modifies list`items
      ensures list.items == Unmarked(snap)
    {
      ghost var items0 := list.items;
      var i: nat := 0;
      ghost var k: nat := 0;
      PurgeStart(snap, items0);
      while i < |list.items|
        invariant Purged(list.items, snap, items0, k, i)
        decreases |snap| - k
      {
        i := PurgeAt(list, i, snap, items0, k);
        k := k + 1;
      }
      PurgeEnd(list.items, snap, items0, k, i);
    }

    /**
     * One pass of the loop of `saveRelatedModels`: a model marked as
     * deleted on the server loses its row and is reported as deleted;
     * any other model takes the user id and goes to the saveModel of its
     * type.
     */
    method SaveOne(uid: nat, tableName: string, modelName: string, m: BaseModel, changes: seq<ModelChange>)
      returns (err: Code, out: seq<ModelChange>)
      modifies this`tables, this`saved, m`uid, m`dirty
      ensures m.markedAsDeletedOnServer ==>
                err == (if tableName == "" then MissingArgument else NoError)
                && (err != NoError ==> tables == old(tables))
                && m.uid == old(m.uid) && m.dirty == old(m.dirty) && saved == old(saved)
      ensures m.markedAsDeletedOnServer && err == NoError ==>
                out == changes + [ModelChange(modelName, Delete, m.id, m.guid)]
                && Rows(tableName) == RowsWithout(old(Rows(tableName)), if m.localId != 0 then {m.localId} else {})
      ensures !m.markedAsDeletedOnServer ==>
                err == NoError && out == changes && tables == old(tables) && saved == old(saved) + [m]
                && m.uid == uid && m.dirty == (old(m.dirty) || old(m.uid) != uid)
      ensures forall t :: t != tableName ==> Rows(t) == old(Rows(t))
    {
      out := changes;
      if m.markedAsDeletedOnServer {
        ghost var before := Rows(tableName);
        err := DeleteFromTable(tableName, m.localId);
        if err == NoError {
          out := changes + [ModelChange(modelName, Delete, m.id, m.guid)];
          assert Rows(tableName) == RowsWithout(before, if m.localId != 0 then {m.localId} else {});
        }
      } else {
        m.SetUID(uid);
        saved := saved + [m];
        err := NoError;
      }
    }

    /** The fields the save does not change are still those `snap` recorded. */
    static ghost predicate Recorded(items: seq<BaseModel>, snap: seq<ModelState>)
      reads items`markedAsDeletedOnServer, items`id, items`guid, items`localId
    {
      |snap| == |items|
      && forall j :: 0 <= j < |items| ==>
           snap[j].marked == items[j].markedAsDeletedOnServer && snap[j].id == items[j].id
           && snap[j].guid == items[j].guid && snap[j].localId == items[j].localId
    }

    /**
     * The first `i` models have been saved for user `uid`: a model that is
     * not marked took the user id, and became dirty if that changed it.
     * Marked models, and models not reached yet, are as `snap` recorded.
     */
    static ghost predicate SavedUpTo(items: seq<BaseModel>, snap: seq<ModelState>, i: nat, uid: nat)
      reads items`uid, items`dirty
    {
      && |snap| == |items| && i <= |items|
      && forall j :: 0 <= j < |items| ==>
           items[j].uid == (if j < i then SavedUid(snap[j], uid) else snap[j].uid)
           && items[j].dirty == (if j < i then SavedDirty(snap[j], uid) else snap[j].dirty)
    }

    /** The user id of a model after the save: a model that is not marked takes `uid`. */
    static function SavedUid(st: ModelState, uid: nat): (r: nat)
      ensures st.marked ==> r == st.uid
      ensures !st.marked ==> r == uid
    {
      if st.marked then st.uid else uid
    }

    /** The dirty flag of a model after the save: a model that is not marked becomes dirty when its user id changes. */
    static function SavedDirty(st: ModelState, uid: nat): (r: bool)
      ensures st.marked ==> r == st.dirty
      ensures !st.marked ==> (r <==> st.dirty || st.uid != uid)
    {
      if st.marked then st.dirty else st.dirty || st.uid != uid
    }

    /** `rows` without those whose local id is in `ids`. */
    static function RowsWithout(rows: set<Row>, ids: set<int>): (r: set<Row>)
      ensures r <= rows
      ensures forall x :: x in rows ==> (x in r <==> x.localId !in ids)
    {
      set x | x in rows && x.localId !in ids
    }

    /** Removing two sets of local ids one after the other removes their union. */
    static lemma RowsWithoutTwice(rows: set<Row>, a: set<int>, b: set<int>)
      ensures RowsWithout(RowsWithout(rows, a), b) == RowsWithout(rows, a + b)
    {
    }

    /**
     * What the loop of `saveRelatedModels` has produced after the first `i`
     * models recorded in `snap`: the delete changes of the marked ones are
     * appended to `changes`, the others are saved after `saved0`, and the
     * marked ones' rows are gone from `rows0`. An empty table name has met
     * no marked model yet.
     */
    static ghost predicate Booked(tableName: string, modelName: string, snap: seq<ModelState>, i: nat, changes: seq<ModelChange>,
                                  saved0: seq<BaseModel>, rows0: set<Row>,
                                  out: seq<ModelChange>, saved: seq<BaseModel>, rows: set<Row>)
    {
      && i <= |snap|
      && (tableName == "" ==> forall j :: 0 <= j < i ==> !snap[j].marked)
      && out == changes + DeleteChanges(modelName, snap[..i])
      && saved == saved0 + Unmarked(snap[..i])
      && rows == RowsWithout(rows0, MarkedLocalIds(snap[..i]))
    }

    /** Saving model `i` as `SaveOne` does extends what has been booked by one model. */
    static lemma BookedStep(tableName: string, modelName: string, snap: seq<ModelState>, i: nat, changes: seq<ModelChange>,
                            saved0: seq<BaseModel>, rows0: set<Row>,
                            out: seq<ModelChange>, saved: seq<BaseModel>, rows: set<Row>,
                            out': seq<ModelChange>, saved': seq<BaseModel>, rows': set<Row>)
      requires i < |snap| && Booked(tableName, modelName, snap, i, changes, saved0, rows0, out, saved, rows)
      requires tableName == "" ==> !snap[i].marked
      requires snap[i].marked ==>
                 out' == out + [ModelChange(modelName, Delete, snap[i].id, snap[i].guid)] && saved' == saved
                 && rows' == RowsWithout(rows, if snap[i].localId != 0 then {snap[i].localId} else {})
      requires !snap[i].marked ==> out' == out && saved' == saved + [snap[i].model] && rows' == rows
      ensures Booked(tableName, modelName, snap, i + 1, changes, saved0, rows0, out', saved', rows')
    {
      SnapshotStep(modelName, snap, i);
      var ids := MarkedLocalIds(snap[..i]);
      RowsWithoutTwice(rows0, ids, if snap[i].localId != 0 then {snap[i].localId} else {});
      assert ids + {} == ids;
    }

    /**
     * The loop of `saveRelatedModels` has saved the first `i` models of
     * `items`, whose other fields are as `snap` recorded them before.
     */
    ghost predicate Progress(uid: nat, tableName: string, modelName: string, items: seq<BaseModel>,
                             snap: seq<ModelState>, rows0: set<Row>, saved0: seq<BaseModel>,
                             changes: seq<ModelChange>, i: nat, out: seq<ModelChange>)
      reads this, items
    {
      && Recorded(items, snap) && SavedUpTo(items, snap, i, uid)
      && Booked(tableName, modelName, snap, i, changes, saved0, rows0, out, saved, Rows(tableName))
    }

    /** One pass of the loop of `saveRelatedModels`, at model `i`; an error leaves the models as they were. */
    method SaveNext(uid: nat, tableName: string, modelName: string, items: seq<BaseModel>, i: nat, m: BaseModel,
                    ghost snap: seq<ModelState>, ghost rows0: set<Row>, ghost saved0: seq<BaseModel>,
                    ghost changes: seq<ModelChange>, out: seq<ModelChange>)
      returns (err: Code, out': seq<ModelChange>)
      requires i < |items| && m == items[i] && forall j :: 0 <= j < |items| && j != i ==> items[j] != m
      requires Consistent(items, snap)
      requires Progress(uid, tableName, modelName, items, snap, rows0, saved0, changes, i, out)
      modifies this`tables, this`saved, m`uid, m`dirty
      ensures err == (if snap[i].marked && tableName == "" then MissingArgument else NoError)
      ensures err == NoError ==> Progress(uid, tableName, modelName, items, snap, rows0, saved0, changes, i + 1, out')
      ensures err != NoError ==> SavedUpTo(items, snap, i, uid) && Recorded(items, snap)
      ensures forall t :: t != tableName ==> Rows(t) == old(Rows(t))
    {
      ghost var rows := Rows(tableName);
      err, out' := SaveOne(uid, tableName, modelName, m, out);
      if err == NoError {
        BookedStep(tableName, modelName, snap, i, changes, saved0, rows0, out, old(saved), rows, out', saved, Rows(tableName));
      }
    }

    /** Before the loop, the snapshot of the list records every model and none has been saved. */
    static lemma SaveStart(items: seq<BaseModel>, uid: nat)
      ensures Consistent(items, Snapshot(items)) && Recorded(items, Snapshot(items))
      ensures SavedUpTo(items, Snapshot(items), 0, uid)
    {
    }

    /** Nothing has been booked before the first model. */
    static lemma BookedStart(tableName: string, modelName: string, snap: seq<ModelState>, changes: seq<ModelChange>,
                             saved0: seq<BaseModel>, rows0: set<Row>)
      ensures Booked(tableName, modelName, snap, 0, changes, saved0, rows0, changes, saved0, rows0)
    {
      assert snap[..0] == [];
    }

    /** Once every model has been booked, the whole snapshot has. */
    static lemma BookedEnd(tableName: string, modelName: string, snap: seq<ModelState>, i: nat, changes: seq<ModelChange>,
                           saved0: seq<BaseModel>, rows0: set<Row>,
                           out: seq<ModelChange>, saved: seq<BaseModel>, rows: set<Row>)
      requires Booked(tableName, modelName, snap, i, changes, saved0, rows0, out, saved, rows) && i >= |snap|
      ensures out == changes + DeleteChanges(modelName, snap)
      ensures saved == saved0 + Unmarked(snap)
      ensures rows == RowsWithout(rows0, MarkedLocalIds(snap))
      ensures tableName == "" ==> forall j :: 0 <= j < |snap| ==> !snap[j].marked
    {
      assert snap[..i] == snap;
    }

    /**
     * The models of `items`, recorded in `snap` before a save for user
     * `uid`, are as the save leaves them: a marked model keeps its user id
     * and dirty flag, and, when the save went through (`all`), every other
     * model took the user id and became dirty if that changed it.
     */
    static ghost predicate SavedAs(items: seq<BaseModel>, snap: seq<ModelState>, uid: nat, all: bool)
      reads items`uid, items`dirty
    {
      |snap| == |items|
      && forall j :: 0 <= j < |items| && (all || snap[j].marked) ==>
           items[j].uid == SavedUid(snap[j], uid) && items[j].dirty == SavedDirty(snap[j], uid)
    }

    /** Part way, marked models are as recorded; at the end, every model is saved. */
    static lemma SavedMeaning(items: seq<BaseModel>, snap: seq<ModelState>, i: nat, uid: nat)
      requires SavedUpTo(items, snap, i, uid)
      ensures SavedAs(items, snap, uid, i == |items|)
    {
    }

    /** In a list without repeats, the model at `i` is at no other position. */
    static lemma OnlyAt(items: seq<BaseModel>, i: nat)
      requires Containers.NoDuplicates(items) && i < |items|
      ensures forall j :: 0 <= j < |items| && j != i ==> items[j] != items[i]
    {
      forall j | 0 <= j < |items| && j != i
        ensures items[j] != items[i]
      {
        if j < i {
          assert items[j] != items[i];
        } else {
          assert items[i] != items[j];
        }
      }
    }

    /** The loop of `saveRelatedModels` over the models of `list`; it stops at the first error. */
    method SaveEach(uid: nat, tableName: string, modelName: string, list: Containers.ProtectedModel, changes: seq<ModelChange>)
      returns (err: Code, out: seq<ModelChange>)
      requires Containers.NoDuplicates(list.items)
      modifies this`tables, this`saved, (set m | m in list.items)`uid, (set m | m in list.items)`dirty
      ensures err == NoError || err == MissingArgument
      ensures err == NoError <==>
                tableName != "" || forall j :: 0 <= j < |old(list.items)| ==> !old(list.items)[j].markedAsDeletedOnServer
      ensures err == NoError ==> out == changes + DeleteChanges(modelName, old(Snapshot(list.items)))
      ensures err == NoError ==> saved == old(saved) + Unmarked(old(Snapshot(list.items)))
      ensures SavedAs(old(list.items), old(Snapshot(list.items)), uid, err == NoError)
      ensures err == NoError ==> Rows(tableName) == RowsWithout(old(Rows(tableName)), MarkedLocalIds(old(Snapshot(list.items))))
      ensures forall t :: t != tableName ==> Rows(t) == old(Rows(t))
    {
      var items := list.items;
      ghost var snap := Snapshot(items);
      ghost var rows0, saved0 := Rows(tableName), saved;
      SaveStart(items, uid);
      BookedStart(tableName, modelName, snap, changes, saved0, rows0);
      out := changes;
      var i := 0;
      while i < |items|
        invariant i <= |items|
        invariant Progress(uid, tableName, modelName, items, snap, rows0, saved0, changes, i, out)
        invariant forall t :: t != tableName ==> Rows(t) == old(Rows(t))
      {
        OnlyAt(items, i);
        var e;
        e, out := SaveNext(uid, tableName, modelName, items, i, items[i], snap, rows0, saved0, changes, out);
        if e != NoError {
          SavedMeaning(items, snap, i, uid);
          return e, out;
        }
        i := i + 1;
      }
      BookedEnd(tableName, modelName, snap, i, changes, saved0, rows0, out, saved, Rows(tableName));
      SavedMeaning(items, snap, i, uid);
      return NoError, out;
    }

    /**
     * `saveRelatedModels`: every model of a user's list is saved for user
     * `uid`. A model marked as deleted on the server loses its row and is
     * reported as deleted; every other model takes the user id and goes to
     * the saveModel of its type. At the end the marked models leave the
     * list. A missing user, or a missing table name when there is a model
     * to delete, is a missing argument.
     */
    method SaveRelatedModels(uid: nat, tableName: string, modelName: string,
                             list: Containers.ProtectedModel, changes: seq<ModelChange>)
      returns (err: Code, out: seq<ModelChange>)
      requires Containers.NoDuplicates(list.items)
      modifies this`tables, this`saved, list`items, (set m | m in list.items)`uid, (set m | m in list.items)`dirty
      ensures err == NoError || err == MissingArgument
      ensures err == NoError <==>
                uid != 0 && (tableName != "" || forall j :: 0 <= j < |old(list.items)| ==> !old(list.items)[j].markedAsDeletedOnServer)
      ensures uid == 0 ==> out == changes && tables == old(tables) && saved == old(saved) && list.items == old(list.items)
      ensures err == NoError ==> list.items == Unmarked(old(Snapshot(list.items)))
      ensures err == NoError ==> out == changes + DeleteChanges(modelName, old(Snapshot(list.items)))
      ensures err == NoError ==> saved == old(saved) + Unmarked(old(Snapshot(list.items)))
      ensures SavedAs(old(list.items), old(Snapshot(list.items)), uid, err == NoError)
      ensures err == NoError ==> Rows(tableName) == RowsWithout(old(Rows(tableName)), MarkedLocalIds(old(Snapshot(list.items))))
      ensures forall t :: t != tableName ==> Rows(t) == old(Rows(t))
    {
      if uid == 0 {
        return MissingArgument, changes;
      }
      ghost var snap := Snapshot(list.items);
      err, out := SaveEach(uid, tableName, modelName, list, changes);
      if err != NoError {
        return err, out;
      }
      PurgeDeleted(list, snap);
    }

    /** The `timeline_events` row of an event. */
    function TimelineRowOf(e: TimelineEvents.TimelineEvent): TimelineRow
      reads e, e.base
    {
      TimelineRow(e.base.guid, e.title, e.filename, e.base.uid, e.startTime, e.endTime, e.idle, e.uploaded, e.chunked)
    }

    /**
     * `saveModel` for a timeline event. The event gets a GUID if it has
     * none; an event that does not need saving is left alone. Otherwise
     * its title and filename are cut to 300 characters, an event without
     * a user, a start or an end is refused, and the event is updated in
     * place (reported as deleted when it has a deletion time) or inserted
     * under the row id SQLite gives it. A saved event is no longer dirty.
     */
    method SaveTimelineEvent(model: TimelineEvents.TimelineEvent, generatedGuid: string, newLocalId: int,
                             modelName: string, changes: seq<ModelChange>)
      returns (err: Code, out: seq<ModelChange>)
      requires generatedGuid != ""
      requires newLocalId != 0 && newLocalId !in timelineEvents
      modifies this`timelineEvents, model`title, model`filename, model.base`guid, model.base`dirty, model.base`localId
      ensures model.base.guid == if old(model.base.guid) != "" then old(model.base.guid) else generatedGuid
      ensures err == NoError || err == DatabaseStoreError
      ensures
        var needs := old(model.base.localId) == 0 || old(model.base.dirty) || old(model.base.guid) == "";
        var complete := model.base.uid != 0 && model.startTime != 0 && model.endTime != 0;
        && (!needs ==> err == NoError && out == changes && timelineEvents == old(timelineEvents)
                       && model.title == old(model.title) && model.filename == old(model.filename)
                       && model.base.dirty == old(model.base.dirty))
        && (needs ==> model.title == Truncated(old(model.title)) && model.filename == Truncated(old(model.filename)))
        && (needs && !complete ==> err == DatabaseStoreError && out == changes && timelineEvents == old(timelineEvents)
                                   && model.base.localId == old(model.base.localId)
                                   && model.base.dirty == (old(model.base.dirty) || old(model.base.guid) == ""
                                        || |old(model.title)| > MaxTimelineStringSize
                                        || |old(model.filename)| > MaxTimelineStringSize))
        && (needs && complete ==> err == NoError && !model.base.dirty)
        && (needs && complete && old(model.base.localId) != 0 ==>
              model.base.localId == old(model.base.localId)
              && timelineEvents == (if model.base.localId in old(timelineEvents)
                                    then old(timelineEvents)[model.base.localId := TimelineRowOf(model)]
                                    else old(timelineEvents))
              && out == changes + [ModelChange(modelName, if model.base.deletedAt != 0 then Delete else Update,
                                               model.base.id, model.base.guid)])
        && (needs && complete && old(model.base.localId) == 0 ==>
              model.base.localId == newLocalId
              && timelineEvents == old(timelineEvents)[newLocalId := TimelineRowOf(model)]
              && out == changes + [ModelChange(modelName, Insert, model.base.id, model.base.guid)])
      ensures err == NoError ==> !model.base.NeedsToBeSaved()
    {
      model.base.EnsureGUID(generatedGuid);
      if !model.base.NeedsToBeSaved() {
        return NoError, changes;
      }
      TruncateStrings(model);
      err, out := StoreTimelineEvent(model, newLocalId, modelName, changes);
    }

    /** The title and the filename of an event are cut to 300 characters; a cut makes the event dirty. */
    static method TruncateStrings(model: TimelineEvents.TimelineEvent)
      modifies model`title, model`filename, model.base`dirty
      ensures model.title == Truncated(old(model.title)) && model.filename == Truncated(old(model.filename))
      ensures model.base.dirty == (old(model.base.dirty) || |old(model.title)| > MaxTimelineStringSize
                                   || |old(model.filename)| > MaxTimelineStringSize)
    {
      if |model.filename| > MaxTimelineStringSize {
        model.SetFilename(model.filename[..MaxTimelineStringSize]);
      }
      if |model.title| > MaxTimelineStringSize {
        model.SetTitle(model.title[..MaxTimelineStringSize]);
      }
    }

    /**
     * The store half of `saveModel` for a timeline event: an event without
     * a user, a start or an end is refused; one with a local id updates its
     * row, if there is one, and is reported as updated or, with a deletion
     * time, as deleted; one without is inserted under `newLocalId`. A
     * stored event is no longer dirty.
     */
    method StoreTimelineEvent(model: TimelineEvents.TimelineEvent, newLocalId: int, modelName: string, changes: seq<ModelChange>)
      returns (err: Code, out: seq<ModelChange>)
      requires newLocalId != 0 && newLocalId !in timelineEvents
      modifies this`timelineEvents, model.base`dirty, model.base`localId
      ensures
        var complete := model.base.uid != 0 && model.startTime != 0 && model.endTime != 0;
        && (!complete ==> err == DatabaseStoreError && out == changes && timelineEvents == old(timelineEvents)
                          && model.base.localId == old(model.base.localId) && model.base.dirty == old(model.base.dirty))
        && (complete ==> err == NoError && !model.base.dirty)
        && (complete && old(model.base.localId) != 0 ==>
              model.base.localId == old(model.base.localId)
              && timelineEvents == (if model.base.localId in old(timelineEvents)
                                    then old(timelineEvents)[model.base.localId := TimelineRowOf(model)]
                                    else old(timelineEvents))
              && out == changes + [ModelChange(modelName, if model.base.deletedAt != 0 then Delete else Update,
                                               model.base.id, model.base.guid)])
        && (complete && old(model.base.localId) == 0 ==>
              model.base.localId == newLocalId
              && timelineEvents == old(timelineEvents)[newLocalId := TimelineRowOf(model)]
              && out == changes + [ModelChange(modelName, Insert, model.base.id, model.base.guid)])
    {
      if model.base.uid == 0 || model.startTime == 0 || model.endTime == 0 {
        return DatabaseStoreError, changes;
      }
      var lid := model.base.localId;
      if lid != 0 {
        if lid in timelineEvents {
          timelineEvents := timelineEvents[lid := TimelineRowOf(model)];
        }
        var kind := if model.base.deletedAt != 0 then Delete else Update;
        out := changes + [ModelChange(modelName, kind, model.base.id, model.base.guid)];
      } else {
        timelineEvents := timelineEvents[newLocalId := TimelineRowOf(model)];
        model.base.SetLocalID(newLocalId);
        out := changes + [ModelChange(modelName, Insert, model.base.id, model.base.guid)];
      }
      model.base.ClearDirty();
      return NoError, out;
    }

    /** Saving a timeline event a second time, right after a successful save, changes nothing. */
    method SaveTimelineEventTwice(model: TimelineEvents.TimelineEvent, generatedGuid: string,
                                  firstLocalId: int, secondLocalId: int, modelName: string)
      returns (first: Code, second: Code, out: seq<ModelChange>)
      requires generatedGuid != ""
      requires firstLocalId != 0 && firstLocalId !in timelineEvents
      requires secondLocalId != 0 && secondLocalId !in timelineEvents && secondLocalId != firstLocalId
      modifies this`timelineEvents, model`title, model`filename, model.base`guid, model.base`dirty, model.base`localId
      ensures first == NoError ==> second == NoError && |out| <= 1
    {
      var changes;
      first, changes := SaveTimelineEvent(model, generatedGuid, firstLocalId, modelName, []);
      ghost var between := timelineEvents;
      if first == NoError {
        second, out := SaveTimelineEvent(model, generatedGuid, secondLocalId, modelName, changes);
        assert out == changes && timelineEvents == between;
      } else {
        second, out := first, changes;
      }
    }

    /** The `users` row of a user; `collapseEntries` is None for an insert, which leaves that column out. */
    function UserRowOf(user: Users.User, collapseEntries: Option<bool>): UserRow
      reads user, user.base
    {
      UserRow(user.base.id, user.defaultWid, user.since, user.fullname, user.email,
              user.recordTimeline, user.storeStartAndStopTime, user.timeOfDayFormat,
              user.durationFormat, user.offlineData, user.defaultPid, user.defaultTid, collapseEntries)
    }

    /**
     * `SaveUser` without the related data. A user that has logged out
     * (id 0) is not saved; a user without an e-mail or without an API
     * token is refused. Otherwise a user never stored, or changed since,
     * is inserted under the row id SQLite gives it or updated in place, and
     * is no longer dirty.
     */
    method SaveUser(user: Users.User, newLocalId: int, modelName: string, changes: seq<ModelChange>)
      returns (err: Code, out: seq<ModelChange>)
      requires newLocalId != 0 && newLocalId !in users
      modifies this`users, user.base`localId, user.base`dirty
      ensures user.base.id == 0 ==> err == NoError
      ensures user.base.id != 0 && (user.email == "" || user.apiToken == "") ==> err == DatabaseStoreError
      ensures user.base.id != 0 && user.email != "" && user.apiToken != "" ==> err == NoError
      ensures
        var save := err == NoError && user.base.id != 0 && (old(user.base.localId) == 0 || old(user.base.dirty));
        && (!save ==> out == changes && users == old(users)
                      && user.base.localId == old(user.base.localId) && user.base.dirty == old(user.base.dirty))
        && (save ==> !user.base.dirty)
        && (save && old(user.base.localId) != 0 ==>
              user.base.localId == old(user.base.localId)
              && users == (if user.base.localId in old(users)
                           then old(users)[user.base.localId := UserRowOf(user, Some(user.collapseEntries))]
                           else old(users))
              && out == changes + [ModelChange(modelName, Update, user.base.id, "")])
        && (save && old(user.base.localId) == 0 ==>
              user.base.localId == newLocalId
              && users == old(users)[newLocalId := UserRowOf(user, None)]
              && out == changes + [ModelChange(modelName, Insert, user.base.id, "")])
      ensures err == NoError && user.base.id != 0 ==> !user.base.NeedsToBeSaved()
    {
      if user.base.id == 0 {
        return NoError, changes;
      }
      if user.email == "" {
        return DatabaseStoreError, changes;
      }
      if user.apiToken == "" {
        return DatabaseStoreError, changes;
      }
      out := changes;
      if user.base.localId == 0 || user.base.dirty {
        var lid := user.base.localId;
        if lid != 0 {
          if lid in users {
            users := users[lid := UserRowOf(user, Some(user.collapseEntries))];
          }
          out := changes + [ModelChange(modelName, Update, user.base.id, "")];
        } else {
          users := users[newLocalId := UserRowOf(user, None)];
          user.base.SetLocalID(newLocalId);
          out := changes + [ModelChange(modelName, Insert, user.base.id, "")];
        }
        user.base.ClearDirty();
      }
      return NoError, out;
    }
  }
}
