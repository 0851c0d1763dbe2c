/**
 * A time entry (next/model/time_entry.h and time_entry.cc): the tracked
 * interval, its project, task and tags, the user's edits of its start,
 * stop and duration, the repairs it applies for errors the server reports,
 * and its JSON form.
 *
 * A running entry has a negative duration: minus its start time.
 */
module TimeEntries {
  import opened Wrappers
  import opened Strings
  import opened Errors
  import opened BaseModels

  const TagSeparator: char := '\t'

  /** One day in seconds, the shift SetStopUserInput applies to a stop before the start. */
  const SecondsPerDay: int := 86400

  /** The members of a time entry's JSON the loader reads, already decoded. */
  datatype TimeEntryJson = TimeEntryJson(
    at: int,                         // "at" as a time: ISO 8601 text parsed, or a number
    atText: int,                     // "at" read as text and parsed as ISO 8601
    id: Option<nat>,
    tags: Option<seq<string>>,
    createdWith: Option<string>,
    description: string,
    wid: Option<nat>,
    pid: Option<nat>,
    tid: Option<nat>,
    start: int,                      // "start" parsed as ISO 8601
    stop: int,                       // "stop" parsed as ISO 8601
    duration: int,
    billable: bool,
    durOnly: bool)

  /** The tag list a tag string denotes: nothing for "", the tab separated pieces otherwise. */
  function SplitTags(tags: string): (r: seq<string>)
    ensures tags == "" ==> r == []
    ensures tags != "" ==> |r| >= 1 && Join(r, TagSeparator) == tags
    ensures forall i :: 0 <= i < |r| ==> TagSeparator !in r[i]
  {
    if tags == "" then [] else JoinSplit(tags, TagSeparator); Split(tags, TagSeparator)
  }

  /** `Tags()`: the tag names joined by tabs. */
  function JoinTags(names: seq<string>): string {
    Join(names, TagSeparator)
  }

  /** `TagsHash()`: the tag names sorted, then joined by tabs. */
  function TagsHashOf(names: seq<string>): string {
    JoinTags(SortStrings(names))
  }

  /** The tag hash ignores the order in which the tags were given. */
  lemma TagsHashIgnoresOrder(a: seq<string>, b: seq<string>)
    requires multiset(a) == multiset(b)
    ensures TagsHashOf(a) == TagsHashOf(b)
  {
    SortIgnoresOrder(a, b);
  }

  /** Tag lists without tabs survive being written as a string and read back. */
  lemma TagsRoundTrip(names: seq<string>)
    requires forall i :: 0 <= i < |names| ==> TagSeparator !in names[i]
    requires JoinTags(names) != ""
    ensures SplitTags(JoinTags(names)) == names
  {
    assert |names| >= 1;
    SplitJoin(names, TagSeparator);
  }

  /** The JSON array of the tag names, each escaped by `escape`. */
  function TagArray(names: seq<string>, escape: string -> string): (r: Json)
    ensures r.JArray? && |r.items| == |names|
    ensures forall i :: 0 <= i < |names| ==> r.items[i] == JStr(escape(names[i]))
  {
    JArray(seq(|names|, i requires 0 <= i < |names| => JStr(escape(names[i]))))
  }

  /** The members a saved time entry always has besides its core fields. */
  const OtherKeys: set<string> := {"description", "start", "billable", "duronly", "ui_modified_at", "created_with"}

  /** The members that identify a saved time entry and its relations. */
  const CoreKeys: set<string> := {"guid", "pid", "tid", "duration", "tags"}

  /** The members a saved time entry may leave out are none of the ones it always has, and no member is set twice. */
  lemma OptionalKeysApart()
    ensures "id" !in OtherKeys + CoreKeys && "wid" !in OtherKeys + CoreKeys && "stop" !in OtherKeys + CoreKeys
    ensures "id" != "wid" && "id" != "stop" && "wid" != "stop"
    ensures OtherKeys !! CoreKeys
  {
    assert "wid"[0] == 'w' && "pid"[0] == 'p' && "tid"[0] == 't';
    assert "stop"[1] == 't' && "tags"[1] == 'a';
  }

  /** `loadTagsFromJSON`: the tags of the JSON list that are not empty, in order. */
  function NonEmptyTags(list: seq<string>): (r: seq<string>)
    ensures |r| <= |list|
    ensures forall t :: t in r <==> t in list && t != ""
  {
    if list == [] then []
    else if list[0] == "" then NonEmptyTags(list[1..])
    else [list[0]] + NonEmptyTags(list[1..])
  }

  // The predicates with which the time entry recognises the errors it can repair.
  predicate DurationTooLarge(err: Code) { err == DurationTooLong }
  predicate StartTimeWrongYear(err: Code) { err == StartTimeOutOfRange }
  predicate StopTimeMustBeAfterStartTime(err: Code) { err == EndTimeBeforeStartTime }
  predicate UserCannotAccessTheSelectedProject(err: Code) { err == AccessProhibited }
  predicate UserCannotAccessSelectedTask(err: Code) { err == AccessProhibited }
  predicate BillableIsPremium(err: Code) { err == PremiumFeature }
  predicate IsMissingCreatedWith(err: Code) { err == InvalidInput }
  predicate IsNotFound(err: Code) { err == TimeEntryNotFound }

  /** The errors ResolveError repairs whatever the entry holds. */
  predicate AlwaysResolvable(err: Code) {
    err == CannotAccessWorkspace || err == AccessProhibited || err == PremiumFeature || err == InvalidInput
  }

  /** The errors ResolveError repairs only when both the start and the stop are set. */
  predicate TimeResolvable(err: Code) {
    err == DurationTooLong || err == StartTimeOutOfRange || err == EndTimeBeforeStartTime
  }

  function Min(a: int, b: int): int {
    if a <= b then a else b
  }

  /** The stop SetStopUserInput keeps: a stop before the start is moved one day later. */
  function StopAfterInput(parsed: int, start: int): (r: int)
    ensures r >= parsed
    ensures parsed >= start ==> r == parsed
  {
    if parsed < start then parsed + SecondsPerDay else parsed
  }

  class TimeEntry {
    const base: BaseModel
    var wid: nat
    var pid: nat
    var tid: nat
    var billable: bool
    var start: int
    var stop: int
    var durationInSeconds: int
    var description: string
    var durOnly: bool
    var createdWith: string
    var projectGuid: string
    var unsynced: bool
    var lastStartAt: int
    var tagNames: seq<string>

    constructor()
      ensures fresh(base)
      ensures base.localId == 0 && base.id == 0 && base.guid == "" && !base.dirty
      ensures base.validationError == NoError && base.uiModifiedAt == 0 && base.updatedAt == 0
      ensures wid == 0 && pid == 0 && tid == 0 && !billable
      ensures start == 0 && stop == 0 && durationInSeconds == 0
      ensures description == "" && !durOnly && createdWith == "" && projectGuid == ""
      ensures !unsynced && lastStartAt == 0 && tagNames == []
    {
      base := new BaseModel();
      wid, pid, tid, billable := 0, 0, 0, false;
      start, stop, durationInSeconds := 0, 0, 0;
      description, durOnly, createdWith, projectGuid := "", false, "", "";
      unsynced, lastStartAt, tagNames := false, 0, [];
    }

    predicate IsTracking()
      reads this
    {
      durationInSeconds < 0
    }

    /** `RealDurationInSeconds` at time `now`: the elapsed time of a running entry. */
    function RealDurationInSeconds(now: int): (r: int)
      reads this
      ensures IsTracking() && durationInSeconds == -start ==> r == now - start
      ensures !IsTracking() ==> r >= now
    {
      now + durationInSeconds
    }

    /** `Tags()`. */
    function Tags(): string
      reads this
    {
      JoinTags(tagNames)
    }

    /** `TagsHash()`. */
    function TagsHash(): string
      reads this
    {
      TagsHashOf(tagNames)
    }

    /** `ModelURL` as written: the workspace's time entry collection, then "/" and the ID when there is one. */
    function ModelURL(): (r: string)
      reads this, base
      ensures r == CollectionURL() + (if base.id != 0 then "/" + NatToString(base.id) else "")
    {
      "/api/v9/workspaces/" + NatToString(wid) + "/time_entries"
        + (if base.id != 0 then "/" + NatToString(base.id) else "")
    }

    /** The workspace's time entry collection, the URL a new entry is posted to. */
    function CollectionURL(): (r: string)
      reads this
      ensures |r| > 19 && r[..19] == "/api/v9/workspaces/"
    {
      "/api/v9/workspaces/" + NatToString(wid) + "/time_entries"
    }

    /**
     * The relative URL of the entry's batch request, built on the collection
     * URL: the ID then appears once. (The URL as written is
     * `base.BatchUpdateRelativeURL(ModelURL())`; see DoubledIdInBatchURL.)
     */
    function BatchRelativeURL(): (r: string)
      reads this, base
      ensures base.NeedsPOST() ==> r == CollectionURL()
      ensures !base.NeedsPOST() ==> r == CollectionURL() + "/" + NatToString(base.id)
      ensures base.id != 0 ==> r == ModelURL()
    {
      base.BatchUpdateRelativeURL(CollectionURL())
    }

    /**
     * `SaveToJSON`: `escape` is the JSON string escaping and `format8601`
     * the ISO 8601 formatting of the formatter, which are not part of this
     * model. A zero ID, workspace or stop is left out; a zero project or
     * task is sent as null.
     */
    function SaveToJSON(escape: string -> string, format8601: int -> string): (r: map<string, Json>)
      reads this, base
      ensures forall k :: k in r <==> k in OtherKeys || k in CoreKeys || (k == "id" && base.id != 0)
                                      || (k == "wid" && wid != 0) || (k == "stop" && stop != 0)
      ensures "id" in r ==> r["id"] == JInt(base.id)
      ensures "wid" in r ==> r["wid"] == JInt(wid)
      ensures "stop" in r ==> r["stop"] == JStr(format8601(stop))
      ensures forall k :: k in CoreKeys ==> r[k] == CoreFields(escape)[k]
      ensures forall k :: k in OtherKeys ==> r[k] == OtherFields(escape, format8601)[k]
    {
      var fields := OtherFields(escape, format8601) + CoreFields(escape);
      OptionalKeysApart();
      var withStop := if stop != 0 then fields["stop" := JStr(format8601(stop))] else fields;
      var withWid := if wid != 0 then withStop["wid" := JInt(wid)] else withStop;
      if base.id != 0 then withWid["id" := JInt(base.id)] else withWid
    }

    /** The members of SaveToJSON that describe the entry and are always sent. */
    function OtherFields(escape: string -> string, format8601: int -> string): (r: map<string, Json>)
      reads this, base
      ensures r.Keys == OtherKeys
      ensures r["billable"] == JBool(billable) && r["duronly"] == JBool(durOnly)
      ensures r["description"] == JStr(escape(description)) && r["start"] == JStr(format8601(start))
      ensures r["ui_modified_at"] == JInt(base.uiModifiedAt) && r["created_with"] == JStr(escape(createdWith))
    {
      map[
        "description" := JStr(escape(description)),
        "start" := JStr(format8601(start)),
        "billable" := JBool(billable),
        "duronly" := JBool(durOnly),
        "ui_modified_at" := JInt(base.uiModifiedAt),
        "created_with" := JStr(escape(createdWith))]
    }

    /**
     * The members of SaveToJSON that identify the entry and its relations:
     * its GUID, its project and task (null when unset), its duration and
     * its tags.
     */
    function CoreFields(escape: string -> string): (r: map<string, Json>)
      reads this, base
      ensures r.Keys == CoreKeys
      ensures "guid" in r && r["guid"] == JStr(base.guid)
      ensures "pid" in r && r["pid"] == (if pid != 0 then JInt(pid) else JNull)
      ensures "tid" in r && r["tid"] == (if tid != 0 then JInt(tid) else JNull)
      ensures "duration" in r && r["duration"] == JInt(durationInSeconds)
      ensures "tags" in r && r["tags"] == TagArray(tagNames, escape)
    {
      map[
        "guid" := JStr(base.guid),
        "pid" := (if pid != 0 then JInt(pid) else JNull),
        "tid" := (if tid != 0 then JInt(tid) else JNull),
        "duration" := JInt(durationInSeconds),
        "tags" := TagArray(tagNames, escape)]
    }

    /** `BatchUpdateJSON` of a time entry, with the batch URL built on the collection URL. */
    function BatchUpdateJSON(modelName: string, escape: string -> string, format8601: int -> string): (r: (Code, Option<Json>))
      reads this, base
      ensures r.0 == NoError <==> base.guid != ""
      ensures r.1.Some? ==>
                r.1.value.JObject? && "relative_url" in r.1.value.fields
                && r.1.value.fields["relative_url"] == JStr(BatchRelativeURL())
    {
      base.BatchUpdateJSON(modelName, CollectionURL(), JObject(SaveToJSON(escape, format8601)))
    }

    method SetLastStartAt(value: int)
      modifies this`lastStartAt
      ensures lastStartAt == value
    {
      if lastStartAt != value {
        lastStartAt := value;
      }
    }

    method SetDurOnly(value: bool)
      modifies this`durOnly, base`dirty
      ensures durOnly == value
      ensures base.dirty == (old(base.dirty) || old(durOnly) != value)
    {
      if durOnly != value {
        durOnly := value;
        base.SetDirty();
      }
    }

    method SetStart(value: int)
      modifies this`start, base`dirty
      ensures start == value
      ensures base.dirty == (old(base.dirty) || old(start) != value)
    {
      if start != value {
        start := value;
        base.SetDirty();
      }
    }

    /** `SetStartString`: `parsed` is the time the ISO 8601 text denotes. */
    method SetStartString(parsed: int)
      modifies this`start, base`dirty
      ensures start == parsed
      ensures base.dirty == (old(base.dirty) || old(start) != parsed)
    {
      SetStart(parsed);
    }

    method SetStop(value: int)
      modifies this`stop, base`dirty
      ensures stop == value
      ensures base.dirty == (old(base.dirty) || old(stop) != value)
    {
      if stop != value {
        stop := value;
        base.SetDirty();
      }
    }

    /** `SetStopString`: `parsed` is the time the ISO 8601 text denotes. */
    method SetStopString(parsed: int)
      modifies this`stop, base`dirty
      ensures stop == parsed
      ensures base.dirty == (old(base.dirty) || old(stop) != parsed)
    {
      SetStop(parsed);
    }

    /** `SetDescription` stores the description without its surrounding spaces and tabs. */
    method SetDescription(value: string)
      modifies this`description, base`dirty
      ensures description == TrimWhitespace(value)
      ensures base.dirty == (old(base.dirty) || old(description) != TrimWhitespace(value))
    {
      var trimmed := TrimWhitespace(value);
      if description != trimmed {
        description := trimmed;
        base.SetDirty();
      }
    }

    method SetCreatedWith(value: string)
      modifies this`createdWith, base`dirty
      ensures createdWith == value
      ensures base.dirty == (old(base.dirty) || old(createdWith) != value)
    {
      if createdWith != value {
        createdWith := value;
        base.SetDirty();
      }
    }

    method SetBillable(value: bool)
      modifies this`billable, base`dirty
      ensures billable == value
      ensures base.dirty == (old(base.dirty) || old(billable) != value)
    {
      if billable != value {
        billable := value;
        base.SetDirty();
      }
    }

    method SetWID(value: nat)
      modifies this`wid, base`dirty
      ensures wid == value
      ensures base.dirty == (old(base.dirty) || old(wid) != value)
    {
      if wid != value {
        wid := value;
        base.SetDirty();
      }
    }

    method SetPID(value: nat)
      modifies this`pid, base`dirty
      ensures pid == value
      ensures base.dirty == (old(base.dirty) || old(pid) != value)
    {
      if pid != value {
        pid := value;
        base.SetDirty();
      }
    }

    method SetTID(value: nat)
      modifies this`tid, base`dirty
      ensures tid == value
      ensures base.dirty == (old(base.dirty) || old(tid) != value)
    {
      if tid != value {
        tid := value;
        base.SetDirty();
      }
    }

    method SetDurationInSeconds(value: int)
      modifies this`durationInSeconds, base`dirty
      ensures durationInSeconds == value
      ensures base.dirty == (old(base.dirty) || old(durationInSeconds) != value)
    {
      if durationInSeconds != value {
        durationInSeconds := value;
        base.SetDirty();
      }
    }

    method SetProjectGUID(value: string)
      modifies this`projectGuid, base`dirty
      ensures projectGuid == value
      ensures base.dirty == (old(base.dirty) || old(projectGuid) != value)
    {
      if projectGuid != value {
        projectGuid := value;
        base.SetDirty();
      }
    }

    /**
     * `SetTags`: when the tag string differs from the current one, the tag
     * list becomes its tab separated pieces and the entry is dirty. Either
     * way `Tags()` then gives back exactly the string that was set.
     */
    method SetTags(tags: string)
      modifies this`tagNames, base`dirty
      ensures Tags() == tags
      ensures old(Tags()) == tags ==> tagNames == old(tagNames) && base.dirty == old(base.dirty)
      ensures old(Tags()) != tags ==> tagNames == SplitTags(tags) && base.dirty
    {
      if Tags() != tags {
        var names: seq<string> := [];
        if tags != "" {
          JoinSplit(tags, TagSeparator);
          var current := "";
          var i := 0;
          while i < |tags|
            invariant 0 <= i <= |tags|
            invariant names + [current] == Split(tags[..i], TagSeparator)
          {
            assert tags[..i + 1][..i] == tags[..i];
            if tags[i] == TagSeparator {
              names := names + [current];
              current := "";
            } else {
              current := current + [tags[i]];
            }
            i := i + 1;
          }
          assert tags[..i] == tags;
          names := names + [current];
        }
        assert names == SplitTags(tags);
        tagNames := names;
        base.SetDirty();
      }
    }

    /** `loadTagsFromJSON`: keeps the non-empty tags of the list, in order. */
    method LoadTagsFromJSON(list: seq<string>)
      modifies this`tagNames
      ensures tagNames == NonEmptyTags(list)
    {
      var names: seq<string> := [];
      var i := 0;
      while i < |list|
        invariant 0 <= i <= |list|
        invariant names + NonEmptyTags(list[i..]) == NonEmptyTags(list)
      {
        assert list[i..] == [list[i]] + list[i + 1..];
        if list[i] != "" {
          names := names + [list[i]];
        }
        i := i + 1;
      }
      tagNames := names;
    }

    /**
     * `ResolveError`: repairs what the server complained about and reports
     * whether it did. A duration over the limit `maxDuration` is cut to it
     * (the limit is defined outside this model); a start in the wrong year
     * is moved back from the stop by the cut duration; a stop before the
     * start is moved to start plus duration. A workspace the user cannot
     * access clears the workspace, project and task; a prohibited access
     * clears the project and the task; billable, a premium feature, is
     * switched off; a missing created_with is accepted as it is.
     */
    method ResolveError(err: Code, maxDuration: int) returns (resolved: bool)
      modifies this`durationInSeconds, this`start, this`stop, this`wid, this`pid, this`tid,
               this`billable, base`dirty
      ensures resolved <==> (TimeResolvable(err) && old(stop) != 0 && old(start) != 0) || AlwaysResolvable(err)
      ensures err == DurationTooLong && old(stop) != 0 && old(start) != 0 ==>
                durationInSeconds == Min(old(stop) - old(start), maxDuration)
                && start == old(start) && stop == old(stop)
      ensures err == StartTimeOutOfRange && old(stop) != 0 && old(start) != 0 ==>
                durationInSeconds == Min(old(stop) - old(start), maxDuration)
                && start == old(stop) - durationInSeconds && stop == old(stop)
      ensures err == EndTimeBeforeStartTime && old(stop) != 0 && old(start) != 0 ==>
                stop == old(start) + old(durationInSeconds)
                && start == old(start) && durationInSeconds == old(durationInSeconds)
      ensures !(TimeResolvable(err) && old(stop) != 0 && old(start) != 0) ==>
                start == old(start) && stop == old(stop) && durationInSeconds == old(durationInSeconds)
      ensures err == CannotAccessWorkspace ==> wid == 0 && pid == 0 && tid == 0
      ensures err == AccessProhibited ==> wid == old(wid) && pid == 0 && tid == 0
      ensures err != CannotAccessWorkspace && err != AccessProhibited ==>
                wid == old(wid) && pid == old(pid) && tid == old(tid)
      ensures billable == (if err == PremiumFeature then false else old(billable))
      ensures base.dirty == (old(base.dirty) || start != old(start) || stop != old(stop)
                             || durationInSeconds != old(durationInSeconds) || wid != old(wid)
                             || pid != old(pid) || tid != old(tid) || billable != old(billable))
    {
      if DurationTooLarge(err) && stop != 0 && start != 0 {
        SetDurationInSeconds(Min(stop - start, maxDuration));
        return true;
      }
      if StartTimeWrongYear(err) && stop != 0 && start != 0 {
        SetDurationInSeconds(Min(stop - start, maxDuration));
        SetStart(stop - durationInSeconds);
        return true;
      }
      if StopTimeMustBeAfterStartTime(err) && stop != 0 && start != 0 {
        SetStop(start + durationInSeconds);
        return true;
      }
      if base.UserCannotAccessWorkspace(err) {
        SetWID(0);
        SetPID(0);
        SetTID(0);
        return true;
      }
      if UserCannotAccessTheSelectedProject(err) {
        SetPID(0);
        SetTID(0);
        return true;
      }
      if UserCannotAccessSelectedTask(err) {
        // Both predicates recognise the same code, so the project branch above always wins.
        assert false;
      }
      if BillableIsPremium(err) {
        SetBillable(false);
        return true;
      }
      if IsMissingCreatedWith(err) {
        return true;
      }
      return false;
    }

    /**
     * `ApplyBatchUpdateResult` of a time entry: as the base class's, except
     * that an error the entry can repair (ResolveError) counts as success.
     * `body` is the reply's "data" member, None when the reply is not JSON;
     * a successful reply is loaded as LoadFromJSON loads it.
     */
    method ApplyBatchUpdateResult(update: BatchUpdateResult, body: Option<TimeEntryJson>, maxDuration: int)
      returns (err: Code)
      modifies this`tagNames, this`createdWith, this`description, this`wid, this`pid, this`tid,
               this`start, this`stop, this`durationInSeconds, this`billable, this`durOnly,
               base`id, base`updatedAt, base`uiModifiedAt, base`unsynced,
               base`markedAsDeletedOnServer, base`validationError, base`dirty
      ensures update.resourceIsGone ==>
                err == NoError && base.markedAsDeletedOnServer && base.dirty
      ensures !update.resourceIsGone ==> base.markedAsDeletedOnServer == old(base.markedAsDeletedOnServer)
      // An error: repaired as ResolveError repairs it, and reported only when it was not repaired.
      ensures !update.resourceIsGone && update.error != NoError ==>
                var repairable := (TimeResolvable(update.error) && old(stop) != 0 && old(start) != 0)
                                  || AlwaysResolvable(update.error);
                (repairable ==> err == NoError && base.validationError == old(base.validationError))
                && (!repairable ==> err == update.error && base.validationError == update.error)
      ensures !update.resourceIsGone && update.error == DurationTooLong && old(stop) != 0 && old(start) != 0 ==>
                durationInSeconds == Min(old(stop) - old(start), maxDuration)
                && start == old(start) && stop == old(stop)
      ensures !update.resourceIsGone && update.error == StartTimeOutOfRange && old(stop) != 0 && old(start) != 0 ==>
                durationInSeconds == Min(old(stop) - old(start), maxDuration)
                && start == old(stop) - durationInSeconds && stop == old(stop)
      ensures !update.resourceIsGone && update.error == EndTimeBeforeStartTime && old(stop) != 0 && old(start) != 0 ==>
                stop == old(start) + old(durationInSeconds)
                && start == old(start) && durationInSeconds == old(durationInSeconds)
      ensures !update.resourceIsGone && update.error != NoError
              && !(TimeResolvable(update.error) && old(stop) != 0 && old(start) != 0) ==>
                start == old(start) && stop == old(stop) && durationInSeconds == old(durationInSeconds)
      ensures !update.resourceIsGone && update.error == CannotAccessWorkspace ==> wid == 0 && pid == 0 && tid == 0
      ensures !update.resourceIsGone && update.error == AccessProhibited ==>
                wid == old(wid) && pid == 0 && tid == 0
      ensures !update.resourceIsGone && update.error != NoError
              && update.error != CannotAccessWorkspace && update.error != AccessProhibited ==>
                wid == old(wid) && pid == old(pid) && tid == old(tid)
      ensures !update.resourceIsGone && update.error != NoError ==>
                billable == (if update.error == PremiumFeature then false else old(billable))
                && tagNames == old(tagNames) && createdWith == old(createdWith)
                && description == old(description) && durOnly == old(durOnly)
                && base.id == old(base.id) && base.updatedAt == old(base.updatedAt)
                && base.uiModifiedAt == old(base.uiModifiedAt) && base.unsynced == old(base.unsynced)
      ensures !update.resourceIsGone && update.error != NoError ==>
                base.dirty == (old(base.dirty) || start != old(start) || stop != old(stop)
                               || durationInSeconds != old(durationInSeconds) || wid != old(wid)
                               || pid != old(pid) || tid != old(tid) || billable != old(billable)
                               || base.validationError != old(base.validationError))
      // A success: the validation error is cleared and the reply is loaded as LoadFromJSON loads it.
      ensures !update.resourceIsGone && update.error == NoError ==>
                base.validationError == NoError
                && err == (if body.Some? then NoError else MalformedData)
      ensures !update.resourceIsGone && update.error == NoError && body.Some? ==>
                base.id == (if body.value.id.Some? then body.value.id.value else old(base.id))
      ensures !update.resourceIsGone && update.error == NoError
              && (body.None? || IsStale(body.value, old(base.uiModifiedAt), old(base.updatedAt))) ==>
                tagNames == old(tagNames) && createdWith == old(createdWith)
                && description == old(description) && wid == old(wid) && pid == old(pid) && tid == old(tid)
                && start == old(start) && stop == old(stop) && durationInSeconds == old(durationInSeconds)
                && billable == old(billable) && durOnly == old(durOnly)
                && base.updatedAt == old(base.updatedAt) && base.uiModifiedAt == old(base.uiModifiedAt)
                && base.unsynced == old(base.unsynced)
      ensures !update.resourceIsGone && update.error == NoError && body.None? ==> base.id == old(base.id)
      ensures !update.resourceIsGone && update.error == NoError && body.Some?
              && !IsStale(body.value, old(base.uiModifiedAt), old(base.updatedAt)) ==>
                var data := body.value;
                tagNames == (if data.tags.Some? then NonEmptyTags(data.tags.value) else old(tagNames))
                && createdWith == (if data.createdWith.Some? then data.createdWith.value else old(createdWith))
                && description == TrimWhitespace(data.description)
                && wid == (if data.wid.Some? then data.wid.value else 0)
                && pid == (if data.pid.Some? then data.pid.value else 0)
                && tid == (if data.tid.Some? then data.tid.value else 0)
                && start == data.start && stop == data.stop && durationInSeconds == data.duration
                && billable == data.billable && durOnly == data.durOnly
                && base.updatedAt == data.atText && base.uiModifiedAt == 0 && !base.unsynced
      // Clearing an old validation error, or loading a changed field, dirties the entry; nothing else does.
      ensures !update.resourceIsGone && update.error == NoError ==>
                base.dirty == (old(base.dirty) || old(base.validationError) != NoError || base.id != old(base.id)
                               || createdWith != old(createdWith) || description != old(description)
                               || wid != old(wid) || pid != old(pid) || tid != old(tid)
                               || start != old(start) || stop != old(stop)
                               || durationInSeconds != old(durationInSeconds) || billable != old(billable)
                               || durOnly != old(durOnly) || base.updatedAt != old(base.updatedAt)
                               || base.uiModifiedAt != old(base.uiModifiedAt))
    {
      if update.resourceIsGone {
        base.MarkAsDeletedOnServer();
        return NoError;
      }
      if update.error != NoError {
        var resolved := ResolveError(update.error, maxDuration);
        if resolved {
          return NoError;
        }
        base.SetValidationError(update.error);
        return update.error;
      }
      base.SetValidationError(NoError);
      if body.None? {
        return MalformedData;
      }
      err := LoadFromJSON(body.value);
    }

    /**
     * `DiscardAt`: stops a running entry at time `at`, stamping it as
     * modified at `now`. An entry that is not running, a zero time and a
     * time before the start are refused, and nothing changes.
     */
    method DiscardAt(at: int, now: int)
      modifies this`durationInSeconds, this`stop, base`uiModifiedAt, base`dirty
      ensures !old(IsTracking()) || at == 0 || at < old(start) ==>
                durationInSeconds == old(durationInSeconds) && stop == old(stop)
                && base.uiModifiedAt == old(base.uiModifiedAt) && base.dirty == old(base.dirty)
      ensures old(IsTracking()) && at != 0 && at >= old(start) ==>
                durationInSeconds == at - start && stop == at && !IsTracking()
                && base.uiModifiedAt == now && base.dirty
    {
      if !IsTracking() {
        return;
      }
      if at == 0 {
        return;
      }
      if at < start {
        return;
      }
      var duration := at - start;
      SetDurationInSeconds(duration);
      SetStop(at);
      base.SetUIModified(now);
    }

    /** `StopTracking`: discards the entry at the current time `now`. */
    method StopTracking(now: int)
      modifies this`durationInSeconds, this`stop, base`uiModifiedAt, base`dirty
      ensures !old(IsTracking()) || now == 0 || now < old(start) ==>
                durationInSeconds == old(durationInSeconds) && stop == old(stop)
                && base.uiModifiedAt == old(base.uiModifiedAt) && base.dirty == old(base.dirty)
      ensures old(IsTracking()) && now != 0 && now >= old(start) ==>
                durationInSeconds == now - start && stop == now && !IsTracking()
                && base.uiModifiedAt == now && base.dirty
    {
      DiscardAt(now, now);
    }

    /**
     * `SetStopUserInput`: the user typed a stop time that parses to `parsed`.
     * A stop before the start is taken to mean the next day; if it is still
     * before the start the edit stops there. Otherwise a finished entry's
     * duration becomes stop minus start, and a changed entry has its
     * validation error cleared and is stamped as modified at `now`.
     */
    method SetStopUserInput(parsed: int, now: int)
      modifies this`stop, this`durationInSeconds, base`dirty, base`validationError, base`uiModifiedAt
      ensures stop == StopAfterInput(parsed, old(start))
      ensures stop < old(start) ==>
                durationInSeconds == old(durationInSeconds)
                && base.validationError == old(base.validationError)
                && base.uiModifiedAt == old(base.uiModifiedAt)
      ensures stop >= old(start) ==>
                durationInSeconds == (if old(IsTracking()) then old(durationInSeconds) else stop - old(start))
      ensures stop >= old(start) && base.dirty ==> base.validationError == NoError && base.uiModifiedAt == now
      ensures stop >= old(start) && !base.dirty ==>
                base.validationError == old(base.validationError) && base.uiModifiedAt == old(base.uiModifiedAt)
      ensures base.dirty == (old(base.dirty) || old(stop) != parsed || stop != parsed
                             || durationInSeconds != old(durationInSeconds))
    {
      SetStopString(parsed);
      if stop < start {
        SetStop(stop + SecondsPerDay);
      }
      if stop < start {
        return;
      }
      if !IsTracking() {
        SetDurationInSeconds(stop - start);
      }
      if base.dirty {
        base.ClearValidationError();
        base.SetUIModified(now);
      }
    }

    /**
     * `SetStartUserInput`: the user typed a start time that parses to
     * `parsed`. A running entry keeps running from the new start; a finished
     * one keeps its stop when `keepEndTimeFixed` and the stop is after the new
     * start, and otherwise keeps its duration and moves its stop.
     */
    method SetStartUserInput(parsed: int, keepEndTimeFixed: bool, now: int)
      modifies this`start, this`stop, this`durationInSeconds, base`dirty, base`validationError, base`uiModifiedAt
      ensures start == parsed
      ensures old(IsTracking()) ==> durationInSeconds == -parsed && stop == old(stop)
      ensures !old(IsTracking()) && keepEndTimeFixed && old(stop) > parsed ==>
                stop == old(stop) && durationInSeconds == old(stop) - parsed
      ensures !old(IsTracking()) && !(keepEndTimeFixed && old(stop) > parsed) ==>
                durationInSeconds == old(durationInSeconds) && stop == parsed + old(durationInSeconds)
      ensures !old(IsTracking()) ==> stop == start + durationInSeconds
      ensures base.dirty == (old(base.dirty) || start != old(start) || stop != old(stop)
                             || durationInSeconds != old(durationInSeconds))
      ensures base.dirty ==> base.validationError == NoError && base.uiModifiedAt == now
      ensures !base.dirty ==>
                base.validationError == old(base.validationError) && base.uiModifiedAt == old(base.uiModifiedAt)
    {
      if IsTracking() {
        SetDurationInSeconds(-parsed);
      } else {
        var currentStop := stop;
        if keepEndTimeFixed && currentStop > parsed {
          SetDurationInSeconds(currentStop - parsed);
        } else {
          SetStop(parsed + durationInSeconds);
        }
      }
      SetStart(parsed);
      if base.dirty {
        base.ClearValidationError();
        base.SetUIModified(now);
      }
    }

    /**
     * `SetDurationUserInput`: the user typed a duration of `seconds`. A
     * running entry is restarted so that it has run that long at `now`; a
     * finished one gets that duration and a stop that far after its start.
     */
    method SetDurationUserInput(seconds: int, now: int)
      modifies this`start, this`stop, this`durationInSeconds, base`dirty, base`validationError, base`uiModifiedAt
      ensures old(IsTracking()) ==>
                start == now - seconds && durationInSeconds == -start && stop == now
      ensures !old(IsTracking()) ==>
                start == old(start) && durationInSeconds == seconds && stop == start + seconds
      ensures base.dirty == (old(base.dirty) || start != old(start) || stop != old(stop)
                             || durationInSeconds != old(durationInSeconds))
      ensures base.dirty ==> base.validationError == NoError && base.uiModifiedAt == now
      ensures !base.dirty ==>
                base.validationError == old(base.validationError) && base.uiModifiedAt == old(base.uiModifiedAt)
    {
      if IsTracking() {
        var newStart := now - seconds;
        SetStart(newStart);
        SetDurationInSeconds(-newStart);
      } else {
        SetDurationInSeconds(seconds);
      }
      SetStop(start + seconds);
      if base.dirty {
        base.ClearValidationError();
        base.SetUIModified(now);
      }
    }

    /** The first half of LoadFromJSON past its guard: tags, origin, description and relations. */
    method LoadAttributes(data: TimeEntryJson)
      modifies this`tagNames, this`createdWith, this`description, this`wid, this`pid, this`tid, base`dirty
      ensures tagNames == (if data.tags.Some? then NonEmptyTags(data.tags.value) else old(tagNames))
      ensures createdWith == (if data.createdWith.Some? then data.createdWith.value else old(createdWith))
      ensures description == TrimWhitespace(data.description)
      ensures wid == (if data.wid.Some? then data.wid.value else 0)
      ensures pid == (if data.pid.Some? then data.pid.value else 0)
      ensures tid == (if data.tid.Some? then data.tid.value else 0)
      ensures base.dirty == (old(base.dirty) || createdWith != old(createdWith) || description != old(description)
                             || wid != old(wid) || pid != old(pid) || tid != old(tid))
    {
      if data.tags.Some? {
        LoadTagsFromJSON(data.tags.value);
      }
      if data.createdWith.Some? {
        SetCreatedWith(data.createdWith.value);
      }
      SetDescription(data.description);
      SetWID(if data.wid.Some? then data.wid.value else 0);
      SetPID(if data.pid.Some? then data.pid.value else 0);
      SetTID(if data.tid.Some? then data.tid.value else 0);
    }

    /** The second half of LoadFromJSON past its guard: times, flags and sync state. */
    method LoadTimes(data: TimeEntryJson)
      modifies this`start, this`stop, this`durationInSeconds, this`billable, this`durOnly,
               base`updatedAt, base`uiModifiedAt, base`unsynced, base`dirty
      ensures start == data.start && stop == data.stop && durationInSeconds == data.duration
      ensures billable == data.billable && durOnly == data.durOnly
      ensures base.updatedAt == data.atText && base.uiModifiedAt == 0 && !base.unsynced
      ensures base.dirty == (old(base.dirty) || start != old(start) || stop != old(stop)
                             || durationInSeconds != old(durationInSeconds) || billable != old(billable)
                             || durOnly != old(durOnly) || base.updatedAt != old(base.updatedAt)
                             || base.uiModifiedAt != old(base.uiModifiedAt))
    {
      SetStartString(data.start);
      SetStopString(data.stop);
      SetDurationInSeconds(data.duration);
      SetBillable(data.billable);
      SetDurOnly(data.durOnly);
      base.SetUpdatedAtString(data.atText);
      base.SetUIModifiedAt(0);
      base.ClearUnsynced();
    }

    /**
     * `LoadFromJSON`: the server's ID is always taken; the rest of the
     * server's data is ignored when it is not newer than the local copy (its
     * "at" is set and the entry was changed in the UI or updated at or after
     * it). Otherwise every field is taken, missing IDs read as 0, and the
     * entry is marked as in sync and not modified in the UI.
     */
    method LoadFromJSON(data: TimeEntryJson) returns (err: Code)
      modifies this`tagNames, this`createdWith, this`description, this`wid, this`pid, this`tid,
               this`start, this`stop, this`durationInSeconds, this`billable, this`durOnly,
               base`id, base`updatedAt, base`uiModifiedAt, base`unsynced, base`dirty
      ensures err == NoError
      ensures base.id == (if data.id.Some? then data.id.value else old(base.id))
      ensures IsStale(data, old(base.uiModifiedAt), old(base.updatedAt)) ==>
                tagNames == old(tagNames) && createdWith == old(createdWith)
                && description == old(description) && wid == old(wid) && pid == old(pid) && tid == old(tid)
                && start == old(start) && stop == old(stop) && durationInSeconds == old(durationInSeconds)
                && billable == old(billable) && durOnly == old(durOnly)
                && base.updatedAt == old(base.updatedAt) && base.uiModifiedAt == old(base.uiModifiedAt)
                && base.unsynced == old(base.unsynced)
                && base.dirty == (old(base.dirty) || base.id != old(base.id))
      ensures !IsStale(data, old(base.uiModifiedAt), old(base.updatedAt)) ==>
                tagNames == (if data.tags.Some? then NonEmptyTags(data.tags.value) else old(tagNames))
                && createdWith == (if data.createdWith.Some? then data.createdWith.value else old(createdWith))
                && description == TrimWhitespace(data.description)
                && wid == (if data.wid.Some? then data.wid.value else 0)
                && pid == (if data.pid.Some? then data.pid.value else 0)
                && tid == (if data.tid.Some? then data.tid.value else 0)
                && start == data.start && stop == data.stop && durationInSeconds == data.duration
                && billable == data.billable && durOnly == data.durOnly
                && base.updatedAt == data.atText && base.uiModifiedAt == 0 && !base.unsynced
      // Loaded through setters: dirty exactly when the ID or some loaded field changed.
      ensures base.dirty == (old(base.dirty) || base.id != old(base.id)
                             || createdWith != old(createdWith) || description != old(description)
                             || wid != old(wid) || pid != old(pid) || tid != old(tid)
                             || start != old(start) || stop != old(stop)
                             || durationInSeconds != old(durationInSeconds) || billable != old(billable)
                             || durOnly != old(durOnly) || base.updatedAt != old(base.updatedAt)
                             || base.uiModifiedAt != old(base.uiModifiedAt))
    {
      if data.id.Some? {
        base.SetID(data.id.value);
      }
      if IsStale(data, base.uiModifiedAt, base.updatedAt) {
        return NoError;
      }
      LoadNewer(data);
      return NoError;
    }

    /** LoadFromJSON past its guard: both halves, dirty exactly when a loaded field changed. */
    method LoadNewer(data: TimeEntryJson)
      modifies this`tagNames, this`createdWith, this`description, this`wid, this`pid, this`tid,
               this`start, this`stop, this`durationInSeconds, this`billable, this`durOnly,
               base`updatedAt, base`uiModifiedAt, base`unsynced, base`dirty
      ensures tagNames == (if data.tags.Some? then NonEmptyTags(data.tags.value) else old(tagNames))
      ensures createdWith == (if data.createdWith.Some? then data.createdWith.value else old(createdWith))
      ensures description == TrimWhitespace(data.description)
      ensures wid == (if data.wid.Some? then data.wid.value else 0)
      ensures pid == (if data.pid.Some? then data.pid.value else 0)
      ensures tid == (if data.tid.Some? then data.tid.value else 0)
      ensures start == data.start && stop == data.stop && durationInSeconds == data.duration
      ensures billable == data.billable && durOnly == data.durOnly
      ensures base.updatedAt == data.atText && base.uiModifiedAt == 0 && !base.unsynced
      ensures base.dirty == (old(base.dirty)
                             || createdWith != old(createdWith) || description != old(description)
                             || wid != old(wid) || pid != old(pid) || tid != old(tid)
                             || start != old(start) || stop != old(stop)
                             || durationInSeconds != old(durationInSeconds) || billable != old(billable)
                             || durOnly != old(durOnly) || base.updatedAt != old(base.updatedAt)
                             || base.uiModifiedAt != old(base.uiModifiedAt))
    {
      LoadAttributes(data);
      LoadTimes(data);
    }
  }

  /** Server data is stale when it has a time and the local copy was changed or updated at or after it. */
  predicate IsStale(data: TimeEntryJson, uiModifiedAt: int, updatedAt: int) {
    data.at != 0 && (uiModifiedAt >= data.at || updatedAt >= data.at)
  }

  /**
   * The batch URL as written repeats the ID: for every entry the server
   * knows, ModelURL already ends in "/" and the ID, which is the corrected
   * batch URL, and batchUpdateRelativeURL appends them once more.
   */
  lemma DoubledIdInBatchURL(te: TimeEntry)
    requires te.base.id != 0
    ensures te.BatchRelativeURL() == te.ModelURL()
    ensures te.base.BatchUpdateRelativeURL(te.ModelURL()) == te.BatchRelativeURL() + "/" + NatToString(te.base.id)
  {
    assert !te.base.NeedsPOST();
  }

  /** The doubled ID on one entry: workspace 1, ID 5. */
  lemma DoubledIdExample(te: TimeEntry)
    requires te.wid == 1 && te.base.id == 5
    ensures te.base.BatchUpdateRelativeURL(te.ModelURL()) == "/api/v9/workspaces/1/time_entries/5/5"
    ensures te.BatchRelativeURL() == "/api/v9/workspaces/1/time_entries/5"
  {
    DoubledIdInBatchURL(te);
    assert NatToString(1) == "1" && NatToString(5) == "5";
  }
}
