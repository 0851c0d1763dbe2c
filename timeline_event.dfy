/**
 * A timeline event (next/model/timeline_event.cc): a stretch of time the
 * user spent in one window, recorded locally and uploaded in chunks. Its
 * duration always follows its start and end.
 */
module TimelineEvents {
  import opened Wrappers
  import opened Errors
  import opened BaseModels

  /** `updateDuration`: the time from start to end, or 0 when the end is before the start. */
  function ClampedDuration(startTime: int, endTime: int): (d: int)
    ensures d >= 0
    ensures d >= endTime - startTime
    ensures d == 0 || d == endTime - startTime
  {
    var value := endTime - startTime;
    if value < 0 then 0 else value
  }

  class TimelineEvent {
    const base: BaseModel
    var title: string
    var filename: string
    var startTime: int
    var endTime: int
    var duration: int
    var idle: bool
    var chunked: bool
    var uploaded: bool

    /** The duration is the clamped distance from start to end. */
    predicate DurationMatches()
      reads this
    {
      duration == ClampedDuration(startTime, endTime)
    }

    /**
     * A new event. Its header is not part of this model; every field is
     * taken to start at zero, false or empty.
     */
    constructor()
      ensures fresh(base)
      ensures base.localId == 0 && base.guid == "" && !base.dirty
      ensures title == "" && filename == "" && startTime == 0 && endTime == 0
      ensures !idle && !chunked && !uploaded
      ensures DurationMatches()
    {
      base := new BaseModel();
      title, filename := "", "";
      startTime, endTime, duration := 0, 0, 0;
      idle, chunked, uploaded := false, false, false;
    }

    /** `ModelURL`: timeline events are not pushed through the batch API, so there is no URL. */
    function ModelURL(): (r: string)
      ensures |r| == 0
    {
      ""
    }

    method SetTitle(value: string)
      modifies this`title, base`dirty
      ensures title == value
      ensures base.dirty == (old(base.dirty) || old(title) != value)
    {
      if title != value {
        title := value;
        base.SetDirty();
      }
    }

    /** `SetStart`: a new start also recomputes the duration. */
    method SetStart(value: int)
      modifies this`startTime, this`duration, base`dirty
      ensures startTime == value
      ensures old(startTime) != value ==> DurationMatches()
      ensures old(startTime) == value ==> duration == old(duration)
      ensures old(DurationMatches()) ==> DurationMatches()
      ensures base.dirty == (old(base.dirty) || old(startTime) != value)
    {
      if startTime != value {
        startTime := value;
        UpdateDuration();
        base.SetDirty();
      }
    }

    /** `SetEndTime`: a new end also recomputes the duration. */
    method SetEndTime(value: int)
      modifies this`endTime, this`duration, base`dirty
      ensures endTime == value
      ensures old(endTime) != value ==> DurationMatches()
      ensures old(endTime) == value ==> duration == old(duration)
      ensures old(DurationMatches()) ==> DurationMatches()
      ensures base.dirty == (old(base.dirty) || old(endTime) != value)
    {
      if endTime != value {
        endTime := value;
        UpdateDuration();
        base.SetDirty();
      }
    }

    method SetIdle(value: bool)
      modifies this`idle, base`dirty
      ensures idle == value
      ensures base.dirty == (old(base.dirty) || old(idle) != value)
    {
      if idle != value {
        idle := value;
        base.SetDirty();
      }
    }

    method SetFilename(value: string)
      modifies this`filename, base`dirty
      ensures filename == value
      ensures base.dirty == (old(base.dirty) || old(filename) != value)
    {
      if filename != value {
        filename := value;
        base.SetDirty();
      }
    }

    method SetChunked(value: bool)
      modifies this`chunked, base`dirty
      ensures chunked == value
      ensures base.dirty == (old(base.dirty) || old(chunked) != value)
    {
      if chunked != value {
        chunked := value;
        base.SetDirty();
      }
    }

    method SetUploaded(value: bool)
      modifies this`uploaded, base`dirty
      ensures uploaded == value
      ensures base.dirty == (old(base.dirty) || old(uploaded) != value)
    {
      if uploaded != value {
        uploaded := value;
        base.SetDirty();
      }
    }

    /** `updateDuration`. */
    method UpdateDuration()
      modifies this`duration
      ensures DurationMatches()
      ensures duration >= 0
    {
      var value := endTime - startTime;
      duration := if value < 0 then 0 else value;
    }

    /**
     * `SaveToJSON`: the GUID, file name, title, start and end, marked as
     * created by the timeline.
     */
    function SaveToJSON(): (r: map<string, Json>)
      reads this, base
      ensures r.Keys == {"guid", "filename", "title", "start_time", "end_time", "created_with"}
      ensures r["created_with"] == JStr("timeline")
      ensures r["start_time"] == JInt(startTime) && r["end_time"] == JInt(endTime)
      ensures r["guid"] == JStr(base.guid) && r["filename"] == JStr(filename) && r["title"] == JStr(title)
    {
      map[
        "guid" := JStr(base.guid),
        "filename" := JStr(filename),
        "title" := JStr(title),
        "start_time" := JInt(startTime),
        "end_time" := JInt(endTime),
        "created_with" := JStr("timeline")]
    }

    /** `LoadFromJSON`: the server never sends timeline events back; nothing is read. */
    method LoadFromJSON(data: Json) returns (err: Code)
      ensures err == NoError
    {
      err := NoError;
    }
  }

  /** Setting the same start and end again changes neither the duration nor the dirty flag. */
  method SetSameTimesKeepsState(e: TimelineEvent)
    modifies e, e.base
    ensures e.duration == old(e.duration) && e.base.dirty == old(e.base.dirty)
  {
    e.SetStart(e.startTime);
    e.SetEndTime(e.endTime);
  }
}
