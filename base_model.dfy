/**
 * The state every synchronised model shares (next/model/base_model.h and
 * base_model.cc): its local and server identity, its sync flags, and the
 * rules that decide whether and how it is pushed to the server.
 *
 * Every setter marks the model dirty only when the value really changes.
 */
module BaseModels {
  import opened Wrappers
  import opened Strings
  import opened Errors

  /** What the server answered to one request of a batch update. */
  datatype BatchUpdateResult = BatchUpdateResult(resourceIsGone: bool, error: Code, bodyParses: bool)

  class BaseModel {
    var localId: int
    var id: nat
    var guid: string
    var uiModifiedAt: int
    var uid: nat
    var dirty: bool
    var deletedAt: int
    var markedAsDeletedOnServer: bool
    var updatedAt: int
    var validationError: Code
    var unsynced: bool

    /** A new model: no identity, nothing to save, no error. */
    constructor()
      ensures localId == 0 && id == 0 && guid == "" && uiModifiedAt == 0 && uid == 0
      ensures !dirty && deletedAt == 0 && !markedAsDeletedOnServer && updatedAt == 0
      ensures validationError == NoError && !unsynced
    {
      localId, id, guid, uiModifiedAt, uid := 0, 0, "", 0, 0;
      dirty, deletedAt, markedAsDeletedOnServer, updatedAt := false, 0, false, 0;
      validationError, unsynced := NoError, false;
    }

    /** Not on the server yet and not deleted: it must be created there. */
    predicate NeedsPOST()
      reads this
    {
      id == 0 && !(deletedAt > 0)
    }

    /** On the server, changed in the UI and not deleted: it must be updated there. */
    predicate NeedsPUT()
      reads this
    {
      id != 0 && uiModifiedAt > 0 && !(deletedAt > 0)
    }

    /** On the server and deleted locally: it must be deleted there. */
    predicate NeedsDELETE()
      reads this
    {
      id != 0 && deletedAt > 0
    }

    /** A model with a validation error from the server is not pushed again. */
    predicate NeedsPush()
      reads this
    {
      IsNoError(validationError) && (NeedsPOST() || NeedsPUT() || NeedsDELETE())
    }

    /** Never stored locally, or changed since it was. */
    predicate NeedsToBeSaved()
      reads this
    {
      localId == 0 || dirty
    }

    /** `batchUpdateMethod`: the HTTP method of the model's batch request. */
    function BatchUpdateMethod(): (r: string)
      reads this
      ensures r == "DELETE" || r == "POST" || r == "PUT"
      ensures r == "DELETE" <==> NeedsDELETE()
      ensures r == "POST" <==> NeedsPOST()
      ensures NeedsPUT() ==> r == "PUT"
    {
      if NeedsDELETE() then "DELETE" else if NeedsPOST() then "POST" else "PUT"
    }

    /**
     * `batchUpdateRelativeURL`: the model's collection URL for a new model,
     * followed by "/" and the server ID otherwise.
     */
    function BatchUpdateRelativeURL(modelURL: string): (r: string)
      reads this
      ensures |r| >= |modelURL| && r[..|modelURL|] == modelURL
      ensures r == modelURL <==> NeedsPOST()
      ensures !NeedsPOST() ==>
                |r| > |modelURL| + 1 && r[|modelURL|] == '/'
                && (forall i :: |modelURL| + 1 <= i < |r| ==> IsDigit(r[i]))
                && ParseDigits(r[|modelURL| + 1..]) == id
    {
      if NeedsPOST() then modelURL
      else
        var r := modelURL + "/" + NatToString(id);
        assert r[|modelURL| + 1..] == NatToString(id);
        NatToStringRoundTrip(id);
        r
    }

    /**
     * `BatchUpdateJSON`: refuses a model without a GUID; otherwise the batch
     * request with the method, the relative URL, the GUID, and a body holding
     * the model's own JSON (`saved`) under its model name.
     */
    function BatchUpdateJSON(modelName: string, modelURL: string, saved: Json): (r: (Code, Option<Json>))
      reads this
      ensures r.0 == BatchUpdateWithoutGuid <==> guid == ""
      ensures r.0 == NoError <==> guid != ""
      ensures r.1.Some? <==> guid != ""
      ensures r.1.Some? ==>
                r.1.value.JObject? && r.1.value.fields.Keys == {"method", "relative_url", "guid", "body"}
                && r.1.value.fields["method"] == JStr(BatchUpdateMethod())
                && r.1.value.fields["relative_url"] == JStr(BatchUpdateRelativeURL(modelURL))
                && r.1.value.fields["guid"] == JStr(guid)
                && r.1.value.fields["body"] == JObject(map[modelName := saved])
    {
      if guid == "" then (BatchUpdateWithoutGuid, None)
      else
        (NoError, Some(JObject(map[
          "method" := JStr(BatchUpdateMethod()),
          "relative_url" := JStr(BatchUpdateRelativeURL(modelURL)),
          "guid" := JStr(guid),
          "body" := JObject(map[modelName := saved])])))
    }

    /** `userCannotAccessWorkspace`. */
    predicate UserCannotAccessWorkspace(err: Code) {
      err == CannotAccessWorkspace
    }

    method SetLocalID(value: int)
      modifies this`localId
      ensures localId == value
    {
      localId := value;
    }

    method SetID(value: nat)
      modifies this`id, this`dirty
      ensures id == value
      ensures dirty == (old(dirty) || old(id) != value)
    {
      if id != value {
        id := value;
        dirty := true;
      }
    }

    method SetGUID(value: string)
      modifies this`guid, this`dirty
      ensures guid == value
      ensures dirty == (old(dirty) || old(guid) != value)
    {
      if guid != value {
        guid := value;
        dirty := true;
      }
    }

    method SetUID(value: nat)
      modifies this`uid, this`dirty
      ensures uid == value
      ensures dirty == (old(dirty) || old(uid) != value)
    {
      if uid != value {
        uid := value;
        dirty := true;
      }
    }

    method SetUIModifiedAt(value: int)
      modifies this`uiModifiedAt, this`dirty
      ensures uiModifiedAt == value
      ensures dirty == (old(dirty) || old(uiModifiedAt) != value)
    {
      if uiModifiedAt != value {
        uiModifiedAt := value;
        dirty := true;
      }
    }

    /** `SetUIModified`: stamps the model with the current time `now`. */
    method SetUIModified(now: int)
      modifies this`uiModifiedAt, this`dirty
      ensures uiModifiedAt == now
      ensures dirty == (old(dirty) || old(uiModifiedAt) != now)
    {
      SetUIModifiedAt(now);
    }

    method SetDeletedAt(value: int)
      modifies this`deletedAt, this`dirty
      ensures deletedAt == value
      ensures dirty == (old(dirty) || old(deletedAt) != value)
    {
      if deletedAt != value {
        deletedAt := value;
        dirty := true;
      }
    }

    method SetUpdatedAt(value: int)
      modifies this`updatedAt, this`dirty
      ensures updatedAt == value
      ensures dirty == (old(dirty) || old(updatedAt) != value)
    {
      if updatedAt != value {
        updatedAt := value;
        dirty := true;
      }
    }

    /** `SetUpdatedAtString`: `parsed` is the ISO 8601 time the text denotes. */
    method SetUpdatedAtString(parsed: int)
      modifies this`updatedAt, this`dirty
      ensures updatedAt == parsed
      ensures dirty == (old(dirty) || old(updatedAt) != parsed)
    {
      SetUpdatedAt(parsed);
    }

    method SetValidationError(value: Code)
      modifies this`validationError, this`dirty
      ensures validationError == value
      ensures dirty == (old(dirty) || old(validationError) != value)
    {
      if validationError != value {
        validationError := value;
        dirty := true;
      }
    }

    method ClearValidationError()
      modifies this`validationError, this`dirty
      ensures validationError == NoError
      ensures dirty == (old(dirty) || old(validationError) != NoError)
    {
      SetValidationError(NoError);
    }

    /**
     * `EnsureGUID`: a model without a GUID gets a freshly generated one,
     * `generated`; a model with a GUID keeps it.
     */
    method EnsureGUID(generated: string)
      requires generated != ""
      modifies this`guid, this`dirty
      ensures guid != ""
      ensures old(guid) != "" ==> guid == old(guid) && dirty == old(dirty)
      ensures old(guid) == "" ==> guid == generated && dirty
    {
      if guid != "" {
        return;
      }
      SetGUID(generated);
    }

    method SetDirty()
      modifies this`dirty
      ensures dirty
    {
      dirty := true;
    }

    method ClearDirty()
      modifies this`dirty
      ensures !dirty
    {
      dirty := false;
    }

    method SetUnsynced()
      modifies this`unsynced
      ensures unsynced
    {
      unsynced := true;
    }

    method ClearUnsynced()
      modifies this`unsynced
      ensures !unsynced
    {
      unsynced := false;
    }

    method MarkAsDeletedOnServer()
      modifies this`markedAsDeletedOnServer, this`dirty
      ensures markedAsDeletedOnServer && dirty
    {
      markedAsDeletedOnServer := true;
      dirty := true;
    }

    /** `Delete`: hides the model locally at time `now`, to be deleted on the server later. */
    method Delete(now: int)
      modifies this`deletedAt, this`uiModifiedAt, this`dirty
      ensures deletedAt == now && uiModifiedAt == now
      ensures dirty == (old(dirty) || old(deletedAt) != now || old(uiModifiedAt) != now)
    {
      SetDeletedAt(now);
      SetUIModified(now);
    }

    /**
     * `ApplyBatchUpdateResult` with the default hooks of the base class
     * (no error counts as a duplicate, as uncreatable, or as resolvable):
     * a resource that is gone is marked deleted on the server; an error is
     * kept as the validation error and returned; a success clears the
     * validation error and fails only when the body is not valid JSON.
     */
    method ApplyBatchUpdateResult(update: BatchUpdateResult) returns (err: Code)
      modifies this`markedAsDeletedOnServer, this`validationError, this`dirty
      ensures update.resourceIsGone ==>
                err == NoError && markedAsDeletedOnServer && dirty && validationError == old(validationError)
      ensures !update.resourceIsGone ==> markedAsDeletedOnServer == old(markedAsDeletedOnServer)
      ensures !update.resourceIsGone && update.error != NoError ==>
                err == update.error && validationError == update.error
                && dirty == (old(dirty) || old(validationError) != update.error)
      ensures !update.resourceIsGone && update.error == NoError ==>
                validationError == NoError
                && dirty == (old(dirty) || old(validationError) != NoError)
                && err == (if update.bodyParses then NoError else MalformedData)
    {
      if update.resourceIsGone {
        MarkAsDeletedOnServer();
        return NoError;
      }
      if update.error != NoError {
        SetValidationError(update.error);
        return update.error;
      }
      SetValidationError(NoError);
      err := if update.bodyParses then NoError else MalformedData;
    }
  }

  /** A model needs at most one kind of request. */
  lemma OneRequestKind(m: BaseModel)
    ensures !(m.NeedsPOST() && m.NeedsPUT())
    ensures !(m.NeedsPOST() && m.NeedsDELETE())
    ensures !(m.NeedsPUT() && m.NeedsDELETE())
  {
  }

  /** A model that is pushed is pushed with the method that its state calls for. */
  lemma PushedMethodIsNeeded(m: BaseModel)
    requires m.NeedsPush()
    ensures m.BatchUpdateMethod() == "POST" ==> m.NeedsPOST()
    ensures m.BatchUpdateMethod() == "PUT" ==> m.NeedsPUT()
    ensures m.BatchUpdateMethod() == "DELETE" ==> m.NeedsDELETE()
  {
  }
}
