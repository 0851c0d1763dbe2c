/**
 * A client (next/model/client.cc): a named customer inside a workspace,
 * with the repairs it applies when the server refuses it.
 */
module Clients {
  import opened Wrappers
  import opened Strings
  import opened Errors
  import opened BaseModels

  /** The text by which the server says a name is taken. */
  const NameTakenText: string := "Name has already been taken"

  /** The text by which the server says clients cannot be created in the workspace. */
  const CannotCreateText: string := "cannot add or edit ClientModels in workspace"

  /** The suffix appended to a name the server says is taken. */
  const DuplicateSuffix: string := " 1"

  /** The members of a client's JSON that LoadFromJSON reads; missing ones read as 0 or "". */
  datatype ClientJson = ClientJson(id: nat, name: string, wid: nat)

  /** What ResolveError does about an error. */
  datatype Repair = RenameWithSuffix | MarkDeleted | Unresolved

  /** `nameHasAlreadyBeenTaken`: the error's text says the name is taken. */
  predicate NameHasAlreadyBeenTaken(values: map<Code, string>, err: Code) {
    Contains(Message(values, err), NameTakenText)
  }

  /**
   * The decision ResolveError makes, as written: any error other than
   * ClientNameAlreadyExists whose text is not about the name removes the
   * client, and only ClientNameAlreadyExists is left unresolved.
   */
  function ResolutionAsWritten(nameTaken: bool, err: Code): (r: Repair)
    ensures r == Unresolved <==> !nameTaken && err == ClientNameAlreadyExists
    ensures r == RenameWithSuffix <==> nameTaken
  {
    if nameTaken then RenameWithSuffix
    else if err != ClientNameAlreadyExists then MarkDeleted
    else Unresolved
  }

  /**
   * The decision the repair step evidently means to make (its own comment
   * calls it removing a duplicate): a taken name is renamed, the client
   * the server reports as a duplicate name is removed, and every other
   * error is left for the caller.
   */
  function IntendedResolution(nameTaken: bool, err: Code): (r: Repair)
    ensures r == RenameWithSuffix <==> nameTaken
    ensures r == MarkDeleted <==> !nameTaken && err == ClientNameAlreadyExists
    ensures r == Unresolved <==> !nameTaken && err != ClientNameAlreadyExists
  {
    if nameTaken then RenameWithSuffix
    else if err == ClientNameAlreadyExists then MarkDeleted
    else Unresolved
  }

  /**
   * As written, a backend outage whose text is not about the name removes
   * the client, where the intended rule leaves the error to the caller.
   */
  lemma OutageDeletesClientAsWritten()
    ensures ResolutionAsWritten(false, BackendIsDown) == MarkDeleted
    ensures IntendedResolution(false, BackendIsDown) == Unresolved
  {
  }

  /** The two rules disagree on every error the server may send that is not about the name. */
  lemma ResolutionsDisagree(err: Code)
    requires err != NoError
    ensures ResolutionAsWritten(false, err) != IntendedResolution(false, err)
  {
  }

  class Client {
    const base: BaseModel
    var wid: nat
    var name: string

    constructor()
      ensures fresh(base)
      ensures base.localId == 0 && base.id == 0 && !base.dirty
      ensures wid == 0 && name == ""
    {
      base := new BaseModel();
      wid, name := 0, "";
    }

    /** `ModelURL`: the client collection of the client's workspace. */
    function ModelURL(): (r: string)
      reads this
      ensures r == "/api/v9/workspaces/" + NatToString(wid) + "/ClientModels"
      ensures |r| > 19 && r[..19] == "/api/v9/workspaces/"
    {
      "/api/v9/workspaces/" + NatToString(wid) + "/ClientModels"
    }

    /** `String`: the client's ID, local ID, name, workspace and GUID, for logs. */
    function String(): (r: string)
      reads this, base
      ensures |r| >= 3 && r[..3] == "ID="
      ensures Contains(r, " name=" + name)
    {
      var head := "ID=" + NatToString(base.id) + " local_id=" + IntToString(base.localId);
      var r := head + " name=" + name + " wid=" + NatToString(wid) + " guid=" + base.guid;
      assert r[|head|..|head| + |" name=" + name|] == " name=" + name;
      assert OccursAt(r, " name=" + name, |head|);
      r
    }

    /**
     * `SaveToJSON`: `escape` is the JSON string escaping, which is not part
     * of this model. A zero ID is left out.
     */
    function SaveToJSON(escape: string -> string): (r: map<string, Json>)
      reads this, base
      ensures forall k :: k in r <==> k in {"name", "wid", "guid", "ui_modified_at"} || (k == "id" && base.id != 0)
      ensures "id" in r ==> r["id"] == JInt(base.id)
      ensures r["name"] == JStr(escape(name)) && r["wid"] == JInt(wid) && r["guid"] == JStr(base.guid)
      ensures r["ui_modified_at"] == JInt(base.uiModifiedAt)
    {
      var n := map[
        "name" := JStr(escape(name)),
        "wid" := JInt(wid),
        "guid" := JStr(base.guid),
        "ui_modified_at" := JInt(base.uiModifiedAt)];
      if base.id != 0 then n["id" := JInt(base.id)] else n
    }

    /** `ResourceCannotBeCreated`: the error's text says clients cannot be added in the workspace. */
    predicate ResourceCannotBeCreated(values: map<Code, string>, err: Code) {
      Contains(Message(values, err), CannotCreateText)
    }

    method SetName(value: string)
      modifies this`name, base`dirty
      ensures name == value
      ensures base.dirty == (old(base.dirty) || old(name) != value)
    {
      if name != value {
        name := value;
        base.SetDirty();
      }
    }

    method SetWID(value: nat)
      modifies this`wid, base`dirty
      ensures wid == value
      ensures base.dirty == (old(base.dirty) || old(wid) != value)
    {
      if wid != value {
        wid := value;
        base.SetDirty();
      }
    }

    method LoadFromJSON(data: ClientJson) returns (err: Code)
      modifies this`name, this`wid, base`id, base`dirty
      ensures err == NoError
      ensures base.id == data.id && name == data.name && wid == data.wid
      ensures base.dirty == (old(base.dirty) || old(base.id) != data.id || old(name) != data.name || old(wid) != data.wid)
    {
      base.SetID(data.id);
      SetName(data.name);
      SetWID(data.wid);
      return NoError;
    }

    /** `ResolveError` as written: see ResolutionAsWritten. */
    method ResolveErrorAsWritten(values: map<Code, string>, err: Code) returns (resolved: bool)
      modifies this`name, base`markedAsDeletedOnServer, base`dirty
      ensures resolved <==> ResolutionAsWritten(NameHasAlreadyBeenTaken(values, err), err) != Unresolved
      ensures ResolutionAsWritten(NameHasAlreadyBeenTaken(values, err), err) == RenameWithSuffix ==>
                name == old(name) + DuplicateSuffix
                && base.markedAsDeletedOnServer == old(base.markedAsDeletedOnServer) && base.dirty
      ensures ResolutionAsWritten(NameHasAlreadyBeenTaken(values, err), err) == MarkDeleted ==>
                name == old(name) && base.markedAsDeletedOnServer && base.dirty
      ensures ResolutionAsWritten(NameHasAlreadyBeenTaken(values, err), err) == Unresolved ==>
                name == old(name) && base.markedAsDeletedOnServer == old(base.markedAsDeletedOnServer)
                && base.dirty == old(base.dirty)
    {
      if NameHasAlreadyBeenTaken(values, err) {
        SetName(name + DuplicateSuffix);
        return true;
      }
      if err != ClientNameAlreadyExists {
        base.MarkAsDeletedOnServer();
        return true;
      }
      return false;
    }

    /**
     * `ResolveError` as intended: a taken name gets " 1" appended; the
     * client the server calls a duplicate name is marked deleted on the
     * server; any other error is not resolved and nothing changes.
     */
    method ResolveError(values: map<Code, string>, err: Code) returns (resolved: bool)
      modifies this`name, base`markedAsDeletedOnServer, base`dirty
      ensures resolved <==> NameHasAlreadyBeenTaken(values, err) || err == ClientNameAlreadyExists
      ensures IntendedResolution(NameHasAlreadyBeenTaken(values, err), err) == RenameWithSuffix ==>
                name == old(name) + DuplicateSuffix
                && base.markedAsDeletedOnServer == old(base.markedAsDeletedOnServer) && base.dirty
      ensures IntendedResolution(NameHasAlreadyBeenTaken(values, err), err) == MarkDeleted ==>
                name == old(name) && base.markedAsDeletedOnServer && base.dirty
      ensures IntendedResolution(NameHasAlreadyBeenTaken(values, err), err) == Unresolved ==>
                name == old(name) && base.markedAsDeletedOnServer == old(base.markedAsDeletedOnServer)
                && base.dirty == old(base.dirty)
    {
      if NameHasAlreadyBeenTaken(values, err) {
        SetName(name + DuplicateSuffix);
        return true;
      }
      if err == ClientNameAlreadyExists {
        base.MarkAsDeletedOnServer();
        return true;
      }
      return false;
    }

    /**
     * `ApplyBatchUpdateResult` of a client, with the intended ResolveError.
     * `body` is the reply's "data" member, None when the reply is not JSON.
     * A client that cannot be created in its workspace is marked deleted on
     * the server and the error is dropped.
     */
    method ApplyBatchUpdateResult(values: map<Code, string>, update: BatchUpdateResult, body: Option<ClientJson>)
      returns (err: Code)
      modifies this`name, this`wid, base`id, base`markedAsDeletedOnServer, base`validationError, base`dirty
      // A gone client, or one that cannot be created: marked deleted on the server, and nothing else changes.
      ensures update.resourceIsGone || (update.error != NoError && ResourceCannotBeCreated(values, update.error)) ==>
                err == NoError && base.markedAsDeletedOnServer && base.dirty
                && name == old(name) && wid == old(wid) && base.id == old(base.id)
                && base.validationError == old(base.validationError)
      // Another error: repaired as ResolveError repairs it, and reported only when it was not repaired.
      ensures !update.resourceIsGone && update.error != NoError && !ResourceCannotBeCreated(values, update.error) ==>
                wid == old(wid) && base.id == old(base.id)
                && match IntendedResolution(NameHasAlreadyBeenTaken(values, update.error), update.error)
                   case RenameWithSuffix =>
                     err == NoError && name == old(name) + DuplicateSuffix
                     && base.markedAsDeletedOnServer == old(base.markedAsDeletedOnServer)
                     && base.validationError == old(base.validationError) && base.dirty
                   case MarkDeleted =>
                     err == NoError && name == old(name) && base.markedAsDeletedOnServer
                     && base.validationError == old(base.validationError) && base.dirty
                   case Unresolved =>
                     err == update.error && name == old(name)
                     && base.markedAsDeletedOnServer == old(base.markedAsDeletedOnServer)
                     && base.validationError == update.error
                     && base.dirty == (old(base.dirty) || old(base.validationError) != update.error)
      // A success: the validation error is cleared and the reply is loaded.
      ensures !update.resourceIsGone && update.error == NoError ==>
                base.validationError == NoError
                && err == (if body.Some? then NoError else MalformedData)
                && base.markedAsDeletedOnServer == old(base.markedAsDeletedOnServer)
      ensures !update.resourceIsGone && update.error == NoError && body.Some? ==>
                name == body.value.name && wid == body.value.wid && base.id == body.value.id
                && base.dirty == (old(base.dirty) || old(base.validationError) != NoError || old(base.id) != body.value.id
                                  || old(name) != body.value.name || old(wid) != body.value.wid)
      ensures !update.resourceIsGone && update.error == NoError && body.None? ==>
                name == old(name) && wid == old(wid) && base.id == old(base.id)
                && base.dirty == (old(base.dirty) || old(base.validationError) != NoError)
    {
      if update.resourceIsGone {
        base.MarkAsDeletedOnServer();
        return NoError;
      }
      if update.error != NoError {
        if ResourceCannotBeCreated(values, update.error) {
          base.MarkAsDeletedOnServer();
          return NoError;
        }
        var resolved := ResolveError(values, update.error);
        if resolved {
          return NoError;
        }
        base.SetValidationError(update.error);
        return update.error;
      }
      base.SetValidationError(NoError);
      if body.None? {
        return MalformedData;
      }
      err := LoadFromJSON(body.value);
    }
  }
}
