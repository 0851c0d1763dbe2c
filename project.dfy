/**
 * A project (next/model/project.h): a named project of a workspace,
 * optionally for a client. Only the header is part of this model; the
 * setters below follow the rule every model of the core follows (a value
 * that changes marks the model dirty), and FullName is kept as a stored
 * value because its definition is not part of this model either.
 */
module Projects {
  import opened BaseModels

  class Project {
    const base: BaseModel
    var wid: nat
    var cid: nat
    var name: string
    var color: string
    var active: bool
    var isPrivate: bool
    var billable: bool
    var clientGuid: string
    var clientName: string
    var fullName: string

    constructor()
      ensures fresh(base)
      ensures base.localId == 0 && base.id == 0 && base.guid == "" && !base.dirty
      ensures wid == 0 && cid == 0 && name == "" && color == ""
      ensures !active && !isPrivate && !billable && clientGuid == "" && clientName == ""
    {
      base := new BaseModel();
      wid, cid, name, color := 0, 0, "", "";
      active, isPrivate, billable, clientGuid, clientName := false, false, false, "", "";
      fullName := "";
    }

    /** The project has no client, neither by ID nor by a GUID still waiting for one. */
    predicate WithoutClient()
      reads this
    {
      cid == 0 && clientGuid == ""
    }

    method SetWID(value: nat)
      modifies this`wid, base`dirty
      ensures wid == value
      ensures base.dirty == (old(base.dirty) || old(wid) != value)
    {
      if wid != value {
        wid := value;
        base.SetDirty();
      }
    }

    method SetCID(value: nat)
      modifies this`cid, base`dirty
      ensures cid == value
      ensures base.dirty == (old(base.dirty) || old(cid) != value)
    {
      if cid != value {
        cid := value;
        base.SetDirty();
      }
    }

    method SetName(value: string)
      modifies this`name, base`dirty
      ensures name == value
      ensures base.dirty == (old(base.dirty) || old(name) != value)
    {
      if name != value {
        name := value;
        base.SetDirty();
      }
    }

    method SetClientGUID(value: string)
      modifies this`clientGuid, base`dirty
      ensures clientGuid == value
      ensures base.dirty == (old(base.dirty) || old(clientGuid) != value)
    {
      if clientGuid != value {
        clientGuid := value;
        base.SetDirty();
      }
    }

    method SetClientName(value: string)
      modifies this`clientName, base`dirty
      ensures clientName == value
      ensures base.dirty == (old(base.dirty) || old(clientName) != value)
    {
      if clientName != value {
        clientName := value;
        base.SetDirty();
      }
    }
  }
}
