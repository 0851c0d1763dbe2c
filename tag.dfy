/** A tag (next/model/tag.cc): a label of a workspace that time entries carry by name. */
module Tags {
  import opened Errors
  import opened Strings
  import opened BaseModels

  /** The members of a tag's JSON that LoadFromJSON reads; missing ones read as 0 or "". */
  datatype TagJson = TagJson(id: nat, name: string, wid: nat)

  class Tag {
    const base: BaseModel
    var wid: nat
    var name: string

    constructor()
      ensures fresh(base)
      ensures base.localId == 0 && base.id == 0 && !base.dirty
      ensures wid == 0 && name == ""
    {
      base := new BaseModel();
      wid, name := 0, "";
    }

    /** `ModelURL`: the tag collection. */
    function ModelURL(): (r: string)
      ensures r == "/api/v9/tags"
    {
      "/api/v9/tags"
    }

    /** `String`: the tag's ID, local ID, name, workspace and GUID, in that order, for logs. */
    function String(): (r: string)
      reads this, base
      ensures |r| >= 3 && r[..3] == "ID="
      ensures Contains(r, " name=" + name)
      ensures |r| >= |base.guid| && r[|r| - |base.guid|..] == base.guid
    {
      var head := "ID=" + NatToString(base.id) + " local_id=" + IntToString(base.localId);
      var r := head + " name=" + name + " wid=" + NatToString(wid) + " guid=" + base.guid;
      assert r[|head|..|head| + |" name=" + name|] == " name=" + name;
      assert OccursAt(r, " name=" + name, |head|);
      r
    }

    method SetWID(value: nat)
      modifies this`wid, base`dirty
      ensures wid == value
      ensures base.dirty == (old(base.dirty) || old(wid) != value)
    {
      if wid != value {
        wid := value;
        base.SetDirty();
      }
    }

    method SetName(value: string)
      modifies this`name, base`dirty
      ensures name == value
      ensures base.dirty == (old(base.dirty) || old(name) != value)
    {
      if name != value {
        name := value;
        base.SetDirty();
      }
    }

    /** `LoadFromJSON`: takes the ID, name and workspace. */
    method LoadFromJSON(data: TagJson) returns (err: Code)
      modifies this`name, this`wid, base`id, base`dirty
      ensures err == NoError
      ensures base.id == data.id && name == data.name && wid == data.wid
      ensures base.dirty == (old(base.dirty) || old(base.id) != data.id || old(name) != data.name
                             || old(wid) != data.wid)
    {
      base.SetID(data.id);
      SetName(data.name);
      SetWID(data.wid);
      return NoError;
    }
  }
}
