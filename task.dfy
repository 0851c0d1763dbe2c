/** A task (next/model/task.cc): a named piece of work inside a project of a workspace. */
module Tasks {
  import opened Strings
  import opened BaseModels

  /** The members of a task's JSON that LoadFromJSON reads; missing ones read as 0, "" or false. */
  datatype TaskJson = TaskJson(id: nat, name: string, pid: nat, wid: nat, active: bool)

  class Task {
    const base: BaseModel
    var name: string
    var wid: nat
    var pid: nat
    var active: bool

    constructor()
      ensures fresh(base)
      ensures base.localId == 0 && base.id == 0 && !base.dirty
      ensures name == "" && wid == 0 && pid == 0 && !active
    {
      base := new BaseModel();
      name, wid, pid, active := "", 0, 0, false;
    }

    /** `ModelURL`: the task collection. */
    function ModelURL(): (r: string)
      ensures r == "/api/v9/tasks"
    {
      "/api/v9/tasks"
    }

    /** `String`: the task's ID, local ID, name, workspace and project, in that order, for logs. */
    function String(): (r: string)
      reads this, base
      ensures |r| >= 3 && r[..3] == "ID="
      ensures Contains(r, " name=" + name)
      ensures |r| >= |NatToString(pid)| && r[|r| - |NatToString(pid)|..] == NatToString(pid)
    {
      var head := "ID=" + NatToString(base.id) + " local_id=" + IntToString(base.localId);
      var r := head + " name=" + name + " wid=" + NatToString(wid) + " pid=" + NatToString(pid);
      assert r[|head|..|head| + |" name=" + name|] == " name=" + name;
      assert OccursAt(r, " name=" + name, |head|);
      r
    }

    method SetPID(value: nat)
      modifies this`pid, base`dirty
      ensures pid == value
      ensures base.dirty == (old(base.dirty) || old(pid) != value)
    {
      if pid != value {
        pid := value;
        base.SetDirty();
      }
    }

    method SetWID(value: nat)
      modifies this`wid, base`dirty
      ensures wid == value
      ensures base.dirty == (old(base.dirty) || old(wid) != value)
    {
      if wid != value {
        wid := value;
        base.SetDirty();
      }
    }

    method SetName(value: string)
      modifies this`name, base`dirty
      ensures name == value
      ensures base.dirty == (old(base.dirty) || old(name) != value)
    {
      if name != value {
        name := value;
        base.SetDirty();
      }
    }

    method SetActive(value: bool)
      modifies this`active, base`dirty
      ensures active == value
      ensures base.dirty == (old(base.dirty) || old(active) != value)
    {
      if active != value {
        active := value;
        base.SetDirty();
      }
    }

    /** `LoadFromJSON`: takes the ID, name, project, workspace and active flag. */
    method LoadFromJSON(data: TaskJson)
      modifies this`name, this`pid, this`wid, this`active, base`id, base`dirty
      ensures base.id == data.id && name == data.name && pid == data.pid
      ensures wid == data.wid && active == data.active
      ensures base.dirty == (old(base.dirty) || old(base.id) != data.id || old(name) != data.name
                             || old(pid) != data.pid || old(wid) != data.wid || old(active) != data.active)
    {
      base.SetID(data.id);
      SetName(data.name);
      SetPID(data.pid);
      SetWID(data.wid);
      SetActive(data.active);
    }
  }
}
