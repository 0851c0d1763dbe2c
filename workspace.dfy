/**
 * A workspace (next/model/workspace.cc): its name, the premium and
 * business plan flags, who may create projects, and the time before which
 * entries are locked.
 */
module Workspaces {
  import opened BaseModels

  /** The highest plan profile that is not a business plan. */
  const LastNonBusinessProfile: nat := 13

  /** The members of a workspace's JSON that LoadFromJSON reads; missing ones read as 0, "" or false. */
  datatype WorkspaceJson = WorkspaceJson(
    id: nat, name: string, premium: bool, onlyAdminsMayCreateProjects: bool,
    admin: bool, projectsBillableByDefault: bool, profile: nat)

  class Workspace {
    const base: BaseModel
    var name: string
    var premium: bool
    var onlyAdminsMayCreateProjects: bool
    var admin: bool
    var projectsBillableByDefault: bool
    var business: bool
    var lockedTime: int

    /** A new workspace. Its header is not part of this model; every field is taken to start empty. */
    constructor()
      ensures fresh(base)
      ensures base.localId == 0 && base.id == 0 && !base.dirty
      ensures name == "" && !premium && !onlyAdminsMayCreateProjects && !admin
      ensures !projectsBillableByDefault && !business && lockedTime == 0
    {
      base := new BaseModel();
      name, premium, onlyAdminsMayCreateProjects, admin := "", false, false, false;
      projectsBillableByDefault, business, lockedTime := false, false, 0;
    }

    /** `ModelURL`: the workspace collection. */
    function ModelURL(): (r: string)
      ensures r == "/api/v9/workspaces"
    {
      "/api/v9/workspaces"
    }

    method SetName(value: string)
      modifies this`name, base`dirty
      ensures name == value
      ensures base.dirty == (old(base.dirty) || old(name) != value)
    {
      if name != value {
        name := value;
        base.SetDirty();
      }
    }

    method SetPremium(value: bool)
      modifies this`premium, base`dirty
      ensures premium == value
      ensures base.dirty == (old(base.dirty) || old(premium) != value)
    {
      if premium != value {
        premium := value;
        base.SetDirty();
      }
    }

    method SetOnlyAdminsMayCreateProjects(value: bool)
      modifies this`onlyAdminsMayCreateProjects, base`dirty
      ensures onlyAdminsMayCreateProjects == value
      ensures base.dirty == (old(base.dirty) || old(onlyAdminsMayCreateProjects) != value)
    {
      if onlyAdminsMayCreateProjects != value {
        onlyAdminsMayCreateProjects := value;
        base.SetDirty();
      }
    }

    method SetAdmin(value: bool)
      modifies this`admin, base`dirty
      ensures admin == value
      ensures base.dirty == (old(base.dirty) || old(admin) != value)
    {
      if admin != value {
        admin := value;
        base.SetDirty();
      }
    }

    method SetProjectsBillableByDefault(value: bool)
      modifies this`projectsBillableByDefault, base`dirty
      ensures projectsBillableByDefault == value
      ensures base.dirty == (old(base.dirty) || old(projectsBillableByDefault) != value)
    {
      if projectsBillableByDefault != value {
        projectsBillableByDefault := value;
        base.SetDirty();
      }
    }

    method SetBusiness(value: bool)
      modifies this`business, base`dirty
      ensures business == value
      ensures base.dirty == (old(base.dirty) || old(business) != value)
    {
      if business != value {
        business := value;
        base.SetDirty();
      }
    }

    method SetLockedTime(value: int)
      modifies this`lockedTime, base`dirty
      ensures lockedTime == value
      ensures base.dirty == (old(base.dirty) || old(lockedTime) != value)
    {
      if lockedTime != value {
        lockedTime := value;
        base.SetDirty();
      }
    }

    /**
     * `LoadFromJSON`: takes every member, and sets the business flag
     * exactly when the plan profile is above 13. The locked time is kept;
     * the workspace becomes dirty exactly when some loaded field changes.
     */
    method LoadFromJSON(data: WorkspaceJson)
      modifies this`name, this`premium, this`onlyAdminsMayCreateProjects, this`admin,
               this`projectsBillableByDefault, this`business, base`id, base`dirty
      ensures base.id == data.id && name == data.name && premium == data.premium
      ensures onlyAdminsMayCreateProjects == data.onlyAdminsMayCreateProjects && admin == data.admin
      ensures projectsBillableByDefault == data.projectsBillableByDefault
      ensures business <==> data.profile > LastNonBusinessProfile
      ensures base.dirty == (old(base.dirty) || old(base.id) != data.id || old(name) != data.name
                             || old(premium) != data.premium
                             || old(onlyAdminsMayCreateProjects) != data.onlyAdminsMayCreateProjects
                             || old(admin) != data.admin
                             || old(projectsBillableByDefault) != data.projectsBillableByDefault
                             || old(business) != (data.profile > LastNonBusinessProfile))
    {
      base.SetID(data.id);
      SetName(data.name);
      SetPremium(data.premium);
      SetOnlyAdminsMayCreateProjects(data.onlyAdminsMayCreateProjects);
      SetAdmin(data.admin);
      SetProjectsBillableByDefault(data.projectsBillableByDefault);
      SetBusiness(data.profile > LastNonBusinessProfile);
    }

    /**
     * `LoadSettingsFromJson`: `reportLockedAt` is the "report_locked_at"
     * text and `parsed` the time it denotes. An empty text keeps the
     * locked time.
     */
    method LoadSettingsFromJson(reportLockedAt: string, parsed: int)
      modifies this`lockedTime, base`dirty
      ensures reportLockedAt == "" ==> lockedTime == old(lockedTime) && base.dirty == old(base.dirty)
      ensures reportLockedAt != "" ==> lockedTime == parsed
      ensures base.dirty == (old(base.dirty) || lockedTime != old(lockedTime))
    {
      if reportLockedAt != "" {
        SetLockedTime(parsed);
      }
    }
  }
}
