/** A country (next/model/country.cc): an entry of the country list the server provides. */
module Countries {
  import opened Errors
  import opened Strings
  import opened BaseModels

  /** The members of a country's JSON that LoadFromJSON reads; missing ones read as 0 or "". */
  datatype CountryJson = CountryJson(id: nat, name: string, countryCode: string)

  class Country {
    const base: BaseModel
    var name: string
    var countryCode: string

    constructor()
      ensures fresh(base)
      ensures base.localId == 0 && base.id == 0 && !base.dirty
      ensures name == "" && countryCode == ""
    {
      base := new BaseModel();
      name, countryCode := "", "";
    }

    /** `ModelURL`: the country collection. */
    function ModelURL(): (r: string)
      ensures r == "/api/v9/countries"
    {
      "/api/v9/countries"
    }

    /** `String`: the country's ID, local ID, name, code and GUID, in that order, for logs. */
    function String(): (r: string)
      reads this, base
      ensures |r| >= 3 && r[..3] == "ID="
      ensures Contains(r, " name=" + name)
      ensures |r| >= |base.guid| && r[|r| - |base.guid|..] == base.guid
    {
      var head := "ID=" + NatToString(base.id) + " local_id=" + IntToString(base.localId);
      var r := head + " name=" + name + " country_code=" + countryCode + " guid=" + base.guid;
      assert r[|head|..|head| + |" name=" + name|] == " name=" + name;
      assert OccursAt(r, " name=" + name, |head|);
      r
    }

    method SetName(value: string)
      modifies this`name, base`dirty
      ensures name == value
      ensures base.dirty == (old(base.dirty) || old(name) != value)
    {
      if name != value {
        name := value;
        base.SetDirty();
      }
    }

    method SetCountryCode(value: string)
      modifies this`countryCode, base`dirty
      ensures countryCode == value
      ensures base.dirty == (old(base.dirty) || old(countryCode) != value)
    {
      if countryCode != value {
        countryCode := value;
        base.SetDirty();
      }
    }

    /** `LoadFromJSON`: takes the ID, name and country code. */
    method LoadFromJSON(data: CountryJson) returns (err: Code)
      modifies this`name, this`countryCode, base`id, base`dirty
      ensures err == NoError
      ensures base.id == data.id && name == data.name && countryCode == data.countryCode
      ensures base.dirty == (old(base.dirty) || old(base.id) != data.id || old(name) != data.name
                             || old(countryCode) != data.countryCode)
    {
      base.SetID(data.id);
      SetName(data.name);
      SetCountryCode(data.countryCode);
      return NoError;
    }
  }
}
