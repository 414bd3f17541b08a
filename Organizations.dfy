/**
 * The organization table behind `DaoOrganizationRepository`: create, get, a partial
 * update whose fields are tri-state (absent / present / present-null), and delete.
 */
module Organizations {
  import opened Common

  datatype Organization = Organization(id: int, name: string, description: Option<string>)

  /**
   * The organization after `update(id, name, description)`: an Absent field is left as it
   * is, a Present one takes its value, and Present(None) clears the description.
   */
  function ApplyUpdate(org: Organization, name: OptionalValue<string>, description: OptionalValue<Option<string>>)
    : (r: Organization)
    ensures r.id == org.id
    ensures name.Absent? ==> r.name == org.name
    ensures name.Present? ==> r.name == name.value
    ensures description.Absent? ==> r.description == org.description
    ensures description.Present? ==> r.description == description.value
  {
    org.(name := IfPresent(name, org.name), description := IfPresent(description, org.description))
  }

  /** An update with every field Absent leaves the organization identical. */
  lemma AbsentUpdateIsIdentity(org: Organization)
    ensures ApplyUpdate(org, Absent, Absent) == org
  {
  }

  /** Absent name and Present(None) description: the name stays and the description is cleared. */
  lemma PresentNullClearsOnlyDescription(org: Organization)
    ensures ApplyUpdate(org, Absent, Present(None)) == org.(description := None)
  {
  }

  /** Two successive updates are one update in which the later Present value of each field wins. */
  lemma UpdatesCompose(org: Organization,
                       name1: OptionalValue<string>, description1: OptionalValue<Option<string>>,
                       name2: OptionalValue<string>, description2: OptionalValue<Option<string>>)
    ensures ApplyUpdate(ApplyUpdate(org, name1, description1), name2, description2)
         == ApplyUpdate(org, Override(name1, name2), Override(description1, description2))
  {
  }

  /** The organizations table, changed in place by create, update and delete. */
  class DaoOrganizationRepository {
    var organizations: map<int, Organization>
    var nextId: int

    /** Every row is stored under its own id, and ids still to be handed out are fresh. */
    ghost predicate Valid()
      reads this
    {
      forall id :: id in organizations ==> organizations[id].id == id && id < nextId
    }

    constructor ()
      ensures Valid() && organizations == map[]
    {
      organizations := map[];
      nextId := 1;
    }

    /** `create`: a new row with exactly the given name and description, under a fresh id. */
    method Create(name: string, description: Option<string>) returns (org: Organization)
      requires Valid()
      modifies this
      ensures Valid()
      ensures org == Organization(old(nextId), name, description)
      ensures org.id !in old(organizations)
      ensures organizations == old(organizations)[org.id := org]
    {
      org := Organization(nextId, name, description);
      organizations := organizations[nextId := org];
      nextId := nextId + 1;
    }

    /** `get`: the organization with this id, or null when there is none. */
    function Get(id: int): (r: Option<Organization>)
      reads this
      ensures r.Some? <==> id in organizations
      ensures r.Some? ==> r.value == organizations[id]
    {
      if id in organizations then Some(organizations[id]) else None
    }

    /** The organizations in the table, in no particular order. */
    function All(): (r: set<Organization>)
      reads this
      requires Valid()
      ensures forall org :: org in r <==> org.id in organizations && organizations[org.id] == org
    {
      set id | id in organizations :: organizations[id]
    }

    /** `update`: apply the present fields to an existing row and return it as re-read; an unknown id fails. */
    method Update(id: int, name: OptionalValue<string>, description: OptionalValue<Option<string>>)
      returns (r: Result<Organization>)
      requires Valid()
      modifies this
      ensures Valid() && nextId == old(nextId)
      ensures id !in old(organizations) ==> r == Failure(EntityNotFound(id)) && organizations == old(organizations)
      ensures id in old(organizations) ==>
                r == Success(ApplyUpdate(old(organizations)[id], name, description))
                && organizations == old(organizations)[id := r.value]
      ensures r.Success? ==> r.value.id == id && Get(id) == Some(r.value)
    {
      if id !in organizations {
        return Failure(EntityNotFound(id));
      }
      var org := organizations[id];
      org := org.(name := IfPresent(name, org.name));
      org := org.(description := IfPresent(description, org.description));
      organizations := organizations[id := org];
      r := Success(organizations[id]);
    }

    /** `delete`: remove an existing row, leaving the others untouched; an unknown id fails. */
    method Delete(id: int) returns (r: Result<()>)
      requires Valid()
      modifies this
      ensures Valid() && nextId == old(nextId)
      ensures id !in old(organizations) ==> r == Failure(EntityNotFound(id)) && organizations == old(organizations)
      ensures id in old(organizations) ==> r == Success(()) && organizations == old(organizations) - {id}
      ensures Get(id) == None
      ensures forall other :: other != id ==> Get(other) == old(Get(other))
    {
      if id !in organizations {
        return Failure(EntityNotFound(id));
      }
      organizations := organizations - {id};
      r := Success(());
    }
  }
}
