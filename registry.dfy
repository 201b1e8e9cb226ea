// The module-level registry: one migration chain per record type name,
// and the per-type helpers that tag and migrate records.
module Winter {
  import opened Revisions
  import opened Records
  import opened Steps
  import opened Chain

  /** The `managers` dictionary together with the functions that use it. */
  class Registry {
    /** Each registered type name mapped to its chain. */
    var managers: map<string, MigrationManager>

    /** Every chain is filed under its own type name and is well formed. */
    ghost predicate Valid()
      reads this, managers.Values
    {
      forall n :: n in managers ==> managers[n].name == n && managers[n].Valid()
    }

    constructor ()
      ensures Valid() && managers == map[]
    {
      managers := map[];
    }

    /** Registers a type with an empty chain. A name already registered
        raises and leaves the registry as it was. */
    method Add(name: string) returns (err: Option<Error>)
      requires Valid()
      modifies this
      ensures Valid()
      ensures name in old(managers) ==> err == Some(DuplicateType(name)) && managers == old(managers)
      ensures name !in old(managers) ==>
        && err.None?
        && managers.Keys == old(managers).Keys + {name}
        && fresh(managers[name]) && managers[name].steps == []
        && forall n :: n in old(managers) ==> managers[n] == old(managers)[n]
    {
      if name in managers {
        return Some(DuplicateType(name));
      }
      var m := new MigrationManager(name);
      managers := managers[name := m];
      return None;
    }

    /** Opens a new, empty step at the end of the chain of `name` and
        returns it, so that the caller fills in its actions afterwards. An
        unregistered name raises and changes nothing. */
    method Migrate(name: string) returns (r: Result<Migration>)
      requires Valid()
      modifies if name in managers then {managers[name]} else {}
      ensures Valid() && managers == old(managers)
      ensures name !in managers ==> r == Err(UnknownType(name))
      ensures name in managers ==>
        && r.Ok? && fresh(r.value) && r.value.actions == []
        && managers[name].steps == old(managers[name].steps) + [r.value]
        && managers[name].head == RevAt(name, |managers[name].steps|)
    {
      if name !in managers {
        return Err(UnknownType(name));
      }
      var m := new Migration();
      managers[name].Add(m);
      return Ok(m);
    }

    /** Marks `obj` as current for type `name`: a record without a tag is
        given the chain's head, one that has a tag is left alone. */
    method Tag(name: string, obj: Record) returns (err: Option<Error>)
      requires Valid()
      modifies obj
      ensures name !in managers ==> err == Some(UnknownType(name)) && obj.fields == old(obj.fields)
      ensures name in managers ==> err.None?
      ensures name in managers && TagKey in old(obj.fields) ==> obj.fields == old(obj.fields)
      ensures name in managers && TagKey !in old(obj.fields) ==>
        obj.fields == old(obj.fields)[TagKey := Rev(RevAt(name, |managers[name].steps|))]
    {
      if name !in managers {
        return Some(UnknownType(name));
      }
      if TagKey !in obj.fields {
        obj.fields := obj.fields[TagKey := Rev(managers[name].head)];
      }
      return None;
    }

    /** Migrates `obj` along the chain of type `name`. */
    method Call(name: string, obj: Record) returns (err: Option<Error>)
      requires Valid()
      modifies obj
      ensures name !in managers ==> err == Some(UnknownType(name)) && obj.fields == old(obj.fields)
      ensures name in managers ==>
        Advance(name, old(ActionsOf(managers[name].steps)), old(obj.fields)) == Outcome(obj.fields, err)
    {
      if name !in managers {
        return Some(UnknownType(name));
      }
      err := managers[name].Migrate(obj);
    }
  }
}
