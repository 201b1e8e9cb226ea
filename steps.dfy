// One migration step: an ordered list of field actions, the builders that
// append to it, and `apply`, which runs the actions against a record in place.
module Steps {
  import opened Records

  /** A field action, in the order it was declared. */
  datatype Action =
    | AddField(field: string, value: Value)
    | DeleteField(field: string)
    | RenameField(from: string, to: string)
    | ModifyField(field: string, f: Value -> Value)

  /** The field an action must find present (every kind but add). */
  function Source(a: Action): string
  {
    match a
    case AddField(k, _) => k
    case DeleteField(k) => k
    case RenameField(k, _) => k
    case ModifyField(k, _) => k
  }

  /** The fields an action reads or writes. */
  function Touches(a: Action): set<string>
  {
    match a
    case RenameField(k, n) => {k, n}
    case _ => {Source(a)}
  }

  function TouchedBy(acts: seq<Action>): (names: set<string>)
  {
    if acts == [] then {} else Touches(acts[0]) + TouchedBy(acts[1..])
  }

  /** What one action does to a record: add overwrites or creates the field;
      delete, rename and modify raise a KeyError, with the record untouched,
      when their field is absent. */
  function ApplyAction(r: Fields, a: Action): (o: Outcome)
    ensures a.AddField? ==> o.err.None?
    ensures !a.AddField? ==> (o.err.Some? <==> Source(a) !in r)
    ensures o.err.Some? ==> o.err == Some(MissingField(Source(a))) && o.fields == r
    ensures a.AddField? ==>
      && o.fields.Keys == r.Keys + {a.field}
      && o.fields[a.field] == a.value
      && (forall k :: k in r && k != a.field ==> o.fields[k] == r[k])
    ensures a.DeleteField? && o.err.None? ==>
      && o.fields.Keys == r.Keys - {a.field}
      && (forall k :: k in o.fields ==> o.fields[k] == r[k])
    ensures a.RenameField? && o.err.None? ==>
      && o.fields.Keys == (r.Keys + {a.to}) - {a.from}
      && (a.from != a.to ==> o.fields[a.to] == r[a.from])
      && (forall k :: k in o.fields && k != a.to ==> o.fields[k] == r[k])
    ensures a.ModifyField? && o.err.None? ==>
      && o.fields.Keys == r.Keys
      && o.fields[a.field] == a.f(r[a.field])
      && (forall k :: k in r && k != a.field ==> o.fields[k] == r[k])
  {
    match a
    case AddField(k, v) => Outcome(r[k := v], None)
    case DeleteField(k) =>
      if k in r then Outcome(r - {k}, None) else Outcome(r, Some(MissingField(k)))
    case RenameField(k, n) =>
      if k in r then Outcome(r[n := r[k]] - {k}, None) else Outcome(r, Some(MissingField(k)))
    case ModifyField(k, f) =>
      if k in r then Outcome(r[k := f(r[k])], None) else Outcome(r, Some(MissingField(k)))
  }

  /** Runs the actions in list order and stops at the first failure, keeping
      the effects of the actions before it. */
  function RunActions(r: Fields, acts: seq<Action>): (o: Outcome)
    decreases |acts|
  {
    if acts == [] then Outcome(r, None)
    else
      var o := ApplyAction(r, acts[0]);
      if o.err.Some? then o else RunActions(o.fields, acts[1..])
  }

  /** Only a missing field named by one of the actions can stop a run, and
      fields no action names are left as they were. */
  lemma {:induction false} RunActionsFrame(r: Fields, acts: seq<Action>)
    ensures var o := RunActions(r, acts);
      && (o.err.Some? ==> o.err.value.MissingField? && o.err.value.field in TouchedBy(acts))
      && (forall k :: k !in TouchedBy(acts) ==> (k in o.fields <==> k in r) && (k in r ==> o.fields[k] == r[k]))
    decreases |acts|
  {
    if acts != [] {
      var o := ApplyAction(r, acts[0]);
      if o.err.None? {
        RunActionsFrame(o.fields, acts[1..]);
        assert TouchedBy(acts) == Touches(acts[0]) + TouchedBy(acts[1..]);
      }
    }
  }

  /** Running a concatenation runs the first list, then (if it succeeded)
      the second one on its result. */
  lemma {:induction false} RunActionsAppend(r: Fields, a: seq<Action>, b: seq<Action>)
    ensures RunActions(r, a + b) ==
      var o := RunActions(r, a);
      if o.err.Some? then o else RunActions(o.fields, b)
    decreases |a|
  {
    if a == [] {
      assert a + b == b;
    } else {
      assert (a + b)[0] == a[0];
      assert (a + b)[1..] == a[1..] + b;
      var o := ApplyAction(r, a[0]);
      if o.err.None? {
        RunActionsAppend(o.fields, a[1..], b);
      }
    }
  }

  /** Two records that differ at most in the revision tag. */
  ghost predicate SameUpToTag(a: Fields, b: Fields)
  {
    a - {TagKey} == b - {TagKey}
  }

  lemma SameUpToTagAt(a: Fields, b: Fields, k: string)
    requires SameUpToTag(a, b) && k != TagKey
    ensures (k in a <==> k in b) && (k in a ==> a[k] == b[k])
  {
    assert k in a <==> k in a - {TagKey};
    assert k in b <==> k in b - {TagKey};
    if k in a {
      assert (a - {TagKey})[k] == a[k];
      assert (b - {TagKey})[k] == b[k];
    }
  }

  lemma SameUpToTagIntro(a: Fields, b: Fields)
    requires forall k :: k != TagKey ==> (k in a <==> k in b) && (k in a ==> a[k] == b[k])
    ensures SameUpToTag(a, b)
  {
    var a', b' := a - {TagKey}, b - {TagKey};
    assert a'.Keys == b'.Keys;
    forall k | k in a' ensures a'[k] == b'[k] {
      assert k != TagKey && a'[k] == a[k] && b'[k] == b[k];
    }
  }

  /** An action that does not name the tag behaves the same whatever the
      tag holds. */
  lemma ApplyActionIgnoresTag(a: Fields, b: Fields, act: Action)
    requires SameUpToTag(a, b) && TagKey !in Touches(act)
    ensures ApplyAction(a, act).err == ApplyAction(b, act).err
    ensures SameUpToTag(ApplyAction(a, act).fields, ApplyAction(b, act).fields)
  {
    SameUpToTagAt(a, b, Source(act));
    var oa, ob := ApplyAction(a, act), ApplyAction(b, act);
    if act.RenameField? {
      SameUpToTagAt(a, b, act.to);
    }
    forall k | k != TagKey
      ensures (k in oa.fields <==> k in ob.fields) && (k in oa.fields ==> oa.fields[k] == ob.fields[k])
    {
      SameUpToTagAt(a, b, k);
    }
    SameUpToTagIntro(oa.fields, ob.fields);
  }

  lemma {:induction false} RunActionsIgnoresTag(a: Fields, b: Fields, acts: seq<Action>)
    requires SameUpToTag(a, b) && TagKey !in TouchedBy(acts)
    ensures RunActions(a, acts).err == RunActions(b, acts).err
    ensures SameUpToTag(RunActions(a, acts).fields, RunActions(b, acts).fields)
    decreases |acts|
  {
    if acts != [] {
      ApplyActionIgnoresTag(a, b, acts[0]);
      var oa, ob := ApplyAction(a, acts[0]), ApplyAction(b, acts[0]);
      if oa.err.None? {
        RunActionsIgnoresTag(oa.fields, ob.fields, acts[1..]);
      }
    }
  }

  function AddActions(fields: seq<(string, Value)>): (acts: seq<Action>)
  {
    seq(|fields|, i requires 0 <= i < |fields| => AddField(fields[i].0, fields[i].1))
  }

  function DeleteActions(names: seq<string>): (acts: seq<Action>)
  {
    seq(|names|, i requires 0 <= i < |names| => DeleteField(names[i]))
  }

  function RenameActions(pairs: seq<(string, string)>): (acts: seq<Action>)
  {
    seq(|pairs|, i requires 0 <= i < |pairs| => RenameField(pairs[i].0, pairs[i].1))
  }

  function ModifyActions(fields: seq<(string, Value -> Value)>): (acts: seq<Action>)
  {
    seq(|fields|, i requires 0 <= i < |fields| => ModifyField(fields[i].0, fields[i].1))
  }

  /** How many pairs of a `rename` call are appended before the first pair
      that renames a field to its own name. */
  function RenamePrefix(pairs: seq<(string, string)>): (j: nat)
    ensures j <= |pairs|
    ensures forall i :: 0 <= i < j ==> pairs[i].0 != pairs[i].1
    ensures j < |pairs| ==> pairs[j].0 == pairs[j].1
  {
    if pairs == [] || pairs[0].0 == pairs[0].1 then 0 else 1 + RenamePrefix(pairs[1..])
  }

  /** A migration step. The chain holds a reference to it, so actions added
      after the step was registered are seen when records are migrated. */
  class Migration {
    var actions: seq<Action>

    constructor ()
      ensures actions == []
    {
      actions := [];
    }

    static method DoAdd(obj: Record, field: string, value: Value)
      modifies obj
      ensures ApplyAction(old(obj.fields), AddField(field, value)) == Outcome(obj.fields, None)
    {
      obj.fields := obj.fields[field := value];
    }

    static method DoDelete(obj: Record, field: string) returns (err: Option<Error>)
      modifies obj
      ensures ApplyAction(old(obj.fields), DeleteField(field)) == Outcome(obj.fields, err)
    {
      if field !in obj.fields {
        return Some(MissingField(field));
      }
      obj.fields := obj.fields - {field};
      return None;
    }

    static method DoRename(obj: Record, field: string, name: string) returns (err: Option<Error>)
      modifies obj
      ensures ApplyAction(old(obj.fields), RenameField(field, name)) == Outcome(obj.fields, err)
    {
      if field !in obj.fields {
        return Some(MissingField(field));
      }
      obj.fields := obj.fields[name := obj.fields[field]];
      obj.fields := obj.fields - {field};
      return None;
    }

    static method DoModify(obj: Record, field: string, f: Value -> Value) returns (err: Option<Error>)
      modifies obj
      ensures ApplyAction(old(obj.fields), ModifyField(field, f)) == Outcome(obj.fields, err)
    {
      if field !in obj.fields {
        return Some(MissingField(field));
      }
      obj.fields := obj.fields[field := f(obj.fields[field])];
      return None;
    }

    /** Appends one add action per (field, value) pair and returns this step. */
    method Add(fields: seq<(string, Value)>) returns (self: Migration)
      modifies this
      ensures self == this
      ensures actions == old(actions) + AddActions(fields)
    {
      for i := 0 to |fields|
        invariant actions == old(actions) + AddActions(fields[..i])
      {
        assert AddActions(fields[..i + 1]) == AddActions(fields[..i]) + [AddField(fields[i].0, fields[i].1)];
        actions := actions + [AddField(fields[i].0, fields[i].1)];
      }
      assert fields[..|fields|] == fields;
      return this;
    }

    /** Appends one delete action per name and returns this step. */
    method Delete(names: seq<string>) returns (self: Migration)
      modifies this
      ensures self == this
      ensures actions == old(actions) + DeleteActions(names)
    {
      for i := 0 to |names|
        invariant actions == old(actions) + DeleteActions(names[..i])
      {
        assert DeleteActions(names[..i + 1]) == DeleteActions(names[..i]) + [DeleteField(names[i])];
        actions := actions + [DeleteField(names[i])];
      }
      assert names[..|names|] == names;
      return this;
    }

    /** Appends one rename action per (old, new) pair. A pair whose names
        are equal raises; the pairs before it stay appended. */
    method Rename(pairs: seq<(string, string)>) returns (r: Result<Migration>)
      modifies this
      ensures actions == old(actions) + RenameActions(pairs[..RenamePrefix(pairs)])
      ensures r.Ok? <==> forall i :: 0 <= i < |pairs| ==> pairs[i].0 != pairs[i].1
      ensures r.Ok? ==> r.value == this
      ensures r.Err? ==> RenamePrefix(pairs) < |pairs| && r.error == InvalidRename(pairs[RenamePrefix(pairs)].0)
    {
      var j := RenamePrefix(pairs);
      for i := 0 to |pairs|
        invariant i <= j
        invariant actions == old(actions) + RenameActions(pairs[..i])
      {
        if pairs[i].0 == pairs[i].1 {
          return Err(InvalidRename(pairs[i].0));
        }
        assert RenameActions(pairs[..i + 1]) == RenameActions(pairs[..i]) + [RenameField(pairs[i].0, pairs[i].1)];
        actions := actions + [RenameField(pairs[i].0, pairs[i].1)];
      }
      assert pairs[..|pairs|] == pairs;
      return Ok(this);
    }

    /** Appends one modify action per (field, transform) pair and returns
        this step. */
    method Modify(fields: seq<(string, Value -> Value)>) returns (self: Migration)
      modifies this
      ensures self == this
      ensures actions == old(actions) + ModifyActions(fields)
    {
      for i := 0 to |fields|
        invariant actions == old(actions) + ModifyActions(fields[..i])
      {
        assert ModifyActions(fields[..i + 1]) == ModifyActions(fields[..i]) + [ModifyField(fields[i].0, fields[i].1)];
        actions := actions + [ModifyField(fields[i].0, fields[i].1)];
      }
      assert fields[..|fields|] == fields;
      return this;
    }

    /** Runs the actions against `obj` in list order, stopping at the first
        one that raises. */
    method Apply(obj: Record) returns (err: Option<Error>)
      modifies obj
      ensures RunActions(old(obj.fields), actions) == Outcome(obj.fields, err)
    {
      var i := 0;
      while i < |actions|
        invariant 0 <= i <= |actions|
        invariant RunActions(obj.fields, actions[i..]) == RunActions(old(obj.fields), actions)
      {
        var e: Option<Error> := None;
        match actions[i] {
          case AddField(k, v) => DoAdd(obj, k, v);
          case DeleteField(k) => e := DoDelete(obj, k);
          case RenameField(k, n) => e := DoRename(obj, k, n);
          case ModifyField(k, f) => e := DoModify(obj, k, f);
        }
        if e.Some? {
          return e;
        }
        i := i + 1;
      }
      return None;
    }
  }
}
