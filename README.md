# winter: schema migrations for dict-like records, in Dafny

winter keeps one migration chain per record type. Each type's chain is
a `MigrationManager`. A chain starts at a base revision id that is
derived from the type name. Every `add` of a `Migration` step links the
current head to a fresh id and makes that id the new head. A step is an
ordered list of actions, each one of:

- add a field;
- delete a field;
- rename a field;
- modify a field with a user function.

A record is a plain dictionary. It remembers its revision in the reserved
field `_winter`. `migrate` proceeds as follows:

1. It tags an untagged record with the base id.
2. It follows the revision map from the record's tag to the head.
3. For each id it passes, it applies that id's step in place and re-tags
   the record.
4. A tag that leads nowhere raises a dead-end error. A step whose field
   is missing raises a KeyError. When no step names `_winter`, the tag
   then stays at the last step that fully applied.

The module-level registry maps type names to chains:

- `add(name)` registers a type;
- `migrate(name)` opens a new, empty step and returns it, and the caller
  then fills in its actions;
- `Migrator.tag` marks a new record as current;
- calling a `Migrator` migrates a record.

The model is imperative where the source is:

- `Record`, `Migration`, `MigrationManager` and `Registry` are classes whose
  methods update their fields in place.
- Each method is proved against pure specification functions:
  - `ApplyAction`: one action;
  - `RunActions`: one step, stopping at the first failure;
  - `Replay`: the steps from one position of the chain to the head;
  - `Advance`: the whole of `migrate`.
- The properties the library promises are lemmas about those functions.

Files:

- `revisions.dfy`: the revision ids. The SHA-1 digest is an injective
  constructor over the hashed text. The base id hashes the name, and the
  k-th added step (k ≥ 1) hashes the name followed by the decimal text of
  k − 1, the size of the revision map before the add.
- `records.dfy`: values, errors, the reserved tag key and the `Record`
  class.
- `steps.dfy`: the actions, their semantics, and the `Migration` class
  with its builders and `apply`.
- `chain.dfy`: the revision and migration maps, the specification of
  `migrate`, its properties, and the `MigrationManager` class.
- `registry.dfy`: the `managers` dictionary and the module-level and
  `Migrator` operations.
- `scenarios.dfy`: the self-test at the end of `winter.py` and the usage
  example in its docstring, proved on the specification functions.

A `Migrate` call raises the same errors as the source:

- a Python exception becomes an `Option<Error>` or `Result` that the
  method returns;
- the record is left as the source leaves it when it raises.

## Model

| member | source | states |
|---|---|---|
| Revisions.Decimal | winter.py:101 | Python's `str(n)` for a count: never empty, and one digit exactly for n < 10; the reference definition whose injectivity DecimalInjective proves |
| Revisions.DecimalInjective | winter.py:99-102 | distinct revision-map sizes give distinct decimal suffixes, so every `add` hashes a different text |
| Revisions.RevAt | winter.py:89-102 | the id of chain position k: position 0 hashes the name alone (its text is the name), position k ≥ 1 hashes the name followed by `str(k - 1)` (its text extends the name); reference definition for RevAtInjective and PositionalCollision |
| Revisions.RevAtInjective | winter.py:89-102 | the ids of positions 0, 1, 2, … of one chain are pairwise distinct; the base id never equals an added one |
| Revisions.PositionalCollision | winter.py:99-102 | ids depend only on name and position: the second id of type "a" equals the base id of type "a1" |
| Records.Record.constructor | winter.py:283 | a record starts with exactly the given fields |
| Steps.ApplyAction | winter.py:135-150 | add sets the field to the value; delete removes it; rename copies the old field's value to the new name and removes the old name; modify replaces the value by f of it; a delete, rename or modify whose field is absent raises a KeyError and leaves the record unchanged; everything not named is untouched |
| Steps.RunActions | winter.py:201-210 | reference definition of `apply`: the step's actions in list order, stopping at the first that raises and keeping the effects before it; its properties are stated by RunActionsFrame, RunActionsAppend and RunActionsIgnoresTag, and Migration.Apply is proved equal to it |
| Steps.RunActionsFrame | winter.py:201-210 | running a step can fail only with a missing field that one of its actions names, and fields that no action names keep their presence and value |
| Steps.RunActionsAppend | winter.py:201-210 | running a + b is running a and, only if that succeeded, running b on its result: actions run in list order and the effects before a failure stay |
| Steps.RunActionsIgnoresTag | winter.py:201-210 | a step that never names `_winter` gives the same error and the same fields, apart from the tag, whatever the tag holds |
| Steps.RenamePrefix | winter.py:175-184 | the number of pairs before the first pair that renames a field to itself: all pairs before it are proper renames |
| Steps.Migration.constructor | winter.py:153-156 | a new step has no actions |
| Steps.Migration.DoAdd | winter.py:135-137 | the record becomes exactly what ApplyAction says for an add |
| Steps.Migration.DoDelete | winter.py:139-141 | the record and the raised error are exactly ApplyAction's for a delete |
| Steps.Migration.DoRename | winter.py:143-146 | the record and the raised error are exactly ApplyAction's for a rename |
| Steps.Migration.DoModify | winter.py:148-150 | the record and the raised error are exactly ApplyAction's for a modify |
| Steps.Migration.Add | winter.py:159-165 | one add action per (field, value) pair is appended in argument order, and the step itself is returned |
| Steps.Migration.Delete | winter.py:167-173 | one delete action per name is appended in argument order, and the step is returned |
| Steps.Migration.Rename | winter.py:175-184 | the call succeeds exactly when no pair renames a field to itself; the pairs before the first bad pair are appended even when it raises; the error names that pair's field |
| Steps.Migration.Modify | winter.py:186-199 | one modify action per (field, function) pair is appended in argument order, and the step is returned |
| Steps.Migration.Apply | winter.py:201-210 | the record and the raised error are exactly RunActions of the step's actions: the actions run in order and the step stops at the first failure |
| Chain.ChainMap | winter.py:104-109 | reference definition of the revision map after n adds: each position linked to the next; its properties are stated by ChainMapShape and WalkFromBase, and MigrationManager.Add keeps the map equal to it |
| Chain.StepMap | winter.py:104-109 | reference definition of the migration map after adding steps in order: the id of position k + 1 holds the k-th step; MigrationManager.Add keeps the map equal to it |
| Chain.ChainMapShape | winter.py:95-109 | after n adds the revision map is a simple path: n links, position k goes to k + 1, the head has no successor, every key is a position before the head, and no two ids share a successor |
| Chain.WalkFromBase | winter.py:95-129 | following the revision map k times from the base reaches position k without repeating an id, and no walk goes past the head |
| Chain.Position | winter.py:117-123 | a tag either names exactly one position of the chain, which the function returns, or names none |
| Chain.Tagged | winter.py:116-117 | an untagged record is given the base id and a tagged one is left exactly as it was |
| Chain.Replay | winter.py:119-129 | reference definition of the `while` loop from position k: each step runs in chain order and the tag is set to its id after it succeeds; a failing step ends the replay; its properties are stated by ReplayOutcome, ReplayRunsPending and ResumeAfterFailure |
| Chain.Advance | winter.py:111-129 | reference definition of `migrate`: tag an untagged record with the base, find the tag's position, raise a dead end if there is none, else replay from it; its properties are stated by AdvanceOutcome, AdvanceFromPosition, UntaggedStartsAtBase, AdvanceAtHead, AdvanceIdempotent and DeadEndExactlyForeign, and MigrationManager.Migrate is proved equal to it |
| Chain.ReplayOutcome | winter.py:117-129 | replaying from below the head can fail only on a missing field, and a replay that succeeds ends tagged with the head |
| Chain.AdvanceOutcome | winter.py:111-129 | a successful migrate leaves the record tagged with the head; a failure is a dead end or a missing field; a dead end leaves the record exactly as it was |
| Chain.ReplayRunsPending | winter.py:117-129 | when no step names `_winter`, replaying from position k runs exactly the steps after k, each once and in chain order: apart from the tag, the result and the error are those of running their actions concatenated |
| Chain.AdvanceFromPosition | winter.py:117-129 | a record tagged with position j is migrated by replaying the steps after j |
| Chain.UntaggedStartsAtBase | winter.py:116-117 | an untagged record is tagged with the base id and replayed from the first step |
| Chain.AdvanceAtHead | winter.py:119-120 | a record tagged with the head is returned unchanged, without error |
| Chain.AdvanceIdempotent | winter.py:111-129 | migrating twice is the same as migrating once, when the first migrate succeeded |
| Chain.DeadEndExactlyForeign | winter.py:119-123 | migrate raises a dead end if and only if the record's tag is no position of the chain; the record is then left as it was |
| Chain.TaggedAtHeadIsUpToDate | winter.py:216-223 | a record tagged with the head then needs no migration |
| Chain.ResumeAfterFailure | winter.py:124-129 | when no step names `_winter` and a step fails, the tag is left at the last fully applied position j, and a later migrate of a record carrying that tag replays only the steps after j |
| Chain.MigrationManager.constructor | winter.py:83-93 | a new chain has empty maps, no steps, and its head is the base id |
| Chain.MigrationManager.Add | winter.py:95-109 | the old head is linked to a fresh id, which holds the new step and becomes the head; the revision map grows by exactly one link and the chain invariant is kept |
| Chain.MigrationManager.StepFrom | winter.py:124-129 | from position k the next id is position k + 1; its step runs on the record, and the record is re-tagged only if the step succeeded |
| Chain.MigrationManager.Migrate | winter.py:111-129 | the record and the raised error are exactly Advance of the chain's steps applied to the record as it was |
| Winter.Registry.constructor | winter.py:245 | the registry starts empty |
| Winter.Registry.Add | winter.py:248-256 | a new name gets a fresh empty chain and the other chains stay; a registered name raises and nothing changes |
| Winter.Registry.Migrate | winter.py:258-267 | for a registered name a fresh, empty step is appended to that chain and returned; an unregistered name raises and nothing changes |
| Winter.Registry.Tag | winter.py:216-223 | an untagged record of a registered type is tagged with the chain's head; a tagged one is left alone; an unregistered type raises |
| Winter.Registry.Call | winter.py:225-240 | a record of a registered type is migrated exactly as Advance says; an unregistered type raises and the record is unchanged |
| Scenarios.AdvanceLastStep | winter.py:117-129 | a record one position below the head gets the newest step alone and the head as its tag |
| Scenarios.SelfTestStep1 | winter.py:283-294 | the empty record migrated over `add(a='a', b='b')` holds a and b |
| Scenarios.SelfTestStep2 | winter.py:297-304 | `rename(a='c')` leaves no a, sets c to "a" and keeps b |
| Scenarios.SelfTestStep3 | winter.py:307-309 | `delete('b')` removes b |
| Scenarios.SelfTestStep4 | winter.py:312-314 | `modify(c=lambda x: x + x)` makes c "aa" |
| Scenarios.SelfTest | winter.py:283-314 | all four migrations of the self-test succeed and the record ends as `{c: "aa"}` tagged with the fourth id |
| Scenarios.CricketSecondStep | winter.py:28-30 | the second cricket step renames foo to baz and adds looks and intelligence |
| Scenarios.CricketFromScratch | winter.py:20-34 | a new cricket record passes through both steps in order |
| Scenarios.CricketFromFirstStep | winter.py:50-54 | a cricket record saved after the first step is updated only by the second |

## Left out

- The SHA-1 digest is not computed. An id is an injective constructor
  over the hashed text, so a hash collision is not modelled.
- Python's `collections.Callable` check (`_callable`, winter.py:72-79) is
  left out. It has no counterpart, because a modifier is a total Dafny
  function `Value -> Value`.
- Steps.Migration.Modify: the non-callable error of winter.py:196-197 is
  not modelled, for the same reason. The ignored positional `*args` are
  dropped.
- Exceptions raised inside a user `modify` function are left out. The
  function is total.
- Keyword arguments are passed as sequences of pairs in call order. This
  is the order Python 3.6 and later keep (PEP 468); older interpreters iterate kwargs
  in an arbitrary order, which is not modelled.
- A stored tag is a `Rev` value. A user string that happens to equal a
  hex digest is never taken for a revision. A tag of any other kind is a
  dead end, as in the source.
- Winter.Registry.Migrate: an unregistered name raises `UnknownType`.
  The source's message at winter.py:263 formats an undefined variable
  `s`, so Python actually raises a NameError there. Either way the call
  raises and changes nothing.
- The `WinterObjects` attribute cache (winter.py:229-246) is not
  modelled. `Registry.Tag` and `Registry.Call` take the type name
  directly and raise `UnknownType` as `__getattr__` does. `tag` and
  `__call__` return the record they were given, and the model leaves that
  return value out because the caller already holds the record.
- Steps.Migration.Apply returns the raised error, not the step itself:
  the source's `return self` (winter.py:210) is dropped because the
  caller already holds the step.
- Chain.ReplayRunsPending and Chain.ResumeAfterFailure assume that no
  step names `_winter` (`TagFree`). A step may delete or overwrite the
  tag (say `delete('_winter')` followed by a delete of a missing field),
  and the record is then left without the tag of the last applied step.
  `Advance` and `Migrate` still model such steps exactly; only these two
  lemmas do not cover them.
- The module-level `managers` and `objects` globals are one `Registry`
  object passed explicitly.
- Chain.MigrationManager.Migrate is specified against the steps' actions
  at the time of the call. Records are owned by the caller and never
  alias a step.
- The self-test and the usage example are proved on the specification
  functions rather than by running the registry's methods in sequence.
  `Registry.Call`'s contract is exactly `Advance`, which connects the two.
- The `print` calls, the distutils installer and the license text are
  left out.
