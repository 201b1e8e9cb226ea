// The revision chain of one record type (MigrationManager) and the engine
// that walks a record forward to the chain's head.
module Chain {
  import opened Revisions
  import opened Records
  import opened Steps

  /** The revision map after `n` calls to `add`: position k links to
      position k + 1. */
  function ChainMap(name: string, n: nat): (links: map<RevId, RevId>)
  {
    if n == 0 then map[] else ChainMap(name, n - 1)[RevAt(name, n - 1) := RevAt(name, n)]
  }

  /** The migration map after adding `steps` in order: the id of position
      k + 1 holds the k-th step. */
  function StepMap(name: string, steps: seq<Migration>): (held: map<RevId, Migration>)
  {
    if steps == [] then map[]
    else StepMap(name, steps[..|steps| - 1])[RevAt(name, |steps|) := steps[|steps| - 1]]
  }

  /** The ids of positions n and later are not yet keys of the revision
      map after n additions. */
  lemma {:induction false} ChainMapFresh(name: string, n: nat)
    ensures forall j :: j >= n ==> RevAt(name, j) !in ChainMap(name, n)
  {
    if n > 0 {
      ChainMapFresh(name, n - 1);
      forall j | j >= n ensures RevAt(name, j) != RevAt(name, n - 1) {
        if RevAt(name, j) == RevAt(name, n - 1) {
          RevAtInjective(name, j, n - 1);
        }
      }
    }
  }

  /** Each position before the head is linked to the next one. */
  lemma {:induction false} ChainMapLink(name: string, n: nat, k: nat)
    requires k < n
    ensures RevAt(name, k) in ChainMap(name, n) && ChainMap(name, n)[RevAt(name, k)] == RevAt(name, k + 1)
  {
    if k < n - 1 {
      ChainMapLink(name, n - 1, k);
      if RevAt(name, k) == RevAt(name, n - 1) {
        RevAtInjective(name, k, n - 1);
      }
    }
  }

  /** The only keys are the ids of positions before the head. */
  lemma {:induction false} ChainMapKey(name: string, n: nat, r: RevId) returns (k: nat)
    requires r in ChainMap(name, n)
    ensures k < n && r == RevAt(name, k)
  {
    if r == RevAt(name, n - 1) {
      k := n - 1;
    } else {
      k := ChainMapKey(name, n - 1, r);
    }
  }

  /** The revision map is a simple path over positions 0..n: it has exactly
      n links, each position before the head is linked to the next, the
      head has no successor and no two ids share a successor. */
  lemma {:induction false} ChainMapShape(name: string, n: nat)
    ensures |ChainMap(name, n)| == n
    ensures forall k :: 0 <= k < n ==>
      RevAt(name, k) in ChainMap(name, n) && ChainMap(name, n)[RevAt(name, k)] == RevAt(name, k + 1)
    ensures forall r :: r in ChainMap(name, n) ==> exists k :: 0 <= k < n && r == RevAt(name, k)
    ensures RevAt(name, n) !in ChainMap(name, n)
    ensures forall a, b ::
      a in ChainMap(name, n) && b in ChainMap(name, n) && ChainMap(name, n)[a] == ChainMap(name, n)[b] ==> a == b
  {
    ChainMapFresh(name, n);
    ChainMapSize(name, n);
    var m := ChainMap(name, n);
    forall k | 0 <= k < n ensures RevAt(name, k) in m && m[RevAt(name, k)] == RevAt(name, k + 1) {
      ChainMapLink(name, n, k);
    }
    forall r | r in m ensures exists k :: 0 <= k < n && r == RevAt(name, k) {
      var k := ChainMapKey(name, n, r);
    }
    forall a, b | a in m && b in m && m[a] == m[b] ensures a == b {
      var i := ChainMapKey(name, n, a);
      var j := ChainMapKey(name, n, b);
      ChainMapLink(name, n, i);
      ChainMapLink(name, n, j);
      RevAtInjective(name, i + 1, j + 1);
    }
  }

  lemma {:induction false} ChainMapSize(name: string, n: nat)
    ensures |ChainMap(name, n)| == n
  {
    if n > 0 {
      ChainMapSize(name, n - 1);
      ChainMapFresh(name, n - 1);
    }
  }

  /** Position j (1 <= j <= |steps|) holds the j-th added step. */
  lemma {:induction false} StepMapAt(name: string, steps: seq<Migration>, j: nat)
    requires 1 <= j <= |steps|
    ensures RevAt(name, j) in StepMap(name, steps) && StepMap(name, steps)[RevAt(name, j)] == steps[j - 1]
    decreases |steps|
  {
    var n := |steps|;
    if j < n {
      StepMapAt(name, steps[..n - 1], j);
      if RevAt(name, j) == RevAt(name, n) {
        RevAtInjective(name, j, n);
      }
    }
  }

  /** The base id and the ids past the head hold no step. */
  lemma {:induction false} StepMapFresh(name: string, steps: seq<Migration>)
    ensures forall j :: (j == 0 || j > |steps|) ==> RevAt(name, j) !in StepMap(name, steps)
    decreases |steps|
  {
    if steps != [] {
      var n := |steps|;
      StepMapFresh(name, steps[..n - 1]);
      forall j | j == 0 || j > n ensures RevAt(name, j) != RevAt(name, n) {
        if RevAt(name, j) == RevAt(name, n) {
          RevAtInjective(name, j, n);
        }
      }
    }
  }

  /** Follows the revision map `k` times from `r`. */
  function Walk(m: map<RevId, RevId>, r: RevId, k: nat): (end: Option<RevId>)
    decreases k
  {
    if k == 0 then Some(r) else if r in m then Walk(m, m[r], k - 1) else None
  }

  /** Following the revision map from the base id visits the positions in
      insertion order without repeating one, and stops at the head. */
  lemma {:induction false} WalkFromBase(name: string, n: nat, k: nat)
    requires k <= n
    ensures Walk(ChainMap(name, n), RevAt(name, 0), k) == Some(RevAt(name, k))
    ensures forall i :: 0 <= i < k ==> RevAt(name, i) != RevAt(name, k)
    ensures Walk(ChainMap(name, n), RevAt(name, 0), n + 1) == None
  {
    ChainMapShape(name, n);
    WalkAlongChain(name, n, 0, k);
    WalkAlongChain(name, n, 0, n);
    forall i | 0 <= i < k ensures RevAt(name, i) != RevAt(name, k) {
      if RevAt(name, i) == RevAt(name, k) {
        RevAtInjective(name, i, k);
      }
    }
    WalkPast(ChainMap(name, n), RevAt(name, 0), n);
  }

  lemma {:induction false} WalkAlongChain(name: string, n: nat, j: nat, k: nat)
    requires j + k <= n
    ensures Walk(ChainMap(name, n), RevAt(name, j), k) == Some(RevAt(name, j + k))
    decreases k
  {
    if k > 0 {
      ChainMapLink(name, n, j);
      WalkAlongChain(name, n, j + 1, k - 1);
    }
  }

  lemma {:induction false} WalkPast(m: map<RevId, RevId>, r: RevId, k: nat)
    requires Walk(m, r, k).Some? && Walk(m, r, k).value !in m
    ensures Walk(m, r, k + 1) == None
    decreases k
  {
    if k > 0 {
      WalkPast(m, m[r], k - 1);
    }
  }

  /** The chain position whose id a stored tag names, if any, searched over
      positions 0..n. */
  function Position(name: string, n: nat, v: Value): (p: Option<nat>)
    ensures p.Some? ==> p.value <= n && v == Rev(RevAt(name, p.value))
    ensures p.None? ==> forall k :: 0 <= k <= n ==> v != Rev(RevAt(name, k))
    decreases n
  {
    if v == Rev(RevAt(name, n)) then Some(n)
    else if n == 0 then None
    else Position(name, n - 1, v)
  }

  lemma PositionOf(name: string, n: nat, k: nat)
    requires k <= n
    ensures Position(name, n, Rev(RevAt(name, k))) == Some(k)
  {
    var p := Position(name, n, Rev(RevAt(name, k)));
    RevAtInjective(name, p.value, k);
  }

  /** A record without a tag is taken to be at the base revision. */
  function Tagged(name: string, f: Fields): (g: Fields)
    ensures TagKey in g
    ensures TagKey in f ==> g == f
    ensures TagKey !in f ==> g - {TagKey} == f && g[TagKey] == Rev(RevAt(name, 0))
  {
    if TagKey in f then f else f[TagKey := Rev(RevAt(name, 0))]
  }

  /** Replays the steps from position k to the head: each step's actions run
      in order, and the tag is set to the step's id right after it succeeds.
      A failing step stops the replay with the tag it found. */
  function Replay(name: string, acts: seq<seq<Action>>, k: nat, f: Fields): (o: Outcome)
    requires k <= |acts|
    decreases |acts| - k
  {
    if k == |acts| then Outcome(f, None)
    else
      var o := RunActions(f, acts[k]);
      if o.err.Some? then o
      else Replay(name, acts, k + 1, o.fields[TagKey := Rev(RevAt(name, k + 1))])
  }

  /** Only a step's missing field can stop a replay, and a replay from
      below the head that succeeds leaves the record tagged with the head. */
  lemma {:induction false} ReplayOutcome(name: string, acts: seq<seq<Action>>, k: nat, f: Fields)
    requires k <= |acts|
    ensures var o := Replay(name, acts, k, f);
      && (o.err.Some? ==> o.err.value.MissingField?)
      && (k < |acts| && o.err.None? ==> TagKey in o.fields && o.fields[TagKey] == Rev(RevAt(name, |acts|)))
    decreases |acts| - k
  {
    if k < |acts| {
      var o := RunActions(f, acts[k]);
      RunActionsFrame(f, acts[k]);
      if o.err.None? {
        ReplayOutcome(name, acts, k + 1, o.fields[TagKey := Rev(RevAt(name, k + 1))]);
      }
    }
  }

  /** What `migrate` does to a record of a chain whose steps hold `acts`. */
  function Advance(name: string, acts: seq<seq<Action>>, f: Fields): (o: Outcome)
  {
    var g := Tagged(name, f);
    match Position(name, |acts|, g[TagKey])
    case None => Outcome(g, Some(DeadEnd(g[TagKey])))
    case Some(k) => Replay(name, acts, k, g)
  }

  /** A successful `migrate` always ends tagged with the head, a failing
      one stops either at a dead end or at a step's missing field, and a
      dead end leaves the record exactly as it was. */
  lemma AdvanceOutcome(name: string, acts: seq<seq<Action>>, f: Fields)
    ensures var o := Advance(name, acts, f);
      && (o.err.None? ==> TagKey in o.fields && o.fields[TagKey] == Rev(RevAt(name, |acts|)))
      && (o.err.Some? ==> o.err.value.DeadEnd? || o.err.value.MissingField?)
      && (o.err.Some? && o.err.value.DeadEnd? ==> o.fields == f)
  {
    var g := Tagged(name, f);
    match Position(name, |acts|, g[TagKey])
    case None =>
    case Some(k) => ReplayOutcome(name, acts, k, g);
  }

  /** The action lists of the chain's steps, as they are now. */
  ghost function ActionsOf(ms: seq<Migration>): (acts: seq<seq<Action>>)
    reads ms
    ensures |acts| == |ms| && forall k :: 0 <= k < |ms| ==> acts[k] == ms[k].actions
  {
    if ms == [] then [] else [ms[0].actions] + ActionsOf(ms[1..])
  }

  /** The actions of the steps after position k, concatenated in order. */
  function Pending(acts: seq<seq<Action>>, k: nat): (pending: seq<Action>)
    decreases |acts| - k
  {
    if k >= |acts| then [] else acts[k] + Pending(acts, k + 1)
  }

  /** No step names the reserved tag field. */
  ghost predicate TagFree(acts: seq<seq<Action>>)
  {
    forall k :: 0 <= k < |acts| ==> TagKey !in TouchedBy(acts[k])
  }

  lemma {:induction false} TouchedByAppend(a: seq<Action>, b: seq<Action>)
    ensures TouchedBy(a + b) == TouchedBy(a) + TouchedBy(b)
    decreases |a|
  {
    if a == [] {
      assert a + b == b;
    } else {
      assert (a + b)[0] == a[0];
      assert (a + b)[1..] == a[1..] + b;
      TouchedByAppend(a[1..], b);
    }
  }

  lemma {:induction false} PendingTagFree(acts: seq<seq<Action>>, k: nat)
    requires TagFree(acts)
    ensures TagKey !in TouchedBy(Pending(acts, k))
    decreases |acts| - k
  {
    if k < |acts| {
      PendingTagFree(acts, k + 1);
      TouchedByAppend(acts[k], Pending(acts, k + 1));
    }
  }

  /** Replaying from position k runs exactly the actions of the steps after
      k, each step once and in chain order: apart from the tag, the result
      is that of running their concatenation, and so is the error. */
  lemma {:induction false} ReplayRunsPending(name: string, acts: seq<seq<Action>>, k: nat, f: Fields)
    requires k <= |acts| && TagFree(acts)
    ensures Replay(name, acts, k, f).err == RunActions(f, Pending(acts, k)).err
    ensures SameUpToTag(Replay(name, acts, k, f).fields, RunActions(f, Pending(acts, k)).fields)
    decreases |acts| - k
  {
    if k < |acts| {
      var o := RunActions(f, acts[k]);
      RunActionsAppend(f, acts[k], Pending(acts, k + 1));
      if o.err.None? {
        var g := o.fields[TagKey := Rev(RevAt(name, k + 1))];
        assert SameUpToTag(g, o.fields) by {
          forall x | x != TagKey ensures (x in g <==> x in o.fields) && (x in g ==> g[x] == o.fields[x]) { }
          SameUpToTagIntro(g, o.fields);
        }
        ReplayRunsPending(name, acts, k + 1, g);
        PendingTagFree(acts, k + 1);
        RunActionsIgnoresTag(g, o.fields, Pending(acts, k + 1));
      }
    }
  }

  /** A record tagged with position j (the base or any id this chain
      produced) is migrated by replaying exactly the steps after j. */
  lemma AdvanceFromPosition(name: string, acts: seq<seq<Action>>, f: Fields, j: nat)
    requires j <= |acts| && TagKey in f && f[TagKey] == Rev(RevAt(name, j))
    ensures Advance(name, acts, f) == Replay(name, acts, j, f)
  {
    PositionOf(name, |acts|, j);
  }

  /** A record without a tag is first tagged with the base id and then
      replayed from the first step. */
  lemma UntaggedStartsAtBase(name: string, acts: seq<seq<Action>>, f: Fields)
    requires TagKey !in f
    ensures Advance(name, acts, f) == Replay(name, acts, 0, f[TagKey := Rev(RevAt(name, 0))])
  {
    PositionOf(name, |acts|, 0);
  }

  /** At the head nothing happens: the loop body never runs. */
  lemma AdvanceAtHead(name: string, acts: seq<seq<Action>>, f: Fields)
    requires TagKey in f && f[TagKey] == Rev(RevAt(name, |acts|))
    ensures Advance(name, acts, f) == Outcome(f, None)
  {
  }

  /** A second `migrate` after a successful one changes nothing. */
  lemma AdvanceIdempotent(name: string, acts: seq<seq<Action>>, f: Fields)
    requires Advance(name, acts, f).err.None?
    ensures Advance(name, acts, Advance(name, acts, f).fields) == Advance(name, acts, f)
  {
    AdvanceOutcome(name, acts, f);
    AdvanceAtHead(name, acts, Advance(name, acts, f).fields);
  }

  /** `migrate` fails with a dead end exactly when the record carries a tag
      that is no position of this chain; it then leaves the record as it
      was. */
  lemma DeadEndExactlyForeign(name: string, acts: seq<seq<Action>>, f: Fields)
    ensures (Advance(name, acts, f).err.Some? && Advance(name, acts, f).err.value.DeadEnd?)
      <==> (TagKey in f && Position(name, |acts|, f[TagKey]).None?)
    ensures Advance(name, acts, f).err.Some? && Advance(name, acts, f).err.value.DeadEnd? ==>
      Advance(name, acts, f).fields == f
  {
    if TagKey !in f {
      PositionOf(name, |acts|, 0);
    }
    var g := Tagged(name, f);
    match Position(name, |acts|, g[TagKey])
    case None =>
    case Some(k) => ReplayOutcome(name, acts, k, g);
  }

  /** A record just tagged with the head (as `tag` does for a new record)
      is already up to date. */
  lemma TaggedAtHeadIsUpToDate(name: string, acts: seq<seq<Action>>, f: Fields)
    requires TagKey !in f
    ensures var g := f[TagKey := Rev(RevAt(name, |acts|))];
      Advance(name, acts, g) == Outcome(g, None)
  {
  }

  /** A step that fails leaves the tag at the last fully applied position j,
      and a later `migrate` of any record carrying that tag resumes with the
      step after j, not re-running the ones before it. */
  lemma {:induction false} ResumeAfterFailure(name: string, acts: seq<seq<Action>>, k: nat, f: Fields)
    returns (j: nat)
    requires k <= |acts| && TagFree(acts)
    requires TagKey in f && f[TagKey] == Rev(RevAt(name, k))
    requires Replay(name, acts, k, f).err.Some?
    ensures k <= j < |acts|
    ensures var o := Replay(name, acts, k, f);
      TagKey in o.fields && o.fields[TagKey] == Rev(RevAt(name, j))
    ensures forall g :: TagKey in g && g[TagKey] == Rev(RevAt(name, j)) ==>
      Advance(name, acts, g) == Replay(name, acts, j, g)
    decreases |acts| - k
  {
    var o := RunActions(f, acts[k]);
    if o.err.Some? {
      RunActionsFrame(f, acts[k]);
      j := k;
    } else {
      j := ResumeAfterFailure(name, acts, k + 1, o.fields[TagKey := Rev(RevAt(name, k + 1))]);
    }
    forall g | TagKey in g && g[TagKey] == Rev(RevAt(name, j))
      ensures Advance(name, acts, g) == Replay(name, acts, j, g)
    {
      AdvanceFromPosition(name, acts, g, j);
    }
  }

  /** One turn of the `migrate` loop, on values: the step at position k runs
      on the record, and either its failure is the final outcome or the
      re-tagged record replays to the same outcome from position k + 1. */
  lemma ReplayStep(name: string, acts: seq<seq<Action>>, k: nat, f: Fields, target: Outcome)
    requires k < |acts| && Replay(name, acts, k, f) == target
    ensures var o := RunActions(f, acts[k]);
      && (o.err.Some? ==> target == o)
      && (o.err.None? ==> Replay(name, acts, k + 1, o.fields[TagKey := Rev(RevAt(name, k + 1))]) == target)
  {
  }

  /** A tag that is neither the head nor a key of the revision map is no
      position of the chain. */
  lemma ForeignTag(name: string, n: nat, rev: Value)
    requires rev != Rev(RevAt(name, n))
    requires !(rev.Rev? && rev.id in ChainMap(name, n))
    ensures Position(name, n, rev).None?
  {
    var p := Position(name, n, rev);
    if p.Some? {
      ChainMapLink(name, n, p.value);
    }
  }

  /** The revision chain of one record type. */
  class MigrationManager {
    const name: string
    const base: RevId
    /** Each revision id mapped to the id that follows it. */
    var revisions: map<RevId, RevId>
    /** Each revision id mapped to the step that produces it. */
    var migrations: map<RevId, Migration>
    /** The newest revision id. */
    var head: RevId
    /** The steps added so far, in order. */
    ghost var steps: seq<Migration>

    ghost predicate Valid()
      reads this
    {
      && base == RevAt(name, 0)
      && revisions == ChainMap(name, |steps|)
      && migrations == StepMap(name, steps)
      && head == RevAt(name, |steps|)
    }

    constructor (name: string)
      ensures Valid() && this.name == name && steps == []
      ensures revisions == map[] && migrations == map[] && head == RevAt(name, 0)
    {
      this.name := name;
      base := Digest(name);
      revisions := map[];
      migrations := map[];
      head := Digest(name);
      steps := [];
    }

    /** Appends a step: the old head is linked to a fresh id, which now
        holds the step and becomes the head. */
    method Add(migration: Migration)
      requires Valid()
      modifies this
      ensures Valid() && steps == old(steps) + [migration]
      ensures head != old(head) && head !in old(revisions) && head !in old(migrations)
      ensures revisions == old(revisions)[old(head) := head]
      ensures migrations == old(migrations)[head := migration]
      ensures |revisions| == |old(revisions)| + 1
    {
      ChainMapSize(name, |steps|);
      ChainMapFresh(name, |steps|);
      StepMapFresh(name, steps);
      var newRev := Digest(name + Decimal(|revisions|));
      assert newRev == RevAt(name, |steps| + 1);
      revisions := revisions[head := newRev];
      head := newRev;
      migrations := migrations[newRev := migration];
      assert (steps + [migration])[..|steps|] == steps;
      steps := steps + [migration];
      ChainMapSize(name, |steps|);
    }

    /** One turn of the `migrate` loop: from the tag at position k, look up
        the following id, run its step on `obj` and, if the step succeeds,
        re-tag `obj` with that id. */
    method StepFrom(obj: Record, rev: RevId, ghost k: nat) returns (next: RevId, err: Option<Error>)
      requires Valid() && k < |steps| && rev == RevAt(name, k)
      modifies obj
      ensures next == RevAt(name, k + 1)
      ensures var o := RunActions(old(obj.fields), steps[k].actions);
        && err == o.err
        && obj.fields == (if err.None? then o.fields[TagKey := Rev(next)] else o.fields)
    {
      ChainMapLink(name, |steps|, k);
      StepMapAt(name, steps, k + 1);
      next := revisions[rev];
      err := migrations[next].Apply(obj);
      if err.None? {
        obj.fields := obj.fields[TagKey := Rev(next)];
      }
    }

    /** Walks `obj` from the revision in its tag to the head, applying each
        pending step and re-tagging the record after each one. */
    method Migrate(obj: Record) returns (err: Option<Error>)
      requires Valid()
      modifies obj
      ensures Advance(name, old(ActionsOf(steps)), old(obj.fields)) == Outcome(obj.fields, err)
    {
      ghost var acts := ActionsOf(steps);
      if TagKey !in obj.fields {
        obj.fields := obj.fields[TagKey := Rev(base)];
      }
      ghost var n := |steps|;
      ghost var target := Advance(name, acts, old(obj.fields));
      var rev := obj.fields[TagKey];
      ghost var pos := Position(name, n, rev);
      err := None;
      while rev != Rev(head)
        invariant err.None? && TagKey in obj.fields
        invariant pos == Position(name, n, rev)
        invariant pos.None? ==> rev == obj.fields[TagKey] && target == Outcome(obj.fields, Some(DeadEnd(rev)))
        invariant pos.Some? ==> Replay(name, acts, pos.value, obj.fields) == target
        decreases if pos.Some? then n - pos.value else n + 1
      {
        if !(rev.Rev? && rev.id in revisions) {
          ForeignTag(name, n, rev);
          err := Some(DeadEnd(rev));
          break;
        }
        ghost var k := ChainMapKey(name, n, rev.id);
        PositionOf(name, n, k);
        ghost var before := obj.fields;
        assert steps[k].actions == acts[k];
        ReplayStep(name, acts, k, before, target);
        var next;
        next, err := StepFrom(obj, rev.id, k);
        if err.Some? {
          break;
        }
        rev := Rev(next);
        PositionOf(name, n, k + 1);
        pos := Some(k + 1);
      }
    }
  }
}
