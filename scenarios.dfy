// The library's own walk-through: one record type, four steps added one
// at a time, and a record migrated after each of them.
module Scenarios {
  import opened Revisions
  import opened Records
  import opened Steps
  import opened Chain
  import opened Winter

  /** The self-test's `lambda x: x + x`, on the values the model has. */
  function Double(v: Value): Value
  {
    match v
    case Str(s) => Str(s + s)
    case Int(i) => Int(i + i)
    case Rev(_) => v
  }

  /** Migrating a record tagged with the position just below the head runs
      the newest step alone and tags the record with the head. */
  lemma AdvanceLastStep(name: string, acts: seq<seq<Action>>, f: Fields)
    requires |acts| > 0 && TagKey in f && f[TagKey] == Rev(RevAt(name, |acts| - 1))
    ensures var o := RunActions(f, acts[|acts| - 1]);
      Advance(name, acts, f) == if o.err.Some? then o else Outcome(o.fields[TagKey := Rev(RevAt(name, |acts|))], None)
  {
    AdvanceFromPosition(name, acts, f, |acts| - 1);
  }

  /** The self-test's type name and the actions its four `migrate` calls
      build. */
  const Name := "test1"
  const Step1: seq<Action> := AddActions([("a", Str("a")), ("b", Str("b"))])
  const Step2: seq<Action> := RenameActions([("a", "c")])
  const Step3: seq<Action> := DeleteActions(["b"])
  const Step4: seq<Action> := ModifyActions([("c", Double)])

  /** The record after each migration of the self-test. */
  const F1: Fields := map["a" := Str("a"), "b" := Str("b"), TagKey := Rev(RevAt(Name, 1))]
  const F2: Fields := map["c" := Str("a"), "b" := Str("b"), TagKey := Rev(RevAt(Name, 2))]
  const F3: Fields := map["c" := Str("a"), TagKey := Rev(RevAt(Name, 3))]
  const F4: Fields := map["c" := Str("aa"), TagKey := Rev(RevAt(Name, 4))]

  /** An empty record migrated over the first step gets both fields. */
  lemma SelfTestStep1()
    ensures Advance(Name, [Step1], map[]) == Outcome(F1, None)
  {
    var f0 := map[TagKey := Rev(RevAt(Name, 0))];
    UntaggedStartsAtBase(Name, [Step1], map[]);
    assert RunActions(f0, Step1) == Outcome(f0["a" := Str("a")]["b" := Str("b")], None) by {
      assert Step1[1..][1..] == [];
    }
  }

  /** The rename moves the value of a to c. */
  lemma SelfTestStep2()
    ensures Advance(Name, [Step1, Step2], F1) == Outcome(F2, None)
  {
    AdvanceLastStep(Name, [Step1, Step2], F1);
    assert RunActions(F1, Step2) == Outcome(F1["c" := Str("a")] - {"a"}, None);
  }

  /** The delete removes b. */
  lemma SelfTestStep3()
    ensures Advance(Name, [Step1, Step2, Step3], F2) == Outcome(F3, None)
  {
    AdvanceLastStep(Name, [Step1, Step2, Step3], F2);
    assert RunActions(F2, Step3) == Outcome(F2 - {"b"}, None);
  }

  /** The modify doubles c. */
  lemma SelfTestStep4()
    ensures Advance(Name, [Step1, Step2, Step3, Step4], F3) == Outcome(F4, None)
  {
    AdvanceLastStep(Name, [Step1, Step2, Step3, Step4], F3);
    assert Double(Str("a")) == Str("aa") by {
      assert "a" + "a" == "aa";
    }
    assert RunActions(F3, Step4) == Outcome(F3["c" := Str("aa")], None);
  }

  /** The self-test as a whole: each of the four migrations succeeds, and
      the record ends with c == "aa", no a and no b, tagged with the
      fourth id. */
  lemma SelfTest()
    ensures var o1 := Advance(Name, [Step1], map[]);
      var o2 := Advance(Name, [Step1, Step2], o1.fields);
      var o3 := Advance(Name, [Step1, Step2, Step3], o2.fields);
      var o4 := Advance(Name, [Step1, Step2, Step3, Step4], o3.fields);
      && o1.err.None? && o2.err.None? && o3.err.None? && o4.err.None?
      && o4.fields == map["c" := Str("aa"), TagKey := Rev(RevAt(Name, 4))]
  {
    SelfTestStep1();
    SelfTestStep2();
    SelfTestStep3();
    SelfTestStep4();
  }

  /** The usage example's two steps for type "cricket": the first adds
      foo, the second renames it and adds two more fields. */
  const Cricket1: seq<Action> := AddActions([("foo", Str("bar"))])
  const Cricket2: seq<Action> :=
    RenameActions([("foo", "baz")]) + AddActions([("looks", Str("butt ugly")), ("intelligence", Str("rather low"))])

  /** The second cricket step on a record whose foo holds `v`: foo is
      renamed to baz and the two new fields are added. */
  lemma CricketSecondStep(g: Fields, v: Value)
    requires "foo" in g && g["foo"] == v
    ensures RunActions(g, Cricket2) == Outcome(
      (g["baz" := v] - {"foo"})["looks" := Str("butt ugly")]["intelligence" := Str("rather low")], None)
  {
    var c := [RenameField("foo", "baz"), AddField("looks", Str("butt ugly")), AddField("intelligence", Str("rather low"))];
    assert Cricket2 == c;
    var h1 := g["baz" := v] - {"foo"};
    var h2 := h1["looks" := Str("butt ugly")];
    assert RunActions(g, c) == RunActions(h1, c[1..]);
    assert RunActions(h1, c[1..]) == RunActions(h2, c[2..]);
    assert RunActions(h2, c[2..]) == Outcome(h2["intelligence" := Str("rather low")], None) by {
      assert c[2..][1..] == [];
    }
  }

  /** A new, untagged cricket record passes through both steps in order. */
  lemma CricketFromScratch()
    ensures Advance("cricket", [Cricket1, Cricket2], map[]) == Outcome(
      map["baz" := Str("bar"), "looks" := Str("butt ugly"), "intelligence" := Str("rather low"),
          TagKey := Rev(RevAt("cricket", 2))], None)
  {
    var acts := [Cricket1, Cricket2];
    var f0 := map[TagKey := Rev(RevAt("cricket", 0))];
    UntaggedStartsAtBase("cricket", acts, map[]);
    var f1 := f0["foo" := Str("bar")];
    assert RunActions(f0, Cricket1) == Outcome(f1, None) by {
      assert Cricket1 == [AddField("foo", Str("bar"))];
    }
    var g1 := f1[TagKey := Rev(RevAt("cricket", 1))];
    assert Replay("cricket", acts, 0, f0) == Replay("cricket", acts, 1, g1);
    CricketSecondStep(g1, Str("bar"));
    var f2 := (g1["baz" := Str("bar")] - {"foo"})["looks" := Str("butt ugly")]["intelligence" := Str("rather low")];
    assert Replay("cricket", acts, 1, g1) == Outcome(f2[TagKey := Rev(RevAt("cricket", 2))], None);
    assert f2[TagKey := Rev(RevAt("cricket", 2))] == map["baz" := Str("bar"), "looks" := Str("butt ugly"),
      "intelligence" := Str("rather low"), TagKey := Rev(RevAt("cricket", 2))];
  }

  /** A cricket record saved after the first step only needs the second. */
  lemma CricketFromFirstStep()
    ensures Advance("cricket", [Cricket1, Cricket2], map["foo" := Str("pie"), TagKey := Rev(RevAt("cricket", 1))]) == Outcome(
      map["baz" := Str("pie"), "looks" := Str("butt ugly"), "intelligence" := Str("rather low"),
          TagKey := Rev(RevAt("cricket", 2))], None)
  {
    var g1 := map["foo" := Str("pie"), TagKey := Rev(RevAt("cricket", 1))];
    AdvanceLastStep("cricket", [Cricket1, Cricket2], g1);
    CricketSecondStep(g1, Str("pie"));
  }
}
