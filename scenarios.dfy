/** Concrete derivations that pin the general lemmas to the behaviour the
    code has on small inputs. */
module Scenarios {
  import opened OrderedMaps
  import opened PhpValues
  import opened TokenScan
  import opened FieldSchema

  /** In `{a}/{a}` the placeholder `a` is found twice: repeats are kept. */
  lemma RepeatedPlaceholderScan()
    ensures TokenNames("{a}/{a}") == ["a", "a"]
  {
    var p := "{a}/{a}";
    assert WordRunEnd(p, 6) == 6;
    assert WordRunEnd(p, 5) == 6;
    assert MatchAt(p, 4);
    assert MatchesFrom(p, 7) == [];
    assert p[4..7] == "{a}";
    assert MatchesFrom(p, 4) == ["{a}"];
    assert !MatchAt(p, 3);
    assert WordRunEnd(p, 2) == 2;
    assert WordRunEnd(p, 1) == 2;
    assert MatchAt(p, 0);
    assert p[0..3] == "{a}";
    assert MatchesFrom(p, 0) == [p[0..3]] + MatchesFrom(p, 3);
    assert Matches(p) == ["{a}", "{a}"];
    assert TokenName("{a}") == "a";
    var names := TokenNames(p);
    assert |names| == 2 && names[0] == "a" && names[1] == "a";
  }

  /** Without a subject route, or with one whose pattern is empty and whose
      two flags are off, and no stored defaults, the form offers exactly the
      three well-known fields. */
  lemma BareDefaultsAreTheSeeds(subject: Option<RouteView>)
    requires !TokenStepApplies(subject) && !FormatStepApplies(subject) && !LocaleStepApplies(subject)
    ensures DefaultsSchema([], subject) == DefaultSeeds()
  {
    assert Keys<Value>([]) == [];
    DefaultsSchemaLayout([], subject);
  }

  /** A key both stored and used as a placeholder is offered once, as the
      optional field the stored default gave it: the first write wins. */
  lemma StoredDefaultWinsOverPlaceholder()
    ensures DefaultsSchema([("_controller", Str("x")), ("foo", Str("y"))], Some(RouteView("/{foo}", []))) ==
      DefaultSeeds() + [("foo", TextField("foo", false))]
  {
    var dd := [("_controller", Str("x")), ("foo", Str("y"))];
    var subject := Some(RouteView("/{foo}", []));
    var m1 := DefaultSeeds() + [("foo", TextField("foo", false))];
    StoredControllerAndFoo();
    SinglePlaceholderScan();
    assert HasKey(m1, "foo") by {
      assert Keys(m1)[3] == "foo";
    }
    assert ["foo"][1..] == [];
    assert PatternDefaultFields(dd, subject) == AddMissing(m1, ["foo"], true) == m1;
    assert OptionValue([], "add_format_pattern") == Null;
    assert OptionValue([], "add_locale_pattern") == Null;
    DefaultsSchemaLayout(dd, subject);
  }

  /** A stored `_controller` keeps its seed; a stored `foo` follows the seeds. */
  lemma StoredControllerAndFoo()
    ensures StoredDefaultFields([("_controller", Str("x")), ("foo", Str("y"))]) ==
      DefaultSeeds() + [("foo", TextField("foo", false))]
  {
    var dd := [("_controller", Str("x")), ("foo", Str("y"))];
    assert Keys(dd) == ["_controller", "foo"];
    assert HasKey(DefaultSeeds(), "_controller") by {
      assert Keys(DefaultSeeds())[0] == "_controller";
    }
    assert !HasKey(DefaultSeeds(), "foo") by {
      assert Keys(DefaultSeeds()) == ["_controller", "_template", "type"];
    }
    assert ["_controller", "foo"][1..] == ["foo"] && ["foo"][1..] == [];
    assert AddMissing(DefaultSeeds(), ["_controller", "foo"], false) == AddMissing(DefaultSeeds(), ["foo"], false);
  }

  /** `/{foo}` has the one placeholder `foo`. */
  lemma SinglePlaceholderScan()
    ensures TokenNames("/{foo}") == ["foo"]
  {
    var p := "/{foo}";
    assert WordRunEnd(p, 5) == 5;
    assert WordRunEnd(p, 2) == 5;
    assert MatchAt(p, 1);
    assert MatchesFrom(p, 6) == [];
    assert p[1..6] == "{foo}";
    assert MatchesFrom(p, 1) == ["{foo}"];
    assert !MatchAt(p, 0);
    assert Matches(p) == ["{foo}"];
    assert TokenName("{foo}") == "foo";
  }

  /** With `add_format_pattern` on, a stored `_format` keeps its slot but
      becomes a required field. */
  lemma FormatFlagOverwritesStoredFormat()
    ensures var r := DefaultsSchema([("_format", Str("json"))], Some(RouteView("", [("add_format_pattern", Bool(true))])));
      r == DefaultSeeds() + [("_format", TextField("_format", true))]
  {
    var dd := [("_format", Str("json"))];
    var options := [("add_format_pattern", Bool(true))];
    var subject := Some(RouteView("", options));
    assert Keys(dd) == ["_format"];
    assert !HasKey(DefaultSeeds(), "_format") by {
      assert Keys(DefaultSeeds()) == ["_controller", "_template", "type"];
    }
    var m1 := StoredDefaultFields(dd);
    assert m1 == DefaultSeeds() + [("_format", TextField("_format", false))] by {
      assert [("_format", Str("json"))][1..] == [];
      assert AddMissing(DefaultSeeds(), Keys(dd), false) == AddMissing(AddOne(DefaultSeeds(), "_format", false), [], false);
    }
    assert Lookup(options, "add_format_pattern") == Some(Bool(true));
    assert !HasKey(options, "add_locale_pattern");
    assert IndexOf(m1, "_format") == 3;
  }

  /** A repeated placeholder adds a single required field. */
  lemma RepeatedPlaceholderAddsOnce()
    ensures DefaultsSchema([], Some(RouteView("{a}/{a}", []))) == DefaultSeeds() + [("a", TextField("a", true))]
  {
    var subject := Some(RouteView("{a}/{a}", []));
    assert OptionValue([], "add_format_pattern") == Null;
    assert OptionValue([], "add_locale_pattern") == Null;
    DefaultsSchemaLayout([], subject);
    assert Keys<Value>([]) == [];
    assert StoredDefaultFields([]) == DefaultSeeds();
    RepeatedPlaceholderScan();
    TwiceAddedOnce();
  }

  /** Adding the same name twice adds it once. */
  lemma TwiceAddedOnce()
    ensures AddMissing(DefaultSeeds(), ["a", "a"], true) == DefaultSeeds() + [("a", TextField("a", true))]
  {
    assert !HasKey(DefaultSeeds(), "a") by {
      assert Keys(DefaultSeeds()) == ["_controller", "_template", "type"];
    }
    var m2 := AddOne(DefaultSeeds(), "a", true);
    assert HasKey(m2, "a") by {
      assert Keys(m2)[3] == "a";
    }
    assert ["a", "a"][1..] == ["a"] && ["a"][1..] == [];
    assert AddMissing(DefaultSeeds(), ["a", "a"], true) == AddMissing(m2, ["a"], true);
  }
}
