/** The field descriptors that configure the route edit form's two keyed-array
    widgets, and how `configureFieldsForDefaults` and
    `configureFieldsForOptions` derive them from a route's stored data. Each
    derivation starts from fixed well-known fields and appends, first write
    wins, a field for every further key it is given. */
module FieldSchema {
  import opened OrderedMaps
  import opened PhpValues
  import opened TokenScan

  /** The form type a field is edited with: `TextType`, `CheckboxType` or
      the routing bundle's `RouteTypeType`. */
  datatype Widget = Text | Checkbox | RouteType

  /** One entry `[name, type, options]` of the keyed-array widget's `keys`;
      the options array is kept as its four keys the admin sets. */
  datatype Descriptor = Descriptor(
    name: string,
    widget: Widget,
    required: bool,
    labelKey: Option<string>,
    placeholder: Option<string>,
    translationDomain: Option<string>)

  const Domain := "CmfSonataAdminIntegrationBundle"

  /** `[name, TextType::class, ['required' => required]]` */
  function TextField(name: string, required: bool): Descriptor {
    Descriptor(name, Text, required, None, None, None)
  }

  /** A boolean route option, labelled `form.label_<name>`. */
  function CheckboxField(name: string): Descriptor {
    Descriptor(name, Checkbox, false, Some("form.label_" + name), None, Some(Domain))
  }

  /** The well-known route defaults every form offers. */
  function DefaultSeeds(): OMap<Descriptor> {
    [ ("_controller", Descriptor("_controller", Text, false, None, None, Some(Domain))),
      ("_template", Descriptor("_template", Text, false, None, None, Some(Domain))),
      ("type", Descriptor("type", RouteType, false, None, Some(""), Some(Domain))) ]
  }

  /** The three route options every form offers as checkboxes. */
  function OptionSeeds(): OMap<Descriptor> {
    [ ("add_locale_pattern", CheckboxField("add_locale_pattern")),
      ("add_format_pattern", CheckboxField("add_format_pattern")),
      ("add_trailing_slash", CheckboxField("add_trailing_slash")) ]
  }

  /** Every key maps to a descriptor of that name. */
  predicate NamedByKey(m: OMap<Descriptor>) {
    forall i :: 0 <= i < |m| ==> m[i].1.name == m[i].0
  }

  /** The position of the first occurrence of `x` in `s`. */
  function FirstIndex(s: seq<string>, x: string): (i: nat)
    requires x in s
    ensures i < |s| && s[i] == x
    ensures forall j :: 0 <= j < i ==> s[j] != x
  {
    if s[0] == x then 0 else 1 + FirstIndex(s[1..], x)
  }

  /** One step of that loop: `if (!isset($m[$n])) { $m[$n] = [$n, TextType::class, ...]; }` */
  function AddOne(m: OMap<Descriptor>, n: string, required: bool): OMap<Descriptor> {
    if HasKey(m, n) then m else Put(m, n, TextField(n, required))
  }

  /** Reading after one step: an unset name now reads its new Text field;
      every other key, and a name already set, reads as before. */
  lemma AddOneLookup(m: OMap<Descriptor>, n: string, required: bool, k: string)
    requires UniqueKeys(m)
    ensures Lookup(AddOne(m, n, required), k) ==
      if k == n && !HasKey(m, n) then Some(TextField(n, required)) else Lookup(m, k)
  {
    if !HasKey(m, n) {
      PutLookup(m, n, TextField(n, required), k);
    }
  }

  /** The `foreach` that adds `[name, TextType::class, ['required' => required]]`
      for each name that is not set yet. Entries already present stay where
      they are, unchanged. */
  function AddMissing(m: OMap<Descriptor>, names: seq<string>, required: bool): (r: OMap<Descriptor>)
    ensures |m| <= |r| && r[..|m|] == m
    decreases |names|
  {
    if names == [] then m
    else
      var n := names[0];
      AddMissing(AddOne(m, n, required), names[1..], required)
  }

  /** After the loop, a key is set exactly when it was set before or is one of
      the names. */
  lemma {:induction false} AddMissingKeys(m: OMap<Descriptor>, names: seq<string>, required: bool, k: string)
    ensures HasKey(AddMissing(m, names, required), k) <==> HasKey(m, k) || k in names
    decreases |names|
  {
    if names != [] {
      var n := names[0];
      var m' := AddOne(m, n, required);
      if !HasKey(m, n) {
        PutAppends(m, n, TextField(n, required));
        PutKeys(m, n, TextField(n, required));
      }
      AddMissingKeys(m', names[1..], required, k);
      assert k in names <==> k == n || k in names[1..];
    }
  }

  /** Every entry of `r` past `m` is a Text field of the given requiredness,
      named after one of `names` that `m` did not set. */
  predicate AppendsFresh(m: OMap<Descriptor>, r: OMap<Descriptor>, names: seq<string>, required: bool) {
    forall i :: |m| <= i < |r| ==>
      r[i].1 == TextField(r[i].0, required) && r[i].0 in names && !HasKey(m, r[i].0)
  }

  /** Every entry the loop appends is a Text field of the given requiredness,
      named after a key that is one of the names and was not set before. */
  lemma {:induction false} AddMissingAppended(m: OMap<Descriptor>, names: seq<string>, required: bool)
    ensures AppendsFresh(m, AddMissing(m, names, required), names, required)
    decreases |names|
  {
    if names != [] {
      var n := names[0];
      var m' := AddOne(m, n, required);
      if !HasKey(m, n) {
        PutAppends(m, n, TextField(n, required));
        PutKeys(m, n, TextField(n, required));
      }
      AddMissingAppended(m', names[1..], required);
      var r := AddMissing(m', names[1..], required);
      assert AppendsFresh(m', r, names[1..], required);
      forall i | |m| <= i < |r|
        ensures r[i].1 == TextField(r[i].0, required) && r[i].0 in names && !HasKey(m, r[i].0)
      {
        var key := r[i].0;
        if i < |m'| {
          assert r[i] == r[..|m'|][i] == m'[i] == (n, TextField(n, required));
        } else {
          assert key in names[1..] && !HasKey(m', key);
        }
      }
    }
  }

  /** The loop never sets a key twice. */
  lemma {:induction false} AddMissingUnique(m: OMap<Descriptor>, names: seq<string>, required: bool)
    requires UniqueKeys(m)
    ensures UniqueKeys(AddMissing(m, names, required))
    decreases |names|
  {
    if names != [] {
      var n := names[0];
      var m' := AddOne(m, n, required);
      AddMissingUnique(m', names[1..], required);
    }
  }

  /** The entries of `r` past `m` follow the order in which their keys first
      appear in `names`. */
  predicate AppendsInOrder(m: OMap<Descriptor>, r: OMap<Descriptor>, names: seq<string>) {
    forall i, j :: |m| <= i < j < |r| ==>
      r[i].0 in names && r[j].0 in names && FirstIndex(names, r[i].0) < FirstIndex(names, r[j].0)
  }

  /** The appended entries follow the order in which their names first
      appear; repeated names add nothing. */
  lemma {:induction false} AddMissingOrder(m: OMap<Descriptor>, names: seq<string>, required: bool)
    ensures AppendsInOrder(m, AddMissing(m, names, required), names)
    decreases |names|
  {
    if names != [] {
      var n := names[0];
      var t := names[1..];
      var m' := AddOne(m, n, required);
      if !HasKey(m, n) {
        PutAppends(m, n, TextField(n, required));
        PutKeys(m, n, TextField(n, required));
      }
      assert HasKey(m', n);
      AddMissingOrder(m', t, required);
      AddMissingAppended(m', t, required);
      var r := AddMissing(m', t, required);
      assert AppendsInOrder(m', r, t) && AppendsFresh(m', r, t, required);
      forall i, j | |m| <= i < j < |r|
        ensures r[i].0 in names && r[j].0 in names && FirstIndex(names, r[i].0) < FirstIndex(names, r[j].0)
      {
        assert r[j].0 in t && r[j].0 != n;
        assert FirstIndex(names, r[j].0) == 1 + FirstIndex(t, r[j].0);
        if i < |m'| {
          assert r[i] == r[..|m'|][i] == m'[i] == (n, TextField(n, required));
        } else {
          assert r[i].0 in t && r[i].0 != n;
          assert FirstIndex(names, r[i].0) == 1 + FirstIndex(t, r[i].0);
        }
      }
    }
  }

  /** Reading the result: a key that was set keeps its earlier descriptor, a
      name that was not set gets a fresh Text field, anything else is unset. */
  lemma AddMissingLookup(m: OMap<Descriptor>, names: seq<string>, required: bool, k: string)
    requires UniqueKeys(m)
    ensures Lookup(AddMissing(m, names, required), k) ==
      if HasKey(m, k) then Lookup(m, k)
      else if k in names then Some(TextField(k, required))
      else None
  {
    AddMissingKeys(m, names, required, k);
    if HasKey(m, k) {
      AddMissingLookupKept(m, names, required, k);
    } else if k in names {
      AddMissingLookupNew(m, names, required, k);
    }
  }

  /** A key set before the loop reads as before. */
  lemma AddMissingLookupKept(m: OMap<Descriptor>, names: seq<string>, required: bool, k: string)
    requires UniqueKeys(m) && HasKey(m, k)
    ensures Lookup(AddMissing(m, names, required), k) == Lookup(m, k)
  {
    var r := AddMissing(m, names, required);
    AddMissingUnique(m, names, required);
    var i := IndexOf(m, k);
    assert r[i] == r[..|m|][i] == m[i];
  }

  /** A name not set before the loop reads its Text field. */
  lemma AddMissingLookupNew(m: OMap<Descriptor>, names: seq<string>, required: bool, k: string)
    requires UniqueKeys(m) && !HasKey(m, k) && k in names
    ensures Lookup(AddMissing(m, names, required), k) == Some(TextField(k, required))
  {
    var r := AddMissing(m, names, required);
    AddMissingUnique(m, names, required);
    AddMissingKeys(m, names, required, k);
    AddMissingAppended(m, names, required);
    forall j | 0 <= j < |m| ensures r[j].0 != k {
      assert r[j] == r[..|m|][j];
      assert Keys(m)[j] == m[j].0;
    }
    var i := IndexOf(r, k);
    assert AppendsFresh(m, r, names, required);
  }

  /** A loop that appends descriptors named after their keys keeps every
      key's descriptor named after it. */
  lemma AddMissingNamed(m: OMap<Descriptor>, names: seq<string>, required: bool)
    requires NamedByKey(m)
    ensures NamedByKey(AddMissing(m, names, required))
  {
    var r := AddMissing(m, names, required);
    AddMissingAppended(m, names, required);
    forall i | 0 <= i < |r| ensures r[i].1.name == r[i].0 {
      if i < |m| {
        assert r[i] == r[..|m|][i] == m[i];
      }
    }
  }

  // ---------------------------------------------------------------------
  // configureFieldsForDefaults

  /** What the derivation reads from the admin's subject route: its variable
      pattern and its options. */
  datatype RouteView = RouteView(variablePattern: string, options: OMap<Value>)

  /** `$route->getOption($name)`: the stored option, or null when unset. */
  function OptionValue(options: OMap<Value>, name: string): Value {
    match Lookup(options, name)
    case Some(v) => v
    case None => Null
  }

  /** `$route && $route->getVariablePattern()` */
  predicate TokenStepApplies(subject: Option<RouteView>) {
    subject.Some? && Truthy(Str(subject.value.variablePattern))
  }

  /** `$route && $route->getOption('add_format_pattern')` */
  predicate FormatStepApplies(subject: Option<RouteView>) {
    subject.Some? && Truthy(OptionValue(subject.value.options, "add_format_pattern"))
  }

  /** `$route && $route->getOption('add_locale_pattern')` */
  predicate LocaleStepApplies(subject: Option<RouteView>) {
    subject.Some? && Truthy(OptionValue(subject.value.options, "add_locale_pattern"))
  }

  /** The fields after the well-known keys and the stored defaults' keys. */
  function StoredDefaultFields(dynamicDefaults: OMap<Value>): OMap<Descriptor> {
    AddMissing(DefaultSeeds(), Keys(dynamicDefaults), false)
  }

  /** The fields after the placeholders of the subject's variable pattern. */
  function PatternDefaultFields(dynamicDefaults: OMap<Value>, subject: Option<RouteView>): OMap<Descriptor> {
    var m := StoredDefaultFields(dynamicDefaults);
    if TokenStepApplies(subject) then AddMissing(m, TokenNames(subject.value.variablePattern), true) else m
  }

  /** The fields after `_format` is assigned when `add_format_pattern` is on. */
  function FormatDefaultFields(dynamicDefaults: OMap<Value>, subject: Option<RouteView>): OMap<Descriptor> {
    var m := PatternDefaultFields(dynamicDefaults, subject);
    if FormatStepApplies(subject) then Put(m, "_format", TextField("_format", true)) else m
  }

  /** `configureFieldsForDefaults($dynamicDefaults)` with `$this->subject`. */
  function DefaultsSchema(dynamicDefaults: OMap<Value>, subject: Option<RouteView>): OMap<Descriptor> {
    var m := FormatDefaultFields(dynamicDefaults, subject);
    if LocaleStepApplies(subject) then Put(m, "_locale", TextField("_locale", false)) else m
  }

  /** The descriptor each key should get, by precedence: the two option
      driven keys are overwritten last, then well-known keys, then stored
      defaults (optional), then pattern placeholders (required). */
  function ExpectedDefaultField(dynamicDefaults: OMap<Value>, subject: Option<RouteView>, k: string): Option<Descriptor> {
    if FormatStepApplies(subject) && k == "_format" then Some(TextField("_format", true))
    else if LocaleStepApplies(subject) && k == "_locale" then Some(TextField("_locale", false))
    else if HasKey(DefaultSeeds(), k) then Lookup(DefaultSeeds(), k)
    else if HasKey(dynamicDefaults, k) then Some(TextField(k, false))
    else if TokenStepApplies(subject) && k in TokenNames(subject.value.variablePattern) then Some(TextField(k, true))
    else None
  }

  /** Before the two option steps: the seeds, then stored defaults
      (optional), then placeholder names (required); first write wins. */
  lemma PatternDefaultFieldsLookup(dynamicDefaults: OMap<Value>, subject: Option<RouteView>, k: string)
    ensures Lookup(PatternDefaultFields(dynamicDefaults, subject), k) ==
      if HasKey(DefaultSeeds(), k) then Lookup(DefaultSeeds(), k)
      else if HasKey(dynamicDefaults, k) then Some(TextField(k, false))
      else if TokenStepApplies(subject) && k in TokenNames(subject.value.variablePattern) then Some(TextField(k, true))
      else None
  {
    var m1 := StoredDefaultFields(dynamicDefaults);
    AddMissingLookup(DefaultSeeds(), Keys(dynamicDefaults), false, k);
    AddMissingKeys(DefaultSeeds(), Keys(dynamicDefaults), false, k);
    if TokenStepApplies(subject) {
      AddMissingUnique(DefaultSeeds(), Keys(dynamicDefaults), false);
      AddMissingLookup(m1, TokenNames(subject.value.variablePattern), true, k);
    }
  }

  /** The derived defaults give every key exactly the descriptor the
      precedence above assigns, and no other key is set. */
  lemma DefaultsSchemaLookup(dynamicDefaults: OMap<Value>, subject: Option<RouteView>, k: string)
    ensures Lookup(DefaultsSchema(dynamicDefaults, subject), k) == ExpectedDefaultField(dynamicDefaults, subject, k)
  {
    var m2 := PatternDefaultFields(dynamicDefaults, subject);
    var m3 := FormatDefaultFields(dynamicDefaults, subject);
    PatternDefaultFieldsLookup(dynamicDefaults, subject, k);
    PatternDefaultFieldsWellFormed(dynamicDefaults, subject);
    if FormatStepApplies(subject) {
      PutLookup(m2, "_format", TextField("_format", true), k);
      PutUnique(m2, "_format", TextField("_format", true));
    }
    if LocaleStepApplies(subject) {
      PutLookup(m3, "_locale", TextField("_locale", false), k);
    }
  }

  /** A valid keyed array that begins with the default seeds and names
      every descriptor after its key. */
  predicate SeededAndNamed(m: OMap<Descriptor>) {
    |m| >= 3 && m[..3] == DefaultSeeds() && UniqueKeys(m) && NamedByKey(m)
  }

  /** The fields before the flag steps are seeded and named. */
  lemma PatternDefaultFieldsWellFormed(dynamicDefaults: OMap<Value>, subject: Option<RouteView>)
    ensures SeededAndNamed(PatternDefaultFields(dynamicDefaults, subject))
  {
    var m1 := StoredDefaultFields(dynamicDefaults);
    var m2 := PatternDefaultFields(dynamicDefaults, subject);
    AddMissingUnique(DefaultSeeds(), Keys(dynamicDefaults), false);
    AddMissingNamed(DefaultSeeds(), Keys(dynamicDefaults), false);
    if TokenStepApplies(subject) {
      AddMissingUnique(m1, TokenNames(subject.value.variablePattern), true);
      AddMissingNamed(m1, TokenNames(subject.value.variablePattern), true);
      assert m2[..3] == m2[..|m1|][..3];
    }
  }

  /** Assigning a descriptor named after its key, to a key that is not a
      seed, keeps the array seeded and named. */
  lemma PutSeededAndNamed(m: OMap<Descriptor>, k: string, d: Descriptor)
    requires SeededAndNamed(m)
    requires d.name == k && !HasKey(DefaultSeeds(), k)
    ensures SeededAndNamed(Put(m, k, d))
  {
    var r := Put(m, k, d);
    forall i | 0 <= i < 3 ensures r[i] == m[i] {
      assert m[i] == m[..3][i] == DefaultSeeds()[i];
      assert Keys(DefaultSeeds())[i] == m[i].0;
    }
    assert r[..3] == m[..3];
  }

  /** How the flag steps place `_format` and `_locale`: a present key is
      overwritten in its slot, an absent one is appended, every other entry
      stays; a step whose flag is off changes nothing, and without a subject
      or a pattern the pattern step adds nothing. */
  lemma DefaultsSchemaLayout(dynamicDefaults: OMap<Value>, subject: Option<RouteView>)
    ensures !TokenStepApplies(subject) ==>
      PatternDefaultFields(dynamicDefaults, subject) == StoredDefaultFields(dynamicDefaults)
    ensures FormatStepApplies(subject) ==>
      OverwritesOrAppends(PatternDefaultFields(dynamicDefaults, subject), FormatDefaultFields(dynamicDefaults, subject),
                          "_format", TextField("_format", true))
    ensures !FormatStepApplies(subject) ==>
      FormatDefaultFields(dynamicDefaults, subject) == PatternDefaultFields(dynamicDefaults, subject)
    ensures LocaleStepApplies(subject) ==>
      OverwritesOrAppends(FormatDefaultFields(dynamicDefaults, subject), DefaultsSchema(dynamicDefaults, subject),
                          "_locale", TextField("_locale", false))
    ensures !LocaleStepApplies(subject) ==>
      DefaultsSchema(dynamicDefaults, subject) == FormatDefaultFields(dynamicDefaults, subject)
  {
    var m2 := PatternDefaultFields(dynamicDefaults, subject);
    PatternDefaultFieldsWellFormed(dynamicDefaults, subject);
    if FormatStepApplies(subject) {
      PutOverwritesOrAppends(m2, "_format", TextField("_format", true));
    }
    if LocaleStepApplies(subject) {
      PutOverwritesOrAppends(FormatDefaultFields(dynamicDefaults, subject), "_locale", TextField("_locale", false));
    }
  }

  /** The derived defaults always begin with `_controller`, `_template` and
      `type`, with their fixed descriptors, and are a valid keyed array whose
      every key maps to a descriptor of that name. */
  lemma DefaultsSchemaWellFormed(dynamicDefaults: OMap<Value>, subject: Option<RouteView>)
    ensures SeededAndNamed(DefaultsSchema(dynamicDefaults, subject))
  {
    PatternDefaultFieldsWellFormed(dynamicDefaults, subject);
    if FormatStepApplies(subject) {
      PutSeededAndNamed(PatternDefaultFields(dynamicDefaults, subject), "_format", TextField("_format", true));
    }
    if LocaleStepApplies(subject) {
      PutSeededAndNamed(FormatDefaultFields(dynamicDefaults, subject), "_locale", TextField("_locale", false));
    }
  }

  /** The stored defaults' keys that are not well-known follow the three
      seeds as optional Text fields, in the order they are stored. */
  lemma StoredDefaultFieldsAppended(dynamicDefaults: OMap<Value>)
    ensures var m := StoredDefaultFields(dynamicDefaults);
      && |m| >= 3 && m[..3] == DefaultSeeds()
      && (forall i :: 3 <= i < |m| ==>
            m[i].1 == TextField(m[i].0, false) && HasKey(dynamicDefaults, m[i].0) && !HasKey(DefaultSeeds(), m[i].0))
      && (forall i, j :: 3 <= i < j < |m| ==>
            m[i].0 in Keys(dynamicDefaults) && m[j].0 in Keys(dynamicDefaults) &&
            FirstIndex(Keys(dynamicDefaults), m[i].0) < FirstIndex(Keys(dynamicDefaults), m[j].0))
      && (forall k :: HasKey(dynamicDefaults, k) ==> HasKey(m, k))
  {
    AddMissingAppended(DefaultSeeds(), Keys(dynamicDefaults), false);
    AddMissingOrder(DefaultSeeds(), Keys(dynamicDefaults), false);
    forall k | HasKey(dynamicDefaults, k) ensures HasKey(StoredDefaultFields(dynamicDefaults), k) {
      AddMissingKeys(DefaultSeeds(), Keys(dynamicDefaults), false, k);
    }
  }

  /** The pattern step appends one required Text field per placeholder name
      not set yet, in order of first appearance; every `{name}` of the
      pattern ends up set; names already set keep their descriptor. */
  lemma PatternDefaultFieldsAppended(dynamicDefaults: OMap<Value>, subject: Option<RouteView>)
    requires TokenStepApplies(subject)
    ensures var p := subject.value.variablePattern;
      var m1 := StoredDefaultFields(dynamicDefaults);
      var m2 := PatternDefaultFields(dynamicDefaults, subject);
      && m2[..|m1|] == m1
      && (forall i :: |m1| <= i < |m2| ==>
            m2[i].1 == TextField(m2[i].0, true) && m2[i].0 in TokenNames(p) && !HasKey(m1, m2[i].0))
      && (forall i, j :: |m1| <= i < j < |m2| ==>
            m2[i].0 in TokenNames(p) && m2[j].0 in TokenNames(p) &&
            FirstIndex(TokenNames(p), m2[i].0) < FirstIndex(TokenNames(p), m2[j].0))
      && (forall i, j :: 0 <= i < j <= |p| && IsToken(p[i..j]) ==> HasKey(m2, p[i + 1..j - 1]))
  {
    var p := subject.value.variablePattern;
    var m1 := StoredDefaultFields(dynamicDefaults);
    AddMissingAppended(m1, TokenNames(p), true);
    AddMissingOrder(m1, TokenNames(p), true);
    forall i, j | 0 <= i < j <= |p| && IsToken(p[i..j])
      ensures HasKey(PatternDefaultFields(dynamicDefaults, subject), p[i + 1..j - 1])
    {
      TokenNamesComplete(p, i, j);
      AddMissingKeys(m1, TokenNames(p), true, p[i + 1..j - 1]);
    }
  }

  // ---------------------------------------------------------------------
  // configureFieldsForOptions

  /** `configureFieldsForOptions($dynamicOptions)` */
  function OptionsSchema(dynamicOptions: OMap<Value>): OMap<Descriptor> {
    AddMissing(OptionSeeds(), Keys(dynamicOptions), false)
  }

  /** The derived options begin with the three optional checkboxes; every
      other stored option key follows once, as an optional Text field, in
      stored order; every key maps to a descriptor of its name. */
  lemma OptionsSchemaShape(dynamicOptions: OMap<Value>)
    ensures var r := OptionsSchema(dynamicOptions);
      && |r| >= 3 && r[..3] == OptionSeeds()
      && (forall i :: 0 <= i < 3 ==> r[i].1.widget == Checkbox && !r[i].1.required)
      && (forall i :: 3 <= i < |r| ==>
            r[i].1 == TextField(r[i].0, false) && HasKey(dynamicOptions, r[i].0) && !HasKey(OptionSeeds(), r[i].0))
      && (forall i, j :: 3 <= i < j < |r| ==>
            r[i].0 in Keys(dynamicOptions) && r[j].0 in Keys(dynamicOptions) &&
            FirstIndex(Keys(dynamicOptions), r[i].0) < FirstIndex(Keys(dynamicOptions), r[j].0))
      && UniqueKeys(r) && NamedByKey(r)
  {
    var r := OptionsSchema(dynamicOptions);
    AddMissingAppended(OptionSeeds(), Keys(dynamicOptions), false);
    AddMissingOrder(OptionSeeds(), Keys(dynamicOptions), false);
    AddMissingUnique(OptionSeeds(), Keys(dynamicOptions), false);
    AddMissingNamed(OptionSeeds(), Keys(dynamicOptions), false);
    forall i | 0 <= i < 3 ensures r[i] == OptionSeeds()[i] {
      assert r[i] == r[..3][i];
    }
  }

  /** Reading the derived options: seeds keep their checkbox, every other
      stored key is an optional Text field, nothing else is set. */
  lemma OptionsSchemaLookup(dynamicOptions: OMap<Value>, k: string)
    ensures Lookup(OptionsSchema(dynamicOptions), k) ==
      if HasKey(OptionSeeds(), k) then Lookup(OptionSeeds(), k)
      else if HasKey(dynamicOptions, k) then Some(TextField(k, false))
      else None
  {
    AddMissingLookup(OptionSeeds(), Keys(dynamicOptions), false, k);
  }
}
