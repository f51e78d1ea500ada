/** The route admin's state and its operations: the routing bundle's Route,
    reduced to the three fields the admin reads and writes, and the admin
    itself, which holds the route being edited (its subject), derives the two
    form schemas step by step, and cleans a route's defaults before saving. */
module Routing {
  import opened OrderedMaps
  import opened PhpValues
  import opened TokenScan
  import opened FieldSchema

  class Route {
    var variablePattern: string
    var defaults: OMap<Value>
    var options: OMap<Value>

    constructor (variablePattern: string, defaults: OMap<Value>, options: OMap<Value>)
      ensures this.variablePattern == variablePattern
      ensures this.defaults == defaults && this.options == options
    {
      this.variablePattern := variablePattern;
      this.defaults := defaults;
      this.options := options;
    }

    /** `getOption($name)`: the stored option, or null when unset. */
    function GetOption(name: string): Value
      reads this
    {
      OptionValue(options, name)
    }

    /** What the schema derivation reads from the route. */
    function View(): RouteView
      reads this
    {
      RouteView(variablePattern, options)
    }

    /** `setDefaults($defaults)` */
    method SetDefaults(d: OMap<Value>)
      modifies this`defaults
      ensures defaults == d
    {
      defaults := d;
    }
  }

  /** The `foreach` over a list of names that assigns
      `[$name, TextType::class, ['required' => required]]` to each name not
      yet set, as both derivations do. */
  method AddMissingFields(m: OMap<Descriptor>, names: seq<string>, required: bool) returns (r: OMap<Descriptor>)
    ensures r == AddMissing(m, names, required)
  {
    r := m;
    var i := 0;
    while i < |names|
      invariant 0 <= i <= |names|
      invariant AddMissing(r, names[i..], required) == AddMissing(m, names, required)
    {
      var name := names[i];
      if !HasKey(r, name) {
        r := Put(r, name, TextField(name, required));
      }
      assert names[i..][1..] == names[i + 1..];
      i := i + 1;
    }
    assert names[i..] == [];
  }

  /** The `foreach` over the pattern's matches: cut the braces off each
      match and assign `[$name, TextType::class, ['required' => true]]` when
      the name is not yet set. */
  method AddPlaceholderFields(m: OMap<Descriptor>, matches: seq<string>) returns (r: OMap<Descriptor>)
    requires forall k :: 0 <= k < |matches| ==> |matches[k]| >= 2
    ensures r == AddMissing(m, NamesOf(matches), true)
  {
    r := m;
    var i := 0;
    while i < |matches|
      invariant 0 <= i <= |matches|
      invariant AddMissing(r, NamesOf(matches[i..]), true) == AddMissing(m, NamesOf(matches), true)
    {
      var name := TokenName(matches[i]);
      assert matches[i..][1..] == matches[i + 1..];
      if !HasKey(r, name) {
        r := Put(r, name, TextField(name, true));
      }
      i := i + 1;
    }
    assert matches[i..] == [];
  }

  class RouteAdmin {
    /** `$this->subject`: the route being edited, or null. */
    var subject: Route?

    constructor (subject: Route?)
      ensures this.subject == subject
    {
      this.subject := subject;
    }

    /** The subject as the schema derivation sees it. */
    function SubjectView(): Option<RouteView>
      reads this, subject
    {
      if subject == null then None else Some(subject.View())
    }

    /** `configureFieldsForDefaults($dynamicDefaults)`: the seeds, then the
        stored defaults' keys, then the pattern's placeholders, each added
        only if not yet set, then `_format` and `_locale` assigned according
        to the subject's options. */
    method ConfigureFieldsForDefaults(dynamicDefaults: OMap<Value>) returns (defaults: OMap<Descriptor>)
      ensures defaults == DefaultsSchema(dynamicDefaults, SubjectView())
    {
      defaults := AddMissingFields(DefaultSeeds(), Keys(dynamicDefaults), false);

      var route := subject;
      if route != null && Truthy(Str(route.variablePattern)) {
        var matches := MatchAll(route.variablePattern);
        defaults := AddPlaceholderFields(defaults, matches);
      }

      if route != null && Truthy(route.GetOption("add_format_pattern")) {
        defaults := Put(defaults, "_format", TextField("_format", true));
      }
      if route != null && Truthy(route.GetOption("add_locale_pattern")) {
        defaults := Put(defaults, "_locale", TextField("_locale", false));
      }
    }

    /** `configureFieldsForOptions($dynamicOptions)`: the three checkboxes,
        then every stored option key not yet set. */
    method ConfigureFieldsForOptions(dynamicOptions: OMap<Value>) returns (options: OMap<Descriptor>)
      ensures options == OptionsSchema(dynamicOptions)
    {
      options := AddMissingFields(OptionSeeds(), Keys(dynamicOptions), false);
    }

    /** `prePersist($object)`: replace the route's defaults by the truthy
        ones; nothing else about the route changes. */
    method PrePersist(route: Route)
      modifies route`defaults
      ensures route.defaults == ArrayFilter(old(route.defaults))
      ensures route.variablePattern == old(route.variablePattern) && route.options == old(route.options)
    {
      var defaults := ArrayFilter(route.defaults);
      route.SetDefaults(defaults);
    }

    /** `preUpdate($object)`: the same cleanup before an update. */
    method PreUpdate(route: Route)
      modifies route`defaults
      ensures route.defaults == ArrayFilter(old(route.defaults))
      ensures route.variablePattern == old(route.variablePattern) && route.options == old(route.options)
    {
      var defaults := ArrayFilter(route.defaults);
      route.SetDefaults(defaults);
    }
  }
}
