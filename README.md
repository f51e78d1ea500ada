# RouteAdmin field schemas and defaults cleanup

This is a Dafny model of the logic in the Sonata admin class for CMF routes,
`RouteAdmin`. It covers three things:

- **`configureFieldsForDefaults`** builds the field list for the route's
  `defaults` keyed-array widget. It starts with the fixed fields `_controller`,
  `_template` and `type`. It then adds, only if not yet set:
  - an optional Text field for each key of the stored defaults;
  - a required Text field for each `{name}` placeholder of the route's
    variable pattern.

  Finally it assigns `_format` (required) when the route's option
  `add_format_pattern` is truthy, and `_locale` (optional) when
  `add_locale_pattern` is truthy. These two assignments have no guard, so
  they overwrite any entry already set.
- **`configureFieldsForOptions`** builds the field list for the `options`
  widget. It starts with three checkboxes, then adds an optional Text field
  for each stored option key not yet set.
- **`prePersist` / `preUpdate`** replace a route's defaults with
  `array_filter` of them before the route is saved.

Modules:

- `OrderedMaps` (`ordered_map.dfy`) models a PHP array with string keys as a
  sequence of key/value pairs. `Put` is `$a[$k] = $v`: an existing key keeps
  its slot and gets the new value; a new key is appended.
- `PhpValues` (`php_values.dfy`) holds the values a route stores, PHP's
  conversion to bool (`Truthy`) and `array_filter` without a callback.
- `TokenScan` (`token_scan.dfy`) models `preg_match_all('#\{\w+\}#', …)`:
  - `Matches` is a recursive specification of the scan: the leftmost match
    first, then resume just past it;
  - `MatchAll` is the character loop, proved equal to `Matches`;
  - lemmas prove the scan finds exactly the substrings that are `{name}`
    placeholders;
  - `Occurrences` is an independent reference: every substring that is a
    placeholder, listed by start position. The scan's list is proved equal
    to it, which settles order and multiplicity.
- `FieldSchema` (`field_schema.dfy`) holds:
  - the field descriptors and the fixed seeds;
  - `AddMissing`, the shared "add if not yet set" fold;
  - the specification functions `DefaultsSchema` and `OptionsSchema`, one
    step per block of the source;
  - the lemmas stating what the two schemas contain.
- `Routing` (`route_admin.dfy`) holds the state:
  - a `Route` class with the three fields the admin reads and writes;
  - the `RouteAdmin` class with its `subject` route. Its methods build the
    schemas with loops, proved equal to the specification functions, and do
    the pre-save cleanup in place.
- `Scenarios` (`scenarios.dfy`) works through small concrete inputs.

## Model

| member | source | states |
|---|---|---|
| OrderedMaps.Lookup | src/Admin/Routing/RouteAdmin.php:144 | reading a key gives a value exactly when the key is set (`isset`); in a valid array it is the value in the key's one slot |
| OrderedMaps.PutLookup | src/Admin/Routing/RouteAdmin.php:163 | after `$a[$k] = $v`, reading `$k` gives `$v` and reading any other key gives what it gave before |
| OrderedMaps.PutOverwritesOrAppends | src/Admin/Routing/RouteAdmin.php:163 | `$a[$k] = $v` overwrites `$k` in its own slot if it is set, and otherwise appends it; every other entry stays where it was |
| OrderedMaps.PutKeys | src/Admin/Routing/RouteAdmin.php:163 | the key list after an assignment is unchanged if the key was set, and otherwise gains the key at the end |
| OrderedMaps.PutUnique | src/Admin/Routing/RouteAdmin.php:163 | an assignment never creates a second slot for a key |
| OrderedMaps.PutAppends | src/Admin/Routing/RouteAdmin.php:145 | assigning to a key that is not set appends it at the end and leaves every earlier entry alone |
| PhpValues.ArrayFilter | src/Admin/Routing/RouteAdmin.php:198 | `array_filter` keeps an entry (key and value) if and only if its value is truthy, and never grows the array |
| PhpValues.ArrayFilterAppend | src/Admin/Routing/RouteAdmin.php:198 | filtering works entry by entry: filtering a concatenation concatenates the filtered parts, so the original order is kept |
| PhpValues.ArrayFilterIdempotent | src/Admin/Routing/RouteAdmin.php:198 | filtering twice is the same as filtering once |
| PhpValues.ArrayFilterKeysSubset | src/Admin/Routing/RouteAdmin.php:198 | every key of the filtered array is a key of the original |
| PhpValues.ArrayFilterUnique | src/Admin/Routing/RouteAdmin.php:198 | filtering an array with distinct keys gives an array with distinct keys |
| PhpValues.ArrayFilterExample | src/Admin/Routing/RouteAdmin.php:198 | an empty `_controller` is dropped and a non-empty `type` kept |
| TokenScan.WordRunEnd | src/Admin/Routing/RouteAdmin.php:153 | the greedy `\w+` stops at the first non-word character: everything before the stop is a word character, and the stop is not |
| TokenScan.MatchesFrom | src/Admin/Routing/RouteAdmin.php:153 | every match the scan reports has the form `{` word characters `}` |
| TokenScan.MatchesFromComplete | src/Admin/Routing/RouteAdmin.php:153 | every `{name}` placeholder at or after the scan position is reported |
| TokenScan.MatchesFromSound | src/Admin/Routing/RouteAdmin.php:153 | everything reported is a `{name}` placeholder occurring at or after the scan position |
| TokenScan.MatchesExactly | src/Admin/Routing/RouteAdmin.php:153 | a string is among the matches if and only if it has the form `{name}` and occurs in the pattern |
| TokenScan.TokenAtSlice | src/Admin/Routing/RouteAdmin.php:153 | a substring read off the pattern by position is a placeholder exactly when it matches `\{\w+\}` |
| TokenScan.TokenAtEndsRun | src/Admin/Routing/RouteAdmin.php:153 | a placeholder starting at a position is the scan's match there: the greedy word run stops at its closing brace |
| TokenScan.TokensStartingAtUpTo | src/Admin/Routing/RouteAdmin.php:153 | at most one placeholder starts at a position: when the scan matches there, that match is the only one |
| TokenScan.OccurrencesAtMatch | src/Admin/Routing/RouteAdmin.php:153 | where the scan matches, the placeholders from there on are that match followed by the ones after it; none starts inside it |
| TokenScan.OccurrencesAtNoMatch | src/Admin/Routing/RouteAdmin.php:153 | where the scan does not match, no placeholder starts |
| TokenScan.MatchesFromInOrder | src/Admin/Routing/RouteAdmin.php:153 | the scan's list of matches is exactly the list of all placeholders ordered by start position: each occurrence once, none skipped, in order |
| TokenScan.NamesOfIndex | src/Admin/Routing/RouteAdmin.php:154-155 | one name per match: the k-th name is `substr` of the k-th match without its braces |
| TokenScan.TokenNamesSound | src/Admin/Routing/RouteAdmin.php:153-155 | every name extracted (`substr($m, 1, -1)` of a match) is a non-empty run of word characters that occurs in the pattern between braces |
| TokenScan.TokenNamesExactly | src/Admin/Routing/RouteAdmin.php:153-155 | a name is extracted if and only if `{name}` has the form `{` word characters `}` and occurs in the pattern |
| TokenScan.TokenNamesComplete | src/Admin/Routing/RouteAdmin.php:153-155 | every `{name}` placeholder in the pattern contributes `name` |
| TokenScan.ScanWordRun | src/Admin/Routing/RouteAdmin.php:153 | the loop that advances over word characters stops exactly where the greedy `\w+` stops |
| TokenScan.MatchAll | src/Admin/Routing/RouteAdmin.php:153 | the left-to-right character scan returns exactly the matches of the specification |
| FieldSchema.FirstIndex | src/Admin/Routing/RouteAdmin.php:143 | the position of a name's first occurrence in a list, which gives the order of first appearance |
| FieldSchema.AddOneLookup | src/Admin/Routing/RouteAdmin.php:144-146 | one `if (!isset(...))` step: an unset name now reads its new Text field with the given `required` flag; a name already set, and every other key, reads as before |
| FieldSchema.AddMissing | src/Admin/Routing/RouteAdmin.php:143-147 | the loop over names only appends: the array it starts from is an unchanged prefix of the result |
| FieldSchema.AddMissingKeys | src/Admin/Routing/RouteAdmin.php:143-147 | a key is set afterwards if and only if it was set before or is one of the names |
| FieldSchema.AddMissingAppended | src/Admin/Routing/RouteAdmin.php:143-147 | every appended entry is a Text field with the loop's `required` flag, for a name of the list that was not set before |
| FieldSchema.AddMissingUnique | src/Admin/Routing/RouteAdmin.php:143-147 | the loop never sets a key twice, even for repeated names |
| FieldSchema.AddMissingOrder | src/Admin/Routing/RouteAdmin.php:143-147 | appended entries come in order of the names' first appearance |
| FieldSchema.AddMissingLookup | src/Admin/Routing/RouteAdmin.php:143-147 | after the loop, a key set before keeps its descriptor (first write wins); a new name maps to the loop's Text field; any other key is unset |
| FieldSchema.AddMissingLookupKept | src/Admin/Routing/RouteAdmin.php:143-147 | a key set before the loop keeps its descriptor (the `isset` guard skips it) |
| FieldSchema.AddMissingLookupNew | src/Admin/Routing/RouteAdmin.php:143-147 | a name of the list that was not set reads the loop's Text field afterwards |
| FieldSchema.AddMissingNamed | src/Admin/Routing/RouteAdmin.php:145 | if every key mapped to a descriptor of its own name before the loop, it still does after |
| FieldSchema.PatternDefaultFieldsLookup | src/Admin/Routing/RouteAdmin.php:133-160 | before the two option steps, each key maps to its seed descriptor, else its stored-default optional Text field, else its placeholder required Text field, else nothing |
| FieldSchema.DefaultsSchemaLookup | src/Admin/Routing/RouteAdmin.php:131-170 | the descriptor of every key, by precedence: `_format`/`_locale` when their option is truthy, then the fixed seeds, then stored defaults (optional Text), then placeholder names (required Text); no other key is set |
| FieldSchema.PatternDefaultFieldsWellFormed | src/Admin/Routing/RouteAdmin.php:133-160 | before the two option steps, the defaults begin with the three seeds, have distinct keys and name every descriptor after its key |
| FieldSchema.PutSeededAndNamed | src/Admin/Routing/RouteAdmin.php:162-167 | assigning a non-seed key a descriptor of its own name keeps the seeds in front, the keys distinct and the names matching |
| FieldSchema.DefaultsSchemaLayout | src/Admin/Routing/RouteAdmin.php:152-167 | without a route or pattern, the placeholder step changes nothing; a truthy option overwrites `_format`/`_locale` in place or appends it; a falsy or absent option (or no route) changes nothing |
| FieldSchema.DefaultsSchemaWellFormed | src/Admin/Routing/RouteAdmin.php:133-169 | the result always begins with `_controller`, `_template`, `type` and their fixed descriptors, sets no key twice, and maps every key to a descriptor of that name |
| FieldSchema.StoredDefaultFieldsAppended | src/Admin/Routing/RouteAdmin.php:133-147 | after the stored-defaults loop, the seeds come first; every stored key is set; the non-seed keys follow as optional Text fields in stored order |
| FieldSchema.PatternDefaultFieldsAppended | src/Admin/Routing/RouteAdmin.php:152-160 | the placeholder loop keeps what was set; it appends required Text fields only for names not yet set, in order of first appearance; afterwards every `{name}` in the pattern is set |
| FieldSchema.OptionsSchemaShape | src/Admin/Routing/RouteAdmin.php:179-194 | the options begin with the three optional checkboxes; each other stored option key follows once, as an optional Text field, in stored order; keys are distinct and name their descriptors |
| FieldSchema.OptionsSchemaLookup | src/Admin/Routing/RouteAdmin.php:179-194 | a checkbox key keeps its checkbox, any other stored option key is an optional Text field, and nothing else is set |
| Routing.Route.SetDefaults | src/Admin/Routing/RouteAdmin.php:199 | `setDefaults` replaces the defaults and changes no other field |
| Routing.AddMissingFields | src/Admin/Routing/RouteAdmin.php:143-147 | the `foreach`/`isset` loop computes exactly the `AddMissing` fold |
| Routing.AddPlaceholderFields | src/Admin/Routing/RouteAdmin.php:154-159 | the loop over the matches, taking each match's name and adding it as a required Text field if not set, computes exactly the `AddMissing` fold over the names |
| Routing.RouteAdmin.ConfigureFieldsForDefaults | src/Admin/Routing/RouteAdmin.php:131-170 | the step-by-step construction returns exactly `DefaultsSchema` of the stored defaults and the current subject |
| Routing.RouteAdmin.ConfigureFieldsForOptions | src/Admin/Routing/RouteAdmin.php:179-194 | the construction returns exactly `OptionsSchema` of the stored options |
| Routing.RouteAdmin.PrePersist | src/Admin/Routing/RouteAdmin.php:196-200 | the route's new defaults are `array_filter` of its old defaults; its pattern and options are unchanged |
| Routing.RouteAdmin.PreUpdate | src/Admin/Routing/RouteAdmin.php:202-206 | the same cleanup before an update |
| Scenarios.RepeatedPlaceholderScan | src/Admin/Routing/RouteAdmin.php:153-155 | the pattern `{a}/{a}` yields the names `a`, `a`: repeats are kept by the scan |
| Scenarios.RepeatedPlaceholderAddsOnce | src/Admin/Routing/RouteAdmin.php:152-160 | the same pattern, with no stored defaults, adds a single required field `a` after the seeds |
| Scenarios.TwiceAddedOnce | src/Admin/Routing/RouteAdmin.php:154-159 | adding the name `a` twice to the seeds appends it once |
| Scenarios.BareDefaultsAreTheSeeds | src/Admin/Routing/RouteAdmin.php:133-169 | with no stored defaults, no pattern and both options off (or no route), the result is exactly the three seeds |
| Scenarios.StoredDefaultWinsOverPlaceholder | src/Admin/Routing/RouteAdmin.php:143-160 | stored `_controller`, `foo` with pattern `/{foo}` give exactly `_controller`, `_template`, `type`, then `foo` once, as the optional field from the stored defaults |
| Scenarios.StoredControllerAndFoo | src/Admin/Routing/RouteAdmin.php:143-147 | a stored `_controller` keeps its seed and a stored `foo` is appended after the seeds |
| Scenarios.SinglePlaceholderScan | src/Admin/Routing/RouteAdmin.php:153-155 | the pattern `/{foo}` yields the single name `foo` |
| Scenarios.FormatFlagOverwritesStoredFormat | src/Admin/Routing/RouteAdmin.php:143-164 | a stored `_format` keeps its slot after the seeds but becomes required when `add_format_pattern` is on |

## Left out

- `configureListFields`, `configureFormFields` and `configureDatagridFilters` (src/Admin/Routing/RouteAdmin.php:44-103) are left out. They only register fields with Sonata's mapper builders, which are not part of this model. The schemas they pass to the widgets are modelled.
- `setRouteRoot` (src/Admin/Routing/RouteAdmin.php:105-112) is left out. It delegates to the parent admin and to PHPCR's `PathHelper`, neither of which is part of this model.
- `setContentRoot` and `getExportFormats` are left out. One is a plain field setter and the other returns a constant empty list.
- `toString` (src/Admin/Routing/RouteAdmin.php:208-214) is left out. It depends on the framework's translation lookup.
- tests/Resources/app/config/config_phpcr.php is left out. It is container configuration with no logic.
- The routing bundle's `Route` class is not part of this model. Only the fields and accessors the admin uses are modelled:
  - `getVariablePattern`;
  - `getOption`, which returns the stored option or null;
  - `getDefaults`/`setDefaults`;
  - `getOptions`.
- A null variable pattern is modelled as the empty string. Both are falsy, so the placeholder step skips both.
- TokenScan.IsWordChar: PCRE's `\w` is taken as the ASCII letters, digits and `_`. Locale or Unicode word characters are not modelled.
- PHP array keys are strings. PHP's conversion of numeric-string keys to integers is not modelled.
- Floating-point values are not among the modelled PHP values.
- Objects as values are not among the modelled PHP values either.
- The admin class's `translationDomain` property is kept only as the constant the descriptors carry.
- FieldSchema.Descriptor keeps only what each descriptor's options array sets: `required`, `label`, `placeholder` and `translation_domain`. The form type classes become the three `Widget` cases.
- The `PREG_OFFSET_CAPTURE | PREG_SET_ORDER` flags only shape `$matches`. The model keeps the matched text, the only part the loop reads.
- `_format` and `_locale` are never "added only if absent". The code assigns them unconditionally, which overwrites a stored or placeholder entry in its slot, and the model follows the code.
- A result of exactly the three seeds is guaranteed only when both options are off (Scenarios.BareDefaultsAreTheSeeds requires this). With either option on, the result also holds `_format` or `_locale`.
