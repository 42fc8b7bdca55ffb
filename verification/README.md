# CZ-s-FastAPI-Template: configuration, envelopes and error wrapper in Dafny

This project models the core of a FastAPI service scaffold:

- **Configuration** (`config.dfy`, module `Config`).
  - The process reads the active profile from `APP_ENV`, stripped, defaulting to `development`.
  - It loads the INI file into a `ConfigParser`.
  - `_apply_profile_overrides` copies every option of the section named like the profile, in iteration order.
    - A dotted key `section.option` goes into that section, which is created if absent.
    - Any other key goes into `DEFAULT`.
  - It refuses to start in `production` without a non-empty `SECRET_VARIABLE`.
  - It builds `Settings`. The environment takes precedence over the INI file, which takes precedence over the defaults.
  - The nested field `componentA` has a variable of its own, read as JSON. When it is set, it replaces the alias variables of `compA_variable`. A value that is not JSON, or that `ApConfig` rejects, makes `get_settings()` raise.
  - The parser is a class (`ConfigParser`) whose method `ApplyProfileOverrides` loops over the profile's options and updates it in place.
  - The method is proved against the function `Overrides`. The lemmas are about that function.
- **Response envelopes** (`schemas.dfy`, module `Schemas`).
  - The two-valued result status `"0"`/`"1"`.
  - The version fallback chain: settings, then `APP_VERSION`, then `"1.0.0"`.
  - Four pydantic models with their per-model defaults, whitespace stripping of supplied strings, and validation errors.
- **Exception wrappers** (`decorator.dfy`, module `Decorator`).
  - `_format_exc` renders a fault as `File "<f>", line <n>, in <fn>: [<Class>] <detail>`. A parser is proved to read that message back.
  - `handle_except` turns an `Exception` into the failure envelope with HTTP 500. Anything else propagates.
  - `async_handle_except` suspends where the handler does and ends like the sync wrapper.
- **Application entry** (`main_app.dfy`, module `MainApp`).
  - The production-only header check `required_headers`.
  - The runtime flags the CLI derives for the server.
- **Router1 helpers** (`utils_a.dfy`, module `UtilsA`): `function1` (strip, then lower) and `function2` (dict enrichment).
- **Handlers** (`endpoints.dfy`, module `Endpoints`): the bodies of the health endpoint and of the Router1 endpoint, under the wrapper. They are here for the finding below.
- **Support modules**:
  - `PyStr`: Python's `strip`, `lower`, `split(sep, 1)`, `join`, `str(int)`.
  - `Json`: JSON values.
  - `Wrappers`: `Option`, `Result`.

Where the code and its own documentation differ, the model follows the code:

- The override pass is not idempotent in general. A profile key that writes into the profile's own section, or into `DEFAULT` through an empty section part, changes what a second pass reads. `Config.SelfTargetBreaksIdempotence` exhibits the first case and `Config.EmptyPartBreaksIdempotence` the second. Idempotence is proved under the condition that no key does either.
- `Router1ResponseModel` inherits the base model's `msg` default `""`, not `"normal end"`.
- Its `data` must be a list.
- `Settings` declares no `app_version`. So the version is `APP_VERSION` when set, else `"1.0.0"`.
- Strings supplied to the response models are stripped of Unicode White_Space, the set pydantic's validator trims. This is not the set of Python's `str.strip()`, which the configuration and `function1` use: the separators U+001C to U+001F differ (`PyStr.SeparatorsDiffer`).
- The docstring of `ApConfig` promises environment over INI. Once the variable of the nested field `componentA` is set, though, the alias variables are no longer read: `componentA='{}'` gives the INI value even with `COMP_A_VARIABLE` set (`Config.NestedHidesAliases`).
- `Settings.app_env` takes the raw `APP_ENV` value when the variable is set. The profile uses the stripped value. A padded `" production"` therefore turns on the secret check but not the header check (`MainApp.PaddedProductionSkipsHeaders`).

## Model

| member | source | states |
|---|---|---|
| `PyStr.LStrip` | src/main/config/__init__.py:27 | the result is a suffix of the input; everything dropped is whitespace; it does not start with whitespace |
| `PyStr.RStrip` | src/main/config/__init__.py:27 | the result is a prefix of the input; everything dropped is whitespace; it does not end with whitespace |
| `PyStr.Strip` | src/main/config/__init__.py:27 | `str.strip()`: a slice with no whitespace at either end, and everything cut off on both sides is whitespace |
| `PyStr.TrimmedOfParts` | src/main/config/__init__.py:27 | a whitespace-only cut on the left, then one on the right, leaves a trimmed slice of the input |
| `PyStr.StripLeadingSpace` | src/main/config/__init__.py:27 | a leading whitespace character does not change the stripped value |
| `PyStr.SeparatorsDiffer` | src/main/schemas/base.py:33 | a trailing U+001C to U+001F is stripped by Python's `str.strip()` but kept by the validator's trim |
| `PyStr.SeparatorStripped` | src/main/config/__init__.py:27 | Python's `str.strip()` removes a trailing U+001C to U+001F |
| `PyStr.SeparatorKept` | src/main/schemas/base.py:33 | the validator's trim keeps a trailing U+001C to U+001F |
| `PyStr.StripKeepsTrimmed` | src/main/schemas/base.py:33 | stripping a string with no edge whitespace changes nothing |
| `PyStr.StripNoLeading` | src/main/schemas/base.py:33 | a string that does not start with whitespace strips like its `rstrip()` |
| `PyStr.RStripAppend` | src/main/utils/decorator.py:46 | rstrip of a concatenation is decided by the tail unless the tail is all whitespace |
| `PyStr.Lower` | src/main/utils/router1/utils_a.py:18 | same length, each character lower-cased |
| `PyStr.LowerAppend` | src/main/config/__init__.py:46-51 | lower-casing distributes over concatenation |
| `PyStr.LowerIsLower` | src/main/utils/router1/utils_a.py:18 | `lower()` yields a lower-case string and is idempotent |
| `PyStr.LowerOfLower` | src/main/main.py:108 | a lower-case string is its own `lower()` |
| `PyStr.LowerKeepsEdges` | src/main/utils/router1/utils_a.py:18 | lower-casing neither adds nor removes whitespace at the edges |
| `PyStr.LowerSlice` | src/main/config/__init__.py:47-48 | every slice of a lower-case string is lower-case |
| `PyStr.LowerIsNotDefault` | src/main/config/__init__.py:54 | no lower-case name equals `DEFAULT` |
| `PyStr.SplitOnce` | src/main/config/__init__.py:48 | `split(".", 1)`: absent iff no separator; otherwise the input is head + sep + rest with no sep in the head |
| `PyStr.SplitOnceOf` | src/main/config/__init__.py:48 | splitting undoes joining at the first separator |
| `PyStr.DropPrefix` | src/main/utils/decorator.py:46 | defined iff the input starts with the prefix, and then prefix plus result is the input |
| `PyStr.DropPrefixOf` | src/main/utils/decorator.py:46 | removing a prefix that was added gives back the rest |
| `PyStr.NatToString` | src/main/utils/decorator.py:46 | `str(lineno)` is a non-empty digit string |
| `PyStr.NatToStringRoundTrip` | src/main/utils/decorator.py:46 | reading the rendered line number back gives the number |
| `Config.PutFacts` | src/main/config/__init__.py:51-54 | an option write keeps the dict well formed, stores the value, and the last write wins |
| `Config.PutSame` | src/main/config/__init__.py:51-54 | writing an option's own value back changes nothing |
| `Config.LookupFrame` | src/main/config/__init__.py:45-46 | a section lookup depends only on the section's own value and DEFAULT's |
| `Config.Unshadowed` | src/main/config/__init__.py:46 | the inherited options are exactly the DEFAULT options the section does not override |
| `Config.UnshadowedDistinct` | src/main/config/__init__.py:46 | the inherited list has no repeats |
| `Config.UnshadowedAppend` | src/main/config/__init__.py:46 | adding an overridden option to DEFAULT leaves the inherited list as it was |
| `Config.Lookup` | src/main/config/__init__.py:45-46 | a profile option reads the section's own value when it has one, else DEFAULT's |
| `Config.Options` | src/main/config/__init__.py:45-46 | the snapshot starts with the section's own options; on a well-formed table it lists each option the section shows exactly once |
| `Config.SnapshotFacts` | src/main/config/__init__.py:45-46 | own options followed by the inherited ones have no repeats, are lower-case, and cover both dicts |
| `Config.OptionsFacts` | src/main/config/__init__.py:45-46 | `profile.items()` lists every option of the section exactly once, all lower-case |
| `Config.EnsureSection` | src/main/config/__init__.py:49-50 | the section exists afterwards; an existing one is left alone; no stored value changes |
| `Config.SetOption` | src/main/config/__init__.py:51-54 | the value lands at the lower-cased option of the section (DEFAULT for `""`); every other place and the set of sections are unchanged |
| `Config.ApplyOne` | src/main/config/__init__.py:47-54 | one step never removes an option from any section |
| `Config.DottedParts` | src/main/config/__init__.py:47-48 | both halves of a lower-case dotted key are lower-case and the section is never DEFAULT |
| `Config.ApplyOneWrites` | src/main/config/__init__.py:47-54 | a step keeps the table well formed and stores the value read at the key's target |
| `Config.ApplyOneDotted` | src/main/config/__init__.py:47-51 | a dotted key adds the section if absent and sets only that section's option; DEFAULT and other sections unchanged |
| `Config.ApplyOneUndotted` | src/main/config/__init__.py:52-54 | an undotted key sets `DEFAULT[key]`; all named sections unchanged |
| `Config.SectionPutFrame` | src/main/config/__init__.py:47-51 | writing one option of one named section leaves every other (section, option) place as it was |
| `Config.ApplyKeys` | src/main/config/__init__.py:46-54 | the loop never removes an option |
| `Config.Overrides` | src/main/config/__init__.py:42-54 | the override pass keeps the parser well formed |
| `Config.ApplyProfileOverrides` | src/main/config/__init__.py:42-54 | the in-place loop leaves the parser in the state `Overrides` describes |
| `Config.ApplyKey` | src/main/config/__init__.py:47-54 | one loop iteration performs exactly `ApplyOne` on the parser |
| `Config.ConfigParser.constructor` | src/main/config/__init__.py:32-33 | a parser over a well-formed table holds that table |
| `Config.MissingProfileIsNoOp` | src/main/config/__init__.py:43-44 | with no section named like the profile, nothing changes |
| `Config.TargetOfDotted` | src/main/config/__init__.py:47-48 | `a.b.c` targets option `b.c` of section `a` |
| `Config.DottedKeyIsLowerCased` | src/main/config/__init__.py:46-51 | a dotted key is read lower-cased, so it targets the lower-cased section |
| `Config.ApplyKeysAppend` | src/main/config/__init__.py:46 | the loop over `keys + [k]` is the loop over `keys` followed by one step for `k` |
| `Config.LastKeyWins` | src/main/config/__init__.py:46-54 | after the loop, the last key's target holds the value that key read |
| `Config.ApplyKeysOk` | src/main/config/__init__.py:46-54 | the loop keeps the table well formed |
| `Config.ApplyOneKeepsSection` | src/main/config/__init__.py:47-54 | a step never changes a section whose name has an upper-case letter |
| `Config.ApplyKeysKeepsSection` | src/main/config/__init__.py:46-54 | neither does the loop |
| `Config.UpperCaseSectionUntouched` | src/main/config/__init__.py:56-59 | the overrides can never reach `[ComponentA]` or any other mixed-case section |
| `Config.TargetInjective` | src/main/config/__init__.py:47-54 | distinct keys that do not reach the profile have distinct targets |
| `Config.TargetsOf` | src/main/config/__init__.py:47-54 | every written place is the target of some key |
| `Config.TargetNotAgain` | src/main/config/__init__.py:46-54 | a key's target is not written again by later distinct keys |
| `Config.TargetShape` | src/main/config/__init__.py:47-54 | an independent key never writes the profile section; a DEFAULT target comes from an undotted key |
| `Config.ApplyOneEffect` | src/main/config/__init__.py:47-54 | an independent step writes exactly its target and leaves the profile's own and inherited options alone |
| `Config.DottedEffect` | src/main/config/__init__.py:47-51 | a dotted independent step writes only its target; DEFAULT unchanged |
| `Config.UndottedEffect` | src/main/config/__init__.py:52-54 | an undotted step writes only its target; the profile's inherited list is unchanged |
| `Config.StepKeepsLookup` | src/main/config/__init__.py:46-54 | an independent step does not change the profile's value for any other key |
| `Config.ApplyKeysEffect` | src/main/config/__init__.py:46-54 | the loop over independent keys writes each target with its key's value and nothing else |
| `Config.LookupsStable` | src/main/config/__init__.py:45-54 | after the loop the profile shows the same values as before |
| `Config.ApplyKeysNoop` | src/main/config/__init__.py:46-54 | a loop whose every target already holds its key's value changes nothing |
| `Config.OverridesIdempotent` | src/main/config/__init__.py:42-56 | applying the overrides twice equals applying them once, when no key writes where the profile reads |
| `Config.SelfTargetingOk` | src/main/config/__init__.py:45-46 | the example table is well formed and its profile lists `x`, `p.x` |
| `Config.TwoStepPass` | src/main/config/__init__.py:46-54 | on such a profile, the pass copies `x` into DEFAULT and `p.x` into the profile's own `x` |
| `Config.FirstStep` | src/main/config/__init__.py:52-54 | the undotted step only updates DEFAULT |
| `Config.SecondStep` | src/main/config/__init__.py:47-51 | the self-targeting step only updates the profile section |
| `Config.SelfTargetBreaksIdempotence` | src/main/config/__init__.py:42-56 | a well-formed table on which a second pass differs from the first |
| `Config.ExampleOptionsAfterPass` | src/main/config/__init__.py:45-46 | after a pass the profile still lists `x`, `p.x` |
| `Config.UnshadowedByNothing` | src/main/config/__init__.py:46 | a section without options inherits DEFAULT's options in order |
| `Config.EmptyPartStep` | src/main/config/__init__.py:47-51 | under an empty profile, a key `.o` copies its value into `DEFAULT[o]` and the profile stays empty |
| `Config.EmptyPartKeysHold` | src/main/config/__init__.py:48 | `.x` splits into `""` and `x`, `..x` into `""` and `.x` |
| `Config.EmptyPartTableOk` | src/main/config/__init__.py:32-33 | the example table is well formed |
| `Config.OverridesOfEmptyProfile` | src/main/config/__init__.py:43-46 | a profile without options of its own applies DEFAULT's options in order |
| `Config.DottedPairSteps` | src/main/config/__init__.py:46-51 | `.x` then `..x` at the head of the loop write `DEFAULT[x]`, then `DEFAULT[.x]` |
| `Config.FirstPassSteps` | src/main/config/__init__.py:46-54 | on the example, one loop adds `x` to DEFAULT with `.x`'s old value and gives `.x` the value of `..x` |
| `Config.SecondPassSteps` | src/main/config/__init__.py:46-54 | on the result, the next loop ends with `DEFAULT[x]` holding the new `.x` |
| `Config.EmptyPartFirstPass` | src/main/config/__init__.py:42-56 | the first pass on the example, as a table fact |
| `Config.EmptyPartSecondPass` | src/main/config/__init__.py:42-56 | the second pass on the result, as a table fact |
| `Config.EmptyPartBreaksIdempotence` | src/main/config/__init__.py:42-56 | with DEFAULT `.x = 0`, `..x = 1` and an empty profile, `DEFAULT[x]` is `0` after one pass and `1` after two |
| `Config.ActiveProfile` | src/main/config/__init__.py:27 | the profile is `APP_ENV` stripped, or `development` when unset |
| `Config.SecretGate` | src/main/config/__init__.py:64-66 | startup fails iff the profile is `production` and the secret is unset or empty |
| `Config.AliasValue` | src/main/config/__init__.py:79-83 | the value of the first alias that is set; none iff no alias is set |
| `Config.SingleAlias` | src/main/config/__init__.py:99-108 | a single-alias field reads exactly that variable |
| `Config.IniCompAVariable` | src/main/config/__init__.py:59-80 | the INI default is `[ComponentA] compa_variable` (section or DEFAULT), else `""` |
| `Config.CompAVariable` | src/main/config/__init__.py:79-83 | `COMP_A_VARIABLE`, then `COMPA_VARIABLE`, then the INI value |
| `Config.NestedAlias` | src/main/config/__init__.py:82 | the first alias of `compA_variable` present in a JSON object; none iff neither is present |
| `Config.ComponentA` | src/main/config/__init__.py:79-111 | unset variable: the import-time `ApConfig()`; undecodable: a source error; otherwise a JSON object whose first alias key holds a string gives that string, no alias key gives the INI value, anything else is a validation error under `componentA` |
| `Config.BuildSettings` | src/main/config/__init__.py:94-111 | fails exactly when `componentA` does, with its error; otherwise each field comes from its variable when set, else from its import-time default |
| `Config.GetSettings` | src/main/config/__init__.py:130-133 | success is passed through; a validation failure becomes a configuration error at the same location; any other error propagates |
| `Config.ResolveSettings` | src/main/config/__init__.py:27-133 | a missing file fails; otherwise start-up fails iff the production secret is missing or the `componentA` variable is invalid, and succeeds with the settings built over the merged table |
| `Config.Start` | src/main/config/__init__.py:56-133 | fails iff the secret gate or the `componentA` variable fails, the gate first; a success is the settings built over the table with the profile merged in |
| `Config.LoadSettings` | src/main/config/__init__.py:27-133 | the import-time sequence, in place on the parser, yields exactly `ResolveSettings` |
| `Config.BuildReadsIni` | src/main/config/__init__.py:79-111 | with no variable for `compA_variable` in effect, the settings build and hold the INI value |
| `Config.BuildIgnoresTable` | src/main/config/__init__.py:79-111 | otherwise no field of the settings depends on the table |
| `Config.StartupOutcome` | src/main/config/__init__.py:33-133 | the missing production secret is reported before the `componentA` variable; an undecodable variable propagates, a rejected one becomes a configuration failure; a success holds the secret as read |
| `Config.NestedHidesAliases` | src/main/config/__init__.py:79-111 | with `COMP_A_VARIABLE` set, `compA_variable` is its value, but the INI value once `componentA` is set to `{}` |
| `Config.NestedNonStringFails` | src/main/config/__init__.py:130-133 | a non-string under an alias key makes start-up fail with a configuration failure at `componentA.COMP_A_VARIABLE` |
| `Config.EnvironmentWins` | src/main/config/__init__.py:75-111 | when a variable decides `compA_variable`, the INI file cannot change the settings |
| `Schemas.StatusOf` | src/main/schemas/base.py:27-29 | a code names a member iff it is `"0"` or `"1"`, and that member has that code |
| `Schemas.StatusCodes` | src/main/schemas/base.py:27-29 | each member round-trips through its code; the codes differ |
| `Schemas.EnvVersion` | src/main/schemas/base.py:24 | `APP_VERSION` when set (even empty), else `"1.0.0"` |
| `Schemas.ResolveVersion` | src/main/schemas/base.py:15-24 | a truthy settings value wins; otherwise (including a raised lookup) the environment fallback; `""` only from an empty `APP_VERSION` |
| `Schemas.VersionInPractice` | src/main/schemas/base.py:15-24 | since `Settings` has no `app_version`, the version is always the environment fallback |
| `Schemas.StrField` | src/main/schemas/base.py:33 | a supplied string is stripped of Unicode White_Space; the default is used unchanged |
| `Schemas.Construct` | src/main/schemas/base.py:32-72 | construction succeeds iff status and data validate; errors name the failing fields; defaults, stripping and the payload round-trip |
| `Schemas.Defaults` | src/main/schemas/router1/responsemodels.py:14-19 | the defaults of all four models, including Router1's `""` message and empty list |
| `Schemas.ErrorEnvelopeBuilds` | src/main/schemas/base.py:64-72 | the error model with a message always builds, status `ng`, message stripped |
| `Schemas.Router1DataIsList` | src/main/schemas/router1/responsemodels.py:14-19 | an object or null `data` fails Router1 validation on `data` |
| `Decorator.Detail` | src/main/utils/decorator.py:39 | the first argument, or `""` with none |
| `Decorator.FormatExc` | src/main/utils/decorator.py:34-46 | the innermost frame's location before `[Class] detail`, or no location without a traceback |
| `Decorator.ClassifiedRoundTrip` | src/main/utils/decorator.py:42 | `[Class] detail` parses back to class and detail |
| `Decorator.FileRoundTrip` | src/main/utils/decorator.py:46 | the file part parses back |
| `Decorator.LineRoundTrip` | src/main/utils/decorator.py:46 | the line part parses back |
| `Decorator.FunctionRoundTrip` | src/main/utils/decorator.py:46 | the function part parses back |
| `Decorator.LocationRoundTrip` | src/main/utils/decorator.py:44-46 | the whole location prefix parses back to the frame |
| `Decorator.MessageRoundTrip` | src/main/utils/decorator.py:34-46 | every message `_format_exc` builds parses back to location, class and detail |
| `Decorator.StrippedRoundTrip` | src/main/utils/decorator.py:60-64 | the stripped message, as the envelope stores it, parses back with the detail right-stripped |
| `Decorator.BareClassifiedRoundTrip` | src/main/utils/decorator.py:42 | `[Class]` with an empty detail stripped away still parses |
| `Decorator.ReadBack` | src/main/utils/decorator.py:44-46 | after a readable location, parsing the message comes down to parsing its `[Class] detail` part |
| `Decorator.ClassifiedShape` | src/main/utils/decorator.py:42 | `[Class] detail` is the bracketed class, one space, then the detail; a message starts with `F` or `[` |
| `Decorator.RStripAfterSpace` | src/main/utils/decorator.py:42 | right-stripping after `] ` only touches the detail, and an all-whitespace detail takes the space with it |
| `Decorator.StripClassified` | src/main/utils/decorator.py:42-46 | stripping a location plus `[Class] detail` only right-strips the detail |
| `Decorator.StripMessage` | src/main/utils/decorator.py:60-64 | the stripped message is the message built from the right-stripped detail, or ends at `]` when the detail is blank |
| `Decorator.FailureEnvelope` | src/main/utils/decorator.py:60-64 | an error envelope with code `"1"` and the message stripped |
| `Decorator.FailureEnvelopeIsModel` | src/main/utils/decorator.py:61-64 | it is exactly what the error model builds from `status_code=ng, msg=err_msg` |
| `Decorator.HandleExcept` | src/main/utils/decorator.py:49-67 | a return passes through; an `Exception` becomes the 500 failure envelope; anything else propagates |
| `Decorator.AsyncHandleExcept` | src/main/utils/decorator.py:70-87 | the async wrapper suspends exactly where the handler does and ends as the sync wrapper would |
| `Decorator.FailureMessageReadable` | src/main/utils/decorator.py:55-65 | the 500 response's message names the innermost frame, the class and the detail |
| `UtilsA.Function1` | src/main/utils/router1/utils_a.py:13-20 | no edge whitespace, no upper case, and a trimmed slice of the lower-cased input |
| `UtilsA.Function1Idempotent` | src/main/utils/router1/utils_a.py:18 | `function1(function1(s)) == function1(s)` |
| `UtilsA.LowerOfStrip` | src/main/utils/router1/utils_a.py:18 | `arg.strip().lower()` has no edge whitespace, no upper case, and is a trimmed slice of `arg.lower()` |
| `UtilsA.LowerTrimmed` | src/main/utils/router1/utils_a.py:18 | lower-casing a trimmed slice gives the same slice of the lower-cased string |
| `UtilsA.Function2` | src/main/utils/router1/utils_a.py:23-30 | keys are the input's plus `processed`, which maps to true; other entries unchanged |
| `UtilsA.Function2Idempotent` | src/main/utils/router1/utils_a.py:28 | enriching twice equals enriching once |
| `MainApp.MissingNames` | src/main/main.py:38 | each name is listed iff its header is missing, in the order `header_1`, `header_2` |
| `MainApp.RequiredHeaders` | src/main/main.py:28-44 | outside `production` never fails; in `production` fails iff a header is missing, with 400 and the joined names |
| `MainApp.MissingDetails` | src/main/main.py:39-43 | the three possible details by which headers are missing |
| `MainApp.PaddedProductionSkipsHeaders` | src/main/main.py:37 | a padded `production` value turns on the secret check but not the header check |
| `MainApp.PaddedProfile` | src/main/config/__init__.py:27 | any profile name with a space in front selects that profile while differing from it, as `" production"` does |
| `MainApp.IsDev` | src/main/main.py:108 | development iff `app_env` matches `development` letter by letter, ignoring ASCII case |
| `MainApp.RuntimeFlags` | src/main/main.py:108-123 | reload iff lower-cased `app_env` is `development`, then one worker; otherwise the configured workers; literal fallbacks; lower-case log level |
| `MainApp.DefaultRuntime` | src/main/main.py:109-112 | with the settings as declared: `0.0.0.0:8000`, level `info`, 1 or 2 workers |
| `MainApp.DefaultProfileIsDev` | src/main/main.py:108 | the default profile counts as development |
| `Endpoints.HandleResp` | src/main/utils/resp_util.py:13-17 | the response carries the envelope with status 200 |
| `Endpoints.Healthy` | src/main/routers/monitor.py:17-24 | a passing probe answers 200 with the success envelope at the call's version; an `Exception` from the probe answers 500; anything else propagates unchanged |
| `Endpoints.HealthyVersion` | src/main/routers/monitor.py:19-24 | the health answer carries `APP_VERSION`, or `"1.0.0"` when unset, whatever the settings |
| `Endpoints.Router1PostAsWritten` | src/main/routers/router1.py:27-38 | as written, whenever the handler answers it answers 500; it raises only for a non-`Exception` fault before the return |
| `Endpoints.Router1Post` | src/main/routers/router1.py:27-38 | corrected, a successful run answers 200 with the payload as the only item; earlier faults are handled as by the wrapper |
| `Endpoints.Build` | src/main/routers/router1.py:38 | a model that validates gives its 200 response; one that fails raises a `ValidationError` |
| `Endpoints.HealthyAnswer` | src/main/routers/monitor.py:19-24 | a passing probe answers 200 with status ok, `"normal end"` and no data |
| `Endpoints.Router1AlwaysFails` | src/main/routers/router1.py:38 | as written, a successful run still answers 500 |
| `Endpoints.Router1Succeeds` | src/main/routers/router1.py:38 | with the payload in a list, a successful run answers 200 with the payload as its one item |
| `Endpoints.EarlierFaultsAlike` | src/main/routers/router1.py:32-36 | faults before the return are handled the same in both versions |

## Left out

- Reading the file and `.env` loading. The parsed table is a parameter. A missing file is an input flag.
- INI interpolation (`ExtendedInterpolation`): stored values are taken as final text. A `${...}` reference is not expanded.
- `Config.StartupOutcome`: does not promise that start-up fails on interpolation errors. Reading a profile value that refers to a missing option raises `InterpolationMissingOptionError`, and writing a value with a bare `$` (such as `pa$$word`, read as `pa$word`) back through `parser.set` or `parser["DEFAULT"][key]` raises `ValueError`. The model lets both succeed.
- `Config.Overrides`: does not model those same two interpolation errors of the loop; every profile key is copied.
- `Config.ResolveSettings` and `Config.Start`: do not promise the interpolation failures above either.
- `lru_cache` on `get_settings`, and logging: no observable effect on results.
- The import-time rebinding of `ComponentA_cfg` is modelled only through the final table it reads.
- `PyStr.Lower`: maps ASCII letters only, not Unicode case folding.
- `ConfigParser` treats option names case-insensitively by lower-casing them, and the model does the same. Section names are case-sensitive, as in the source.
- Environment variable names are compared exactly; pydantic-settings' case-insensitive matching is not modelled. The variable for the nested field is taken under its field name `componentA`, as a parameter.
- `Config.ComponentA`: a JSON object is checked only under the two alias keys, and a decoded value is taken as already decoded; JSON parsing itself is not modelled.
- `int(...)` and `str(...)` conversions of server attributes are modelled as already converted values.
- `Decorator.FormatExc`: exception arguments are modelled as strings already rendered by `str`.
- `Decorator.MessageRoundTrip`: readability is shown only for names without `]` (class), `"` (file) or `:` (function).
- `Config.OverridesIdempotent`: stated only when no profile key writes into the profile section or into DEFAULT through an empty section part. `Config.SelfTargetBreaksIdempotence` and `Config.EmptyPartBreaksIdempotence` show the general claim is false.
- JSON encoding by the framework (`jsonable_encoder`, `JSONResponse`): a response is the envelope and the status code.
- FastAPI wiring: routing, CORS, startup and shutdown hooks, and the server process itself.
- The database layer, the services and the request model: placeholder code outside this model.
- `router1.py` imports a name that the utilities module does not define. The model assumes the calls before the return end as a given outcome.
- Pydantic's text for a validation error is a parameter. `Config.GetSettings` keeps the error's location instead of the rendered `Configuration validation failed: ...` text.

## Findings

| source | as written | input that shows it | evidently intended | confidence | as-written member | corrected member |
|---|---|---|---|---|---|---|
| src/main/routers/router1.py:38 | `Router1ResponseModel(data={"message": "success"})` passes a dict to a field typed as a list | any request whose earlier calls succeed | the payload is wrapped in a list, `data=[{"message": "success"}]`, and the endpoint answers 200 | not executed | `Endpoints.Router1AlwaysFails` | `Endpoints.Router1Succeeds` |
