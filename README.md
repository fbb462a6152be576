# bluerov2_ignition: the SDF model generator

`scripts/generate_model.py` builds the simulator's model file for the BlueROV2:

1. it reads a YAML description of the vehicle;
2. it turns that description into a `ModelParams` object;
3. it merges the object's attributes with the script's module globals;
4. it replaces every `@name` in an SDF template with the value of `name`.

This project models that pipeline, starting from the parsed YAML document. It proves what the script promises about:

- the substitution pass;
- the merge;
- the per-thruster attributes and command topics;
- the control multipliers and the preconditions of the thrust-to-speed conversion;
- the defaulting of the optional configuration blocks.

Modules, in dependency order:

| module | file | models |
|---|---|---|
| `Wrappers` | wrappers.dfy | `Option` and `Result` |
| `Decimal` | decimal.dfy | `str` on integers (thruster numbers and int placeholders) |
| `Values` | values.dfy | parameter values (int, float, bool, str, other objects); the exceptions; Python's `+`, `*` and `/` on numbers; the text that replaces a placeholder |
| `Template` | template.dfy | `re.sub(r"@(\w+)", ...)`: the substitution pass, a declarative decomposition of a template into literal characters and placeholders, and the proofs that relate the two |
| `Control` | control.dfy | `thrust_to_ang_vel` and the choice of the two control multipliers |
| `Thrusters` | thrusters.dfy | the `thruster<n>_x/_y/_z/_topic` attributes and the topic strings |
| `ModelParameters` | model_params.dfy | `ModelParams.__init__`: the attribute map it builds, and a class whose `Init` method runs the assignments and the thruster loop in place |
| `Configuration` | config.dfy | `get_model_params_from_config` on a parsed YAML tree: the required lookups, the collision box, the five optional blocks with their defaults, and the arguments passed to `ModelParams` |
| `Generator` | generator.dfy | `generate_model`: the merge `vars(obj) \| globals()`, the substitution, and the write to the output file |

Two facts about the code that a reader might expect otherwise:

- **Merge precedence.** `vars(obj) | globals()` (scripts/generate_model.py:330) lets a module global shadow an attribute of the same name. `Generator.MergeOverride` states this.
- **Fluid density.** `ModelParams.__init__` calls `thrust_to_ang_vel` without a density (scripts/generate_model.py:182, 186), so the conversion uses that function's default of 998. The collision box (scripts/generate_model.py:233) and the drag estimate (scripts/generate_model.py:270-275) use the global `fluid_density`, 1000.0. `Control.DefaultFluidDensity` and `Configuration.FluidDensity` hold the two values.

## Model

| member | source | states |
|---|---|---|
| Values.Double | scripts/generate_model.py:190-191 | `max_thrust * 2` is twice the number and keeps its int or float type |
| Values.Add | scripts/generate_model.py:228 | `mass + buoyancy_adjustment` succeeds exactly for two numbers and is their sum; int + int is an int, anything else a float; a non-number is a `TypeError` |
| Values.Mul | scripts/generate_model.py:233 | `bounding_x * bounding_y * fluid_density` succeeds exactly for numbers and is their product, typed as Python types it; a non-number is a `TypeError` |
| Values.Div | scripts/generate_model.py:233 | true division: a non-number is a `TypeError`; a zero divisor is a `ZeroDivisionError`; two numbers with a non-zero divisor always succeed, with a float whose product with the divisor is the dividend |
| Values.Render | scripts/generate_model.py:338-342 | no contract of its own. `Generator.SinglePlaceholder` states that a placeholder is replaced by it, and `Values.RenderIntReadsBack` states what an int becomes |
| Values.RenderIntReadsBack | scripts/generate_model.py:338-342 | an int renders as its decimal numeral, which reads back as the number: digits only when non-negative, a minus sign then the magnitude's digits when negative |
| Decimal.IntToString | scripts/generate_model.py:338-342 | `str` of an int is never empty, is the digits of the number, and has a leading minus sign exactly for negatives |
| Decimal.NatToString | scripts/generate_model.py:200 | the numeral of a thruster number is a non-empty string of digits with no leading zero |
| Decimal.NatToStringRoundTrip | scripts/generate_model.py:200 | reading back the numeral of a thruster number gives that number |
| Decimal.NatToStringInjective | scripts/generate_model.py:200 | distinct numbers have distinct numerals |
| Template.WordRun | scripts/generate_model.py:333 | `\w+` is greedy: the run is all word characters and is followed by a non-word character or the end |
| Template.Substitute | scripts/generate_model.py:333-344 | the only exception the pass raises is a `KeyError` for a name the map lacks. Its full behaviour is stated by `Template.SubstituteIsExpand`, `Template.SubstituteFails`, `Template.NoPlaceholderUnchanged` and `Template.LongestName` |
| Template.Tokenize | scripts/generate_model.py:333-344 | the decomposition the pass finds is well formed: names are maximal runs, and a literal `@` is never followed by a word character. It spells the template exactly |
| Template.TokenizeUnique | scripts/generate_model.py:333 | every well-formed decomposition of a text is the one the pass finds, so the placeholders of a template are determined by its text |
| Template.SubstituteIsExpand | scripts/generate_model.py:336-344 | the pass equals the piece-by-piece expansion: literal characters are copied in order, and each placeholder becomes its rendered value |
| Template.ExpandFails | scripts/generate_model.py:338-342 | the expansion fails exactly when some placeholder is undefined, and the error names the leftmost undefined one |
| Template.SubstituteFails | scripts/generate_model.py:336-344 | the pass raises `KeyError` exactly when one of the template's placeholders is missing from the map, and it names the leftmost missing one |
| Template.NoPlaceholderUnchanged | scripts/generate_model.py:333-344 | a template with no `@` followed by a word character comes back unchanged, whatever the map |
| Template.CopiedChar | scripts/generate_model.py:333-344 | a character that does not start a placeholder is copied, and scanning resumes right behind it |
| Template.LongestName | scripts/generate_model.py:333-343 | a name followed by a non-word character is looked up whole. A missing name raises `KeyError(name)`. A present name's rendered value is inserted, and the pass continues behind the name |
| Template.MassXExample | scripts/generate_model.py:333-339 | `@mass_x` looks up `mass_x`, never `mass` |
| Template.DoubleAtExample | scripts/generate_model.py:333 | `@@x` keeps the first `@` and substitutes `@x` |
| Template.NoReexpansionExample | scripts/generate_model.py:336-344 | a value reading `@foo` appears literally: substituted text is not rescanned |
| Control.ThrustToAngVel | scripts/generate_model.py:61-85 | no contract of its own. `Control.ThrustToAngVelOutcome` states when it fails and with which exception; `Control.ThrustToAngVelSolvesFossen` and `Control.ThrustToAngVelMonotone` state what it computes |
| Control.PowSign | scripts/generate_model.py:84 | a power of a non-zero base is non-zero; even powers are positive, and odd powers keep the sign of the base |
| Control.ThrustToAngVelOutcome | scripts/generate_model.py:81-85 | with a positive density the conversion succeeds exactly when thrust >= 0, coefficient > 0 and diameter != 0. A negative thrust or coefficient fails its `assert`, in that order, and a zero coefficient or diameter divides by zero |
| Control.ThrustToAngVelSolvesFossen | scripts/generate_model.py:83-85 | a successful conversion gives a non-negative speed n with density * coefficient * diameter^4 * n^2 = thrust |
| Control.ThrustToAngVelMonotone | scripts/generate_model.py:83-85 | more thrust never needs less rotation |
| Control.ControlMultipliers | scripts/generate_model.py:180-191 | thrust control: both multipliers equal `max_thrust * 2`, with its type kept. Angular-velocity control: the conversion's failure is raised; otherwise ccw is twice the speed and cw is its negation |
| Control.DefaultAngVelMultipliers | scripts/generate_model.py:108-110 | the signature's defaults (full thrust 50, diameter 0.1, coefficient 0.02) give opposite, non-zero angular-velocity multipliers |
| Thrusters.Topic | scripts/generate_model.py:200-205 | no contract of its own. `Thrusters.TopicInjective` and `Thrusters.TopicSuffix` state its properties, and `Thrusters.ThrusterAttrsAt` states that each thruster's `topic` attribute holds it |
| Thrusters.ThrusterKey | scripts/generate_model.py:196-207 | no contract of its own. `Thrusters.ThrusterKeyInjective`, `Thrusters.ThrusterKeysShape` and `Generator.ThrusterKeyIsName` state its properties |
| Thrusters.ThrusterEntry | scripts/generate_model.py:196-207 | no contract of its own. `ModelParameters.ThrusterEntryByUpdates` proves the four `setattr` calls equal to it, and `Thrusters.EntryMissesEarlier` states which names it leaves alone |
| Thrusters.ThrusterAttrs | scripts/generate_model.py:193-207 | no contract of its own. `Thrusters.ThrusterAttrsContents` states its contents, and `ModelParameters.ModelParams.AddThrusters` proves the loop equal to it |
| Thrusters.ThrusterKeyInjective | scripts/generate_model.py:196-207 | distinct (thruster number, field) pairs give distinct attribute names |
| Thrusters.TopicInjective | scripts/generate_model.py:200 | distinct thrusters get distinct topics |
| Thrusters.TopicSuffix | scripts/generate_model.py:200-205 | a topic ends in `cmd_vel` under angular-velocity control and in `cmd_thrust` otherwise |
| Thrusters.ThrusterKeysShape | scripts/generate_model.py:196-207 | every attribute name the loop adds is `thruster` followed by a digit |
| Thrusters.ThrusterKeysMember | scripts/generate_model.py:193-207 | thruster m's names are among those of thrusters 1 to n exactly when 1 <= m <= n |
| Thrusters.ThrusterKeysCount | scripts/generate_model.py:193-207 | thrusters 1 to n have exactly 4n attribute names |
| Thrusters.EntryMissesEarlier | scripts/generate_model.py:193-207 | a later pass of the loop never overwrites an earlier thruster's attribute |
| Thrusters.ThrusterAttrsAt | scripts/generate_model.py:193-207 | thruster n (1-based, in declaration order) holds its x, y and z and the topic `/model/<name>/joint/thruster<n>_joint/cmd_vel` (or `cmd_thrust`) |
| Thrusters.ThrusterAttrsKeys | scripts/generate_model.py:193-207 | the loop adds exactly the names of thrusters 1 to N |
| Thrusters.ThrusterAttrsContents | scripts/generate_model.py:193-207 | the loop leaves 4N attributes: each thruster's position and topic and nothing else, so there are exactly as many topics as thrusters |
| ModelParameters.DefaultedArgs | scripts/generate_model.py:105-112 | the eight trailing parameters take their declared defaults, and each of the twelve leading arguments is passed through unchanged |
| ModelParameters.BaseAttrs | scripts/generate_model.py:114-177 | no contract of its own. `ModelParameters.BaseKeysPlain`, `ModelParameters.BaseAttrsName` and `ModelParameters.BaseAttrsFlag` state its properties |
| ModelParameters.InstanceAttrs | scripts/generate_model.py:114-207 | no contract of its own. `ModelParameters.InstanceAttrsContents` and `ModelParameters.InstanceAttrsFailure` state its contents and its failures, and `ModelParameters.ModelParams.Init` proves the in-place `__init__` equal to it |
| ModelParameters.ThrusterAttrsStep | scripts/generate_model.py:193-207 | each pass of the loop adds one thruster's entry |
| ModelParameters.ThrusterEntryByUpdates | scripts/generate_model.py:196-207 | the four `setattr` calls of one pass amount to adding that thruster's entry |
| ModelParameters.BaseKeysPlain | scripts/generate_model.py:114-177 | no attribute set before the multipliers has the name of a multiplier or of a thruster attribute, so none is overwritten later |
| ModelParameters.LayersContents | scripts/generate_model.py:179-207 | after the multipliers and the loop, the earlier attributes are intact, the multipliers are present, and each thruster's position and topic are present; topic names exist exactly for 1..N |
| ModelParameters.InstanceAttrsFailure | scripts/generate_model.py:180-188 | `__init__` raises exactly under angular-velocity control with a negative full thrust or coefficient (an `AssertionError`), or a zero coefficient or diameter (a `ZeroDivisionError`); thrust control never raises |
| ModelParameters.InstanceAttrsContents | scripts/generate_model.py:114-207 | a finished object keeps every attribute set before the loop, holds the multipliers chosen by the control method, and holds each thruster's position and topic; topic names exist exactly for thrusters 1..N |
| ModelParameters.BaseAttrsName | scripts/generate_model.py:114 | `model_name` holds the name in double quotes |
| ModelParameters.BaseAttrsFlag | scripts/generate_model.py:161 | `use_angvel_cmd` holds `bool(use_angvel_cmd)` |
| ModelParameters.ModelParams.constructor | scripts/generate_model.py:88-91 | a new object has no attributes |
| ModelParameters.ModelParams.Init | scripts/generate_model.py:91-207 | `__init__` adds the attribute map of `InstanceAttrs`, or raises that function's exception after the attributes before line 179 are set |
| ModelParameters.ModelParams.AddThrusters | scripts/generate_model.py:193-207 | the loop adds exactly the thruster attributes of `ThrusterAttrs`, numbering from 1 in declaration order |
| ModelParameters.ModelParams.AddThruster | scripts/generate_model.py:194-207 | one pass sets x, y, z and the topic built by `+=` of the control suffix |
| Configuration.Get | scripts/generate_model.py:222 | `node[key]` succeeds exactly on a mapping with the key; a missing key is `KeyError(key)`, a non-mapping a `TypeError` |
| Configuration.Entries | scripts/generate_model.py:237-241 | a tuple of lookups has one value per key, each the value at that key. It fails with a `KeyError` for a listed key the mapping lacks, or with a `TypeError` |
| Configuration.Block | scripts/generate_model.py:236-241 | a block read succeeds only on a present block, giving each key's value; a `KeyError` means the block or one of its keys is missing |
| Configuration.ExceptKeyError | scripts/generate_model.py:242 | `except KeyError` replaces a `KeyError` by the fallback and lets every other outcome stand |
| Configuration.Zeros | scripts/generate_model.py:258 | the zero default is a tuple of integer zeros of the given length |
| Configuration.CollisionBox | scripts/generate_model.py:222-234 | a computed collision box has three numeric sides, the third a float |
| Configuration.CollisionBoxOutcome | scripts/generate_model.py:222-234 | the box has the bounding box's base and the height at which it displaces, at density 1000, the mass plus the buoyancy adjustment |
| Configuration.CollisionBoxKeys | scripts/generate_model.py:222-228 | a computed box has read the mass, the buoyancy adjustment and the bounding box's x, y and z |
| Configuration.CollisionBoxFlat | scripts/generate_model.py:233 | a bounding box with x = 0 raises `ZeroDivisionError` |
| Configuration.DefaultInertia | scripts/generate_model.py:243-246 | the cuboid inertia has three float components |
| Configuration.DefaultInertiaNonNegative | scripts/generate_model.py:243-246 | for a non-negative mass every component of the cuboid inertia is non-negative |
| Configuration.DefaultQuadraticDrag | scripts/generate_model.py:270-277 | the drag estimate succeeds exactly when the bounding box height is a number, and then has six float terms |
| Configuration.DefaultQuadraticDragDamps | scripts/generate_model.py:270-277 | for positive box sides every estimated drag term is negative |
| Configuration.OptionalBlocks | scripts/generate_model.py:236-298 | the five blocks yield tuples of lengths 3, 6, 6, 6 and 3 |
| Configuration.EntriesOutcome | scripts/generate_model.py:237-241 | on a mapping of scalars, the lookups give the values in order when all keys are present, and a `KeyError` otherwise |
| Configuration.OptionalBlockAllOrNothing | scripts/generate_model.py:248-258 | a block that is missing, or lacks any key, takes its whole default; otherwise every value is read, in order |
| Configuration.OptionalBlocksNeverKeyError | scripts/generate_model.py:236-298 | the optional blocks never raise a `KeyError` |
| Configuration.BlockDefaulted | scripts/generate_model.py:236-298 | a block that succeeds has read all its keys when they are present, and has its default otherwise |
| Configuration.OptionalBlocksContents | scripts/generate_model.py:236-298 | defaults are the cuboid inertia, zero linear drag, the bounding-box drag estimate, zero added mass and zero current; each block is read or defaulted in full |
| Configuration.ThrusterPositions | scripts/generate_model.py:319-322 | each thruster gives a triple, one per listed thruster |
| Configuration.Positions | scripts/generate_model.py:319-322 | a list of thrusters gives one triple per thruster |
| Configuration.PositionsContents | scripts/generate_model.py:319-322 | the n-th triple holds the n-th thruster's x, y and z |
| Configuration.LoadArgs | scripts/generate_model.py:222-324 | the arguments passed to `ModelParams` are exactly the built tuples: three entries for the collision box, the centres, the inertia and the current, six for each drag and the added mass, three per thruster |
| Configuration.NameText | scripts/generate_model.py:301 | no contract of its own. `Configuration.LoadArgsContents` states that the loaded name is its text of `config["model_name"]` |
| Configuration.Truthy | scripts/generate_model.py:323 | no contract of its own. `Configuration.LoadArgsContents` states that the control flag is its truth value of `config["control_method"]` |
| Configuration.ModelParamsFromConfig | scripts/generate_model.py:210-324 | no contract of its own. `Configuration.LoadArgsContents` and `ModelParameters.InstanceAttrsContents` state what it returns, and `Generator.BuildParams` proves the object construction equal to it |
| Configuration.LoadArgsSteps | scripts/generate_model.py:222-324 | a configuration that loads passes every lookup and computation along the way |
| Configuration.LoadArgsNeedsRequiredKeys | scripts/generate_model.py:222-324 | a configuration that loads has all eight required keys |
| Configuration.MissingMass | scripts/generate_model.py:222 | a mapping without `mass` raises `KeyError('mass')`, whatever else it lacks |
| Configuration.LoadArgsContents | scripts/generate_model.py:236-324 | `ModelParams` receives the configured mass, collision box, name, centres and thruster positions (in order), the control method's truth value, and the five optional blocks as read or defaulted |
| Generator.Merge | scripts/generate_model.py:330 | the merged map's names are those of either operand |
| Generator.MergeOverride | scripts/generate_model.py:330 | a name is in the merge exactly when it is in either map; a global takes the global's value, and every other name keeps the object's |
| Generator.ScriptGlobals | scripts/generate_model.py:51-58 | the globals hold `fluid_density` = 1000.0 and the angles d180 = pi, d90 = pi/2, d45 = pi/4, d30 = pi/6 and d135 = 3pi/4, so d135 = 3 * d90 / 2 |
| Generator.Generate | scripts/generate_model.py:327-344 | no contract of its own. `Generator.GenerateErrorOrder`, `Generator.GenerateUndefined`, `Generator.TopicPlaceholder` and `Generator.FluidDensityPlaceholder` state its outcomes, and `Generator.GenerateModel` proves the run with its write equal to it |
| Generator.GenerateErrorOrder | scripts/generate_model.py:327-332 | a missing configuration is reported first, then a configuration error, then a missing template |
| Generator.GenerateUndefined | scripts/generate_model.py:330-344 | with a valid configuration, a run fails exactly when some placeholder names neither an attribute nor a global, and it reports the leftmost such name |
| Generator.GenerateFromArgs | scripts/generate_model.py:330-344 | with a configuration that loads, a run substitutes the merge of the object's attributes and the globals into the template |
| Generator.TopicParameter | scripts/generate_model.py:330 | after the merge, `thruster<n>_topic` holds thruster n's topic unless a global shadows it |
| Generator.SubstituteTopic | scripts/generate_model.py:333-344 | a template `@thruster<n>_topic` becomes the topic string the parameter holds |
| Generator.TopicPlaceholder | scripts/generate_model.py:327-345 | end to end: `@thruster<n>_topic`, when not shadowed by a global, becomes thruster n's command topic |
| Generator.FluidDensityPlaceholder | scripts/generate_model.py:51-58 | end to end with the script's own globals: `@fluid_density` becomes the rendered 1000.0, whatever the configuration |
| Generator.SubstituteDensity | scripts/generate_model.py:333-344 | a template `@fluid_density` becomes the rendered density the parameter holds |
| Generator.SinglePlaceholder | scripts/generate_model.py:336-344 | a template that is one placeholder becomes the rendered value |
| Generator.ThrusterKeyIsName | scripts/generate_model.py:196-207 | a thruster attribute name is a run of word characters, so that a placeholder can name it |
| Generator.FileSystem.Write | scripts/generate_model.py:345 | writing replaces the output file's text and nothing else |
| Generator.BuildParams | scripts/generate_model.py:330 | building the object returns the attributes of `get_model_params_from_config`, or raises its exception |
| Generator.GenerateModel | scripts/generate_model.py:327-345 | the run raises exactly when the model run fails, and then writes nothing; otherwise it writes the substituted template to the output path and changes no other file |

## Left out

- YAML parsing is not modelled (scripts/generate_model.py:219-220). The model starts from the parsed tree, a `Node`. YAML `null`, dates and other scalar kinds are not represented.
- Command-line parsing (scripts/generate_model.py:348-365) is not modelled: it is library plumbing.
- Files: reading is a lookup in a map from path to text, or from path to parsed YAML. A missing path is a `FileNotFoundError`. Writing is `FileSystem.Write`. Encodings, the newline translation of text mode (which turns a CRLF template into LF text when `open(input_path, "r").read()` at scripts/generate_model.py:332 reads it), permissions and partial writes are not modelled.
- Floating point: floats are exact reals. Rounding in the collision box, inertia, drag and angle arithmetic is not modelled.
- `math.sqrt` is a function parameter `sqrt`. Proofs that need it assume only that it is a square root on non-negative numbers (`Control.IsSquareRoot`).
- `math.pi` is the parameter `pi` of `Generator.ScriptGlobals`.
- `str(round(v, 3))` for floats is the function parameter `formatFloat`: the decimal text Python prints is not reimplemented.
- `\w` is ASCII letters, digits and `_`. Python's Unicode word characters are not modelled.
- `globals()`: `Generator.ScriptGlobals` builds the names the script defines (scripts/generate_model.py:51-58), with the parameter `others` standing for every other global, whatever its type: the imported modules, the functions and classes, Python's module attributes such as `__name__` and `__file__`, and `parser` and `args` when the script runs as `__main__`. `Generator.FluidDensityPlaceholder` runs `Generate` with these globals. `Generate` and `GenerateModel` themselves accept any globals map.
- Python arithmetic on bools, strings and lists (`True + 1`, string concatenation, list repetition) is treated as a `TypeError` rather than modelled. A YAML mapping or list where a number or a tuple element is expected is also a `TypeError`.
- NameText: a float `model_name` is not modelled, because its text would need `str` of a float. A mapping or list `model_name` is not modelled either: Python's f-strings would format it (scripts/generate_model.py:114, 200), but `NameText` treats all three as a `TypeError`.
- `control_method` is used only for its truth value, which is all `ModelParams` does with it; `use_angvel_cmd` is then 0 or 1.
- The two `thrust_to_ang_vel` calls of scripts/generate_model.py:181-188 are one call in the model. They compute the same value, and the first raises before the second can.
- Control.ThrustToAngVel: `math.sqrt` of a negative quotient (a `ValueError`) cannot happen under a positive density. `ThrustToAngVelOutcome` proves this, but only for a positive density, which is the density the script uses.
- Control.ThrustToAngVelSolvesFossen: stated for an abstract `sqrt` that satisfies `IsSquareRoot`, not for Python's `math.sqrt` with its float rounding.
- ModelParameters.ModelParams.Init: Python's bound-method and `__dict__` machinery is not modelled; the object's attributes are one map field.
