/** `generate_model`: the parameters of the configuration merged with the
    script's globals, substituted into the SDF template, and the result
    written out. */
module Generator {
  import opened Wrappers
  import opened Values
  import opened Template
  import opened Thrusters
  import opened ModelParameters
  import opened Configuration
  import opened Decimal

  /** `vars(obj) | globals()`: a dict union in which the right operand,
      the globals, wins on every shared name. */
  function Merge(instance: map<string, Value>, globals: map<string, Value>): (r: map<string, Value>)
    ensures r.Keys == instance.Keys + globals.Keys
  {
    instance + globals
  }

  /** Every globally defined name takes the global's value; every other name
      keeps the object's. */
  lemma MergeOverride(instance: map<string, Value>, globals: map<string, Value>, k: string)
    ensures k in Merge(instance, globals) <==> k in instance || k in globals
    ensures k in globals ==> Merge(instance, globals)[k] == globals[k]
    ensures k in instance && k !in globals ==> Merge(instance, globals)[k] == instance[k]
  {
  }

  /** The module-level names the script defines for use in templates: the
      angles in radians, derived from `math.pi`, and the density of water.
      `others` stands for the rest of `globals()`: the imported modules,
      the functions and classes, and Python's own module attributes. */
  function ScriptGlobals(pi: real, others: map<string, Value>): (g: map<string, Value>)
    ensures "fluid_density" in g && g["fluid_density"] == Float(FluidDensity)
    ensures "d180" in g && g["d180"] == Float(pi)
    ensures "d90" in g && g["d90"] == Float(pi / 2.0)
    ensures "d45" in g && g["d45"] == Float(pi / 4.0)
    ensures "d30" in g && g["d30"] == Float(pi / 6.0)
    ensures "d135" in g && g["d135"] == Float(3.0 * pi / 4.0)
    ensures g["d135"].x == 3.0 * g["d90"].x / 2.0
  {
    var d180 := pi;
    var d90 := d180 / 2.0;
    var d45 := d90 / 2.0;
    var d30 := d90 / 3.0;
    var d135 := d90 + d45;
    others + map["d180" := Float(d180), "d90" := Float(d90), "d45" := Float(d45), "d30" := Float(d30),
                 "d135" := Float(d135), "fluid_density" := Float(FluidDensity)]
  }

  /** The outcome of a run: the text written to the output file, or the
      exception that ends the run.  The configuration is read first (a run
      with a bad configuration never looks at the template), then the
      template, then the substitution; `documents` holds the parsed YAML of
      the configuration files that exist, `files` the text files. */
  function Generate(files: map<string, string>, documents: map<string, Node>, inputPath: string,
                    configPath: string, globals: map<string, Value>, sqrt: real -> real,
                    formatFloat: real -> string): Result<string, Error>
  {
    if configPath !in documents then Failure(FileNotFoundError(configPath))
    else
      var attrs :- ModelParamsFromConfig(documents[configPath], sqrt);
      var params := Merge(attrs, globals);
      if inputPath !in files then Failure(FileNotFoundError(inputPath))
      else Substitute(files[inputPath], params, formatFloat)
  }

  /** A configuration error wins over a missing template, and a missing
      template over an undefined placeholder. */
  lemma GenerateErrorOrder(files: map<string, string>, documents: map<string, Node>, inputPath: string,
                           configPath: string, globals: map<string, Value>, sqrt: real -> real,
                           formatFloat: real -> string)
    ensures var r := Generate(files, documents, inputPath, configPath, globals, sqrt, formatFloat);
      && (configPath !in documents ==> r == Failure(FileNotFoundError(configPath)))
      && (configPath in documents && ModelParamsFromConfig(documents[configPath], sqrt).Failure? ==>
            r == Failure(ModelParamsFromConfig(documents[configPath], sqrt).error))
      && (configPath in documents && ModelParamsFromConfig(documents[configPath], sqrt).Success?
          && inputPath !in files ==>
            r == Failure(FileNotFoundError(inputPath)))
  {
  }

  /** The output is the template with every placeholder replaced: it fails
      exactly when some placeholder names neither an attribute nor a global,
      and then with the leftmost such name. */
  lemma GenerateUndefined(files: map<string, string>, documents: map<string, Node>, inputPath: string,
                          configPath: string, globals: map<string, Value>, sqrt: real -> real,
                          formatFloat: real -> string)
    requires configPath in documents && inputPath in files
    requires ModelParamsFromConfig(documents[configPath], sqrt).Success?
    ensures var attrs := ModelParamsFromConfig(documents[configPath], sqrt).value;
      var ps := Tokenize(files[inputPath]);
      var r := Generate(files, documents, inputPath, configPath, globals, sqrt, formatFloat);
      && (r.Failure? <==> exists i :: 0 <= i < |ps| && ps[i].Placeholder? && ps[i].name !in attrs
                                     && ps[i].name !in globals)
      && (r.Failure? ==> exists i :: 0 <= i < |ps| && ps[i].Placeholder? && r.error == KeyError(ps[i].name)
                                     && ps[i].name !in attrs && ps[i].name !in globals)
  {
    var attrs := ModelParamsFromConfig(documents[configPath], sqrt).value;
    SubstituteFails(files[inputPath], Merge(attrs, globals), formatFloat);
  }

  /** A placeholder `@thrusterN_topic` that the globals do not shadow becomes
      thruster N's command topic. */
  lemma TopicPlaceholder(files: map<string, string>, documents: map<string, Node>, inputPath: string,
                         configPath: string, globals: map<string, Value>, sqrt: real -> real,
                         formatFloat: real -> string, a: Args, n: nat)
    requires configPath in documents && LoadArgs(documents[configPath]) == Success(a)
    requires a.WellShaped() && InstanceAttrs(a, sqrt).Success? && 1 <= n <= |a.thrusters|
    requires inputPath in files && files[inputPath] == "@" + ThrusterKey(n, "topic")
    requires ThrusterKey(n, "topic") !in globals
    ensures Generate(files, documents, inputPath, configPath, globals, sqrt, formatFloat)
         == Success(Topic(a.modelName, n, a.useAngvelCmd != 0))
  {
    GenerateFromArgs(files, documents, inputPath, configPath, globals, sqrt, formatFloat, a);
    TopicParameter(a, sqrt, globals, n);
    SubstituteTopic(Merge(InstanceAttrs(a, sqrt).value, globals), formatFloat, n, Topic(a.modelName, n, a.useAngvelCmd != 0));
  }

  /** A template `@thrusterN_topic` becomes the string the parameter holds. */
  lemma SubstituteTopic(params: map<string, Value>, formatFloat: real -> string, n: nat, topic: string)
    requires ThrusterKey(n, "topic") in params && params[ThrusterKey(n, "topic")] == Str(topic)
    ensures Substitute("@" + ThrusterKey(n, "topic"), params, formatFloat) == Success(topic)
  {
    FieldNamesAreNames();
    ThrusterKeyIsName(n, "topic");
    SinglePlaceholder(ThrusterKey(n, "topic"), params, formatFloat);
  }

  /** With a configuration that loads, the run substitutes the merged
      attributes of the loaded arguments into the template. */
  lemma GenerateFromArgs(files: map<string, string>, documents: map<string, Node>, inputPath: string,
                         configPath: string, globals: map<string, Value>, sqrt: real -> real,
                         formatFloat: real -> string, a: Args)
    requires configPath in documents && LoadArgs(documents[configPath]) == Success(a)
    requires a.WellShaped() && InstanceAttrs(a, sqrt).Success? && inputPath in files
    ensures Generate(files, documents, inputPath, configPath, globals, sqrt, formatFloat)
         == Substitute(files[inputPath], Merge(InstanceAttrs(a, sqrt).value, globals), formatFloat)
  {
  }

  /** After the merge, `thrusterN_topic` still holds thruster N's topic
      unless a global of that name shadows it. */
  lemma TopicParameter(a: Args, sqrt: real -> real, globals: map<string, Value>, n: nat)
    requires a.WellShaped() && InstanceAttrs(a, sqrt).Success?
    requires 1 <= n <= |a.thrusters| && ThrusterKey(n, "topic") !in globals
    ensures var params := Merge(InstanceAttrs(a, sqrt).value, globals);
      ThrusterKey(n, "topic") in params && params[ThrusterKey(n, "topic")] == Str(Topic(a.modelName, n, a.useAngvelCmd != 0))
  {
    InstanceAttrsContents(a, sqrt);
    MergeOverride(InstanceAttrs(a, sqrt).value, globals, ThrusterKey(n, "topic"));
  }

  /** With the script's own globals, `@fluid_density` becomes the rendered
      density of water, 1000.0, whatever the configuration. */
  lemma FluidDensityPlaceholder(files: map<string, string>, documents: map<string, Node>, inputPath: string,
                                configPath: string, pi: real, others: map<string, Value>, sqrt: real -> real,
                                formatFloat: real -> string, a: Args)
    requires configPath in documents && LoadArgs(documents[configPath]) == Success(a)
    requires a.WellShaped() && InstanceAttrs(a, sqrt).Success?
    requires inputPath in files && files[inputPath] == "@fluid_density"
    ensures Generate(files, documents, inputPath, configPath, ScriptGlobals(pi, others), sqrt, formatFloat)
         == Success(formatFloat(FluidDensity))
  {
    var globals := ScriptGlobals(pi, others);
    GenerateFromArgs(files, documents, inputPath, configPath, globals, sqrt, formatFloat, a);
    MergeOverride(InstanceAttrs(a, sqrt).value, globals, "fluid_density");
    SubstituteDensity(Merge(InstanceAttrs(a, sqrt).value, globals), formatFloat);
  }

  /** A template `@fluid_density` becomes the rendered density the parameter holds. */
  lemma SubstituteDensity(params: map<string, Value>, formatFloat: real -> string)
    requires "fluid_density" in params && params["fluid_density"] == Float(FluidDensity)
    ensures Substitute("@fluid_density", params, formatFloat) == Success(formatFloat(FluidDensity))
  {
    DensityIsName();
    AtDensity();
    SinglePlaceholder("fluid_density", params, formatFloat);
  }

  // The literal concatenation, kept apart so that callers see only its result.
  lemma AtDensity()
    ensures "@" + "fluid_density" == "@fluid_density"
  {
  }

  // `fluid_density` matches `\w+`; checking the literal once here keeps callers' proofs small.
  lemma DensityIsName()
    ensures IsName("fluid_density")
  {
  }

  /** A template that is a single placeholder becomes the rendered value. */
  lemma SinglePlaceholder(name: string, params: map<string, Value>, formatFloat: real -> string)
    requires IsName(name) && name in params
    ensures Substitute("@" + name, params, formatFloat) == Success(Render(params[name], formatFloat))
  {
    LongestName(name, "", params, formatFloat);
    assert "@" + name + "" == "@" + name;
    assert Substitute("", params, formatFloat) == Success([]);
    assert Render(params[name], formatFloat) + [] == Render(params[name], formatFloat);
  }

  /** A thruster attribute name is a run of word characters, so a
      placeholder can name it. */
  lemma ThrusterKeyIsName(n: nat, field: string)
    requires IsName(field)
    ensures IsName(ThrusterKey(n, field))
  {
    var digits := NatToString(n);
    var k := ThrusterKey(n, field);
    assert k == "thruster" + digits + "_" + field;
    forall i | 0 <= i < |k| ensures IsWordChar(k[i]) {
      if i < 8 {
        assert k[i] == "thruster"[i];
      } else if i < 8 + |digits| {
        assert k[i] == digits[i - 8];
        assert IsDigit(digits[i - 8]);
      } else if i == 8 + |digits| {
        assert k[i] == '_';
      } else {
        assert k[i] == field[i - 9 - |digits|];
      }
    }
  }

  // The four thruster field names match `\w+`, checked once on the literals.
  lemma FieldNamesAreNames()
    ensures IsName("x") && IsName("y") && IsName("z") && IsName("topic")
  {
  }

  /** The file system the run reads the template from and writes the
      output to. */
  class FileSystem {
    var files: map<string, string>

    constructor (files: map<string, string>)
      ensures this.files == files
    {
      this.files := files;
    }

    /** `open(path, "w").write(text)`. */
    method Write(path: string, text: string)
      modifies this
      ensures files == old(files)[path := text]
    {
      files := files[path := text];
    }
  }

  /** `get_model_params_from_config` followed by `vars`: builds a fresh
      `ModelParams` object from the configuration and returns its attributes. */
  method BuildParams(config: Node, sqrt: real -> real) returns (attrs: map<string, Value>, raised: Option<Error>)
    ensures raised.None? <==> ModelParamsFromConfig(config, sqrt).Success?
    ensures raised.None? ==> attrs == ModelParamsFromConfig(config, sqrt).value
    ensures raised.Some? ==> raised.value == ModelParamsFromConfig(config, sqrt).error
  {
    var loaded := LoadArgs(config);
    if loaded.Failure? {
      return map[], Some(loaded.error);
    }
    var obj := new ModelParams();
    raised := obj.Init(loaded.value, sqrt);
    attrs := obj.attrs;
    if raised.None? {
      EmptyUnion(InstanceAttrs(loaded.value, sqrt).value);
    }
  }

  // A fresh object's empty attribute map adds nothing to the `__init__` result.
  lemma EmptyUnion(m: map<string, Value>)
    ensures map[] + m == m
  {
  }

  /** `generate_model(input_path, output_path, config_path)`: builds the
      parameters, merges them with the globals, and writes the substituted
      template.  On an exception nothing is written. */
  method GenerateModel(fs: FileSystem, documents: map<string, Node>, inputPath: string, outputPath: string,
                       configPath: string, globals: map<string, Value>, sqrt: real -> real,
                       formatFloat: real -> string) returns (raised: Option<Error>)
    modifies fs
    ensures var r := Generate(old(fs.files), documents, inputPath, configPath, globals, sqrt, formatFloat);
      && (raised.None? <==> r.Success?)
      && (raised.Some? ==> raised.value == r.error && fs.files == old(fs.files))
      && (raised.None? ==> fs.files == old(fs.files)[outputPath := r.value])
  {
    if configPath !in documents {
      return Some(FileNotFoundError(configPath));
    }
    var attrs;
    attrs, raised := BuildParams(documents[configPath], sqrt);
    if raised.Some? {
      return raised;
    }
    var params := Merge(attrs, globals);
    if inputPath !in fs.files {
      return Some(FileNotFoundError(inputPath));
    }
    var s := fs.files[inputPath];
    var output := Substitute(s, params, formatFloat);
    if output.Failure? {
      return Some(output.error);
    }
    fs.Write(outputPath, output.value);
    return None;
  }
}
