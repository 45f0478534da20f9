/** Pipeline templates and the stages built from them.

    A template is the parsed template file: named sections ("model", "prescreen",
    "simulation", "postprocess"), each holding parameter groups ("transform-params",
    "config-params", "prescreen-params", "submitter-params"), each an ordered
    dictionary of parameters. Reading and writing files is modelled as values
    passed in and as a map from path to contents. */
module Pipelines {
  import opened Wrappers
  import Text
  import Seqs

  // ---------------------------------------------------------------------------
  // Template data
  // ---------------------------------------------------------------------------

  /** A parameter value as loaded from the template: a string, a boolean, `None`,
      or anything else, kept as its `str()` rendering. */
  datatype Value = Str(s: string) | Bool(b: bool) | NoneValue | Other(rendered: string)

  /** A parameter dictionary, in insertion order. */
  type Params = seq<(string, Value)>

  /** The parameter groups of one section. */
  type Groups = map<string, Params>

  const ModelSection: string := "model"
  const PrescreenSection: string := "prescreen"
  const SimulationSection: string := "simulation"
  const PostprocessSection: string := "postprocess"

  const TransformParams: string := "transform-params"
  const ConfigParams: string := "config-params"
  const PrescreenParams: string := "prescreen-params"
  const SubmitterParams: string := "submitter-params"

  datatype Template = Template(sections: map<string, Groups>, preconfigured: bool)

  /** The `KeyError`s a template lookup raises. */
  datatype TemplateError =
    | MissingSection(section: string)
    | MissingParams(section: string, paramsType: string)
    | MissingKey(key: string)

  predicate ContainsPrescreen(t: Template) {
    PrescreenSection in t.sections
  }

  predicate ContainsPostprocess(t: Template) {
    PostprocessSection in t.sections
  }

  /** `params[key]`: the value of the first entry with that key. */
  function ParamValue(params: Params, key: string): (r: Result<Value, TemplateError>)
    ensures r.Err? <==> forall i :: 0 <= i < |params| ==> params[i].0 != key
    ensures r.Err? ==> r.error == MissingKey(key)
    ensures r.Ok? ==> exists i :: 0 <= i < |params| && params[i] == (key, r.value)
  {
    var i := Seqs.FirstIndex(params, (e: (string, Value)) => e.0 == key);
    if i < |params| then Ok(params[i].1) else Err(MissingKey(key))
  }

  // ---------------------------------------------------------------------------
  // "null" scrubbing
  // ---------------------------------------------------------------------------

  /** The string "null" read from a template stands for `None`. */
  function ScrubValue(v: Value): Value {
    if v == Str("null") then NoneValue else v
  }

  function ScrubNulls(params: Params): (r: Params)
    ensures |r| == |params|
    ensures forall i :: 0 <= i < |params| ==> r[i].0 == params[i].0
    ensures forall i :: 0 <= i < |params| ==> r[i].1 != Str("null")
    ensures forall i :: 0 <= i < |params| && params[i].1 != Str("null") ==> r[i].1 == params[i].1
  {
    seq(|params|, i requires 0 <= i < |params| => (params[i].0, ScrubValue(params[i].1)))
  }

  lemma ScrubNullsIdempotent(params: Params)
    ensures ScrubNulls(ScrubNulls(params)) == ScrubNulls(params)
  {
  }

  /** A group of a section with its "null" values scrubbed. */
  function CommandParams(t: Template, section: string, paramsType: string): (r: Result<Params, TemplateError>)
    ensures r.Err? <==> section !in t.sections || paramsType !in t.sections[section]
    ensures r.Err? && section !in t.sections ==> r.error == MissingSection(section)
    ensures r.Err? && section in t.sections ==> r.error == MissingParams(section, paramsType)
    ensures r.Ok? ==> r.value == ScrubNulls(t.sections[section][paramsType])
  {
    if section !in t.sections then Err(MissingSection(section))
    else if paramsType !in t.sections[section] then Err(MissingParams(section, paramsType))
    else Ok(ScrubNulls(t.sections[section][paramsType]))
  }

  // ---------------------------------------------------------------------------
  // Command-option strings
  // ---------------------------------------------------------------------------

  /** Entries whose value is "null", `False` or `None` produce no option. */
  predicate Skipped(v: Value) {
    v == Str("null") || v == Bool(false) || v == NoneValue
  }

  predicate Kept(e: (string, Value)) {
    !Skipped(e.1)
  }

  /** `f"{value}"`. */
  function Render(v: Value): string {
    match v
    case Str(s) => s
    case Bool(b) => if b then "True" else "False"
    case NoneValue => "None"
    case Other(r) => r
  }

  /** "--" and the parameter name with every '_' turned into '-'. */
  function DashParam(name: string): (d: string)
    ensures |d| == |name| + 2 && d[..2] == "--"
    ensures '_' !in d[2..]
    ensures forall i :: 0 <= i < |name| && name[i] == '_' ==> d[i + 2] == '-'
    ensures forall i :: 0 <= i < |name| && name[i] != '_' ==> d[i + 2] == name[i]
  {
    Text.ReplaceRemovesTarget(name, '_', '-');
    var d := "--" + Text.Replace(name, '_', '-');
    assert d[2..] == Text.Replace(name, '_', '-');
    d
  }

  /** The option of a kept entry: a bare flag for `True`, "--name=value" otherwise. */
  function OptionToken(e: (string, Value)): (token: string)
    requires Kept(e)
    ensures e.1 == Bool(true) ==> token == DashParam(e.0)
    ensures e.1 != Bool(true) ==> token == DashParam(e.0) + "=" + Render(e.1)
    ensures |token| >= 2 && token[..2] == "--"
  {
    if e.1 == Bool(true) then DashParam(e.0) else DashParam(e.0) + "=" + Render(e.1)
  }

  /** The options of the kept entries, in dictionary order; built entry by entry. */
  function OptionTokens(params: Params): (tokens: seq<string>)
    ensures |tokens| <= |params|
    ensures forall t :: t in tokens ==> |t| >= 2 && t[..2] == "--"
    decreases |params|
  {
    if |params| == 0 then []
    else
      var last := params[|params| - 1];
      OptionTokens(params[..|params| - 1]) + (if Kept(last) then [OptionToken(last)] else [])
  }

  /** The options, separated by single spaces. */
  function OptionsString(params: Params): string {
    Text.Join(" ", OptionTokens(params))
  }

  /** The reference definition: the option of every kept entry, in order. */
  function KeptTokens(params: Params): (tokens: seq<string>)
  {
    var kept := Seqs.Filter(params, Kept);
    seq(|kept|, i requires 0 <= i < |kept| => OptionToken(kept[i]))
  }

  lemma {:induction false} OptionTokensAreKeptTokens(params: Params)
    ensures OptionTokens(params) == KeptTokens(params)
    decreases |params|
  {
    if |params| > 0 {
      var init, last := params[..|params| - 1], params[|params| - 1];
      assert params == init + [last];
      OptionTokensAreKeptTokens(init);
      Seqs.FilterAppend(init, [last], Kept);
      assert Seqs.Filter([last], Kept) == if Kept(last) then [last] else [];
    }
  }

  /** The options string is empty exactly when every entry is skipped. */
  lemma OptionsStringEmptyIff(params: Params)
    ensures OptionsString(params) == "" <==> forall i :: 0 <= i < |params| ==> Skipped(params[i].1)
  {
    OptionTokensAreKeptTokens(params);
    var kept := Seqs.Filter(params, Kept);
    var tokens := OptionTokens(params);
    if exists i :: 0 <= i < |params| && !Skipped(params[i].1) {
      var i :| 0 <= i < |params| && !Skipped(params[i].1);
      assert params[i] in kept;
      assert |tokens| > 0;
      assert tokens[0] in tokens;
      JoinStartsWithFirst(" ", tokens);
    }
  }

  lemma JoinStartsWithFirst(sep: string, parts: seq<string>)
    requires |parts| > 0
    ensures parts[0] <= Text.Join(sep, parts)
  {
  }

  /** No option contains a space when no name and no rendered value does. */
  predicate SpaceFree(params: Params) {
    forall i :: 0 <= i < |params| ==> ' ' !in params[i].0 && ' ' !in Render(params[i].1)
  }

  lemma OptionTokenSpaceFree(e: (string, Value))
    requires Kept(e) && ' ' !in e.0 && ' ' !in Render(e.1)
    ensures ' ' !in OptionToken(e)
  {
    var d := DashParam(e.0);
    assert forall i :: 2 <= i < |d| ==> d[i] == '-' || d[i] == e.0[i - 2];
  }

  /** Splitting the options string on spaces gives back the options, one per kept entry. */
  lemma OptionsStringSplits(params: Params)
    requires SpaceFree(params)
    requires exists i :: 0 <= i < |params| && !Skipped(params[i].1)
    ensures Text.Split(' ', OptionsString(params)) == OptionTokens(params)
  {
    OptionTokensAreKeptTokens(params);
    var kept := Seqs.Filter(params, Kept);
    var i :| 0 <= i < |params| && !Skipped(params[i].1);
    assert params[i] in kept;
    forall t | t in OptionTokens(params)
      ensures ' ' !in t
    {
      var k :| 0 <= k < |kept| && t == OptionToken(kept[k]);
      assert kept[k] in params;
      OptionTokenSpaceFree(kept[k]);
    }
    assert " " == [' '];
    Text.SplitJoin(' ', OptionTokens(params));
  }

  /** Scrubbing "null" to `None` never changes the options: both are skipped. */
  lemma {:induction false} ScrubbedOptionsUnchanged(params: Params)
    ensures OptionTokens(ScrubNulls(params)) == OptionTokens(params)
    decreases |params|
  {
    if |params| > 0 {
      var n := |params| - 1;
      var scrubbed := ScrubNulls(params);
      assert scrubbed[..n] == ScrubNulls(params[..n]);
      assert scrubbed[n] == (params[n].0, ScrubValue(params[n].1));
      assert Kept(scrubbed[n]) == Kept(params[n]);
      assert Kept(params[n]) ==> OptionToken(scrubbed[n]) == OptionToken(params[n]);
      ScrubbedOptionsUnchanged(params[..n]);
    }
  }

  /** `_construct_options_string`: collect the options of the kept entries and join them. */
  method ConstructOptionsString(params: Params) returns (options: string)
    ensures options == OptionsString(params)
  {
    var temp: seq<string> := [];
    for i := 0 to |params|
      invariant temp == OptionTokens(params[..i])
    {
      assert params[..i + 1][..i] == params[..i];
      var (param, value) := params[i];
      if Skipped(value) {
        continue;
      }
      var dashParam := "--" + Text.Replace(param, '_', '-');
      if value == Bool(true) {
        temp := temp + [dashParam];
      } else {
        temp := temp + [dashParam + "=" + Render(value)];
      }
    }
    assert params[..|params|] == params;
    options := Text.Join(" ", temp);
  }

  /** The options of a group, read without scrubbing. */
  function CommandOptions(t: Template, section: string, paramsType: string): (r: Result<string, TemplateError>)
    ensures r.Err? <==> CommandParams(t, section, paramsType).Err?
    ensures r.Ok? ==> r.value == OptionsString(CommandParams(t, section, paramsType).value)
  {
    if section !in t.sections then Err(MissingSection(section))
    else if paramsType !in t.sections[section] then Err(MissingParams(section, paramsType))
    else
      ScrubbedOptionsUnchanged(t.sections[section][paramsType]);
      Ok(OptionsString(t.sections[section][paramsType]))
  }

  // ---------------------------------------------------------------------------
  // The template object
  // ---------------------------------------------------------------------------

  class PipelineTemplate {
    var sections: map<string, Groups>
    var preconfigured: bool

    constructor(t: Template)
      ensures Data() == t
    {
      sections := t.sections;
      preconfigured := t.preconfigured;
    }

    function Data(): Template
      reads this
    {
      Template(sections, preconfigured)
    }

    /** Returns a group with "null" replaced by `None`, scrubbing it inside the template too. */
    method GetCommandParams(section: string, paramsType: string) returns (r: Result<Params, TemplateError>)
      modifies this
      ensures r == CommandParams(old(Data()), section, paramsType)
      ensures preconfigured == old(preconfigured)
      ensures r.Err? ==> sections == old(sections)
      ensures r.Ok? ==> sections == old(sections)[section := old(sections)[section][paramsType := r.value]]
    {
      if section !in sections {
        return Err(MissingSection(section));
      }
      if paramsType !in sections[section] {
        return Err(MissingParams(section, paramsType));
      }
      var params := sections[section][paramsType];
      ghost var original := params;
      for i := 0 to |params|
        invariant |params| == |original|
        invariant forall j :: 0 <= j < i ==> params[j] == (original[j].0, ScrubValue(original[j].1))
        invariant forall j :: i <= j < |params| ==> params[j] == original[j]
      {
        if params[i].1 == Str("null") {
          params := params[i := (params[i].0, NoneValue)];
        }
      }
      assert params == ScrubNulls(original);
      sections := sections[section := sections[section][paramsType := params]];
      r := Ok(params);
    }

    /** Drops a section if it is there. */
    method RemoveSection(section: string)
      modifies this
      ensures sections == old(sections) - {section}
      ensures preconfigured == old(preconfigured)
    {
      if section in sections {
        sections := sections - {section};
      }
    }

    /** Drops a group of a section when both exist. */
    method RemoveParams(section: string, paramsType: string)
      modifies this
      ensures section in old(sections) && paramsType in old(sections)[section] ==>
        sections == old(sections)[section := old(sections)[section] - {paramsType}]
      ensures !(section in old(sections) && paramsType in old(sections)[section]) ==> sections == old(sections)
      ensures preconfigured == old(preconfigured)
    {
      if section in sections && paramsType in sections[section] {
        sections := sections[section := sections[section] - {paramsType}];
      }
    }
  }

  /** After removal the section is gone, and every other section is as it was. */
  lemma RemovedSectionIsGone(sections: map<string, Groups>, section: string, other: string)
    requires other != section
    ensures section !in sections - {section}
    ensures other in sections <==> other in sections - {section}
    ensures other in sections ==> (sections - {section})[other] == sections[other]
  {
  }

  // ---------------------------------------------------------------------------
  // Stages
  // ---------------------------------------------------------------------------

  /** The commands a concrete pipeline creator makes. */
  datatype Commands = Commands(
    modelTransform: string,
    prescreenCreate: string,
    prescreenFilter: string,
    prescreenConfig: string,    // the config command for the prescreen section
    simulationConfig: string,   // the config command for the simulation section
    postprocess: string)

  /** A pipeline stage: the command that writes its config, the config file, its number
      and its submitter parameters. */
  datatype Stage = Stage(autoConfigCmd: string, configFile: Value, stageNum: nat, submitterParams: Params)

  const PrescreenAutoConfigFile: string := "./pipeline-prescreen-auto-config.txt"
  const SimulationAutoConfigFile: string := "./pipeline-simulation-auto-config.txt"
  const PostprocessAutoConfigFile: string := "./pipeline-postprocess-auto-config.txt"
  const PostprocessCommandFile: string := "pipeline-postprocess-command.txt"

  /** The model-transform command, unless the models are preconfigured. */
  function TransformPrefix(t: Template, cmds: Commands): (lines: seq<string>)
    ensures lines == [] <==> t.preconfigured
  {
    if t.preconfigured then [] else [cmds.modelTransform]
  }

  function PrescreenScriptLines(t: Template, cmds: Commands): seq<string> {
    TransformPrefix(t, cmds) + [cmds.prescreenConfig, cmds.prescreenCreate]
  }

  function PrescreenScript(t: Template, cmds: Commands): string {
    Text.Join("\n", PrescreenScriptLines(t, cmds))
  }

  function SimulationScriptLines(t: Template, cmds: Commands): seq<string> {
    if ContainsPrescreen(t) then [cmds.prescreenFilter]
    else TransformPrefix(t, cmds) + [cmds.simulationConfig]
  }

  /** The simulation script: the prescreen filter command when there is a prescreen,
      otherwise the transform command (unless preconfigured) and the config command. */
  function SimulationScript(t: Template, cmds: Commands): (script: string)
    ensures ContainsPrescreen(t) ==> script == cmds.prescreenFilter
  {
    Text.Join("\n", SimulationScriptLines(t, cmds))
  }

  predicate OneLine(s: string) {
    '\n' !in s
  }

  predicate OneLineCommands(cmds: Commands) {
    && OneLine(cmds.modelTransform) && OneLine(cmds.prescreenCreate) && OneLine(cmds.prescreenFilter)
    && OneLine(cmds.prescreenConfig) && OneLine(cmds.simulationConfig)
  }

  /** Line by line, the simulation script is the filter command, or the transform
      command (when not preconfigured) followed by the config command. */
  lemma SimulationScriptSplits(t: Template, cmds: Commands)
    requires OneLineCommands(cmds)
    ensures Text.Split('\n', SimulationScript(t, cmds)) ==
      if ContainsPrescreen(t) then [cmds.prescreenFilter]
      else if t.preconfigured then [cmds.simulationConfig]
      else [cmds.modelTransform, cmds.simulationConfig]
  {
    assert "\n" == ['\n'];
    Text.SplitJoin('\n', SimulationScriptLines(t, cmds));
  }

  lemma PrescreenScriptSplits(t: Template, cmds: Commands)
    requires OneLineCommands(cmds)
    ensures Text.Split('\n', PrescreenScript(t, cmds)) ==
      if t.preconfigured then [cmds.prescreenConfig, cmds.prescreenCreate]
      else [cmds.modelTransform, cmds.prescreenConfig, cmds.prescreenCreate]
  {
    assert "\n" == ['\n'];
    Text.SplitJoin('\n', PrescreenScriptLines(t, cmds));
  }

  function PostprocessScript(t: Template, cmds: Commands): (r: Result<string, TemplateError>)
    ensures r.Err? <==> CommandParams(t, PostprocessSection, ConfigParams).Err?
    ensures r.Ok? ==> (r.value == "jade config create " + PostprocessCommandFile + " " +
      OptionsString(CommandParams(t, PostprocessSection, ConfigParams).value))
  {
    var options :- CommandOptions(t, PostprocessSection, ConfigParams);
    Ok("jade config create " + PostprocessCommandFile + " " + options)
  }

  function AutoConfigCommand(autoConfigPy: string, textFile: string): string {
    "python " + autoConfigPy + " " + textFile
  }

  /** The submitter parameters of a section; they must name an HPC config file. */
  function SubmitterParamsOf(t: Template, section: string): (r: Result<Params, TemplateError>)
    ensures r.Ok? <==> (CommandParams(t, section, SubmitterParams).Ok? &&
      ParamValue(CommandParams(t, section, SubmitterParams).value, "hpc_config").Ok?)
    ensures r.Ok? ==> r.value == CommandParams(t, section, SubmitterParams).value
  {
    var params :- CommandParams(t, section, SubmitterParams);
    var _ :- ParamValue(params, "hpc_config");
    Ok(params)
  }

  /** The config file of the simulation stage. */
  function SimulationConfigFile(t: Template): (r: Result<Value, TemplateError>)
    ensures ContainsPrescreen(t) ==>
      (r == (var params :- CommandParams(t, PrescreenSection, PrescreenParams);
             ParamValue(params, "filtered_config_file")))
    ensures !ContainsPrescreen(t) ==>
      (r == (var params :- CommandParams(t, SimulationSection, ConfigParams);
             ParamValue(params, "config_file")))
  {
    if ContainsPrescreen(t) then
      var params :- CommandParams(t, PrescreenSection, PrescreenParams);
      ParamValue(params, "filtered_config_file")
    else
      var params :- CommandParams(t, SimulationSection, ConfigParams);
      ParamValue(params, "config_file")
  }

  function PrescreenStageOf(t: Template, autoConfigPy: string, n: nat): (r: Result<Stage, TemplateError>)
    ensures r.Ok? ==> r.value.stageNum == n && r.value.autoConfigCmd == AutoConfigCommand(autoConfigPy, PrescreenAutoConfigFile)
    ensures r.Ok? <==> (SubmitterParamsOf(t, PrescreenSection).Ok? && CommandParams(t, PrescreenSection, PrescreenParams).Ok?
      && ParamValue(CommandParams(t, PrescreenSection, PrescreenParams).value, "prescreen_config_file").Ok?)
    ensures r.Ok? ==> r.value.submitterParams == SubmitterParamsOf(t, PrescreenSection).value
    ensures r.Ok? ==> r.value.configFile == ParamValue(CommandParams(t, PrescreenSection, PrescreenParams).value, "prescreen_config_file").value
  {
    var submitter :- SubmitterParamsOf(t, PrescreenSection);
    var params :- CommandParams(t, PrescreenSection, PrescreenParams);
    var configFile :- ParamValue(params, "prescreen_config_file");
    Ok(Stage(AutoConfigCommand(autoConfigPy, PrescreenAutoConfigFile), configFile, n, submitter))
  }

  function SimulationStageOf(t: Template, autoConfigPy: string, n: nat): (r: Result<Stage, TemplateError>)
    ensures r.Ok? ==> r.value.stageNum == n && r.value.autoConfigCmd == AutoConfigCommand(autoConfigPy, SimulationAutoConfigFile)
    ensures r.Ok? <==> SubmitterParamsOf(t, SimulationSection).Ok? && SimulationConfigFile(t).Ok?
    ensures r.Ok? ==> r.value.configFile == SimulationConfigFile(t).value
    ensures r.Ok? ==> r.value.submitterParams == SubmitterParamsOf(t, SimulationSection).value
  {
    var submitter :- SubmitterParamsOf(t, SimulationSection);
    var configFile :- SimulationConfigFile(t);
    Ok(Stage(AutoConfigCommand(autoConfigPy, SimulationAutoConfigFile), configFile, n, submitter))
  }

  function PostprocessStageOf(t: Template, autoConfigPy: string, n: nat): (r: Result<Stage, TemplateError>)
    ensures r.Ok? ==> r.value.stageNum == n && r.value.autoConfigCmd == AutoConfigCommand(autoConfigPy, PostprocessAutoConfigFile)
    ensures r.Ok? <==> (SubmitterParamsOf(t, PostprocessSection).Ok? && CommandParams(t, PostprocessSection, ConfigParams).Ok?
      && ParamValue(CommandParams(t, PostprocessSection, ConfigParams).value, "config_file").Ok?)
    ensures r.Ok? ==> r.value.submitterParams == SubmitterParamsOf(t, PostprocessSection).value
    ensures r.Ok? ==> r.value.configFile == ParamValue(CommandParams(t, PostprocessSection, ConfigParams).value, "config_file").value
  {
    var submitter :- SubmitterParamsOf(t, PostprocessSection);
    var params :- CommandParams(t, PostprocessSection, ConfigParams);
    var configFile :- ParamValue(params, "config_file");
    Ok(Stage(AutoConfigCommand(autoConfigPy, PostprocessAutoConfigFile), configFile, n, submitter))
  }

  /** A pipeline creator: it counts the stages it makes and writes the auto-config
      scripts (`files` maps each path written to its contents). Every read of the
      template reloads the file, so the creator sees the same template each time. */
  class PipelineCreator {
    const template: Template
    const commands: Commands
    const autoConfigPy: string
    var stageNum: nat
    var files: map<string, string>

    constructor(template: Template, commands: Commands, autoConfigPy: string)
      ensures this.template == template && this.commands == commands && this.autoConfigPy == autoConfigPy
      ensures stageNum == 0 && files == map[]
    {
      this.template := template;
      this.commands := commands;
      this.autoConfigPy := autoConfigPy;
      stageNum := 0;
      files := map[];
    }

    /** Numbers the stage first, so a stage that fails still uses up its number. */
    method MakePrescreenStage() returns (r: Result<Stage, TemplateError>)
      modifies this
      ensures stageNum == old(stageNum) + 1
      ensures files == old(files)[PrescreenAutoConfigFile := PrescreenScript(template, commands)]
      ensures r == PrescreenStageOf(template, autoConfigPy, stageNum)
      ensures r.Ok? ==> r.value.stageNum == stageNum
    {
      stageNum := stageNum + 1;
      files := files[PrescreenAutoConfigFile := PrescreenScript(template, commands)];
      r := PrescreenStageOf(template, autoConfigPy, stageNum);
    }

    method MakeSimulationStage() returns (r: Result<Stage, TemplateError>)
      modifies this
      ensures stageNum == old(stageNum) + 1
      ensures files == old(files)[SimulationAutoConfigFile := SimulationScript(template, commands)]
      ensures r == SimulationStageOf(template, autoConfigPy, stageNum)
      ensures r.Ok? ==> r.value.stageNum == stageNum
    {
      stageNum := stageNum + 1;
      files := files[SimulationAutoConfigFile := SimulationScript(template, commands)];
      r := SimulationStageOf(template, autoConfigPy, stageNum);
    }

    /** Writes the postprocess command file, then the auto-config script, whose
      options come from the postprocess config parameters. */
    method MakePostprocessStage() returns (r: Result<Stage, TemplateError>)
      modifies this
      ensures stageNum == old(stageNum) + 1
      ensures r.Ok? ==> r.value.stageNum == stageNum
      ensures PostprocessScript(template, commands).Err? ==>
        r == Err(PostprocessScript(template, commands).error) &&
        files == old(files)[PostprocessCommandFile := commands.postprocess]
      ensures PostprocessScript(template, commands).Ok? ==>
        r == PostprocessStageOf(template, autoConfigPy, stageNum) &&
        files == old(files)[PostprocessCommandFile := commands.postprocess]
                           [PostprocessAutoConfigFile := PostprocessScript(template, commands).value]
    {
      stageNum := stageNum + 1;
      files := files[PostprocessCommandFile := commands.postprocess];
      var script := PostprocessScript(template, commands);
      if script.Err? {
        return Err(script.error);
      }
      files := files[PostprocessAutoConfigFile := script.value];
      r := PostprocessStageOf(template, autoConfigPy, stageNum);
    }
  }

  /** Stage `i` (from 0) carries number `i + 1`. */
  predicate Numbered(stages: seq<Stage>) {
    forall i :: 0 <= i < |stages| ==> stages[i].stageNum == i + 1
  }

  lemma NumberedAppend(stages: seq<Stage>, s: Stage)
    requires Numbered(stages) && s.stageNum == |stages| + 1
    ensures Numbered(stages + [s])
  {
  }

  /** The stages of a pipeline: prescreen when the template has one, simulation,
      then postprocess when the template has one. */
  method MakeStages(creator: PipelineCreator) returns (r: Result<seq<Stage>, TemplateError>)
    requires creator.stageNum == 0
    modifies creator
    ensures r.Ok? ==> |r.value| == 1 + (if ContainsPrescreen(creator.template) then 1 else 0)
                                     + (if ContainsPostprocess(creator.template) then 1 else 0)
    ensures r.Ok? ==> Numbered(r.value) && creator.stageNum == |r.value|
  {
    var stages: seq<Stage> := [];
    if ContainsPrescreen(creator.template) {
      var s :- creator.MakePrescreenStage();
      NumberedAppend(stages, s);
      stages := stages + [s];
    }
    var s :- creator.MakeSimulationStage();
    NumberedAppend(stages, s);
    stages := stages + [s];
    if ContainsPostprocess(creator.template) {
      var s :- creator.MakePostprocessStage();
      NumberedAppend(stages, s);
      stages := stages + [s];
    }
    r := Ok(stages);
  }
}
