/** `Formatter.__init__` and `Formatter.format_command`: the rules registered in order on a
    fresh formatter, the `json` wrapper and the `SayCommand` handler, and the loop that tries
    the rules one after the other. */
module Formatting {
  import opened Wrappers
  import opened Text
  import opened Tags
  import opened TagPrinter
  import opened Rewriter
  import LooseJson
  import TagRoundTrip
  import Say
  import ItemIds

  /** The `say_to_tellraw` option: `KEEP_SAY`, or the text tag `SAY_TO_TEXT` and
      `SAY_TO_TRANSLATE` ask for. */
  datatype SayOption = KeepSay | SayTo(mode: Say.SayMode)

  /** The compiled patterns of the rules of `__init__`, in registration order. */
  datatype Patterns = Patterns(
    execute: Matcher, summon: Matcher, scoreboard: Matcher, testfor: Matcher, entitydata: Matcher,
    summonAt: Matcher, summonIfAt: Matcher, tellraw: Matcher, title: Matcher, give: Matcher,
    setblock: Matcher, fill: Matcher, blockdata: Matcher, replaceitem: Matcher, clear: Matcher,
    testforblock: Matcher, say: Matcher)

  // ---------------------------------------------------------------------------------------
  // The templates of the selector, json and nbt commands

  const ScoreboardTemplate: Template := [Lit("/scoreboard players "), Hole("op"), Lit(" "), Hole("sel"),
    Lit(" "), Hole("obj"), Lit(" "), Hole("val"), Lit(" "), Hole("nbt")]
  const TestforTemplate: Template := [Lit("/testfor "), Hole("sel"), Lit(" "), Hole("nbt")]
  const EntitydataTemplate: Template := [Lit("/entitydata "), Hole("sel"), Lit(" "), Hole("nbt")]
  const TellrawTemplate: Template := [Lit("/tellraw "), Hole("sel"), Lit(" "), Hole("json")]
  const TitleTemplate: Template := [Lit("/title "), Hole("sel"), Lit(" "), Hole("type"), Lit(" "), Hole("json")]
  const GiveTemplate: Template := [Lit("/give "), Hole("sel"), Lit(" "), Hole("item"), Lit(" "),
    Hole("amount"), Lit(" "), Hole("data"), Lit(" "), Hole("nbt")]
  const SetblockTemplate: Template := [Lit("/setblock"), Hole("pos"), Lit(" "), Hole("id"), Lit(" "),
    Hole("data"), Lit(" "), Hole("oldBlock"), Lit(" "), Hole("nbt")]
  const FillTemplate: Template := [Lit("/fill"), Hole("pos1"), Hole("pos2"), Lit(" "), Hole("id"), Lit(" "),
    Hole("data"), Lit(" "), Hole("oldBlock"), Lit(" "), Hole("nbt")]
  const BlockdataTemplate: Template := [Lit("/blockdata"), Hole("pos"), Lit(" "), Hole("nbt")]
  const ReplaceitemTemplate: Template := [Lit("/replaceitem "), Hole("where"), Lit(" "), Hole("slot"), Lit(" "),
    Hole("item"), Lit(" "), Hole("amount"), Lit(" "), Hole("data"), Lit(" "), Hole("nbt")]
  const ClearTemplate: Template := [Lit("/clear "), Hole("sel"), Lit(" "), Hole("item"), Lit(" "),
    Hole("data"), Lit(" "), Hole("maxCount"), Lit(" "), Hole("nbt")]
  const TestforblockTemplate: Template := [Lit("/testforblock"), Hole("pos"), Lit(" "), Hole("id"), Lit(" "),
    Hole("data"), Lit(" "), Hole("nbt")]

  /** `/testfor {sel} {nbt}` puts the two groups after the command name, a space between. */
  lemma {:induction false} TestforFill(caps: Captures)
    requires "sel" in caps && "nbt" in caps
    ensures Fill(TestforTemplate, caps) == Ok("/testfor " + caps["sel"] + " " + caps["nbt"])
  {
    var t4: Template := [Hole("nbt")];
    var t3: Template := [Lit(" "), Hole("nbt")];
    var t2: Template := [Hole("sel"), Lit(" "), Hole("nbt")];
    assert t4[1..] == [] && t3[1..] == t4 && t2[1..] == t3 && TestforTemplate[1..] == t2;
    assert caps["nbt"] + "" == caps["nbt"];
    assert Fill(t4, caps) == Ok(caps["nbt"]);
    assert Fill(t3, caps) == Ok(" " + caps["nbt"]);
    assert Fill(t2, caps) == Ok(caps["sel"] + (" " + caps["nbt"]));
    assert "/testfor " + (caps["sel"] + (" " + caps["nbt"])) == "/testfor " + caps["sel"] + " " + caps["nbt"];
  }

  // ---------------------------------------------------------------------------------------
  // The handlers that do not call back into the formatter

  /** `json_cmd`: the `json` group is read with `parse_json`, printed back with
      `json_string`, and the template is filled with it. */
  function JsonFill(t: Template, caps: Captures): (r: Result<string>)
    ensures "json" !in caps ==> r == Err(WrongType)
    ensures "json" in caps && LooseJson.ParseJson(caps["json"]).Err? ==> r == Err(LooseJson.ParseJson(caps["json"]).error)
    ensures r.Ok? ==> "json" in caps && LooseJson.ParseJson(caps["json"]).Ok?
  {
    var json :- Capture(caps, "json");
    var v :- LooseJson.ParseJson(json);
    Fill(t, caps["json" := JsonString(v)])
  }

  /** A `json` group that is a printed compound is put back in the template as the JSON form
      of that compound, whatever the other groups are. */
  lemma {:induction false} JsonReprinted(t: Template, caps: Captures, fs: seq<Field>)
    requires "json" in caps && caps["json"] == CompoundString(fs, Verbatim)
    requires DistinctKeys(fs) && TagRoundTrip.PrintableFields(fs)
    ensures JsonFill(t, caps) == Fill(t, caps["json" := JsonString(Compound(fs))])
  {
    LooseJson.ParseJsonCompound(fs);
  }

  /** `SayCommand.formatter`: the `value` group as a `/tellraw @a`; it fails exactly when the
      group is missing or the text has a dangling `§`. */
  function SayFill(mode: Say.SayMode, caps: Captures): (r: Result<string>)
    ensures r.Err? <==> "value" !in caps || Say.BadCode(caps["value"])
  {
    var value :- Capture(caps, "value");
    Say.SayFormat(value, mode)
  }

  // ---------------------------------------------------------------------------------------
  // The rule list

  /** The handler `json_cmd` registers for a template. */
  function JsonRun(t: Template): (run: Captures -> Result<string>)
    ensures forall caps :: run(caps) == JsonFill(t, caps)
  {
    caps => JsonFill(t, caps)
  }

  /** The handler of `SayCommand`. */
  function SayRun(mode: Say.SayMode): (run: Captures -> Result<string>)
    ensures forall caps :: run(caps) == SayFill(mode, caps)
  {
    caps => SayFill(mode, caps)
  }

  /** The first two rules of `__init__`: `execute` and `summon`. */
  function FirstRules(p: Patterns): seq<Rule> {
    [Rule(p.execute, Execute), Rule(p.summon, Summon)]
  }

  /** "The selector commands". */
  function SelectorRules(p: Patterns): seq<Rule> {
    [ Rule(p.scoreboard, SelectorCmd(ScoreboardTemplate)),
      Rule(p.testfor, SelectorCmd(TestforTemplate)),
      Rule(p.entitydata, SelectorCmd(EntitydataTemplate)) ]
  }

  /** "Custom commands": `summon-at` and `summon-if-at`. */
  function CustomRules(p: Patterns): seq<Rule> {
    [Rule(p.summonAt, Summon), Rule(p.summonIfAt, SummonIfAt)]
  }

  /** "The json commands". */
  function JsonRules(p: Patterns): seq<Rule> {
    [Rule(p.tellraw, Direct(JsonRun(TellrawTemplate))), Rule(p.title, Direct(JsonRun(TitleTemplate)))]
  }

  /** "The nbt commands". */
  function NbtRules(p: Patterns): seq<Rule> {
    [ Rule(p.give, NbtCmd(GiveTemplate)),
      Rule(p.setblock, NbtCmd(SetblockTemplate)),
      Rule(p.fill, NbtCmd(FillTemplate)),
      Rule(p.blockdata, NbtCmd(BlockdataTemplate)),
      Rule(p.replaceitem, NbtCmd(ReplaceitemTemplate)),
      Rule(p.clear, NbtCmd(ClearTemplate)),
      Rule(p.testforblock, NbtCmd(TestforblockTemplate)) ]
  }

  /** `SayCommand` under `use_if`: registered only when `/say` is to be converted. */
  function SayRules(p: Patterns, option: SayOption): seq<Rule> {
    match option
    case KeepSay => []
    case SayTo(mode) => [Rule(p.say, Direct(SayRun(mode)))]
  }

  /** The rules `__init__` registers, in its order. */
  function StandardRules(p: Patterns, option: SayOption): seq<Rule> {
    FirstRules(p) + SelectorRules(p) + CustomRules(p) + JsonRules(p) + NbtRules(p) + SayRules(p, option)
  }

  /** `use_if`: the say rule is appended after the sixteen others when `/say` is converted, and
      left out otherwise. */
  lemma {:induction false} SayRuleLast(p: Patterns, option: SayOption)
    ensures |StandardRules(p, option)| == if option.KeepSay? then 16 else 17
    ensures StandardRules(p, option)[..16] == StandardRules(p, KeepSay)
    ensures option.SayTo? ==>
      && StandardRules(p, option)[16].matches == p.say
      && StandardRules(p, option)[16].handler.Direct?
      && forall caps :: StandardRules(p, option)[16].handler.run(caps) == SayFill(option.mode, caps)
  {
  }

  /** A command the `execute` pattern matches is handled by `execute_string`, whatever the
      other patterns say. */
  lemma {:induction false} ExecuteFirst(p: Patterns, option: SayOption, items: ItemIds.ItemTable, updateIds: bool, cmd: string, fuel: nat)
    requires p.execute(Strip(cmd)).Some?
    ensures var ctx := Context(StandardRules(p, option), items, updateIds);
      Rewriter.FormatCommand(ctx, cmd, fuel + 1) == Handle(ctx, Execute, p.execute(Strip(cmd)).value, fuel)
  {
    var ctx := Context(StandardRules(p, option), items, updateIds);
    Dispatch(ctx, cmd, fuel, 0);
  }

  /** With `/say` converted, a command that only the say pattern matches is handled by
      `SayCommand`. */
  lemma {:induction false} SayDispatched(p: Patterns, mode: Say.SayMode, items: ItemIds.ItemTable, updateIds: bool, cmd: string, fuel: nat)
    requires forall k | 0 <= k < 16 :: StandardRules(p, KeepSay)[k].matches(Strip(cmd)).None?
    requires p.say(Strip(cmd)).Some?
    ensures var ctx := Context(StandardRules(p, SayTo(mode)), items, updateIds);
      Rewriter.FormatCommand(ctx, cmd, fuel + 1) == SayFill(mode, p.say(Strip(cmd)).value)
  {
    var ctx := Context(StandardRules(p, SayTo(mode)), items, updateIds);
    SayRuleLast(p, SayTo(mode));
    forall k | 0 <= k < 16
      ensures ctx.rules[k].matches(Strip(cmd)).None?
    {
      assert ctx.rules[k] == StandardRules(p, KeepSay)[k];
    }
    DirectDispatch(ctx, cmd, fuel, 16);
  }

  /** A command that only rule `j` matches, whose handler is a plain function, is that
      function's answer on the captures. */
  lemma {:induction false} DirectDispatch(ctx: Context, cmd: string, fuel: nat, j: nat)
    requires j < |ctx.rules| && ctx.rules[j].handler.Direct?
    requires forall k | 0 <= k < j :: ctx.rules[k].matches(Strip(cmd)).None?
    requires ctx.rules[j].matches(Strip(cmd)).Some?
    ensures Rewriter.FormatCommand(ctx, cmd, fuel + 1)
      == ctx.rules[j].handler.run(ctx.rules[j].matches(Strip(cmd)).value)
  {
    Dispatch(ctx, cmd, fuel, j);
  }

  /** A non-empty say text with neither `§` codes nor selectors becomes one `tellraw`
      component with the reset colour. */
  lemma {:induction false} SayPlainFill(mode: Say.SayMode, text: string)
    requires text != "" && Say.Section !in text && '@' !in text
    ensures SayFill(mode, map["value" := text])
      == Ok("/tellraw @a [\"\",{" + (Say.ColorJson(Say.Reset) + "," + Say.TextComponent(text, mode)) + "}]")
  {
    Say.SayPlain(text, mode);
  }

  /** With `/say` converted, a plain say text that no other rule takes becomes one `tellraw`
      component with the reset colour. */
  lemma {:induction false} SayConverted(p: Patterns, mode: Say.SayMode, items: ItemIds.ItemTable, updateIds: bool, cmd: string, fuel: nat, text: string)
    requires forall k | 0 <= k < 16 :: StandardRules(p, KeepSay)[k].matches(Strip(cmd)).None?
    requires p.say(Strip(cmd)) == Some(map["value" := text])
    requires text != "" && Say.Section !in text && '@' !in text
    ensures var ctx := Context(StandardRules(p, SayTo(mode)), items, updateIds);
      Rewriter.FormatCommand(ctx, cmd, fuel + 1)
        == Ok("/tellraw @a [\"\",{" + (Say.ColorJson(Say.Reset) + "," + Say.TextComponent(text, mode)) + "}]")
  {
    SayDispatched(p, mode, items, updateIds, cmd, fuel);
    SayPlainFill(mode, text);
  }

  // ---------------------------------------------------------------------------------------
  // The formatter

  /** A `Formatter`: the list of rules `command` and `class_cmd` append to, and the item table
      of the class.  `update_num_ids` is a module setting, read at each call. */
  class Formatter {
    var commands: seq<Rule>
    const items: ItemIds.ItemTable

    /** `Formatter(say_to_tellraw)`: the rules of `__init__`, registered one by one. */
    constructor (p: Patterns, option: SayOption)
      ensures commands == StandardRules(p, option)
      ensures items == ItemIds.ItemName
    {
      items := ItemIds.ItemName;
      commands := [];
      new;
      AddCommand(p.execute, Execute);
      AddCommand(p.summon, Summon);
      AddSelectorCommands(p);
      AddCustomCommands(p);
      AddJsonCommands(p);
      AddNbtCommands(p);
      if option.SayTo? {
        AddCommand(p.say, Direct(SayRun(option.mode)));
      }
    }

    /** `selector_cmd` for `scoreboard`, `testfor` and `entitydata`. */
    method AddSelectorCommands(p: Patterns)
      modifies this
      ensures commands == old(commands) + SelectorRules(p)
    {
      AddCommand(p.scoreboard, SelectorCmd(ScoreboardTemplate));
      AddCommand(p.testfor, SelectorCmd(TestforTemplate));
      AddCommand(p.entitydata, SelectorCmd(EntitydataTemplate));
    }

    /** `summon_at_string` and `summon_if_at_string`. */
    method AddCustomCommands(p: Patterns)
      modifies this
      ensures commands == old(commands) + CustomRules(p)
    {
      AddCommand(p.summonAt, Summon);
      AddCommand(p.summonIfAt, SummonIfAt);
    }

    /** `json_cmd` for `tellraw` and `title`. */
    method AddJsonCommands(p: Patterns)
      modifies this
      ensures commands == old(commands) + JsonRules(p)
    {
      AddCommand(p.tellraw, Direct(JsonRun(TellrawTemplate)));
      AddCommand(p.title, Direct(JsonRun(TitleTemplate)));
    }

    /** `nbt_cmd` for `give`, `setblock`, `fill`, `blockdata`, `replaceitem`, `clear` and
        `testforblock`. */
    method AddNbtCommands(p: Patterns)
      modifies this
      ensures commands == old(commands) + NbtRules(p)
    {
      AddCommand(p.give, NbtCmd(GiveTemplate));
      AddCommand(p.setblock, NbtCmd(SetblockTemplate));
      AddCommand(p.fill, NbtCmd(FillTemplate));
      AddCommand(p.blockdata, NbtCmd(BlockdataTemplate));
      AddCommand(p.replaceitem, NbtCmd(ReplaceitemTemplate));
      AddCommand(p.clear, NbtCmd(ClearTemplate));
      AddCommand(p.testforblock, NbtCmd(TestforblockTemplate));
    }

    /** `command(pattern)(fun)` and `class_cmd(cls)`: one more rule, tried after the others. */
    method AddCommand(m: Matcher, h: Handler)
      modifies this
      ensures commands == old(commands) + [Rule(m, h)]
    {
      commands := commands + [Rule(m, h)];
    }

    /** `format_command(cmd)`: the loop over `self.commands`, which stops at the first rule
        that gives a result. */
    method FormatCommand(cmd: string, updateIds: bool, fuel: nat) returns (r: Result<string>)
      ensures r == Rewriter.FormatCommand(Context(commands, items, updateIds), cmd, fuel + 1)
    {
      var ctx := Context(commands, items, updateIds);
      var s := Strip(cmd);
      ghost var spec := TryRules(ctx, s, 0, fuel);
      assert Rewriter.FormatCommand(ctx, cmd, fuel + 1) == spec;
      var i := 0;
      while i < |ctx.rules|
        invariant 0 <= i <= |ctx.rules|
        invariant TryRules(ctx, s, i, fuel) == spec
      {
        var out := ApplyRule(ctx, ctx.rules[i], s, fuel);
        if out.Err? {
          assert spec == Err(out.error);
          return Err(out.error);
        }
        if out.value.Some? {
          assert spec == Ok(out.value.value);
          return Ok(out.value.value);
        }
        i := i + 1;
      }
      return Ok(s);
    }
  }
}
