/** `Formatter.format_command` and `Formatter.format_compound`, which call each other: a
    command is matched against the rules in order and rewritten by the first that matches,
    and the tag-notation compounds of a command are migrated, which re-formats the command a
    `Command` entry holds.

    The regular expressions of the rules are not modelled: a rule's pattern is a function
    from the stripped command to the named groups of its match, or to `None`.  Python's
    recursion has no bound the model can use (a `Command` can come back longer, and a mount
    is formatted twice), so every call of these functions spends one unit of `fuel` and
    answers `OutOfFuel` when none is left. */
module Rewriter {
  import opened Wrappers
  import opened Text
  import opened Tags
  import opened TagGrammar
  import opened TagPrinter
  import opened Selectors
  import opened Migration
  import ItemIds

  /** The named groups of a match, as `match.groupdict()` gives them. */
  type Captures = map<string, string>

  /** `pattern.match`: the groups of a match, or `None`. */
  type Matcher = string -> Option<Captures>

  /** One piece of a `str.format` template: literal text or a `{name}` field. */
  datatype Piece = Lit(text: string) | Hole(name: string)

  type Template = seq<Piece>

  /** The handlers the rules are registered with. */
  datatype Handler =
    | Execute                       // `execute_string`
    | Summon                        // `summon_string`, and `summon_at_string` which calls it
    | SummonIfAt                    // `summon_if_at_string`
    | SelectorCmd(template: Template) // `selector_cmd`
    | NbtCmd(template: Template)      // `nbt_cmd`
    | Direct(run: Captures -> Result<string>) // a handler that does not call back: `json_cmd`, `SayCommand`

  /** A `CommandFormatter`: a pattern and what to do with its groups. */
  datatype Rule = Rule(matches: Matcher, handler: Handler)

  /** What the rewriting reads besides its arguments: the rule list and `ITEMS_TABLE` of the
      formatter, and the module setting `update_num_ids`. */
  datatype Context = Context(rules: seq<Rule>, items: ItemIds.ItemTable, updateIds: bool)

  /** `dic[name]`: a missing group raises `KeyError`. */
  function Capture(caps: Captures, name: string): (r: Result<string>)
    ensures r.Ok? <==> name in caps
    ensures r.Ok? ==> r.value == caps[name]
  {
    if name in caps then Ok(caps[name]) else Err(WrongType)
  }

  /** `template.format(**dic)`. */
  function Fill(t: Template, caps: Captures): (r: Result<string>)
  {
    if t == [] then Ok("")
    else
      var head :- match t[0] case Lit(x) => Ok(x) case Hole(n) => Capture(caps, n);
      var rest :- Fill(t[1..], caps);
      Ok(head + rest)
  }

  /** `str.format` raises `KeyError` exactly when a field of the template is not a group of
      the match. */
  lemma {:induction false} FillKeys(t: Template, caps: Captures)
    ensures Fill(t, caps).Ok? <==> forall i | 0 <= i < |t| && t[i].Hole? :: t[i].name in caps
  {
    if t != [] {
      FillKeys(t[1..], caps);
      assert forall i | 1 <= i < |t| :: t[i] == t[1..][i - 1];
    }
  }

  /** `parse_compound(text)`: the entries of the compound read from the start of the text;
      whatever follows its `}` is not looked at. */
  function ParseNbt(text: string): (r: Result<seq<Field>>)
    ensures r.Ok? ==> DistinctKeys(r.value)
  {
    ParseCompoundDistinct(text, 0);
    var p :- ParseCompound(text, 0);
    Ok(p.1.fields)
  }

  /** The text `type or default` prints for an extracted mount type: nothing when there is no
      type or it is empty, its text when it is a text.  A dict or list would be printed as a
      Python literal, which is not modelled. */
  function MountType(t: Option<Value>): (r: Result<Option<string>>)
    ensures t.None? || !Truthy(t.value) ==> r == Ok(None)
    ensures t.Some? && t.value.Scalar? && t.value.token != [] ==> r == Ok(Some(t.value.token))
    ensures r.Ok? && r.value.Some? ==> r.value.value != []
  {
    match t
    case None => Ok(None)
    case Some(v) =>
      if !Truthy(v) then Ok(None)
      else if v.Scalar? then Ok(Some(v.token))
      else Err(WrongType)
  }

  // ---------------------------------------------------------------------------------------
  // `format_command`

  /** `format_command(cmd)`: the stripped command rewritten by the first rule that matches it,
      or the stripped command itself when none does. */
  function FormatCommand(ctx: Context, cmd: string, fuel: nat): (r: Result<string>)
    decreases fuel, 0, 0
  {
    if fuel == 0 then Err(OutOfFuel) else TryRules(ctx, Strip(cmd), 0, fuel - 1)
  }

  /** The loop of `format_command` from the rule `i` on. */
  function TryRules(ctx: Context, cmd: string, i: nat, fuel: nat): (r: Result<string>)
    decreases fuel, 2, |ctx.rules| - i
  {
    if i >= |ctx.rules| then Ok(cmd)
    else
      var out :- ApplyRule(ctx, ctx.rules[i], cmd, fuel);
      if out.Some? then Ok(out.value) else TryRules(ctx, cmd, i + 1, fuel)
  }

  /** `CommandFormatter.format(cmd)`: `None` exactly when the pattern does not match,
      otherwise what the handler makes of the groups. */
  function ApplyRule(ctx: Context, rule: Rule, cmd: string, fuel: nat): (r: Result<Option<string>>)
    ensures r == Ok(None) <==> rule.matches(cmd).None?
    decreases fuel, 1, 0
  {
    match rule.matches(cmd)
    case None => Ok(None)
    case Some(caps) =>
      var out :- Handle(ctx, rule.handler, caps, fuel);
      Ok(Some(out))
  }

  /** The handlers registered in `Formatter.__init__`, with the wrappers `selector`, `json`
      and `nbt` in front of their templates. */
  function Handle(ctx: Context, h: Handler, caps: Captures, fuel: nat): (r: Result<string>)
    decreases fuel, 0, 3
  {
    match h
    case Execute =>
      var prefix :- Capture(caps, "execute");
      var inner :- Capture(caps, "cmd");
      var c :- FormatCommand(ctx, inner, fuel);
      Ok(prefix + c)
    case Summon => SummonString(ctx, caps, fuel)
    case SummonIfAt =>
      var sel :- Capture(caps, "sel");
      var summon :- SummonString(ctx, caps, fuel);
      Ok("/execute " + sel + " ~ ~ ~ " + summon)
    case SelectorCmd(t) =>
      var c :- SelectorCaps(ctx, caps, fuel);
      Fill(t, c)
    case NbtCmd(t) =>
      var c :- NbtCaps(ctx, caps, fuel);
      Fill(t, c)
    case Direct(run) => run(caps)
  }

  /** `summon_string`: the compound formatted with the entity as base; the extracted mount
      type, when there is one, is summoned in place of the entity. */
  function SummonString(ctx: Context, caps: Captures, fuel: nat): (r: Result<string>)
    decreases fuel, 0, 2
  {
    var nbt :- Capture(caps, "nbt");
    var fs :- ParseNbt(nbt);
    var entity :- Capture(caps, "entity");
    var top :- FormatTop(ctx, fs, Some(entity), fuel);
    var mount :- MountType(top.1);
    var pos :- Capture(caps, "pos");
    Ok("/summon " + (if mount.Some? then mount.value else entity) + pos + " " + CompoundString(top.0, Verbatim))
  }

  /** The `selector` wrapper: with a selector, the compound is formatted with the selector's
      `type` as base and the selector's `type` becomes the extracted mount type, or stays as it
      was; without one, the compound is formatted on its own.  The `type` is set to `None` and
      then deleted only when the selector has no `type` and no mount type was found, which
      leaves the arguments as they were. */
  function SelectorCaps(ctx: Context, caps: Captures, fuel: nat): (r: Result<Captures>)
    decreases fuel, 0, 2
  {
    var selText :- Capture(caps, "sel");
    var sel :- ParseSelectorSpec(selText);
    var nbt :- Capture(caps, "nbt");
    var fs :- ParseNbt(nbt);
    match sel
    case Some(s) =>
      var t := Get(s.1, "type");
      var top :- FormatTop(ctx, fs, t, fuel);
      var mount :- MountType(top.1);
      var args := NewTypeArgs(s.1, if mount.Some? then mount else t);
      Ok(caps["sel" := SelectorString(s.0, args)]["nbt" := CompoundString(top.0, Verbatim)])
    case None =>
      var g :- FormatPlain(ctx, fs, fuel);
      Ok(caps["nbt" := CompoundString(g, Verbatim)])
  }

  /** The selector arguments once `type` is set to `t`, or left out when `t` is `None`. */
  function NewTypeArgs(es: seq<Arg>, t: Option<string>): (r: seq<Arg>)
    ensures t.Some? ==> Get(r, "type") == t
    ensures t.None? ==> r == es
    ensures forall k | k != "type" :: Get(r, k) == Get(es, k)
  {
    if t.Some? then
      assert forall k | k != "type" :: Get(Assign(es, "type", t.value), k) == Get(es, k) by {
        forall k | k != "type" ensures Get(Assign(es, "type", t.value), k) == Get(es, k) {
          GetAssign(es, "type", t.value, k);
        }
      }
      GetAssign(es, "type", t.value, "");
      Assign(es, "type", t.value)
    else es
  }

  /** The `nbt` wrapper: the compound formatted on its own and printed back. */
  function NbtCaps(ctx: Context, caps: Captures, fuel: nat): (r: Result<Captures>)
    decreases fuel, 0, 2
  {
    var nbt :- Capture(caps, "nbt");
    var fs :- ParseNbt(nbt);
    var g :- FormatPlain(ctx, fs, fuel);
    Ok(caps["nbt" := CompoundString(g, Verbatim)])
  }

  // ---------------------------------------------------------------------------------------
  // `format_compound`

  /** `format_compound(tag, base_entity)` with `return_type` set: the formatted compound and
      the `id` popped from the mount, if the compound rode one. */
  function FormatTop(ctx: Context, fs: seq<Field>, base: Option<string>, fuel: nat): (r: Result<(seq<Field>, Option<Value>)>)
    decreases fuel, 0, 1
  {
    var p :- FormatCompound(ctx, fs, base, true, fuel);
    Ok(TakeType(p.0, p.1))
  }

  /** `format_compound(tag, return_type=False)`. */
  function FormatPlain(ctx: Context, fs: seq<Field>, fuel: nat): (r: Result<seq<Field>>)
    decreases fuel, 0, 1
  {
    var p :- FormatCompound(ctx, fs, None, true, fuel);
    Ok(p.0)
  }

  /** The body of `format_compound`: the children, then `id`, `Command`, the slots and
      `Riding`, in that order.  The result is the compound (the mount, if it rode one) and
      whether it rode one. */
  function FormatCompound(ctx: Context, fs: seq<Field>, base: Option<string>, changeId: bool, fuel: nat)
    : (r: Result<(seq<Field>, bool)>)
    decreases fuel, 0, 0
  {
    if fuel == 0 then Err(OutOfFuel)
    else
      var entries :- MigrateEntries(ctx, fs, changeId, fuel - 1);
      RidingField(ctx, entries, base, fuel - 1)
  }

  /** Everything `format_compound` does before it looks at `Riding`. */
  function MigrateEntries(ctx: Context, fs: seq<Field>, changeId: bool, fuel: nat): (r: Result<seq<Field>>)
    decreases fuel, 2, 0
  {
    var children :- FormatFields(ctx, fs, changeId, fuel);
    var withId :- IdStep(children, ctx.items, ctx.updateIds, changeId);
    var withCommand :- CommandField(ctx, withId, fuel);
    SlotSteps(withCommand)
  }

  /** `format_c`: every dict child formatted (keeping its `id` under the keys of
      `KEEP_ID_TAG`), every list child gone through, every other value left alone. */
  function FormatFields(ctx: Context, fs: seq<Field>, changeId: bool, fuel: nat): (r: Result<seq<Field>>)
    decreases fuel, 1, |fs|
  {
    if fs == [] then Ok([])
    else
      var v :- FormatChild(ctx, fs[0].val, changeId, fs[0].key in ItemIds.KeepIdTags, fuel);
      var rest :- FormatFields(ctx, fs[1..], changeId, fuel);
      Ok([Field(fs[0].key, v)] + rest)
  }

  /** One child: a dict is formatted with `change_id` off when `keep` is set, a list is gone
      through with `change_id` as it is. */
  function FormatChild(ctx: Context, v: Value, changeId: bool, keep: bool, fuel: nat): (r: Result<Value>)
    decreases fuel, 1, 0
  {
    match v
    case Compound(gs) =>
      var p :- FormatCompound(ctx, gs, None, changeId && !keep, fuel);
      Ok(Compound(p.0))
    case List(items) =>
      var out :- FormatList(ctx, items, changeId, fuel);
      Ok(List(out))
    case Scalar(_) => Ok(v)
  }

  /** `format_l`: every dict item formatted, every list item gone through. */
  function FormatList(ctx: Context, items: seq<Value>, changeId: bool, fuel: nat): (r: Result<seq<Value>>)
    decreases fuel, 0, 0
  {
    if fuel == 0 then Err(OutOfFuel) else FormatItems(ctx, items, changeId, fuel - 1)
  }

  function FormatItems(ctx: Context, items: seq<Value>, changeId: bool, fuel: nat): (r: Result<seq<Value>>)
    decreases fuel, 1, |items|
  {
    if items == [] then Ok([])
    else
      var v :- FormatChild(ctx, items[0], changeId, false, fuel);
      var rest :- FormatItems(ctx, items[1..], changeId, fuel);
      Ok([v] + rest)
  }

  /** `Command` loses one layer of quotes, is formatted, and is wrapped in quotes again. */
  function CommandField(ctx: Context, fs: seq<Field>, fuel: nat): (r: Result<seq<Field>>)
    decreases fuel, 1, 0
  {
    if !HasKey(fs, "Command") then Ok(fs)
    else
      var inner :- CommandText(Lookup(fs, "Command").value);
      var c :- FormatCommand(ctx, inner, fuel);
      Ok(CommandStep(fs, c))
  }

  /** `Riding` is popped and formatted once more (with `change_id` back on), and the node
      becomes the last passenger of that mount, which takes its place. */
  function RidingField(ctx: Context, fs: seq<Field>, base: Option<string>, fuel: nat): (r: Result<(seq<Field>, bool)>)
    decreases fuel, 1, 0
  {
    if !HasKey(fs, "Riding") then Ok((fs, false))
    else
      var p := Pop(fs, "Riding");
      match p.0.value
      case Compound(gs) =>
        var mount :- FormatCompound(ctx, gs, None, true, fuel);
        var m :- Mount(p.1, mount.0, base);
        Ok((m, true))
      case _ => Err(WrongType)
  }

  // ---------------------------------------------------------------------------------------
  // The dispatcher

  /** The first rule from `i` on whose pattern matches handles the command. */
  lemma {:induction false} FirstMatchWins(ctx: Context, cmd: string, i: nat, j: nat, fuel: nat)
    requires i <= j < |ctx.rules|
    requires forall k | i <= k < j :: ctx.rules[k].matches(cmd).None?
    requires ctx.rules[j].matches(cmd).Some?
    ensures TryRules(ctx, cmd, i, fuel) == Handle(ctx, ctx.rules[j].handler, ctx.rules[j].matches(cmd).value, fuel)
    decreases j - i
  {
    var rule := ctx.rules[i];
    if i < j {
      assert rule.matches(cmd).None?;
      assert ApplyRule(ctx, rule, cmd, fuel) == Ok(None);
      assert TryRules(ctx, cmd, i, fuel) == TryRules(ctx, cmd, i + 1, fuel);
      FirstMatchWins(ctx, cmd, i + 1, j, fuel);
    } else {
      var h := Handle(ctx, rule.handler, rule.matches(cmd).value, fuel);
      assert ApplyRule(ctx, rule, cmd, fuel) == if h.Ok? then Ok(Some(h.value)) else Err(h.error);
    }
  }

  /** When no rule from `i` on matches, the command comes back as it is. */
  lemma {:induction false} NoRuleMatches(ctx: Context, cmd: string, i: nat, fuel: nat)
    requires forall k | i <= k < |ctx.rules| :: ctx.rules[k].matches(cmd).None?
    ensures TryRules(ctx, cmd, i, fuel) == Ok(cmd)
    decreases |ctx.rules| - i
  {
    if i < |ctx.rules| {
      assert ctx.rules[i].matches(cmd).None?;
      assert ApplyRule(ctx, ctx.rules[i], cmd, fuel) == Ok(None);
      assert TryRules(ctx, cmd, i, fuel) == TryRules(ctx, cmd, i + 1, fuel);
      NoRuleMatches(ctx, cmd, i + 1, fuel);
    }
  }

  /** `format_command` hands the stripped command to the first rule whose pattern matches it. */
  lemma {:induction false} Dispatch(ctx: Context, cmd: string, fuel: nat, j: nat)
    requires j < |ctx.rules|
    requires forall k | 0 <= k < j :: ctx.rules[k].matches(Strip(cmd)).None?
    requires ctx.rules[j].matches(Strip(cmd)).Some?
    ensures FormatCommand(ctx, cmd, fuel + 1)
      == Handle(ctx, ctx.rules[j].handler, ctx.rules[j].matches(Strip(cmd)).value, fuel)
  {
    FirstMatchWins(ctx, Strip(cmd), 0, j, fuel);
  }

  /** A command no rule matches comes back stripped. */
  lemma {:induction false} Unmatched(ctx: Context, cmd: string, fuel: nat)
    requires forall k | 0 <= k < |ctx.rules| :: ctx.rules[k].matches(Strip(cmd)).None?
    ensures FormatCommand(ctx, cmd, fuel + 1) == Ok(Strip(cmd))
  {
    NoRuleMatches(ctx, Strip(cmd), 0, fuel);
  }

  /** Whitespace around a command never matters. */
  lemma {:induction false} StripFirst(ctx: Context, cmd: string, fuel: nat)
    ensures FormatCommand(ctx, Strip(cmd), fuel) == FormatCommand(ctx, cmd, fuel)
  {
    if fuel > 0 {
      var s := Strip(cmd);
      StripIdempotent(cmd);
      assert FormatCommand(ctx, s, fuel) == TryRules(ctx, Strip(s), 0, fuel - 1);
      assert FormatCommand(ctx, cmd, fuel) == TryRules(ctx, s, 0, fuel - 1);
    }
  }

  /** `execute_string`: the `execute` prefix is kept as it is and only the command after it is
      formatted; an inner command that no rule matches comes back stripped. */
  lemma {:induction false} ExecuteKeepsPrefix(ctx: Context, caps: Captures, fuel: nat)
    requires "execute" in caps && "cmd" in caps
    ensures Handle(ctx, Execute, caps, fuel + 1).Ok? <==> FormatCommand(ctx, caps["cmd"], fuel + 1).Ok?
    ensures Handle(ctx, Execute, caps, fuel + 1).Ok? ==>
      Handle(ctx, Execute, caps, fuel + 1).value == caps["execute"] + FormatCommand(ctx, caps["cmd"], fuel + 1).value
    ensures (forall k | 0 <= k < |ctx.rules| :: ctx.rules[k].matches(Strip(caps["cmd"])).None?) ==>
      Handle(ctx, Execute, caps, fuel + 1) == Ok(caps["execute"] + Strip(caps["cmd"]))
  {
    if forall k | 0 <= k < |ctx.rules| :: ctx.rules[k].matches(Strip(caps["cmd"])).None? {
      Unmatched(ctx, caps["cmd"], fuel);
    }
  }

  // ---------------------------------------------------------------------------------------
  // `format_compound`

  /** What the child pass may do to the value under a key: nothing to a text, a dict stays a
      dict and a list a list, and a key is neither added nor removed. */
  predicate SameShape(a: Option<Value>, b: Option<Value>) {
    && (a.None? <==> b.None?)
    && (a.Some? && a.value.Scalar? ==> b == a)
    && (a.Some? && a.value.Compound? ==> b.Some? && b.value.Compound?)
    && (a.Some? && a.value.List? ==> b.Some? && b.value.List?)
  }

  /** The child pass keeps the keys in their places and changes values only inside dicts and
      lists. */
  lemma {:induction false} FieldsKeepShape(ctx: Context, fs: seq<Field>, changeId: bool, fuel: nat)
    requires FormatFields(ctx, fs, changeId, fuel).Ok?
    ensures KeysOf(FormatFields(ctx, fs, changeId, fuel).value) == KeysOf(fs)
    ensures forall k :: SameShape(Lookup(fs, k), Lookup(FormatFields(ctx, fs, changeId, fuel).value, k))
    decreases |fs|
  {
    if fs != [] {
      var r := FormatFields(ctx, fs, changeId, fuel).value;
      var rest := FormatFields(ctx, fs[1..], changeId, fuel).value;
      var v := FormatChild(ctx, fs[0].val, changeId, fs[0].key in ItemIds.KeepIdTags, fuel).value;
      FieldsKeepShape(ctx, fs[1..], changeId, fuel);
      assert r == [Field(fs[0].key, v)] + rest;
      assert r[1..] == rest;
    }
  }

  /** Formatting `Command` touches nothing else and keeps the keys distinct. */
  lemma {:induction false} CommandFieldKeeps(ctx: Context, fs: seq<Field>, fuel: nat)
    requires DistinctKeys(fs) && CommandField(ctx, fs, fuel).Ok?
    ensures DistinctKeys(CommandField(ctx, fs, fuel).value)
    ensures forall k | k != "Command" :: Lookup(CommandField(ctx, fs, fuel).value, k) == Lookup(fs, k)
  {
    if HasKey(fs, "Command") {
      var inner := CommandText(Lookup(fs, "Command").value);
      var c := FormatCommand(ctx, inner.value, fuel);
      assert CommandField(ctx, fs, fuel) == Ok(CommandStep(fs, c.value));
      CommandStepDistinct(fs, c.value);
    }
  }

  /** The keys the steps before `Riding` are about differ from one another. */
  lemma KeyNames()
    ensures "Riding" != "id" && "Riding" != "Command" && "id" != "Command" && "Passengers" != "id"
    ensures !SlotKey("id") && !SlotKey("Riding")
    ensures "Riding" !in ItemIds.KeepIdTags
  {
  }

  /** The steps before `Riding`, one after the other. */
  lemma {:induction false} EntriesSteps(ctx: Context, fs: seq<Field>, changeId: bool, fuel: nat)
    requires MigrateEntries(ctx, fs, changeId, fuel).Ok?
    ensures FormatFields(ctx, fs, changeId, fuel).Ok?
    ensures var children := FormatFields(ctx, fs, changeId, fuel).value;
      && IdStep(children, ctx.items, ctx.updateIds, changeId).Ok?
      && var withId := IdStep(children, ctx.items, ctx.updateIds, changeId).value;
      && CommandField(ctx, withId, fuel).Ok?
      && MigrateEntries(ctx, fs, changeId, fuel) == SlotSteps(CommandField(ctx, withId, fuel).value)
  {
  }

  /** The steps before `Riding` keep the keys distinct and leave every key they are not about as
      the child pass left it, `id` too when it is not to be changed. */
  lemma {:induction false} EntriesKeep(ctx: Context, fs: seq<Field>, changeId: bool, fuel: nat)
    requires DistinctKeys(fs) && MigrateEntries(ctx, fs, changeId, fuel).Ok?
    ensures DistinctKeys(MigrateEntries(ctx, fs, changeId, fuel).value)
    ensures forall k | k != "id" && k != "Command" && !SlotKey(k) ::
      SameShape(Lookup(fs, k), Lookup(MigrateEntries(ctx, fs, changeId, fuel).value, k))
    ensures !(ctx.updateIds && changeId) ==>
      SameShape(Lookup(fs, "id"), Lookup(MigrateEntries(ctx, fs, changeId, fuel).value, "id"))
    ensures SameShape(Lookup(fs, "Riding"), Lookup(MigrateEntries(ctx, fs, changeId, fuel).value, "Riding"))
  {
    KeyNames();
    EntriesSteps(ctx, fs, changeId, fuel);
    var children := FormatFields(ctx, fs, changeId, fuel).value;
    FieldsKeepShape(ctx, fs, changeId, fuel);
    DistinctSameKeys(fs, children);
    var withId := IdStep(children, ctx.items, ctx.updateIds, changeId).value;
    IdStepKeeps(children, ctx.items, ctx.updateIds, changeId);
    TailStepsKeep(ctx, withId, fuel);
    if !(ctx.updateIds && changeId) {
      assert withId == children;
    }
    ShapesCompose(fs, children, withId, MigrateEntries(ctx, fs, changeId, fuel).value);
  }

  /** Chaining the child pass, the `id` step and the later steps: a key none of the steps is
      about keeps its shape, and so does `id` when the `id` step changed nothing. */
  lemma {:induction false} ShapesCompose(fs: seq<Field>, children: seq<Field>, withId: seq<Field>, r: seq<Field>)
    requires forall k :: SameShape(Lookup(fs, k), Lookup(children, k))
    requires forall k | k != "id" :: Lookup(withId, k) == Lookup(children, k)
    requires forall k | k != "Command" && !SlotKey(k) :: Lookup(r, k) == Lookup(withId, k)
    ensures forall k | k != "id" && k != "Command" && !SlotKey(k) :: SameShape(Lookup(fs, k), Lookup(r, k))
    ensures withId == children ==> SameShape(Lookup(fs, "id"), Lookup(r, "id"))
    ensures SameShape(Lookup(fs, "Riding"), Lookup(r, "Riding"))
  {
    KeyNames();
  }

  /** With `update_num_ids` and `change_id` on, the numeric `id` of a node reads as its quoted
      item name once the steps before `Riding` are done. */
  lemma {:induction false} EntriesRemapId(ctx: Context, fs: seq<Field>, fuel: nat, t: string, n: string)
    requires ctx.updateIds && DistinctKeys(fs)
    requires Lookup(fs, "id") == Some(Scalar(t)) && ItemIds.RemapId(ctx.items, t) == Ok(Some(n))
    requires MigrateEntries(ctx, fs, true, fuel).Ok?
    ensures Lookup(MigrateEntries(ctx, fs, true, fuel).value, "id") == Some(Scalar(n))
  {
    EntriesSteps(ctx, fs, true, fuel);
    ChildrenKeepScalar(ctx, fs, fuel, "id");
    var children := FormatFields(ctx, fs, true, fuel).value;
    IdStepRemapsOnce(children, ctx.items, t, n);
    TailKeepsId(ctx, IdStep(children, ctx.items, true, true).value, fuel);
  }

  /** The child pass keeps the keys distinct and a scalar entry as it was. */
  lemma {:induction false} ChildrenKeepScalar(ctx: Context, fs: seq<Field>, fuel: nat, key: string)
    requires DistinctKeys(fs) && Lookup(fs, key).Some? && Lookup(fs, key).value.Scalar?
    requires FormatFields(ctx, fs, true, fuel).Ok?
    ensures DistinctKeys(FormatFields(ctx, fs, true, fuel).value)
    ensures Lookup(FormatFields(ctx, fs, true, fuel).value, key) == Lookup(fs, key)
  {
    FieldsKeepShape(ctx, fs, true, fuel);
    assert SameShape(Lookup(fs, key), Lookup(FormatFields(ctx, fs, true, fuel).value, key));
    DistinctSameKeys(fs, FormatFields(ctx, fs, true, fuel).value);
  }

  /** The `Command` and slot steps leave the entry of a key `k` they are not about as it was. */
  lemma {:induction false} TailStepsKeepKey(ctx: Context, withId: seq<Field>, fuel: nat, k: string)
    requires DistinctKeys(withId) && CommandField(ctx, withId, fuel).Ok?
    requires SlotSteps(CommandField(ctx, withId, fuel).value).Ok?
    requires k != "Command" && !SlotKey(k)
    ensures Lookup(SlotSteps(CommandField(ctx, withId, fuel).value).value, k) == Lookup(withId, k)
  {
    TailStepsKeep(ctx, withId, fuel);
  }

  /** The `Command` and slot steps keep the keys distinct and leave every other key alone. */
  lemma {:induction false} TailStepsKeep(ctx: Context, withId: seq<Field>, fuel: nat)
    requires DistinctKeys(withId) && CommandField(ctx, withId, fuel).Ok?
    requires SlotSteps(CommandField(ctx, withId, fuel).value).Ok?
    ensures DistinctKeys(SlotSteps(CommandField(ctx, withId, fuel).value).value)
    ensures forall k | k != "Command" && !SlotKey(k) ::
      Lookup(SlotSteps(CommandField(ctx, withId, fuel).value).value, k) == Lookup(withId, k)
  {
    CommandFieldKeeps(ctx, withId, fuel);
    SlotStepsKeep(CommandField(ctx, withId, fuel).value);
  }

  /** `format_compound` is the steps before `Riding` followed by the `Riding` step. */
  lemma {:induction false} CompoundSteps(ctx: Context, fs: seq<Field>, base: Option<string>, changeId: bool, fuel: nat)
    requires FormatCompound(ctx, fs, base, changeId, fuel + 1).Ok?
    ensures MigrateEntries(ctx, fs, changeId, fuel).Ok?
    ensures FormatCompound(ctx, fs, base, changeId, fuel + 1)
      == RidingField(ctx, MigrateEntries(ctx, fs, changeId, fuel).value, base, fuel)
  {
  }

  /** A node that rides nothing is its own result. */
  lemma {:induction false} NoRidingStays(ctx: Context, fs: seq<Field>, base: Option<string>, changeId: bool, fuel: nat)
    requires DistinctKeys(fs) && !HasKey(fs, "Riding")
    requires FormatCompound(ctx, fs, base, changeId, fuel + 1).Ok?
    ensures MigrateEntries(ctx, fs, changeId, fuel).Ok?
    ensures FormatCompound(ctx, fs, base, changeId, fuel + 1).value == (MigrateEntries(ctx, fs, changeId, fuel).value, false)
  {
    CompoundSteps(ctx, fs, base, changeId, fuel);
    EntriesKeep(ctx, fs, changeId, fuel);
  }

  /** At the top, a node that rides nothing gives no mount type. */
  lemma {:induction false} NoRidingNoType(ctx: Context, fs: seq<Field>, base: Option<string>, fuel: nat)
    requires DistinctKeys(fs) && !HasKey(fs, "Riding")
    requires FormatTop(ctx, fs, base, fuel + 1).Ok?
    ensures MigrateEntries(ctx, fs, true, fuel).Ok?
    ensures FormatTop(ctx, fs, base, fuel + 1).value == (MigrateEntries(ctx, fs, true, fuel).value, None)
  {
    var p := FormatCompound(ctx, fs, base, true, fuel + 1);
    assert p.Ok?;
    assert FormatTop(ctx, fs, base, fuel + 1) == Ok(TakeType(p.value.0, p.value.1));
    NoRidingStays(ctx, fs, base, true, fuel);
  }

  /** The `Riding` step on a node whose `Riding` is a dict: the node, without its `Riding` and
      with its `id` set to the base entity when there is one, becomes the last passenger of
      that dict, and the dict is the result. */
  lemma {:induction false} RidingFieldMounts(ctx: Context, fs: seq<Field>, base: Option<string>, fuel: nat)
    requires DistinctKeys(fs) && HasKey(fs, "Riding") && Lookup(fs, "Riding").value.Compound?
    requires RidingField(ctx, fs, base, fuel).Ok?
    ensures RidingField(ctx, fs, base, fuel).value.1
    ensures CarriesLast(RidingField(ctx, fs, base, fuel).value.0, base)
  {
    var p := Pop(fs, "Riding");
    PopRemoves(fs, "Riding");
    var mount := FormatCompound(ctx, p.0.value.fields, None, true, fuel).value.0;
    assert RidingField(ctx, fs, base, fuel) == Ok((Mount(p.1, mount, base).value, true));
    MountLastPassenger(p.1, mount, base);
  }

  /** A node that rides a dict becomes the last passenger of that dict, without its `Riding`
      and with its `id` set to the base entity when there is one; the mount is the result. */
  lemma {:induction false} RidingMounts(ctx: Context, fs: seq<Field>, base: Option<string>, changeId: bool, fuel: nat)
    requires DistinctKeys(fs) && HasKey(fs, "Riding") && Lookup(fs, "Riding").value.Compound?
    requires FormatCompound(ctx, fs, base, changeId, fuel + 1).Ok?
    ensures FormatCompound(ctx, fs, base, changeId, fuel + 1).value.1
    ensures CarriesLast(FormatCompound(ctx, fs, base, changeId, fuel + 1).value.0, base)
  {
    CompoundSteps(ctx, fs, base, changeId, fuel);
    EntriesKeep(ctx, fs, changeId, fuel);
    RidingFieldMounts(ctx, MigrateEntries(ctx, fs, changeId, fuel).value, base, fuel);
  }

  /** The child pass puts the formatted child where the first entry under `key` was. */
  lemma {:induction false} ChildFormatted(ctx: Context, fs: seq<Field>, changeId: bool, fuel: nat, key: string)
    requires FormatFields(ctx, fs, changeId, fuel).Ok? && Lookup(fs, key).Some?
    ensures FormatChild(ctx, Lookup(fs, key).value, changeId, key in ItemIds.KeepIdTags, fuel).Ok?
    ensures Lookup(FormatFields(ctx, fs, changeId, fuel).value, key)
      == Some(FormatChild(ctx, Lookup(fs, key).value, changeId, key in ItemIds.KeepIdTags, fuel).value)
    decreases |fs|
  {
    var r := FormatFields(ctx, fs, changeId, fuel).value;
    var v := FormatChild(ctx, fs[0].val, changeId, fs[0].key in ItemIds.KeepIdTags, fuel).value;
    var rest := FormatFields(ctx, fs[1..], changeId, fuel).value;
    assert r == [Field(fs[0].key, v)] + rest;
    if fs[0].key != key {
      ChildFormatted(ctx, fs[1..], changeId, fuel, key);
      assert r[1..] == rest;
    }
  }

  /** The steps after the child pass leave `Riding` as the child pass left it. */
  lemma {:induction false} EntriesKeepRiding(ctx: Context, fs: seq<Field>, changeId: bool, fuel: nat)
    requires DistinctKeys(fs) && MigrateEntries(ctx, fs, changeId, fuel).Ok?
    ensures FormatFields(ctx, fs, changeId, fuel).Ok?
    ensures Lookup(MigrateEntries(ctx, fs, changeId, fuel).value, "Riding")
      == Lookup(FormatFields(ctx, fs, changeId, fuel).value, "Riding")
  {
    EntriesSteps(ctx, fs, changeId, fuel);
    var children := FormatFields(ctx, fs, changeId, fuel).value;
    FieldsKeepShape(ctx, fs, changeId, fuel);
    DistinctSameKeys(fs, children);
    StepsKeepRiding(ctx, children, changeId, fuel);
  }

  /** The `id`, `Command` and slot steps leave `Riding` as the child pass made it. */
  lemma {:induction false} StepsKeepRiding(ctx: Context, children: seq<Field>, changeId: bool, fuel: nat)
    requires DistinctKeys(children) && IdStep(children, ctx.items, ctx.updateIds, changeId).Ok?
    requires var withId := IdStep(children, ctx.items, ctx.updateIds, changeId).value;
      CommandField(ctx, withId, fuel).Ok? && SlotSteps(CommandField(ctx, withId, fuel).value).Ok?
    ensures var withId := IdStep(children, ctx.items, ctx.updateIds, changeId).value;
      Lookup(SlotSteps(CommandField(ctx, withId, fuel).value).value, "Riding") == Lookup(children, "Riding")
  {
    IdStepKeepsRiding(children, ctx.items, ctx.updateIds, changeId);
    TailKeepsRiding(ctx, IdStep(children, ctx.items, ctx.updateIds, changeId).value, fuel);
  }

  /** The `id` step leaves `Riding` alone. */
  lemma {:induction false} IdStepKeepsRiding(fs: seq<Field>, table: ItemIds.ItemTable, updateIds: bool, changeId: bool)
    requires DistinctKeys(fs) && IdStep(fs, table, updateIds, changeId).Ok?
    ensures DistinctKeys(IdStep(fs, table, updateIds, changeId).value)
    ensures Lookup(IdStep(fs, table, updateIds, changeId).value, "Riding") == Lookup(fs, "Riding")
  {
    IdStepKeeps(fs, table, updateIds, changeId);
    var k := "Riding";
    assert |k| != |"id"|;
    IdStepKeepsKey(fs, table, updateIds, changeId, k);
  }

  /** The `Command` and slot steps leave `id` alone. */
  lemma {:induction false} TailKeepsId(ctx: Context, withId: seq<Field>, fuel: nat)
    requires DistinctKeys(withId) && CommandField(ctx, withId, fuel).Ok?
    requires SlotSteps(CommandField(ctx, withId, fuel).value).Ok?
    ensures Lookup(SlotSteps(CommandField(ctx, withId, fuel).value).value, "id") == Lookup(withId, "id")
  {
    var k := "id";
    assert |k| == 2;
    TailStepsKeepKey(ctx, withId, fuel, k);
  }

  /** The `Command` and slot steps leave `Riding` alone. */
  lemma {:induction false} TailKeepsRiding(ctx: Context, withId: seq<Field>, fuel: nat)
    requires DistinctKeys(withId) && CommandField(ctx, withId, fuel).Ok?
    requires SlotSteps(CommandField(ctx, withId, fuel).value).Ok?
    ensures Lookup(SlotSteps(CommandField(ctx, withId, fuel).value).value, "Riding") == Lookup(withId, "Riding")
  {
    var k := "Riding";
    assert |k| == 6 && k[0] == 'R';
    TailStepsKeepKey(ctx, withId, fuel, k);
  }

  /** After the steps before `Riding`, a dict under `Riding` is that dict formatted with
      `change_id` as it is, since `Riding` is not one of the keys of `KEEP_ID_TAG`. */
  lemma {:induction false} EntriesFormatRiding(ctx: Context, fs: seq<Field>, changeId: bool, fuel: nat, m: seq<Field>)
    requires DistinctKeys(fs) && Lookup(fs, "Riding") == Some(Compound(m))
    requires MigrateEntries(ctx, fs, changeId, fuel).Ok?
    ensures FormatCompound(ctx, m, None, changeId, fuel).Ok?
    ensures Lookup(MigrateEntries(ctx, fs, changeId, fuel).value, "Riding")
      == Some(Compound(FormatCompound(ctx, m, None, changeId, fuel).value.0))
  {
    KeyNames();
    EntriesKeepRiding(ctx, fs, changeId, fuel);
    ChildFormatted(ctx, fs, changeId, fuel, "Riding");
    var p := FormatCompound(ctx, m, None, changeId, fuel);
    assert FormatChild(ctx, Compound(m), changeId, false, fuel) == Ok(Compound(p.value.0));
  }

  /** A node that rides nothing and whose `id` is no numeric item id comes out of the steps
      before `Riding` with the same `id`, still riding nothing. */
  lemma {:induction false} EntriesKeepId(ctx: Context, fs: seq<Field>, fuel: nat, t: string)
    requires DistinctKeys(fs) && !HasKey(fs, "Riding") && Lookup(fs, "id") == Some(Scalar(t))
    requires ItemIds.RemapId(ctx.items, t) == Ok(None)
    requires MigrateEntries(ctx, fs, true, fuel).Ok?
    ensures DistinctKeys(MigrateEntries(ctx, fs, true, fuel).value)
    ensures !HasKey(MigrateEntries(ctx, fs, true, fuel).value, "Riding")
    ensures Lookup(MigrateEntries(ctx, fs, true, fuel).value, "id") == Some(Scalar(t))
  {
    KeyNames();
    EntriesKeep(ctx, fs, true, fuel);
    EntriesSteps(ctx, fs, true, fuel);
    var children := FormatFields(ctx, fs, true, fuel).value;
    ChildrenKeepScalar(ctx, fs, fuel, "id");
    assert IdStep(children, ctx.items, ctx.updateIds, true) == Ok(children);
    TailStepsKeep(ctx, children, fuel);
  }

  /** The `Riding` step on a mount that rides nothing and whose `id` is no numeric item id:
      the mount keeps that `id`, so it is the type taken at the top. */
  lemma {:induction false} RidingFieldKeepsMountId(ctx: Context, fs: seq<Field>, base: Option<string>, fuel: nat, m: seq<Field>, t: string)
    requires DistinctKeys(fs) && Lookup(fs, "Riding") == Some(Compound(m))
    requires DistinctKeys(m) && !HasKey(m, "Riding") && Lookup(m, "id") == Some(Scalar(t))
    requires ItemIds.RemapId(ctx.items, t) == Ok(None)
    requires RidingField(ctx, fs, base, fuel + 1).Ok?
    ensures RidingField(ctx, fs, base, fuel + 1).value.1
    ensures DistinctKeys(RidingField(ctx, fs, base, fuel + 1).value.0)
    ensures Lookup(RidingField(ctx, fs, base, fuel + 1).value.0, "id") == Some(Scalar(t))
  {
    var p := Pop(fs, "Riding");
    PopRemoves(fs, "Riding");
    var mount := FormatCompound(ctx, m, None, true, fuel + 1);
    assert mount.Ok?;
    NoRidingStays(ctx, m, None, true, fuel);
    EntriesKeepId(ctx, m, fuel, t);
    var r := Mount(p.1, mount.value.0, base);
    assert RidingField(ctx, fs, base, fuel + 1) == Ok((r.value, true));
    MountKeepsId(p.1, mount.value.0, base);
  }

  /** `format_compound` with `return_type` on a node that rides a dict that itself rides
      nothing: the type handed back is the mount's `id`, unless it is a numeric item id, and
      the mount no longer has one. */
  lemma {:induction false} RidingType(ctx: Context, fs: seq<Field>, base: Option<string>, fuel: nat, m: seq<Field>, t: string)
    requires DistinctKeys(fs) && Lookup(fs, "Riding") == Some(Compound(m))
    requires DistinctKeys(m) && !HasKey(m, "Riding") && Lookup(m, "id") == Some(Scalar(t))
    requires ItemIds.RemapId(ctx.items, t) == Ok(None)
    requires FormatTop(ctx, fs, base, fuel + 2).Ok?
    ensures FormatCompound(ctx, fs, base, true, fuel + 2).Ok?
    ensures FormatCompound(ctx, fs, base, true, fuel + 2).value.1
    ensures DistinctKeys(FormatCompound(ctx, fs, base, true, fuel + 2).value.0)
    ensures FormatTop(ctx, fs, base, fuel + 2).value.1 == Some(Scalar(t))
  {
    var p := FormatCompound(ctx, fs, base, true, fuel + 2);
    assert p.Ok?;
    assert FormatTop(ctx, fs, base, fuel + 2) == Ok(TakeType(p.value.0, p.value.1));
    CompoundSteps(ctx, fs, base, true, fuel + 1);
    var entries := MigrateEntries(ctx, fs, true, fuel + 1).value;
    EntriesKeep(ctx, fs, true, fuel + 1);
    EntriesFormatRiding(ctx, fs, true, fuel + 1, m);
    NoRidingStays(ctx, m, None, true, fuel);
    EntriesKeepId(ctx, m, fuel, t);
    RidingFieldKeepsMountId(ctx, entries, base, fuel, MigrateEntries(ctx, m, true, fuel).value, t);
  }

  /** The mount a node rode, handed back at the top, has no `id` left and keeps its
      passengers. */
  lemma {:induction false} TopTakesType(ctx: Context, fs: seq<Field>, base: Option<string>, fuel: nat)
    requires FormatTop(ctx, fs, base, fuel).Ok?
    requires FormatCompound(ctx, fs, base, true, fuel).Ok?
    requires DistinctKeys(FormatCompound(ctx, fs, base, true, fuel).value.0)
    requires FormatCompound(ctx, fs, base, true, fuel).value.1
    ensures !HasKey(FormatTop(ctx, fs, base, fuel).value.0, "id")
    ensures Lookup(FormatTop(ctx, fs, base, fuel).value.0, "Passengers")
      == Lookup(FormatCompound(ctx, fs, base, true, fuel).value.0, "Passengers")
  {
    var p := FormatCompound(ctx, fs, base, true, fuel).value;
    assert FormatTop(ctx, fs, base, fuel) == Ok(TakeType(p.0, true));
    TakeTypeRemoves(p.0);
    TakeTypeKeepsPassengers(p.0);
  }

  /** At the top, the mount printed in place of such a node has the node, with the base
      entity as its `id` and without `Riding`, as its last passenger. */
  lemma {:induction false} TopLastPassenger(ctx: Context, fs: seq<Field>, base: Option<string>, fuel: nat, m: seq<Field>, t: string)
    requires DistinctKeys(fs) && Lookup(fs, "Riding") == Some(Compound(m))
    requires DistinctKeys(m) && !HasKey(m, "Riding") && Lookup(m, "id") == Some(Scalar(t))
    requires ItemIds.RemapId(ctx.items, t) == Ok(None)
    requires FormatTop(ctx, fs, base, fuel + 2).Ok?
    ensures CarriesLast(FormatTop(ctx, fs, base, fuel + 2).value.0, base)
  {
    RidingType(ctx, fs, base, fuel, m, t);
    TopTakesType(ctx, fs, base, fuel + 2);
    RidingMounts(ctx, fs, base, true, fuel + 1);
    CarriesLastSame(FormatCompound(ctx, fs, base, true, fuel + 2).value.0, FormatTop(ctx, fs, base, fuel + 2).value.0, base);
  }

  /** Under the keys of `KEEP_ID_TAG` a dict keeps its `id`, whatever `change_id` is. */
  lemma {:induction false} KeptIdChild(ctx: Context, gs: seq<Field>, changeId: bool, fuel: nat, t: string)
    requires DistinctKeys(gs) && !HasKey(gs, "Riding") && Lookup(gs, "id") == Some(Scalar(t))
    requires FormatChild(ctx, Compound(gs), changeId, true, fuel + 1).Ok?
    ensures FormatChild(ctx, Compound(gs), changeId, true, fuel + 1).value.Compound?
    ensures Lookup(FormatChild(ctx, Compound(gs), changeId, true, fuel + 1).value.fields, "id") == Some(Scalar(t))
  {
    var p := FormatCompound(ctx, gs, None, false, fuel + 1);
    assert p.Ok?;
    assert FormatChild(ctx, Compound(gs), changeId, true, fuel + 1) == Ok(Compound(p.value.0));
    NoRidingStays(ctx, gs, None, false, fuel);
    EntriesKeep(ctx, gs, false, fuel);
  }

  /** With `update_num_ids` on, the numeric `id` of a node that rides nothing reads as its
      quoted item name afterwards. */
  lemma {:induction false} RemappedId(ctx: Context, fs: seq<Field>, base: Option<string>, fuel: nat, t: string, n: string)
    requires ctx.updateIds && DistinctKeys(fs) && !HasKey(fs, "Riding")
    requires Lookup(fs, "id") == Some(Scalar(t)) && ItemIds.RemapId(ctx.items, t) == Ok(Some(n))
    requires FormatCompound(ctx, fs, base, true, fuel + 1).Ok?
    ensures Lookup(FormatCompound(ctx, fs, base, true, fuel + 1).value.0, "id") == Some(Scalar(n))
  {
    NoRidingStays(ctx, fs, base, true, fuel);
    EntriesRemapId(ctx, fs, fuel, t, n);
  }

  /** `Command` loses exactly one pair of quotes before it is formatted and gets exactly one
      pair back after; no other key changes. */
  lemma {:induction false} CommandRewrapped(ctx: Context, fs: seq<Field>, c: string, fuel: nat)
    requires Lookup(fs, "Command") == Some(Scalar(Wrap(c)))
    ensures CommandField(ctx, fs, fuel).Ok? <==> FormatCommand(ctx, c, fuel).Ok?
    ensures CommandField(ctx, fs, fuel).Ok? ==>
      && Lookup(CommandField(ctx, fs, fuel).value, "Command") == Some(Scalar(Wrap(FormatCommand(ctx, c, fuel).value)))
      && forall k | k != "Command" :: Lookup(CommandField(ctx, fs, fuel).value, k) == Lookup(fs, k)
  {
    UnquoteWrap(c);
  }

  // ---------------------------------------------------------------------------------------
  // The handlers

  /** The `selector` wrapper on a compound that rides nothing prints the selector back with
      the arguments it was read with. */
  lemma {:induction false} SelectorKeepsArgs(ctx: Context, caps: Captures, fuel: nat, t: char, es: seq<Arg>, fs: seq<Field>)
    requires "sel" in caps && "nbt" in caps
    requires ParseSelectorSpec(caps["sel"]) == Ok(Some((t, es)))
    requires ParseNbt(caps["nbt"]) == Ok(fs) && !HasKey(fs, "Riding")
    requires SelectorCaps(ctx, caps, fuel + 1).Ok?
    ensures "sel" in SelectorCaps(ctx, caps, fuel + 1).value
    ensures SelectorCaps(ctx, caps, fuel + 1).value["sel"] == SelectorString(t, es)
  {
    var ty := Get(es, "type");
    var top := FormatTop(ctx, fs, ty, fuel + 1);
    assert top.Ok?;
    NoRidingNoType(ctx, fs, ty, fuel);
    assert MountType(top.value.1) == Ok(None);
    if ty.Some? {
      AssignGet(es, "type");
    }
    assert NewTypeArgs(es, ty) == es;
  }

  /** A text that is not a selector leaves the `selector` wrapper doing what the `nbt` wrapper
      does. */
  lemma {:induction false} SelectorFallback(ctx: Context, caps: Captures, fuel: nat)
    requires "sel" in caps && !SelectorShape(caps["sel"])
    ensures SelectorCaps(ctx, caps, fuel) == NbtCaps(ctx, caps, fuel)
  {
  }

  /** `summon_string` on a compound that rides a dict with a non-empty `id` (no numeric item
      id) that rides nothing summons that mount type in place of the entity: the printed
      compound is the mount without its `id`, and its last passenger is the node, now with
      the entity as its `id` and without `Riding`. */
  lemma {:induction false} SummonMounts(ctx: Context, caps: Captures, fuel: nat, fs: seq<Field>, m: seq<Field>, t: string)
    requires "nbt" in caps && "entity" in caps && "pos" in caps
    requires ParseNbt(caps["nbt"]) == Ok(fs) && Lookup(fs, "Riding") == Some(Compound(m))
    requires DistinctKeys(m) && !HasKey(m, "Riding") && Lookup(m, "id") == Some(Scalar(t)) && t != ""
    requires ItemIds.RemapId(ctx.items, t) == Ok(None)
    requires SummonString(ctx, caps, fuel + 2).Ok?
    ensures FormatTop(ctx, fs, Some(caps["entity"]), fuel + 2).Ok?
    ensures var top := FormatTop(ctx, fs, Some(caps["entity"]), fuel + 2).value.0;
      && SummonString(ctx, caps, fuel + 2).value == "/summon " + t + caps["pos"] + " " + CompoundString(top, Verbatim)
      && !HasKey(top, "id")
      && CarriesLast(top, Some(caps["entity"]))
  {
    var base := Some(caps["entity"]);
    var top := FormatTop(ctx, fs, base, fuel + 2);
    assert top.Ok?;
    RidingType(ctx, fs, base, fuel, m, t);
    assert MountType(top.value.1) == Ok(Some(t));
    TopTakesType(ctx, fs, base, fuel + 2);
    TopLastPassenger(ctx, fs, base, fuel, m, t);
  }

  /** The `selector` wrapper on a compound that rides such a mount sets the selector's `type`
      to the mount type and keeps every other argument. */
  lemma {:induction false} SelectorMounts(ctx: Context, caps: Captures, fuel: nat, c: char, es: seq<Arg>, fs: seq<Field>, m: seq<Field>, t: string)
    requires "sel" in caps && "nbt" in caps
    requires ParseSelectorSpec(caps["sel"]) == Ok(Some((c, es)))
    requires ParseNbt(caps["nbt"]) == Ok(fs) && Lookup(fs, "Riding") == Some(Compound(m))
    requires DistinctKeys(m) && !HasKey(m, "Riding") && Lookup(m, "id") == Some(Scalar(t)) && t != ""
    requires ItemIds.RemapId(ctx.items, t) == Ok(None)
    requires SelectorCaps(ctx, caps, fuel + 2).Ok?
    ensures "sel" in SelectorCaps(ctx, caps, fuel + 2).value
    ensures SelectorCaps(ctx, caps, fuel + 2).value["sel"] == SelectorString(c, NewTypeArgs(es, Some(t)))
    ensures Get(NewTypeArgs(es, Some(t)), "type") == Some(t)
    ensures forall k | k != "type" :: Get(NewTypeArgs(es, Some(t)), k) == Get(es, k)
  {
    var ty := Get(es, "type");
    var top := FormatTop(ctx, fs, ty, fuel + 2);
    assert top.Ok?;
    RidingType(ctx, fs, ty, fuel, m, t);
    SelectorCapsTyped(ctx, caps, fuel + 2, c, es, fs, t);
  }

  /** A selector whose compound gives the mount type `mt`: the new `sel` has `type=mt`. */
  lemma {:induction false} SelectorCapsTyped(ctx: Context, caps: Captures, fuel: nat, c: char, es: seq<Arg>, fs: seq<Field>, mt: string)
    requires "sel" in caps && "nbt" in caps
    requires ParseSelectorSpec(caps["sel"]) == Ok(Some((c, es))) && ParseNbt(caps["nbt"]) == Ok(fs)
    requires FormatTop(ctx, fs, Get(es, "type"), fuel).Ok?
    requires MountType(FormatTop(ctx, fs, Get(es, "type"), fuel).value.1) == Ok(Some(mt))
    ensures SelectorCaps(ctx, caps, fuel).Ok? && "sel" in SelectorCaps(ctx, caps, fuel).value
    ensures SelectorCaps(ctx, caps, fuel).value["sel"] == SelectorString(c, NewTypeArgs(es, Some(mt)))
  {
    var top := FormatTop(ctx, fs, Get(es, "type"), fuel).value;
    var sel := SelectorString(c, NewTypeArgs(es, Some(mt)));
    var r := caps["sel" := sel]["nbt" := CompoundString(top.0, Verbatim)];
    assert SelectorCaps(ctx, caps, fuel) == Ok(r);
  }

  /** `summon_string` on a compound that rides nothing summons the entity it was given. */
  lemma {:induction false} SummonKeepsEntity(ctx: Context, caps: Captures, fuel: nat, fs: seq<Field>)
    requires "nbt" in caps && "entity" in caps && "pos" in caps
    requires ParseNbt(caps["nbt"]) == Ok(fs) && !HasKey(fs, "Riding")
    requires SummonString(ctx, caps, fuel + 1).Ok?
    ensures MigrateEntries(ctx, fs, true, fuel).Ok?
    ensures SummonString(ctx, caps, fuel + 1).value
      == "/summon " + caps["entity"] + caps["pos"] + " " + CompoundString(MigrateEntries(ctx, fs, true, fuel).value, Verbatim)
  {
    var top := FormatTop(ctx, fs, Some(caps["entity"]), fuel + 1);
    assert top.Ok?;
    NoRidingNoType(ctx, fs, Some(caps["entity"]), fuel);
    assert MountType(top.value.1) == Ok(None);
  }
}
