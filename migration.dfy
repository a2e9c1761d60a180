/** The steps `Formatter.format_compound` applies to one compound after its children: the
    numeric `id`, the quotes of `Command`, `Equipment`, `HealF`, `DropChances`, the mount of
    `Riding`, and the type handed back to the caller.  A compound is a list of entries in
    insertion order, as a Python `dict` keeps them. */
module Migration {
  import opened Wrappers
  import opened Tags
  import opened ItemIds
  import opened Text

  // ---------------------------------------------------------------------------------------
  // The numeric `id`

  /** With `update_num_ids` and `change_id` set, a numeric `id` is replaced by its quoted
      name from the item table; an `id` that does not look like a number is left alone; a
      non-text `id` makes the pattern raise `TypeError`. */
  function IdStep(fs: seq<Field>, table: ItemTable, updateIds: bool, changeId: bool): (r: Result<seq<Field>>)
    ensures !(updateIds && changeId && HasKey(fs, "id")) ==> r == Ok(fs)
  {
    if !(updateIds && changeId && HasKey(fs, "id")) then Ok(fs)
    else
      var name :- IdName(Lookup(fs, "id").value, table);
      if name.Some? then Ok(Put(fs, "id", Scalar(name.value))) else Ok(fs)
  }

  /** The new text of an `id` value, if it is remapped at all. */
  function IdName(v: Value, table: ItemTable): (r: Result<Option<string>>)
    ensures v.Scalar? ==> r == RemapId(table, v.token)
    ensures !v.Scalar? ==> r == Err(WrongType)
  {
    match v
    case Scalar(t) => RemapId(table, t)
    case _ => Err(WrongType)
  }

  /** The `id` step touches nothing but `id`, and keeps the dict's keys distinct. */
  lemma {:induction false} IdStepKeeps(fs: seq<Field>, table: ItemTable, updateIds: bool, changeId: bool)
    requires DistinctKeys(fs) && IdStep(fs, table, updateIds, changeId).Ok?
    ensures DistinctKeys(IdStep(fs, table, updateIds, changeId).value)
    ensures forall k | k != "id" :: Lookup(IdStep(fs, table, updateIds, changeId).value, k) == Lookup(fs, k)
  {
    if updateIds && changeId && HasKey(fs, "id") {
      var name := IdName(Lookup(fs, "id").value, table).value;
      if name.Some? {
        PutShape(fs, "id", Scalar(name.value));
        PutLookup(fs, "id", Scalar(name.value));
      }
    }
  }

  /** A remapped `id` is bound to the quoted name, and the keys stay distinct. */
  lemma {:induction false} IdStepRemapsOnce(fs: seq<Field>, table: ItemTable, t: string, n: string)
    requires DistinctKeys(fs) && Lookup(fs, "id") == Some(Scalar(t)) && RemapId(table, t) == Ok(Some(n))
    ensures IdStep(fs, table, true, true).Ok? && DistinctKeys(IdStep(fs, table, true, true).value)
    ensures Lookup(IdStep(fs, table, true, true).value, "id") == Some(Scalar(n))
  {
    IdStepRemaps(fs, table, t, n);
    IdStepKeeps(fs, table, true, true);
  }

  /** The `id` step leaves the entry of any other key `k` as it was. */
  lemma {:induction false} IdStepKeepsKey(fs: seq<Field>, table: ItemTable, updateIds: bool, changeId: bool, k: string)
    requires DistinctKeys(fs) && IdStep(fs, table, updateIds, changeId).Ok? && k != "id"
    ensures Lookup(IdStep(fs, table, updateIds, changeId).value, k) == Lookup(fs, k)
  {
    IdStepKeeps(fs, table, updateIds, changeId);
  }

  /** A remapped `id` is bound to the quoted name; every other key keeps its value and place. */
  lemma {:induction false} IdStepRemaps(fs: seq<Field>, table: ItemTable, t: string, n: string)
    requires Lookup(fs, "id") == Some(Scalar(t)) && RemapId(table, t) == Ok(Some(n))
    ensures IdStep(fs, table, true, true).Ok?
    ensures Lookup(IdStep(fs, table, true, true).value, "id") == Some(Scalar(n))
    ensures forall k | k != "id" :: Lookup(IdStep(fs, table, true, true).value, k) == Lookup(fs, k)
    ensures KeysOf(IdStep(fs, table, true, true).value) == KeysOf(fs)
  {
    assert HasKey(fs, "id");
    assert IdName(Scalar(t), table) == Ok(Some(n));
    assert IdStep(fs, table, true, true) == Ok(Put(fs, "id", Scalar(n)));
    PutLookup(fs, "id", Scalar(n));
  }

  /** `{id:269}` becomes `{id:"minecraft:wooden_shovel"}`. */
  lemma {:induction false} IdStepShovel(fs: seq<Field>)
    requires Lookup(fs, "id") == Some(Scalar("269"))
    ensures IdStep(fs, ItemName, true, true).Ok?
    ensures Lookup(IdStep(fs, ItemName, true, true).value, "id") == Some(Scalar("\"minecraft:wooden_shovel\""))
  {
    RemapShovel();
    IdStepRemaps(fs, ItemName, "269", "\"minecraft:wooden_shovel\"");
  }

  /** An `id` that is a number missing from the table raises `KeyError`. */
  lemma {:induction false} IdStepUnknown(fs: seq<Field>, d: string)
    requires Lookup(fs, "id") == Some(Scalar(d)) && d != [] && AllDigits(d)
    requires ItemName(DigitsValue(d)).None?
    ensures IdStep(fs, ItemName, true, true) == Err(UnknownItemId(DigitsValue(d)))
  {
    RemapDigits(ItemName, d);
  }

  // ---------------------------------------------------------------------------------------
  // `Command`

  /** `cmd[1:-1] if cmd[0] == '"' and cmd[-1] == '"' else cmd`: one layer of quotes off; the
      empty text raises `IndexError`. */
  function Unquote(cmd: string): (r: Result<string>)
    ensures r.Err? <==> cmd == []
    ensures r.Err? ==> r.error == IndexOutOfRange
    ensures r.Ok? && |cmd| >= 2 && cmd[0] == '"' && cmd[|cmd| - 1] == '"' ==> cmd == Wrap(r.value)
    ensures r.Ok? && !(cmd[0] == '"' && cmd[|cmd| - 1] == '"') ==> r.value == cmd
  {
    if cmd == [] then Err(IndexOutOfRange)
    else if cmd[0] == '"' && cmd[|cmd| - 1] == '"' then
      if |cmd| == 1 then Ok("") else Ok(cmd[1..|cmd| - 1])
    else Ok(cmd)
  }

  /** The new `Command`: the formatted command between one pair of quotes. */
  function Wrap(c: string): (r: string)
  {
    "\"" + c + "\""
  }

  /** Unquoting a wrapped command gives back the command. */
  lemma {:induction false} UnquoteWrap(c: string)
    ensures Unquote(Wrap(c)) == Ok(c)
  {
    var w := Wrap(c);
    assert w[0] == '"' && w[|w| - 1] == '"';
    assert w[1..|w| - 1] == c;
  }

  /** The text `format_command` is given for a `Command` value: only a text value gets that
      far; indexing a dict raises `KeyError`, an empty list `IndexError`, and a list that is not
      empty has no `strip`. */
  function CommandText(v: Value): (r: Result<string>)
    ensures v.Scalar? ==> r == Unquote(v.token)
    ensures !v.Scalar? ==> r.Err?
  {
    match v
    case Scalar(t) => Unquote(t)
    case Compound(_) => Err(WrongType)
    case List(items) => if items == [] then Err(IndexOutOfRange) else Err(WrongType)
  }

  /** The entries once `Command` holds the wrapped command `c`. */
  function CommandStep(fs: seq<Field>, c: string): (r: seq<Field>)
    ensures Lookup(r, "Command") == Some(Scalar(Wrap(c)))
    ensures forall k | k != "Command" :: Lookup(r, k) == Lookup(fs, k)
  {
    PutLookup(fs, "Command", Scalar(Wrap(c)));
    Put(fs, "Command", Scalar(Wrap(c)))
  }

  /** Rewriting `Command` keeps the dict's keys distinct. */
  lemma {:induction false} CommandStepDistinct(fs: seq<Field>, c: string)
    requires DistinctKeys(fs)
    ensures DistinctKeys(CommandStep(fs, c))
  {
    PutShape(fs, "Command", Scalar(Wrap(c)));
  }

  // ---------------------------------------------------------------------------------------
  // `Equipment` and `DropChances`

  /** `v[0]` and `[v[i] for i in range(1, len(v))]`: a list gives its items, a text its
      characters; an empty one raises `IndexError` and a dict `KeyError`. */
  function FirstAndRest(v: Value): (r: Result<(Value, seq<Value>)>)
    ensures v.List? && v.items != [] ==> r == Ok((v.items[0], v.items[1..]))
    ensures v.Scalar? && v.token != [] ==> r.Ok? && r.value.0 == Scalar([v.token[0]]) && |r.value.1| == |v.token| - 1
    ensures (v.List? || v.Scalar?) && !Truthy(v) ==> r == Err(IndexOutOfRange)
    ensures v.Compound? ==> r == Err(WrongType)
  {
    match v
    case List(items) => if items == [] then Err(IndexOutOfRange) else Ok((items[0], items[1..]))
    case Scalar(t) => if t == [] then Err(IndexOutOfRange) else Ok((Scalar([t[0]]), Chars(t[1..])))
    case Compound(_) => Err(WrongType)
  }

  /** The characters of a text, each as a text of its own. */
  function Chars(t: string): (r: seq<Value>)
    ensures |r| == |t|
    ensures forall i | 0 <= i < |t| :: r[i] == Scalar([t[i]])
  {
    if t == [] then [] else [Scalar([t[0]])] + Chars(t[1..])
  }

  /** `Equipment` is popped: its first item and `{}` become `HandItems`, the others
      `ArmorItems`. */
  function EquipmentStep(fs: seq<Field>): (r: Result<seq<Field>>)
    ensures !HasKey(fs, "Equipment") ==> r == Ok(fs)
  {
    if !HasKey(fs, "Equipment") then Ok(fs)
    else
      var p := Pop(fs, "Equipment");
      var split :- FirstAndRest(p.0.value);
      Ok(Put(Put(p.1, "HandItems", List([split.0, Compound([])])), "ArmorItems", List(split.1)))
  }

  /** `DropChances` is popped: its first item twice becomes `HandDropChances`, the others
      `ArmorDropChances`. */
  function DropChancesStep(fs: seq<Field>): (r: Result<seq<Field>>)
    ensures !HasKey(fs, "DropChances") ==> r == Ok(fs)
  {
    if !HasKey(fs, "DropChances") then Ok(fs)
    else
      var p := Pop(fs, "DropChances");
      var split :- FirstAndRest(p.0.value);
      Ok(Put(Put(p.1, "HandDropChances", List([split.0, split.0])), "ArmorDropChances", List(split.1)))
  }

  /** Popping `gone` and storing two new keys: the two are bound as stored, `gone` is removed and
      every other key keeps its value; the dict keeps its keys distinct. */
  lemma {:induction false} PopPutPut(fs: seq<Field>, gone: string, k1: string, v1: Value, k2: string, v2: Value)
    requires DistinctKeys(fs) && gone != k1 && gone != k2 && k1 != k2
    ensures var r := Put(Put(Pop(fs, gone).1, k1, v1), k2, v2);
      && !HasKey(r, gone) && Lookup(r, k1) == Some(v1) && Lookup(r, k2) == Some(v2)
      && DistinctKeys(r)
      && forall k | k != gone && k != k1 && k != k2 :: Lookup(r, k) == Lookup(fs, k)
  {
    var p := Pop(fs, gone).1;
    PopRemoves(fs, gone);
    var q := Put(p, k1, v1);
    PutLookup(p, k1, v1);
    PutShape(p, k1, v1);
    PutLookup(q, k2, v2);
    PutShape(q, k2, v2);
    assert Lookup(q, gone) == Lookup(p, gone);
    assert Lookup(Put(q, k2, v2), gone) == Lookup(q, gone);
  }

  /** A non-empty list under `Equipment` is split into `HandItems=[e0,{}]` and
      `ArmorItems=e[1:]`; `Equipment` is removed and no other key changes. */
  lemma {:induction false} EquipmentSplit(fs: seq<Field>, e: seq<Value>)
    requires DistinctKeys(fs) && Lookup(fs, "Equipment") == Some(List(e)) && e != []
    ensures EquipmentStep(fs).Ok?
    ensures var r := EquipmentStep(fs).value;
      && !HasKey(r, "Equipment") && DistinctKeys(r)
      && Lookup(r, "HandItems") == Some(List([e[0], Compound([])]))
      && Lookup(r, "ArmorItems") == Some(List(e[1..]))
      && forall k | k != "Equipment" && k != "HandItems" && k != "ArmorItems" :: Lookup(r, k) == Lookup(fs, k)
  {
    PopPutPut(fs, "Equipment", "HandItems", List([e[0], Compound([])]), "ArmorItems", List(e[1..]));
  }

  /** A non-empty list under `DropChances` is split into `HandDropChances=[d0,d0]` and
      `ArmorDropChances=d[1:]`; `DropChances` is removed and no other key changes. */
  lemma {:induction false} DropChancesSplit(fs: seq<Field>, d: seq<Value>)
    requires DistinctKeys(fs) && Lookup(fs, "DropChances") == Some(List(d)) && d != []
    ensures DropChancesStep(fs).Ok?
    ensures var r := DropChancesStep(fs).value;
      && !HasKey(r, "DropChances") && DistinctKeys(r)
      && Lookup(r, "HandDropChances") == Some(List([d[0], d[0]]))
      && Lookup(r, "ArmorDropChances") == Some(List(d[1..]))
      && forall k | k != "DropChances" && k != "HandDropChances" && k != "ArmorDropChances" :: Lookup(r, k) == Lookup(fs, k)
  {
    PopPutPut(fs, "DropChances", "HandDropChances", List([d[0], d[0]]), "ArmorDropChances", List(d[1..]));
  }

  /** Whatever `Equipment` holds, a step that succeeds touches no key but its three. */
  lemma {:induction false} EquipmentKeeps(fs: seq<Field>)
    requires DistinctKeys(fs) && EquipmentStep(fs).Ok?
    ensures var r := EquipmentStep(fs).value;
      && DistinctKeys(r)
      && forall k | k != "Equipment" && k != "HandItems" && k != "ArmorItems" :: Lookup(r, k) == Lookup(fs, k)
  {
    if HasKey(fs, "Equipment") {
      var split := FirstAndRest(Pop(fs, "Equipment").0.value).value;
      PopPutPut(fs, "Equipment", "HandItems", List([split.0, Compound([])]), "ArmorItems", List(split.1));
    }
  }

  /** Whatever `DropChances` holds, a step that succeeds touches no key but its three. */
  lemma {:induction false} DropChancesKeeps(fs: seq<Field>)
    requires DistinctKeys(fs) && DropChancesStep(fs).Ok?
    ensures var r := DropChancesStep(fs).value;
      && DistinctKeys(r)
      && forall k | k != "DropChances" && k != "HandDropChances" && k != "ArmorDropChances" :: Lookup(r, k) == Lookup(fs, k)
  {
    if HasKey(fs, "DropChances") {
      var split := FirstAndRest(Pop(fs, "DropChances").0.value).value;
      PopPutPut(fs, "DropChances", "HandDropChances", List([split.0, split.0]), "ArmorDropChances", List(split.1));
    }
  }

  // ---------------------------------------------------------------------------------------
  // `HealF`

  /** `HealF` is popped and its value stored under `Health`. */
  function HealthStep(fs: seq<Field>): (r: seq<Field>)
    ensures !HasKey(fs, "HealF") ==> r == fs
  {
    if !HasKey(fs, "HealF") then fs
    else
      var p := Pop(fs, "HealF");
      Put(p.1, "Health", p.0.value)
  }

  /** `HealF` is removed and its value overwrites `Health`; no other key changes. */
  lemma {:induction false} HealthMoved(fs: seq<Field>, h: Value)
    requires DistinctKeys(fs) && Lookup(fs, "HealF") == Some(h)
    ensures var r := HealthStep(fs);
      && !HasKey(r, "HealF") && Lookup(r, "Health") == Some(h) && DistinctKeys(r)
      && forall k | k != "HealF" && k != "Health" :: Lookup(r, k) == Lookup(fs, k)
  {
    var p := Pop(fs, "HealF").1;
    assert HealthStep(fs) == Put(p, "Health", h);
    assert |"HealF"| != |"Health"|;
    PopRemoves(fs, "HealF");
    PutLookup(p, "Health", h);
    PutShape(p, "Health", h);
    assert Lookup(Put(p, "Health", h), "HealF") == Lookup(p, "HealF");
  }

  /** The three slot steps in the order `format_compound` takes them. */
  function SlotSteps(fs: seq<Field>): (r: Result<seq<Field>>)
  {
    var a :- EquipmentStep(fs);
    DropChancesStep(HealthStep(a))
  }

  /** The keys the slot steps read or write. */
  predicate SlotKey(k: string) {
    k == "Equipment" || k == "HandItems" || k == "ArmorItems" || k == "HealF" || k == "Health"
    || k == "DropChances" || k == "HandDropChances" || k == "ArmorDropChances"
  }

  /** The slot steps leave every other key alone and keep the dict's keys distinct. */
  lemma {:induction false} SlotStepsKeep(fs: seq<Field>)
    requires DistinctKeys(fs) && SlotSteps(fs).Ok?
    ensures DistinctKeys(SlotSteps(fs).value)
    ensures forall k | !SlotKey(k) :: Lookup(SlotSteps(fs).value, k) == Lookup(fs, k)
  {
    EquipmentKeeps(fs);
    var a := EquipmentStep(fs).value;
    if HasKey(a, "HealF") {
      HealthMoved(a, Lookup(a, "HealF").value);
    }
    DropChancesKeeps(HealthStep(a));
  }

  // ---------------------------------------------------------------------------------------
  // `Riding`

  /** The node as it is appended to the mount's passengers: its `id` set to the base entity
      when there is one. */
  function Rider(tag: seq<Field>, base: Option<string>): (r: seq<Field>)
    ensures base.Some? ==> Lookup(r, "id") == Some(Scalar(base.value))
    ensures base.None? ==> r == tag
    ensures forall k | k != "id" :: Lookup(r, k) == Lookup(tag, k)
  {
    if base.Some? then
      PutLookup(tag, "id", Scalar(base.value));
      Put(tag, "id", Scalar(base.value))
    else tag
  }

  /** The passengers a mount already has: none when it has no `Passengers`; anything but a
      list has no `append`. */
  function Passengers(entity: seq<Field>): (r: Result<seq<Value>>)
    ensures !HasKey(entity, "Passengers") ==> r == Ok([])
    ensures r.Ok? && HasKey(entity, "Passengers") ==> Lookup(entity, "Passengers") == Some(List(r.value))
  {
    match Lookup(entity, "Passengers")
    case None => Ok([])
    case Some(List(ps)) => Ok(ps)
    case Some(_) => Err(WrongType)
  }

  /** The formatted mount with the node appended to its passengers. */
  function Mount(tag: seq<Field>, entity: seq<Field>, base: Option<string>): (r: Result<seq<Field>>)
  {
    var ps :- Passengers(entity);
    Ok(Put(entity, "Passengers", List(ps + [Compound(Rider(tag, base))])))
  }

  /** The mount ends with the node, `id` set to the base entity, as its last passenger; its
      other keys are untouched. */
  lemma {:induction false} MountAppends(tag: seq<Field>, entity: seq<Field>, base: Option<string>, ps: seq<Value>)
    requires Passengers(entity) == Ok(ps)
    ensures Mount(tag, entity, base).Ok?
    ensures var r := Mount(tag, entity, base).value;
      && Lookup(r, "Passengers") == Some(List(ps + [Compound(Rider(tag, base))]))
      && forall k | k != "Passengers" :: Lookup(r, k) == Lookup(entity, k)
  {
    PutLookup(entity, "Passengers", List(ps + [Compound(Rider(tag, base))]));
  }

  /** The last passenger of `entity` is a dict without `Riding`, with `id` set to the base
      entity when there is one. */
  predicate CarriesLast(entity: seq<Field>, base: Option<string>) {
    && Lookup(entity, "Passengers").Some? && Lookup(entity, "Passengers").value.List?
    && var ps := Lookup(entity, "Passengers").value.items;
    && ps != [] && ps[|ps| - 1].Compound?
    && !HasKey(ps[|ps| - 1].fields, "Riding")
    && (base.Some? ==> Lookup(ps[|ps| - 1].fields, "id") == Some(Scalar(base.value)))
  }

  /** Whether an entity carries such a last passenger depends on its `Passengers` alone. */
  lemma {:induction false} CarriesLastSame(a: seq<Field>, b: seq<Field>, base: Option<string>)
    requires CarriesLast(a, base) && Lookup(b, "Passengers") == Lookup(a, "Passengers")
    ensures CarriesLast(b, base)
  {
  }

  /** A node without `Riding` mounted on a dict is that dict's last passenger, still without
      `Riding`, and with `id` set to the base entity when there is one. */
  lemma {:induction false} MountLastPassenger(tag: seq<Field>, entity: seq<Field>, base: Option<string>)
    requires Mount(tag, entity, base).Ok? && !HasKey(tag, "Riding")
    ensures var m := Mount(tag, entity, base).value;
      && Lookup(m, "Passengers").Some? && Lookup(m, "Passengers").value.List?
      && var ps := Lookup(m, "Passengers").value.items;
      && ps != [] && ps[|ps| - 1] == Compound(Rider(tag, base))
      && !HasKey(Rider(tag, base), "Riding")
      && (base.Some? ==> Lookup(Rider(tag, base), "id") == Some(Scalar(base.value)))
    ensures CarriesLast(Mount(tag, entity, base).value, base)
  {
    MountAppends(tag, entity, base, Passengers(entity).value);
    assert Lookup(Rider(tag, base), "Riding") == Lookup(tag, "Riding");
  }

  /** Mounting leaves the mount's `id` alone and keeps its keys distinct. */
  lemma {:induction false} MountKeepsId(tag: seq<Field>, entity: seq<Field>, base: Option<string>)
    requires Mount(tag, entity, base).Ok?
    ensures Lookup(Mount(tag, entity, base).value, "id") == Lookup(entity, "id")
    ensures DistinctKeys(entity) ==> DistinctKeys(Mount(tag, entity, base).value)
  {
    var ps := Passengers(entity).value;
    MountAppends(tag, entity, base, ps);
    PutShape(entity, "Passengers", List(ps + [Compound(Rider(tag, base))]));
    assert "id" != "Passengers";
  }

  /** With `return_type` set: the mount's `id` is popped and returned as the type when the
      node had a `Riding`, and nothing is returned otherwise. */
  function TakeType(tag: seq<Field>, mounted: bool): (r: (seq<Field>, Option<Value>))
    ensures !mounted ==> r == (tag, None)
    ensures r.1 == if mounted then Lookup(tag, "id") else None
  {
    if mounted && HasKey(tag, "id") then
      var p := Pop(tag, "id");
      (p.1, p.0)
    else (tag, None)
  }

  /** The returned mount has no `id` left, and every other key as it was. */
  lemma {:induction false} TakeTypeRemoves(tag: seq<Field>)
    requires DistinctKeys(tag)
    ensures !HasKey(TakeType(tag, true).0, "id")
    ensures forall k | k != "id" :: Lookup(TakeType(tag, true).0, k) == Lookup(tag, k)
  {
    PopRemoves(tag, "id");
  }

  /** Taking the type leaves the passengers where they were. */
  lemma {:induction false} TakeTypeKeepsPassengers(tag: seq<Field>)
    requires DistinctKeys(tag)
    ensures Lookup(TakeType(tag, true).0, "Passengers") == Lookup(tag, "Passengers")
  {
    TakeTypeRemoves(tag);
    assert "Passengers" != "id";
  }
}
