/** The numeric item and block ids of Minecraft 1.8 and their 1.9 names: `ITEMS_TABLE`,
    `ITEM_ID_PAT` and the rewriting of a numeric `id` into `"minecraft:<name>"`. */
module ItemIds {
  import opened Wrappers
  import opened Text

  /** `Formatter.ITEMS_TABLE`: the 1.9 name of a numeric id, `None` where the table has no
      entry (36 and 426, for instance, and every number outside it). */
  function ItemName(n: int): Option<string>
  {
    match n
    case 0 => Some("air")
    case 1 => Some("stone")
    case 2 => Some("grass")
    case 3 => Some("dirt")
    case 4 => Some("cobblestone")
    case 5 => Some("planks")
    case 6 => Some("sapling")
    case 7 => Some("bedrock")
    case 8 => Some("flowing_water")
    case 9 => Some("water")
    case 10 => Some("flowing_lava")
    case 11 => Some("lava")
    case 12 => Some("sand")
    case 13 => Some("gravel")
    case 14 => Some("gold_ore")
    case 15 => Some("iron_ore")
    case 16 => Some("coal_ore")
    case 17 => Some("log")
    case 18 => Some("leaves")
    case 19 => Some("sponge")
    case 20 => Some("glass")
    case 21 => Some("lapis_ore")
    case 22 => Some("lapis_block")
    case 23 => Some("dispenser")
    case 24 => Some("sandstone")
    case 25 => Some("noteblock")
    case 26 => Some("bed")
    case 27 => Some("golden_rail")
    case 28 => Some("detector_rail")
    case 29 => Some("sticky_piston")
    case 30 => Some("web")
    case 31 => Some("tallgrass")
    case 32 => Some("deadbush")
    case 33 => Some("piston")
    case 34 => Some("piston_head")
    case 35 => Some("wool")
    case 37 => Some("yellow_flower")
    case 38 => Some("red_flower")
    case 39 => Some("brown_mushroom")
    case 40 => Some("red_mushroom")
    case 41 => Some("gold_block")
    case 42 => Some("iron_block")
    case 43 => Some("double_stone_slab")
    case 44 => Some("stone_slab")
    case 45 => Some("brick_block")
    case 46 => Some("tnt")
    case 47 => Some("bookshelf")
    case 48 => Some("mossy_cobblestone")
    case 49 => Some("obsidian")
    case 50 => Some("torch")
    case 51 => Some("fire")
    case 52 => Some("mob_spawner")
    case 53 => Some("oak_stairs")
    case 54 => Some("chest")
    case 55 => Some("redstone_wire")
    case 56 => Some("diamond_ore")
    case 57 => Some("diamond_block")
    case 58 => Some("crafting_table")
    case 59 => Some("wheat")
    case 60 => Some("farmland")
    case 61 => Some("furnace")
    case 62 => Some("lit_furnace")
    case 63 => Some("standing_sign")
    case 64 => Some("wooden_door")
    case 65 => Some("ladder")
    case 66 => Some("rail")
    case 67 => Some("stone_stairs")
    case 68 => Some("wall_sign")
    case 69 => Some("lever")
    case 70 => Some("stone_pressure_plate")
    case 71 => Some("iron_door")
    case 72 => Some("wooden_pressure_plate")
    case 73 => Some("redstone_ore")
    case 74 => Some("lit_redstone_ore")
    case 75 => Some("unlit_redstone_torch")
    case 76 => Some("redstone_torch")
    case 77 => Some("stone_button")
    case 78 => Some("snow_layer")
    case 79 => Some("ice")
    case 80 => Some("snow")
    case 81 => Some("cactus")
    case 82 => Some("clay")
    case 83 => Some("reeds")
    case 84 => Some("jukebox")
    case 85 => Some("fence")
    case 86 => Some("pumpkin")
    case 87 => Some("netherrack")
    case 88 => Some("soul_sand")
    case 89 => Some("glowstone")
    case 90 => Some("portal")
    case 91 => Some("lit_pumpkin")
    case 92 => Some("cake")
    case 93 => Some("unpowered_repeater")
    case 94 => Some("powered_repeater")
    case 95 => Some("stained_glass")
    case 96 => Some("trapdoor")
    case 97 => Some("monster_egg")
    case 98 => Some("stonebrick")
    case 99 => Some("brown_mushroom_block")
    case 100 => Some("red_mushroom_block")
    case 101 => Some("iron_bars")
    case 102 => Some("glass_pane")
    case 103 => Some("melon_block")
    case 104 => Some("pumpkin_stem")
    case 105 => Some("melon_stem")
    case 106 => Some("vine")
    case 107 => Some("fence_gate")
    case 108 => Some("brick_stairs")
    case 109 => Some("stone_brick_stairs")
    case 110 => Some("mycelium")
    case 111 => Some("waterlily")
    case 112 => Some("nether_brick")
    case 113 => Some("nether_brick_fence")
    case 114 => Some("nether_brick_stairs")
    case 115 => Some("nether_wart")
    case 116 => Some("enchanting_table")
    case 117 => Some("brewing_stand")
    case 118 => Some("cauldron")
    case 119 => Some("end_portal")
    case 120 => Some("end_portal_frame")
    case 121 => Some("end_stone")
    case 122 => Some("dragon_egg")
    case 123 => Some("redstone_lamp")
    case 124 => Some("lit_redstone_lamp")
    case 125 => Some("double_wooden_slab")
    case 126 => Some("wooden_slab")
    case 127 => Some("cocoa")
    case 128 => Some("sandstone_stairs")
    case 129 => Some("emerald_ore")
    case 130 => Some("ender_chest")
    case 131 => Some("tripwire_hook")
    case 132 => Some("tripwire_hook")
    case 133 => Some("emerald_block")
    case 134 => Some("spruce_stairs")
    case 135 => Some("birch_stairs")
    case 136 => Some("jungle_stairs")
    case 137 => Some("command_block")
    case 138 => Some("beacon")
    case 139 => Some("cobblestone_wall")
    case 140 => Some("flower_pot")
    case 141 => Some("carrots")
    case 142 => Some("potatoes")
    case 143 => Some("wooden_button")
    case 144 => Some("skull")
    case 145 => Some("anvil")
    case 146 => Some("trapped_chest")
    case 147 => Some("light_weighted_pressure_plate")
    case 148 => Some("heavy_weighted_pressure_plate")
    case 149 => Some("unpowered_comparator")
    case 150 => Some("powered_comparator")
    case 151 => Some("daylight_detector")
    case 152 => Some("redstone_block")
    case 153 => Some("quartz_ore")
    case 154 => Some("hopper")
    case 155 => Some("quartz_block")
    case 156 => Some("quartz_stairs")
    case 157 => Some("activator_rail")
    case 158 => Some("dropper")
    case 159 => Some("stained_hardened_clay")
    case 160 => Some("stained_glass_pane")
    case 161 => Some("leaves2")
    case 162 => Some("log2")
    case 163 => Some("acacia_stairs")
    case 164 => Some("dark_oak_stairs")
    case 165 => Some("slime")
    case 166 => Some("barrier")
    case 167 => Some("iron_trapdoor")
    case 168 => Some("prismarine")
    case 169 => Some("sea_lantern")
    case 170 => Some("hay_block")
    case 171 => Some("carpet")
    case 172 => Some("hardened_clay")
    case 173 => Some("coal_block")
    case 174 => Some("packed_ice")
    case 175 => Some("double_plant")
    case 176 => Some("standing_banner")
    case 177 => Some("wall_banner")
    case 178 => Some("daylight_detector_inverted")
    case 179 => Some("red_sandstone")
    case 180 => Some("red_sandstone_stairs")
    case 181 => Some("stone_slab2")
    case 182 => Some("double_stone_slab2")
    case 183 => Some("spruce_fence_gate")
    case 184 => Some("birch_fence_gate")
    case 185 => Some("jungle_fence_gate")
    case 186 => Some("dark_oak_fence_gate")
    case 187 => Some("acacia_fence_gate")
    case 188 => Some("spruce_fence")
    case 189 => Some("birch_fence")
    case 190 => Some("jungle_fence")
    case 191 => Some("dark_oak_fence")
    case 192 => Some("acacia_fence")
    case 193 => Some("spruce_door")
    case 194 => Some("birch_door")
    case 195 => Some("jungle_door")
    case 196 => Some("acacia_door")
    case 197 => Some("dark_oak_door")
    case 2256 => Some("record_13")
    case 2257 => Some("record_cat")
    case 2258 => Some("record_blocks")
    case 2259 => Some("record_chirp")
    case 2260 => Some("record_far")
    case 2261 => Some("record_mall")
    case 2262 => Some("record_mellohi")
    case 2263 => Some("record_stal")
    case 2264 => Some("record_strad")
    case 2265 => Some("record_ward")
    case 2266 => Some("record_11")
    case 2267 => Some("record_wait")
    case 256 => Some("iron_shovel")
    case 257 => Some("iron_pickaxe")
    case 258 => Some("iron_axe")
    case 259 => Some("flint_and_steel")
    case 260 => Some("apple")
    case 261 => Some("bow")
    case 262 => Some("arrow")
    case 263 => Some("coal")
    case 264 => Some("diamond")
    case 265 => Some("iron_ingot")
    case 266 => Some("gold_ingot")
    case 267 => Some("iron_sword")
    case 268 => Some("wooden_sword")
    case 269 => Some("wooden_shovel")
    case 270 => Some("wooden_pickaxe")
    case 271 => Some("wooden_axe")
    case 272 => Some("stone_sword")
    case 273 => Some("stone_shovel")
    case 274 => Some("stone_pickaxe")
    case 275 => Some("stone_axe")
    case 276 => Some("diamond_sword")
    case 277 => Some("diamond_shovel")
    case 278 => Some("diamond_pickaxe")
    case 279 => Some("diamond_axe")
    case 280 => Some("stick")
    case 281 => Some("bowl")
    case 282 => Some("mushroom_stew")
    case 283 => Some("golden_sword")
    case 284 => Some("golden_shovel")
    case 285 => Some("golden_pickaxe")
    case 286 => Some("golden_axe")
    case 287 => Some("string")
    case 288 => Some("feather")
    case 289 => Some("gunpowder")
    case 290 => Some("wooden_hoe")
    case 291 => Some("stone_hoe")
    case 292 => Some("iron_hoe")
    case 293 => Some("diamond_hoe")
    case 294 => Some("golden_hoe")
    case 295 => Some("wheat_seeds")
    case 296 => Some("wheat")
    case 297 => Some("bread")
    case 298 => Some("leather_helmet")
    case 299 => Some("leather_chestplate")
    case 300 => Some("leather_leggings")
    case 301 => Some("leather_boots")
    case 302 => Some("chainmail_helmet")
    case 303 => Some("chainmail_chestplate")
    case 304 => Some("chainmail_leggings")
    case 305 => Some("chainmail_boots")
    case 306 => Some("iron_helmet")
    case 307 => Some("iron_chestplate")
    case 308 => Some("iron_leggings")
    case 309 => Some("iron_boots")
    case 310 => Some("diamond_helmet")
    case 311 => Some("diamond_chestplate")
    case 312 => Some("diamond_leggings")
    case 313 => Some("diamond_boots")
    case 314 => Some("golden_helmet")
    case 315 => Some("golden_chestplate")
    case 316 => Some("golden_leggings")
    case 317 => Some("golden_boots")
    case 318 => Some("flint")
    case 319 => Some("porkchop")
    case 320 => Some("cooked_porkchop")
    case 321 => Some("painting")
    case 322 => Some("golden_apple")
    case 323 => Some("sign")
    case 324 => Some("wooden_door")
    case 325 => Some("bucket")
    case 326 => Some("water_bucket")
    case 327 => Some("lava_bucket")
    case 328 => Some("minecart")
    case 329 => Some("saddle")
    case 330 => Some("iron_door")
    case 331 => Some("redstone")
    case 332 => Some("snowball")
    case 333 => Some("boat")
    case 334 => Some("leather")
    case 335 => Some("milk_bucket")
    case 336 => Some("brick")
    case 337 => Some("clay_ball")
    case 338 => Some("reeds")
    case 339 => Some("paper")
    case 340 => Some("book")
    case 341 => Some("slime_ball")
    case 342 => Some("chest_minecart")
    case 343 => Some("furnace_minecart")
    case 344 => Some("egg")
    case 345 => Some("compass")
    case 346 => Some("fishing_rod")
    case 347 => Some("clock")
    case 348 => Some("glowstone_dust")
    case 349 => Some("fish")
    case 350 => Some("cooked_fish")
    case 351 => Some("dye")
    case 352 => Some("bone")
    case 353 => Some("sugar")
    case 354 => Some("cake")
    case 355 => Some("bed")
    case 356 => Some("repeater")
    case 357 => Some("cookie")
    case 358 => Some("filled_map")
    case 359 => Some("shears")
    case 360 => Some("melon")
    case 361 => Some("pumpkin_seeds")
    case 362 => Some("melon_seeds")
    case 363 => Some("beef")
    case 364 => Some("cooked_beef")
    case 365 => Some("chicken")
    case 366 => Some("cooked_chicken")
    case 367 => Some("rotten_flesh")
    case 368 => Some("ender_pearl")
    case 369 => Some("blaze_rod")
    case 370 => Some("ghast_tear")
    case 371 => Some("gold_nugget")
    case 372 => Some("nether_wart")
    case 373 => Some("potion")
    case 374 => Some("glass_bottle")
    case 375 => Some("spider_eye")
    case 376 => Some("fermented_spider_eye")
    case 377 => Some("blaze_powder")
    case 378 => Some("magma_cream")
    case 379 => Some("brewing_stand")
    case 380 => Some("cauldron")
    case 381 => Some("ender_eye")
    case 382 => Some("speckled_melon")
    case 383 => Some("spawn_egg")
    case 384 => Some("experience_bottle")
    case 385 => Some("fire_charge")
    case 386 => Some("writable_book")
    case 387 => Some("written_book")
    case 388 => Some("emerald")
    case 389 => Some("item_frame")
    case 390 => Some("flower_pot")
    case 391 => Some("carrot")
    case 392 => Some("potato")
    case 393 => Some("baked_potato")
    case 394 => Some("poisonous_potato")
    case 395 => Some("map")
    case 396 => Some("golden_carrot")
    case 397 => Some("skull")
    case 398 => Some("carrot_on_a_stick")
    case 399 => Some("nether_star")
    case 400 => Some("pumpkin_pie")
    case 401 => Some("fireworks")
    case 402 => Some("firework_charge")
    case 403 => Some("enchanted_book")
    case 404 => Some("comparator")
    case 405 => Some("netherbrick")
    case 406 => Some("quartz")
    case 407 => Some("tnt_minecart")
    case 408 => Some("hopper_minecart")
    case 409 => Some("prismarine_shard")
    case 410 => Some("prismarine_crystals")
    case 411 => Some("rabbit")
    case 412 => Some("cooked_rabbit")
    case 413 => Some("rabbit_stew")
    case 414 => Some("rabbit_foot")
    case 415 => Some("rabbit_hide")
    case 416 => Some("armor_stand")
    case 417 => Some("iron_horse_armor")
    case 418 => Some("golden_horse_armor")
    case 419 => Some("diamond_horse_armor")
    case 420 => Some("lead")
    case 421 => Some("name_tag")
    case 422 => Some("command_block_minecart")
    case 423 => Some("mutton")
    case 424 => Some("cooked_mutton")
    case 425 => Some("banner")
    case 427 => Some("spruce_door")
    case 428 => Some("birch_door")
    case 429 => Some("jungle_door")
    case 430 => Some("acacia_door")
    case 431 => Some("dark_oak_door")
    case _ => None
  }

  /** `Formatter.KEEP_ID_TAG`: the keys under which a compound keeps its numeric ids. */
  const KeepIdTags: set<string> := {"ench", "CustomPotionEffects", "SkullOwner", "Decorations", "tag"}

  /** A character of the optional `type` group of `ITEM_ID_PAT`. */
  predicate IsTypeSuffix(c: char) {
    c == 'b' || c == 'B' || c == 's' || c == 'S' || c == 'l' || c == 'L'
  }

  /** `^-?\d+(?P<type>[bBsSlL])?` matched against the whole text. */
  predicate NumberShape(b: string) {
    var u := if b != [] && b[0] == '-' then b[1..] else b;
    var d := if u != [] && IsTypeSuffix(u[|u| - 1]) then u[..|u| - 1] else u;
    d != [] && AllDigits(d)
  }

  /** `ITEM_ID_PAT.match(id)`: the `$` also matches before a newline that ends the text. */
  predicate IdMatches(id: string) {
    NumberShape(DropFinalNewline(id))
  }

  /** `int(text)` on the texts it is given here: whitespace around an optional sign and a run
      of decimal digits. */
  function PyInt(text: string): (r: Option<int>)
  {
    IntOf(Strip(text))
  }

  /** `int` on a text without surrounding whitespace: an optional sign and a run of decimal
      digits. */
  function IntOf(t: string): (r: Option<int>)
  {
    if t != [] && (t[0] == '-' || t[0] == '+') && |t| > 1 && AllDigits(t[1..]) then
      var v: int := DigitsValue(t[1..]);
      Some(if t[0] == '-' then 0 - v else v)
    else if t != [] && AllDigits(t) then Some(DigitsValue(t))
    else None
  }

  /** An item table: the name of a numeric id, if it has one.  `ItemName` is `ITEMS_TABLE`. */
  type ItemTable = int -> Option<string>

  /** The new `id` of a compound whose `id` is the text `id`: unchanged (`None`) unless it
      matches `ITEM_ID_PAT`; otherwise the number it spells is looked up in the table. */
  function RemapId(table: ItemTable, id: string): (r: Result<Option<string>>)
    ensures !IdMatches(id) <==> r == Ok(None)
  {
    if !IdMatches(id) then Ok(None) else RemapText(table, NumberText(id))
  }

  /** The text given to `int`: the matched id less its last character when the `type` group
      matched.  When `$` matched before a final newline, that newline is the character cut. */
  function NumberText(id: string): (r: string)
    requires IdMatches(id)
    ensures |id| - 1 <= |r| <= |id| && r == id[..|r|]
  {
    var b := DropFinalNewline(id);
    if IsTypeSuffix(b[|b| - 1]) then id[..|id| - 1] else id
  }

  /** `int(text)` followed by the table lookup: a `ValueError` when `int` refuses the text. */
  function RemapText(table: ItemTable, text: string): (r: Result<Option<string>>)
    ensures r.Ok? ==> r.value.Some?
  {
    match PyInt(text)
    case None => Err(BadNumber)
    case Some(n) => LookupItem(table, n)
  }

  /** `ITEMS_TABLE[n]` made into an id: the quoted 1.9 name, or a `KeyError` for a number the
      table does not have. */
  function LookupItem(table: ItemTable, n: int): (r: Result<Option<string>>)
    ensures table(n).Some? <==> r.Ok?
    ensures r.Ok? ==> r.value == Some(Quoted(table(n).value))
    ensures r.Err? ==> r.error == UnknownItemId(n)
  {
    if table(n).Some? then Ok(Some(Quoted(table(n).value))) else Err(UnknownItemId(n))
  }

  /** `u'"minecraft:' + name + u'"'`. */
  function Quoted(name: string): (r: string)
    ensures |r| >= 12 && r[0] == '"' && r[|r| - 1] == '"'
  {
    "\"minecraft:" + name + "\""
  }

  /** A run of digits, with no sign, suffix or surrounding text, is its own value. */
  lemma {:induction false} DigitsInt(d: string)
    requires d != [] && AllDigits(d)
    ensures PyInt(d) == Some(DigitsValue(d))
  {
    StripLeftNoSpace(d);
    StripRightNoSpace(d);
  }

  /** A plain decimal id is the number it spells, looked up in the table. */
  lemma {:induction false} RemapDigits(table: ItemTable, d: string)
    requires d != [] && AllDigits(d)
    ensures RemapId(table, d) == LookupItem(table, DigitsValue(d))
  {
    assert DropFinalNewline(d) == d;
    assert IdMatches(d);
    assert NumberText(d) == d;
    DigitsInt(d);
  }

  /** The `type` suffix of a number is dropped before the lookup. */
  lemma {:induction false} RemapSuffix(table: ItemTable, d: string, c: char)
    requires d != [] && AllDigits(d) && IsTypeSuffix(c)
    ensures RemapId(table, d + [c]) == LookupItem(table, DigitsValue(d))
  {
    var id := d + [c];
    assert DropFinalNewline(id) == id;
    assert IdMatches(id);
    assert NumberText(id) == d;
    DigitsInt(d);
  }

  /** An id that is already a quoted name, such as `"minecraft:diamond_boots"`, does not match
      the pattern and stays as it is. */
  lemma {:induction false} RemapNamed(table: ItemTable, name: string)
    ensures RemapId(table, Quoted(name)) == Ok(None)
  {
    var x := Quoted(name);
    assert DropFinalNewline(x) == x;
    assert !IsDigit(x[0]);
  }

  /** A remapped id is a quoted name, which is never remapped again: this is what makes the
      second pass over a `Riding` subtree leave its ids alone. */
  lemma {:induction false} RemapOnce(table: ItemTable, id: string)
    requires RemapId(table, id).Ok? && RemapId(table, id).value.Some?
    ensures RemapId(table, RemapId(table, id).value.value) == Ok(None)
  {
    var n := PyInt(NumberText(id)).value;
    assert RemapId(table, id) == LookupItem(table, n);
    RemapNamed(table, table(n).value);
  }

  lemma Spells269()
    ensures "269" != [] && AllDigits("269") && DigitsValue("269") == 269
  {
    assert "269"[..2] == "26";
    assert "26"[..1] == "2";
    assert "2"[..0] == "";
  }

  lemma WoodenShovel()
    ensures LookupItem(ItemName, 269) == Ok(Some("\"minecraft:wooden_shovel\""))
  {
    assert Quoted("wooden_shovel") == "\"minecraft:wooden_shovel\"";
  }

  /** Item 269 is the wooden shovel of the examples of `format_compound`. */
  lemma RemapShovel()
    ensures RemapId(ItemName, "269") == Ok(Some("\"minecraft:wooden_shovel\""))
  {
    Spells269();
    WoodenShovel();
    RemapDigits(ItemName, "269");
  }

  /** So is item 269 written with a `type` suffix. */
  lemma RemapShovelSuffix()
    ensures RemapId(ItemName, "269s") == Ok(Some("\"minecraft:wooden_shovel\""))
  {
    Spells269();
    WoodenShovel();
    assert "269s" == "269" + ['s'];
    RemapSuffix(ItemName, "269", 's');
  }

  lemma Spells36()
    ensures "36" != [] && AllDigits("36") && DigitsValue("36") == 36
  {
    assert "36"[..1] == "3";
    assert "3"[..0] == "";
  }

  lemma Spells426()
    ensures "426" != [] && AllDigits("426") && DigitsValue("426") == 426
  {
    assert "426"[..2] == "42";
    assert "42"[..1] == "4";
    assert "4"[..0] == "";
  }

  lemma {:induction false} NoItem(n: int)
    requires n == 36 || n == 426
    ensures LookupItem(ItemName, n) == Err(UnknownItemId(n))
  {
    if n == 36 {
      assert ItemName(36) == None;
    } else {
      assert ItemName(426) == None;
    }
  }

  /** 36 is a gap of the table: its id raises a lookup error. */
  lemma RemapGap36()
    ensures RemapId(ItemName, "36") == Err(UnknownItemId(36))
  {
    Spells36();
    RemapDigits(ItemName, "36");
    NoItem(36);
  }

  /** So is 426. */
  lemma RemapGap426()
    ensures RemapId(ItemName, "426") == Err(UnknownItemId(426))
  {
    Spells426();
    RemapDigits(ItemName, "426");
    NoItem(426);
  }

  /** `$` sees a text followed by a newline as ending before that newline. */
  lemma {:induction false} NewlineDropped(t: string)
    ensures DropFinalNewline(t + "\n") == t
  {
    assert (t + "\n")[..|t|] == t;
  }

  /** `strip` removes a final newline from a text that neither starts nor ends with whitespace. */
  lemma {:induction false} NewlineStripped(t: string)
    requires t != [] && !IsSpace(t[0]) && !IsSpace(t[|t| - 1])
    ensures Strip(t + "\n") == t
  {
    var s := t + "\n";
    assert s[..|s| - 1] == t;
    StripLeftNoSpace(s);
    assert StripRight(s) == StripRight(t);
    StripRightNoSpace(t);
  }

  /** A plain decimal id followed by a newline: `$` lets the newline through the pattern,
      and `int` ignores it. */
  lemma {:induction false} RemapDigitsNewline(table: ItemTable, d: string)
    requires d != [] && AllDigits(d)
    ensures RemapId(table, d + "\n") == LookupItem(table, DigitsValue(d))
  {
    var id := d + "\n";
    assert IsDigit(d[0]) && IsDigit(d[|d| - 1]);
    NewlineDropped(d);
    assert NumberShape(d);
    assert IdMatches(id);
    assert NumberText(id) == id;
    NewlineStripped(d);
    assert PyInt(id) == IntOf(d) == Some(DigitsValue(d));
  }

  /** `$` lets a final newline through the pattern, and `int` ignores it on a plain number. */
  lemma RemapNewline()
    ensures RemapId(ItemName, "269\n") == Ok(Some("\"minecraft:wooden_shovel\""))
  {
    Spells269();
    WoodenShovel();
    assert "269\n" == "269" + "\n";
    RemapDigitsNewline(ItemName, "269");
  }

  /** A number with a `type` suffix and a final newline matches the pattern, and only the
      newline is cut off before `int`. */
  lemma {:induction false} SuffixNewlineShape(d: string, c: char)
    requires d != [] && AllDigits(d) && IsTypeSuffix(c)
    ensures IdMatches(d + [c] + "\n") && NumberText(d + [c] + "\n") == d + [c]
  {
    var t := d + [c];
    assert t[0] == d[0] && t[|t| - 1] == c && t[..|t| - 1] == d;
    NewlineDropped(t);
  }

  /** `int` of a text without surrounding whitespace reads the text as it is. */
  lemma {:induction false} PlainInt(t: string)
    requires t != [] && !IsSpace(t[0]) && !IsSpace(t[|t| - 1])
    ensures PyInt(t) == IntOf(t)
  {
    StripLeftNoSpace(t);
    StripRightNoSpace(t);
  }

  /** `int` refuses digits followed by a `type` suffix. */
  lemma {:induction false} SuffixNotInt(d: string, c: char)
    requires d != [] && AllDigits(d) && IsTypeSuffix(c)
    ensures IntOf(d + [c]) == None
  {
    var t := d + [c];
    assert t[0] == d[0] && t[|t| - 1] == c && !IsDigit(c);
  }

  /** A number with a `type` suffix followed by a newline: only the newline is cut off, and
      `int` raises a `ValueError` on the suffix that is left. */
  lemma {:induction false} RemapSuffixNewlineFails(table: ItemTable, d: string, c: char)
    requires d != [] && AllDigits(d) && IsTypeSuffix(c)
    ensures RemapId(table, d + [c] + "\n") == Err(BadNumber)
  {
    SuffixNewlineShape(d, c);
    SuffixNotInt(d, c);
    var t := d + [c];
    assert t[0] == d[0] && t[|t| - 1] == c;
    PlainInt(t);
  }

  /** With a `type` suffix before that newline, as in `269b` and a newline, the suffix is left
      in the text given to `int`, which raises a `ValueError`, whatever the table. */
  lemma {:induction false} RemapSuffixNewline(table: ItemTable)
    ensures RemapId(table, "269b\n") == Err(BadNumber)
  {
    Spells269();
    assert "269b\n" == "269" + ['b'] + "\n";
    RemapSuffixNewlineFails(table, "269", 'b');
  }
}
