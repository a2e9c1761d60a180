# CBTools `UpdateTo1_9`, modelled in Dafny

CBTools is a set of MCEdit filters for Minecraft command blocks. The filter
`UpdateTo1_9` rewrites the command of every command block of a world from
the syntax of Minecraft 1.8 into the syntax of Minecraft 1.9:

- NBT compounds get their 1.9 shape:
  - numeric item `id`s become `"minecraft:..."` names;
  - `Equipment`, `DropChances` and `HealF` are split or renamed;
  - an entity that is `Riding` another becomes the last of its mount's
    `Passengers`, and the mount takes its place.
- The `type=` argument of a selector follows the mount.
- Commands held in `Command` tags are rewritten recursively.
- Optionally, `/say` becomes `/tellraw` with one JSON component per run of
  formatting codes and per selector.

The project models the two files that do this work:

- `filterutils.py` holds the hand-written reader and printer of the loose
  NBT/JSON text of commands, the selector reader and printer, and the
  quoting helper.
- `UpdateTo1_9.py` holds the `Formatter` class: the rule table, the
  per-command patterns and handlers, `format_compound`, and `SayCommand`.

## Modules

| file | module | what it holds |
|---|---|---|
| `wrappers.dfy` | `Wrappers` | `Option`, `Result`, and the Python exceptions as error values |
| `text.dfy` | `Text` | `strip`, `split`, `join`, `replace`, `count`, Python 2's whitespace and `re` classes |
| `tags.dfy` | `Tags` | a parsed value: a text, a dict as an ordered list of fields, or a list; dict operations (`get`, `d[k] = v`, `pop`) |
| `quoting.dfy` | `Quoting` | `make_place_around` and `place_quotes` |
| `taggrammar.dfy` | `TagGrammar` | `expect`, `parse_key`, `parse_string`, `parse_value`, `parse_compound`, `parse_list` as recursive functions: the specification of the scanner |
| `tagparser.dfy` | `TagParser` | the same scanner as the source writes it (index loops), proved equal to `TagGrammar` |
| `tagprinter.dfy` | `TagPrinter` | `value_string`, `compound_string`, `list_string`, `json_string` |
| `roundtrip.dfy` | `TagRoundTrip` | printing then reading gives the value back |
| `json.dfy` | `LooseJson` | `parse_json` |
| `selectors.dfy` | `Selectors` | `parse_selector` (function and loop) and `selector_string` |
| `itemids.dfy` | `ItemIds` | `ITEMS_TABLE` and the `ITEM_ID_PAT` remapping of numeric ids |
| `migration.dfy` | `Migration` | the per-key steps of `format_compound` |
| `say.dfy` | `Say` | `SayCommand`: `split_value`, `get_text`, `formatter` and their tables |
| `rewriter.dfy` | `Rewriter` | `format_command`, `CommandFormatter.format`, the handlers and wrappers of `Formatter`, and `format_compound`, mutually recursive |
| `formatter.dfy` | `Formatting` | the `Formatter` class: the rules `__init__` registers, and `format_command` as the loop over `self.commands` |

Regular expressions are modelled as follows:

- Where the rewriting depends on what a pattern accepts, the pattern is
  written out as a predicate. This covers `SEL_PAT`, `ITEM_ID_PAT`, the
  `json_values` exception of `place_quotes`, and the `selector_pattern`
  of `SayCommand`.
- The seventeen command patterns of `Formatter.__init__` are matchers
  given as parameters (`Formatting.Patterns`). A matcher answers the named
  groups of a match, or nothing.

## Model

| member | source | states |
|---|---|---|
| Text.Strip | UpdateTo1_9.py:817 | `strip()` removes whitespace only: the answer is the slice between a whitespace prefix and a whitespace suffix, and it neither starts nor ends with whitespace |
| Text.StripIdempotent | UpdateTo1_9.py:817 | stripping twice is stripping once |
| Text.Split | filterutils.py:235-238 | `split(sep)` gives at least one piece and no piece holds the separator |
| Text.JoinSplit | filterutils.py:235 | joining the pieces of a split with the separator gives the text back |
| Text.SplitJoin | filterutils.py:527-544 | splitting a join of separator-free pieces gives the pieces back |
| Text.ReplaceFree | UpdateTo1_9.py:763-768 | a replacement without `c` leaves no `c`; a text without `c` is unchanged |
| Text.CountAppend | UpdateTo1_9.py:765 | `count` of a concatenation is the sum of the counts |
| Text.RemoveSpacesKeeps | filterutils.py:424-438 | the key `parse_key` collects holds only non-whitespace characters of the text |
| Tags.Lookup | UpdateTo1_9.py:207-250 | `get(key)` is absent exactly when the dict does not hold the key |
| Tags.Put | filterutils.py:336 | `d[k] = v` keeps an existing key in its place and appends a new key |
| Tags.PutLookup | UpdateTo1_9.py:217-232 | after `d[k] = v`, `k` reads `v` and every other key reads as before |
| Tags.PutShape | filterutils.py:336 | storing a new key appends one entry; storing a held key keeps the length; keys stay distinct |
| Tags.PopRemoves | UpdateTo1_9.py:224-241 | `pop(key)` removes the key, leaves every other binding alone, and keeps the keys distinct |
| Quoting.PlaceAround | filterutils.py:139-160 | the value comes back as it is or between two markers; an exception is kept unless forced; otherwise it is kept exactly when already surrounded |
| Quoting.PlaceAroundIdempotent | filterutils.py:139-160 | placing twice is placing once |
| Quoting.ForcedIsSurrounded | filterutils.py:139-160 | with `force` the result starts and ends with the marker |
| Quoting.PlaceQuotesCases | filterutils.py:646-648 | `place_quotes` leaves a value alone exactly when it starts like a JSON literal or number (and is not forced) or is already quoted; otherwise it adds one pair of quotes |
| Quoting.PlaceAroundExamples | filterutils.py:115-138 | the documented `~~~` examples with exceptions `42` and `-42` |
| Quoting.PlaceAroundMarkedExamples | filterutils.py:115-138 | a value that starts and ends with the marker is left alone; one that only starts with it is wrapped |
| Quoting.LoneQuoteLeftAlone | filterutils.py:156 | a lone `"` counts as already quoted |
| TagGrammar.Expect | filterutils.py:380-406 | `expect` succeeds exactly when the text occurs at the index and does not reach the last character, and answers the index after it; otherwise it raises |
| TagGrammar.ParseKeyMeaning | filterutils.py:409-438 | `parse_key` stops at the first `:` and answers its index, the key being the text before it without whitespace; with no `:` it answers the last index |
| TagGrammar.ParseKey | filterutils.py:409-438 | past the end of the text the answer is `(0, "")` |
| TagGrammar.BareEnd | filterutils.py:476-486 | a bare token ends at the first `,` or closer of its context, or at the last character |
| TagGrammar.StringScan | filterutils.py:505-523 | the scan of a quoted token ends one past a closing `"`, or raises when none follows |
| TagGrammar.ParseString | filterutils.py:489-523 | a quoted token starts and ends with `"` and ends one past a `"` of the text; a token not starting with `"` and an index past the end raise |
| TagRoundTrip.ParseStringEscaped | filterutils.py:505-521 | each backslash is dropped and the character after it, `"` included, is copied; the token ends one past the first `"` not escaped |
| TagRoundTrip.ParseStringEscapedQuote | filterutils.py:505-521 | `"a\"b"` is read as `"a"b"`, ending at index 6 |
| TagRoundTrip.ParseStringExample | filterutils.py:491-492 | the documented `"This is a string" It ended at the "` gives `(18, "This is a string")` with its quotes |
| TagRoundTrip.QuotedFirst | filterutils.py:505-521 | a quoted token without quotes or backslashes inside is read up to its closing quote, whatever follows |
| TagGrammar.ParseValue | filterutils.py:441-486 | the value ends within the text; a compound or list consumes at least one character; past the end it raises |
| TagGrammar.ParseCompound | filterutils.py:284-341 | a compound ends after its start and within the text; a text not starting with `{` and an index past the end raise |
| TagGrammar.ParseCompoundCloses | filterutils.py:322-341 | a compound that is read ends one past a `}` of the text, the one that closed it |
| TagGrammar.ParseCompoundTrailingComma | filterutils.py:322-328 | a `,` right before the `}` is accepted: `{a:b,}` is `{a:b}`, ending at 6 |
| TagGrammar.ParseCompoundNeverClosed | filterutils.py:302-305 | the documented `{Equipment:[{}]` raises "never closed" |
| TagGrammar.CompoundNeedsComma | filterutils.py:322-336 | an entry whose value is followed by neither `,` nor `}` makes `expect` raise at that index |
| TagGrammar.ParseCompoundMissingComma | filterutils.py:307-310 | the documented `{name:[value,othervalue]othername:othervalue}` raises for a missing `,` at index 24 |
| TagGrammar.ParseList | filterutils.py:344-377 | a list ends after its start and within the text; a text not starting with `[` and an index past the end raise |
| TagGrammar.ParseListCloses | filterutils.py:370-377 | a list that is read ends one past a `]` of the text, the one that closed it |
| TagGrammar.ListItem | filterutils.py:370-375 | an item after the first consumes its `,` |
| TagGrammar.ListStepAsWritten | filterutils.py:370-375 | one pass of the loop as written appends one item and never moves the index back |
| TagGrammar.ListStallRepeats | filterutils.py:370-375 | once a pass at the start index leaves the index there, every later pass does the same |
| TagGrammar.FirstItemStalls | filterutils.py:370-375 | a first item that ends where it began leaves the loop as written at its start index |
| TagGrammar.ParseListStalls | filterutils.py:370-375 | on any text whose first item ends where it began, the loop as written is still at index 1 after any number of passes |
| TagGrammar.ParseListLoopsOnEmptyFirstItem | filterutils.py:344-377 | on `[,]`, `[,` and `[a` the loop as written is still running at index 1 after any number of passes |
| TagGrammar.ParseListUnclosed | filterutils.py:370-375 | the corrected `parse_list` raises a missing `,` at index 1 on `[,` and on `[a` |
| TagGrammar.ListRunAgrees | filterutils.py:370-375 | once past the start index, the loop as written reaches the answer of the corrected loop after some number of passes |
| TagGrammar.ListAsWrittenAgrees | filterutils.py:363-377 | whenever the first pass moves past the start index or finishes, the loop as written ends, after some number of passes, with the answer of the corrected `parse_list` |
| TagGrammar.ParseListEmptyItems | filterutils.py:344-377 | the corrected `parse_list` reads `[,]` as two empty items |
| TagGrammar.ParseCompoundDistinct | filterutils.py:322-338 | `parse_compound` answers a dict: a repeated key overwrites the earlier entry |
| TagParser.ParseKey | filterutils.py:409-438 | the index loop of `parse_key` answers what `TagGrammar.ParseKey` specifies |
| TagParser.ParseString | filterutils.py:489-523 | the loop of `parse_string` answers what `TagGrammar.ParseString` specifies |
| TagParser.ParseValue | filterutils.py:441-486 | `parse_value` answers what `TagGrammar.ParseValue` specifies |
| TagParser.ParseCompound | filterutils.py:284-341 | the loop of `parse_compound` answers what `TagGrammar.ParseCompound` specifies |
| TagParser.ParseList | filterutils.py:344-377 | the loop of `parse_list` answers what the corrected `TagGrammar.ParseList` specifies |
| TagPrinter.ValueString | filterutils.py:605-643 | a compound prints between braces, a list between brackets |
| TagPrinter.JsonString | filterutils.py:651-665 | `json_string` prints the value in which every key went through `place_quotes` forced and every scalar through it unforced |
| TagPrinter.QuotedText | filterutils.py:605-643 | printing with `place_quotes` at every leaf is printing the quoted value as it is |
| TagRoundTrip.CompoundRoundTrip | filterutils.py:284-341 | `parse_compound` applied to `compound_string(tag)` (filterutils.py:556-579) is the tag and consumes the whole text, for every dict of plain keys and tokens |
| TagRoundTrip.ListRoundTrip | filterutils.py:344-377 | `parse_list` applied to `list_string(tag)` (filterutils.py:582-602) is the tag and consumes the whole text, for items that print plainly (`PrintableItems`: plain keys and tokens, the first item not the empty token) |
| TagRoundTrip.ListEmptyLastItem | filterutils.py:363-377 | `[a,]` is read as `a` and an empty item, the text `list_string` prints for them |
| TagRoundTrip.ListTextRoundTrip | filterutils.py:589-591 | a list text of bare tokens joined by `,` is read whole into those tokens and printed back into the same text, when no token holds `,` or `]` or opens a value, and the first is not empty |
| TagRoundTrip.ParseListDigits | filterutils.py:352-361 | the documented `[1,2,3,4,5]` gives the five tokens and index 11 |
| TagRoundTrip.ReparseCompound | filterutils.py:284-341 | reading with `parse_compound`, printing with `compound_string` (filterutils.py:556-579) and reading again gives what the first reading gave, whenever the first reading is printable (`Printable`: quoted tokens without `"` or `\` inside, keys without `:`, whitespace or a leading `}`) |
| TagRoundTrip.EscapedQuoteNotReprinted | filterutils.py:505-521 | `{a:"x\"y"}` reads as the token `"x"y"`, whose printed text `{a:"x"y"}` raises a missing `,` at index 6 |
| TagRoundTrip.BraceKeyNotReprinted | filterutils.py:426-438 | `{ }a:b}` reads as the key `}a`, whose printed text `{}a:b}` reads back as the empty compound |
| TagRoundTrip.OneFieldText | filterutils.py:556-579 | a compound of one entry prints as `{key:value}` |
| LooseJson.ParseJson | filterutils.py:252-281 | `parse_json` answers a compound or a list; its errors are "Invalid Json" or an exception other than `ValueError` raised as it is |
| LooseJson.ParseJsonStrips | filterutils.py:269 | whitespace around the text changes nothing |
| LooseJson.ParseJsonCompound | filterutils.py:252-281 | a printed compound is read back as that compound |
| LooseJson.ParseJsonList | filterutils.py:252-281 | a printed list is read back as that list, for items that print plainly (`PrintableItems`) |
| LooseJson.ReadListText | filterutils.py:270-281 | a text that opens with `[` fails as a compound and is read as a list |
| LooseJson.ParseJsonString | filterutils.py:655-659 | `parse_json(json_string(tag))` gives the compound with every key and every scalar as `place_quotes` left it, when those quoted entries print plainly |
| LooseJson.ParseJsonStringExample | filterutils.py:655-659 | the documented `{text: This is some text, color: red}` reads back with every key and value in quotes |
| LooseJson.QuotesAdded | filterutils.py:646-648 | a key, or a scalar that does not start like a JSON literal or number, gets one pair of quotes unless it starts with `"` |
| LooseJson.ParseJsonBlank | filterutils.py:252-281 | an empty or blank text raises `IndexError` |
| Selectors.Assign | filterutils.py:240-245 | `entries[key] = value` keeps the length when the key is held and appends otherwise |
| Selectors.GetAssign | filterutils.py:240-245 | after `entries[key] = value` the key reads the value and every other key reads as before |
| Selectors.AssignDistinct | filterutils.py:240-245 | `entries[key] = value` never stores a key twice |
| Selectors.ParseSelectorSpec | filterutils.py:204-249 | `None` exactly when `SEL_PAT` does not match; the type is the second character; a selector of at most 4 characters has no arguments |
| Selectors.ParseSelector | filterutils.py:226-249 | the method answers what `ParseSelectorSpec` specifies |
| Selectors.FillEntries | filterutils.py:237-245 | the loop over the arguments answers what `ReadArgs` specifies |
| Selectors.ReadArgsStep | filterutils.py:237-245 | an argument without `=` takes the next implicit key (raising past the fourth); one with a single `=` is key and value; one with more raises |
| Selectors.SelectorString | filterutils.py:527-544 | `@` and the type, then the arguments between brackets when there are any |
| Selectors.SelectorRoundTrip | filterutils.py:204-249 | `parse_selector` applied to `selector_string(t, es)` (filterutils.py:527-544) gives back `t` and `es`, in order, for distinct plain arguments |
| Selectors.ReparseSelector | filterutils.py:213-222 | parsing, printing and parsing again gives the same answer |
| Selectors.ImplicitArgs | filterutils.py:239-241 | with the names of filterutils.py:28, up to four arguments without `=` become `x`, `y`, `z`, `r` in order |
| Selectors.FifthImplicitArg | filterutils.py:239-241 | with the four names of filterutils.py:28, a fifth argument without `=` raises `IndexError` |
| ItemIds.RemapId | UpdateTo1_9.py:209-217 | an `id` is left alone exactly when it does not match `ITEM_ID_PAT` (UpdateTo1_9.py:141) |
| ItemIds.LookupItem | UpdateTo1_9.py:217 | a number in `ITEMS_TABLE` gives `"minecraft:<name>"`; any other raises `KeyError` |
| ItemIds.RemapDigits | UpdateTo1_9.py:209-217 | a plain decimal id is looked up as the number it spells |
| ItemIds.RemapSuffix | UpdateTo1_9.py:212-217 | a `b`/`s`/`l` suffix is dropped before the lookup |
| ItemIds.RemapOnce | UpdateTo1_9.py:209-217 | a remapped id is never remapped again |
| ItemIds.RemapShovel | UpdateTo1_9.py:209-217 | with `ITEMS_TABLE` (UpdateTo1_9.py:21-139), `269` becomes `"minecraft:wooden_shovel"` |
| ItemIds.RemapGap36 | UpdateTo1_9.py:21-139 | `36`, absent from the table, raises `KeyError` |
| ItemIds.RemapNamed | UpdateTo1_9.py:141 | an id that is already a quoted name, such as `"minecraft:diamond_boots"`, is left alone, whatever the table |
| ItemIds.RemapDigitsNewline | UpdateTo1_9.py:141 | `$` lets a number followed by a newline through the pattern, and `int` ignores the newline: the number is looked up |
| ItemIds.RemapNewline | UpdateTo1_9.py:141 | `269` followed by a newline becomes `"minecraft:wooden_shovel"` |
| ItemIds.RemapSuffixNewlineFails | UpdateTo1_9.py:213-217 | with a suffix before a final newline, `id[:-1]` cuts the newline instead of the suffix, and `int` raises `ValueError`, whatever the table |
| ItemIds.RemapSuffixNewline | UpdateTo1_9.py:213-217 | `269b` followed by a newline raises `ValueError`, whatever the table |
| Migration.IdStep | UpdateTo1_9.py:209-217 | without `update_num_ids`, `change_id` or an `id`, the dict is unchanged |
| Migration.IdStepKeeps | UpdateTo1_9.py:209-217 | the `id` step touches no other key and keeps the keys distinct |
| Migration.IdStepRemaps | UpdateTo1_9.py:209-217 | a remapped `id` reads the quoted name; every other key keeps its value and its place |
| Migration.IdStepUnknown | UpdateTo1_9.py:217 | a numeric `id` missing from the table raises `KeyError` |
| Migration.Unquote | UpdateTo1_9.py:219-222 | one pair of surrounding quotes is removed; an unquoted command is kept; an empty one raises `IndexError` |
| Migration.UnquoteWrap | UpdateTo1_9.py:219-222 | unquoting a wrapped command gives the command back |
| Migration.CommandStep | UpdateTo1_9.py:219-222 | `Command` reads the wrapped command and no other key changes |
| Migration.FirstAndRest | UpdateTo1_9.py:224-238 | `v[0]` and the rest: the items of a list, the characters of a text; empty raises `IndexError`, a dict `KeyError` |
| Migration.EquipmentSplit | UpdateTo1_9.py:224-228 | `Equipment` becomes `HandItems=[e0,{}]` and `ArmorItems=e[1:]`; it is removed and no other key changes |
| Migration.DropChancesSplit | UpdateTo1_9.py:234-238 | `DropChances` becomes `HandDropChances=[d0,d0]` and `ArmorDropChances=d[1:]`; it is removed and no other key changes |
| Migration.EquipmentKeeps | UpdateTo1_9.py:224-228 | whatever `Equipment` holds, the step touches only its three keys |
| Migration.DropChancesKeeps | UpdateTo1_9.py:234-238 | whatever `DropChances` holds, the step touches only its three keys |
| Migration.HealthMoved | UpdateTo1_9.py:230-232 | `HealF` is removed and its value becomes `Health`; no other key changes |
| Migration.SlotStepsKeep | UpdateTo1_9.py:224-238 | the three slot steps leave every other key alone and keep the keys distinct |
| Migration.Rider | UpdateTo1_9.py:243-244 | the node keeps its keys, with `id` set to the base entity when there is one |
| Migration.Passengers | UpdateTo1_9.py:246-247 | a mount without `Passengers` starts from an empty list |
| Migration.MountAppends | UpdateTo1_9.py:240-250 | the node is appended as the last passenger of the mount; the mount's other keys are untouched |
| Migration.MountLastPassenger | UpdateTo1_9.py:240-250 | a node without `Riding` becomes the mount's last passenger, still without `Riding`, with `id` set to the base entity when there is one |
| Migration.TakeType | UpdateTo1_9.py:252-257 | with `return_type`, the mount's `id` is returned exactly when the node rode one |
| Migration.TakeTypeRemoves | UpdateTo1_9.py:253-254 | the returned mount no longer holds `id` and keeps every other key |
| Say.TextTagName | UpdateTo1_9.py:698-705 | `text_tag` is `text` or `translate` |
| Say.ColorCode | UpdateTo1_9.py:683-688 | a colour code selects one of the seventeen colours |
| Say.StyleBit | UpdateTo1_9.py:690 | a style code sets one bit of the mask |
| Say.ApplyCode | UpdateTo1_9.py:728-736 | a style code adds its bit; a colour code selects the colour and clears the styles; any other code changes nothing |
| Say.SplitValueSpec | UpdateTo1_9.py:722-741 | the first run has the reset colour and no style; every run has a valid colour |
| Say.SplitValue | UpdateTo1_9.py:722-746 | the generator run to the end answers what `SplitValueSpec` specifies |
| Say.SplitValueFails | UpdateTo1_9.py:722-746 | `split_value` raises `IndexError` exactly when a `§` has no code after it |
| Say.SplitValueText | UpdateTo1_9.py:722-746 | the texts of the runs are the text without its formatting codes |
| Say.SelectorSplitConcat | UpdateTo1_9.py:749 | the pieces of `selector_pattern.split`, with the pattern of UpdateTo1_9.py:696, put together give the text back |
| Say.SelectorSplitAlternates | UpdateTo1_9.py:749 | every other piece of the split is a selector match |
| Say.SelectorSplitNoAt | UpdateTo1_9.py:749 | a text without `@` is one piece |
| Say.GetText | UpdateTo1_9.py:748-774 | the generator run to the end answers what `Components` specifies |
| Say.EscapeRoundTrip | UpdateTo1_9.py:763-764 | the escaping of translate mode loses nothing |
| Say.TranslateOneEquals | UpdateTo1_9.py:762-769 | in translate mode a single `=` becomes `%s`, with one `"="` parameter |
| Say.ModifiersExact | UpdateTo1_9.py:781-787 | `get_modifiers_json` lists a style's member exactly when its bit is set |
| Say.ModifiersOfStyle | UpdateTo1_9.py:781-787 | no style gives no member; a set style's member is listed |
| Say.SayFormat | UpdateTo1_9.py:707-719 | `formatter` raises exactly when a `§` has no code after it |
| Say.SayFormatter | UpdateTo1_9.py:707-719 | the two nested loops answer what `SayFormat` specifies |
| Say.AppendEntries | UpdateTo1_9.py:716-717 | the inner loop appends the styles, the colour and the component for each component |
| Say.NoCodeRuns | UpdateTo1_9.py:722-741 | a text without `§` is one run with the reset colour and no style |
| Say.SayPlain | UpdateTo1_9.py:707-719 | a plain non-empty text becomes one component with the reset colour |
| Rewriter.Capture | UpdateTo1_9.py:320-333 | a group is read exactly when the match has it, else `KeyError` |
| Rewriter.FillKeys | UpdateTo1_9.py:489-493 | `template.format(**dic)`, here and at UpdateTo1_9.py:517-520 and 547-550, succeeds exactly when every field of the template is a group of the match |
| Rewriter.ParseNbt | UpdateTo1_9.py:383-386 | the compound read from a command, here and at UpdateTo1_9.py:433-435, holds each key once |
| Rewriter.MountType | UpdateTo1_9.py:565-567 | no type or an empty one prints nothing; a text prints itself, never empty |
| Rewriter.ApplyRule | UpdateTo1_9.py:279-299 | `CommandFormatter.format` answers `None` exactly when the pattern does not match |
| Rewriter.NewTypeArgs | UpdateTo1_9.py:393-404 | the selector's `type` is set to the mount type, or the arguments stay as they are; no other argument changes |
| Rewriter.FirstMatchWins | UpdateTo1_9.py:819-825 | the first rule whose pattern matches handles the command |
| Rewriter.NoRuleMatches | UpdateTo1_9.py:819-827 | when no rule matches, the command comes back as it is |
| Rewriter.Dispatch | UpdateTo1_9.py:789-827 | `format_command` gives the stripped command to the first rule that matches it |
| Rewriter.Unmatched | UpdateTo1_9.py:817-827 | a command no rule matches comes back stripped |
| Rewriter.StripFirst | UpdateTo1_9.py:817 | whitespace around a command never matters |
| Rewriter.ExecuteKeepsPrefix | UpdateTo1_9.py:555-559 | `execute_string` keeps the `execute` prefix and formats only the inner command |
| Rewriter.FieldsKeepShape | UpdateTo1_9.py:188-202 | `format_c` keeps the keys in their places; a text stays, a dict stays a dict, a list a list |
| Rewriter.CommandFieldKeeps | UpdateTo1_9.py:219-222 | formatting `Command` touches nothing else and keeps the keys distinct |
| Rewriter.EntriesSteps | UpdateTo1_9.py:203-238 | the children, `id`, `Command` and the slots are processed in that order |
| Rewriter.EntriesKeep | UpdateTo1_9.py:203-238 | the steps before `Riding` keep the keys distinct and leave every other key (and `Riding`) as the child pass left it |
| Rewriter.EntriesRemapId | UpdateTo1_9.py:207-217 | with `update_num_ids` and `change_id`, a numeric `id` reads as its quoted item name |
| Rewriter.CompoundSteps | UpdateTo1_9.py:143-259 | `format_compound` is the steps before `Riding` followed by the `Riding` step |
| Rewriter.NoRidingStays | UpdateTo1_9.py:240-259 | a node that rides nothing is its own result |
| Rewriter.NoRidingNoType | UpdateTo1_9.py:252-257 | a node that rides nothing gives no mount type |
| Rewriter.RidingFieldMounts | UpdateTo1_9.py:240-250 | the node, without `Riding` and with `id` set to the base entity, is the last passenger of the mount |
| Rewriter.RidingMounts | UpdateTo1_9.py:143-259 | the same for the whole of `format_compound` |
| Rewriter.KeptIdChild | UpdateTo1_9.py:188-193 | under a key of `KEEP_ID_TAG` (UpdateTo1_9.py:18) a dict keeps its `id` |
| Rewriter.RemappedId | UpdateTo1_9.py:207-217 | with `update_num_ids`, a numeric `id` of a node that rides nothing reads as its item name afterwards |
| Rewriter.CommandRewrapped | UpdateTo1_9.py:219-222 | `Command` loses exactly one pair of quotes before formatting and gets one back; no other key changes |
| Rewriter.SelectorKeepsArgs | UpdateTo1_9.py:383-410 | a compound that rides nothing leaves the selector printed with the arguments it was read with |
| Rewriter.SelectorFallback | UpdateTo1_9.py:383-392 | a text that is not a selector makes the `selector` wrapper act as the `nbt` wrapper |
| Rewriter.SummonKeepsEntity | UpdateTo1_9.py:561-567 | a compound that rides nothing summons the entity it was given, with the formatted compound |
| Rewriter.SummonMounts | UpdateTo1_9.py:565-568 | a summoned entity riding a mount with a plain `id` `T` is replaced by `T`: the command is `/summon T`, the position and the new compound, which holds no `id` and carries the summoned entity as its last passenger |
| Rewriter.SelectorMounts | UpdateTo1_9.py:387-401 | a selected entity riding a mount with a plain `id` `T` gets `type=T` in the printed selector, every other argument kept |
| Rewriter.RidingType | UpdateTo1_9.py:240-257 | a node riding a mount whose `id` the rewriting keeps returns that `id` as the type |
| Rewriter.TopTakesType | UpdateTo1_9.py:252-254 | after the type is taken, the mount holds no `id` and keeps its `Passengers` |
| Rewriter.TopLastPassenger | UpdateTo1_9.py:240-257 | the returned mount carries the node as its last passenger, with `id` set to the base entity |
| Rewriter.ChildFormatted | UpdateTo1_9.py:188-203 | after the child pass each key reads the formatted child |
| Rewriter.EntriesKeepRiding | UpdateTo1_9.py:205-238 | the steps after the child pass leave `Riding` as that pass left it |
| Rewriter.EntriesFormatRiding | UpdateTo1_9.py:188-192 | the `Riding` dict reads as formatted by the child pass |
| Rewriter.EntriesKeepId | UpdateTo1_9.py:205-238 | a mount with an `id` the table does not remap keeps it, stays without `Riding` and keeps its keys distinct |
| Rewriter.RidingFieldKeepsMountId | UpdateTo1_9.py:240-250 | the `Riding` step leaves the mount's own `id` in place |
| Migration.MountKeepsId | UpdateTo1_9.py:246-249 | appending the passenger leaves the mount's `id` alone and its keys distinct |
| Migration.TakeTypeKeepsPassengers | UpdateTo1_9.py:252-254 | taking the type leaves `Passengers` alone |
| Migration.CarriesLastSame | UpdateTo1_9.py:246-249 | two mounts with the same `Passengers` carry the same last passenger |
| Formatting.TestforFill | UpdateTo1_9.py:575-577 | `/testfor {sel} {nbt}` places the two groups after the command name |
| Formatting.JsonFill | UpdateTo1_9.py:460-465 | the `json` group is read with `parse_json`; a missing group or a reading error is the error |
| Formatting.JsonReprinted | UpdateTo1_9.py:460-465 | a printed compound in the `json` group is put back as its JSON form |
| Formatting.SayFill | UpdateTo1_9.py:707-719 | the say handler fails exactly when `value` is missing or has a dangling `§` |
| Formatting.SayRuleLast | UpdateTo1_9.py:552-640 | `use_if` registers the say rule last when `/say` is converted and not at all otherwise |
| Formatting.ExecuteFirst | UpdateTo1_9.py:819-825 | a command the `execute` pattern, registered first (UpdateTo1_9.py:555-559), matches goes to `execute_string` |
| Formatting.SayDispatched | UpdateTo1_9.py:819-825 | with `/say` converted, a command only the say pattern, registered last (UpdateTo1_9.py:633-640), matches goes to `SayCommand` |
| Formatting.SayConverted | UpdateTo1_9.py:633-719 | through `format_command` (UpdateTo1_9.py:789-827), with `/say` converted, a plain say text becomes one `tellraw` component with the reset colour |
| Formatting.Formatter.constructor | UpdateTo1_9.py:552-640 | `Formatter(say_to_tellraw)` holds the rules of `__init__`, in order |
| Formatting.Formatter.AddCommand | UpdateTo1_9.py:301-361 | `command` and `class_cmd` append one rule |
| Formatting.Formatter.AddSelectorCommands | UpdateTo1_9.py:569-580 | the selector commands are appended in order |
| Formatting.Formatter.AddCustomCommands | UpdateTo1_9.py:582-595 | `summon-at` and `summon-if-at` are appended |
| Formatting.Formatter.AddJsonCommands | UpdateTo1_9.py:597-602 | `tellraw` and `title` are appended |
| Formatting.Formatter.AddNbtCommands | UpdateTo1_9.py:604-631 | the nbt commands are appended in order |
| Formatting.Formatter.FormatCommand | UpdateTo1_9.py:789-827 | the loop over `self.commands` answers what `Rewriter.FormatCommand` specifies |

## Left out

- The seventeen command regexes of `Formatter.__init__` are parameters (`Formatting.Patterns`), not written out. `Rewriter` and `Formatting` hold for every set of matchers.
- Recursion between `format_command` and `format_compound` carries a `fuel` bound, because a `Command` or `Riding` subtree can grow under rewriting. An exhausted bound answers `Err(OutOfFuel)`, which the source cannot do.
- Rewriter.MountType: a mount type that is a dict or a list is printed by the source as a Python literal (`repr`). The model answers an error there.
- `format_compound` works in place on the freshly parsed dicts. The model computes new values, so two sharings are not modelled. The first is the `Riding` dict that is also the returned mount. The second is `[drop_chances[0], drop_chances[0]]` (UpdateTo1_9.py:237), which stores one object twice. When that object is a dict in a mount, the second pass of UpdateTo1_9.py:241 formats it twice in place through `format_l`; the model formats two copies once each.
- `compound_string` and `selector_string` print `.items()` (filterutils.py:543-544, 577), which is Python 2 hash order. The model prints entries in insertion order, so a text the source prints may list the same entries in another order.
- The order of `modifier_values.items()` in `get_modifiers_json` is a Python 2 dict order. The model fixes one order: underlined, bold, obfuscated, strikethrough, italic.
- `update_num_ids` is a module global in the source. It is a parameter of the context here, as is the item table.
- `perform`, `iter_tile_entities`, `Formatter.new`, the MCEdit `inputs` and `options`, and the `print` calls are the MCEdit wiring and I/O. They are not modelled.
- `make_get_value`, `make_set_value`, `make_get_set_and_pop_value` and `make_get_value_from_value` with `is_nbt` set work on MCEdit's own NBT objects, which the filter never passes. Only the dict forms are modelled.
- Formatting.Formatter.FormatCommand: a handler returning `None` is not modelled; every handler of `__init__` returns a text or raises.
- TagRoundTrip.ReparseCompound: holds only when the first reading is `Printable`. The source itself breaks the round trip outside it: a quoted token with an escaped `"` loses its backslash (`TagRoundTrip.EscapedQuoteNotReprinted`), and a key whose first non-space character is `}` ends the compound when printed (`TagRoundTrip.BraceKeyNotReprinted`).
- TagRoundTrip.ListRoundTrip: holds only for `PrintableItems`, the same restriction on keys and tokens, with a first item that is not the empty token. A list of one empty item prints as `[]`, which reads as the empty list; a longer list starting with one prints as `[,...`, on which `parse_list` as written never returns.
- LooseJson.ParseJsonList: the restriction of `TagRoundTrip.ListRoundTrip`.
- Exceptions are error values of `Wrappers.Error`. Their messages are not modelled.
- The `__init__` of `SayCommand` with `say_to_tellraw == KEEP_SAY` is not modelled: `use_if` never registers that class.

## Findings

| source | as written | input that shows it | evidently intended | confidence | as-written member | corrected member |
|---|---|---|---|---|---|---|
| filterutils.py:370-375 | `parse_list` expects a `,` only once `i > index`; a first item that ends where it began leaves `i == index`, so the loop reads the same item forever | `parse_list(u'[,]')`, `parse_list(u'[,')` and `parse_list(u'[a')` never return | a `,` before every item but the first: `[,]` gives `['', '']`, and `[,` and `[a` raise a missing `,` at index 1 | high (not executed) | TagGrammar.ParseListLoopsOnEmptyFirstItem | TagGrammar.ParseListEmptyItems |
