# chatter template engine, in Dafny

A model of the template-expansion engine of chatter, a generator of
training sentences for natural-language-understanding tools such as Rasa
NLU. An intent lists text templates that hold `{name}`, `{name?}`
(optional) and `{name>}` (priority) tokens. Each token is filled with one
value of the named grammar (a table of choices, each with its synonyms).
Where the grammar is an entity, the span the value occupies in the
generated text is recorded. The repository holds two revisions of the
engine, and each source file is its own module here:

| module | file | models |
|---|---|---|
| `CombinationIndex` | combination_index.dfy | the `itertools.product` order of a template's index space and the mixed-radix `combination_to_index` / `index_to_combination` pair |
| `Combinator` | combinator.dfy | `Combinator` (src/chatter/combinator.py): combinations handed out without replacement, the priority minimum, `ensure_priorities` |
| `Priorities` | priorities.dfy | the list transformation behind `ensure_priorities`, as written and corrected |
| `Texts` | texts.dfy | the template stack `Texts` (src/chatter/rasa_nlu.py) |
| `RasaNlu` | rasa_nlu.dfy | `Intent` and `RasaNLUIntent` (src/chatter/rasa_nlu.py): parsers, the minimum example count, grammar registration and its retry queue, the training/testing split |
| `Grammar` | grammar.dfy | `Grammar` (src/chatter/grammar.py) |
| `Entity` | entity.dfy | `Entity` (src/chatter/entity.py) and its span arithmetic |
| `Placeholder` | placeholder.dfy | `PlaceHolder` (src/chatter/placeholder.py) |
| `CommonExample` | common_example.dfy | `Combinations` and `CommonExample` (src/chatter/common_example.py) |
| `Intents` | intents.dfy | the older `Intent` (src/chatter/intents.py) and `REPLACEMENT_PATTERN` |
| `ReplacementPattern` | replacement_pattern.dfy | `REPLACEMENT_PATTERN.findall` as a left-to-right scanner |
| `ModelsBase` | models_base.dfy | `IntentBase` (src/chatter/models/base.py) |
| `ModelsRasaNlu` | models_rasa_nlu.dfy | `RasaBase` and `RasaNLUIntent` (src/chatter/models/rasa_nlu.py) |
| `ModelsCommonExample` | models_common_example.dfy | `CommonExample` (src/chatter/models/common_example.py) |
| `ModelsPlaceholder` | models_placeholder.dfy | `Placeholder`, `all_placeholders`, `process_placeholders` (src/chatter/models/placeholder.py) |
| `ModelsEntity` | models_entity.dfy | `Entity` (src/chatter/models/entity.py) |
| `PyStr`, `PyDict`, `Wrappers`, `Errors` | pystr.dfy, pydict.dfy, wrappers.dfy | Python's `str.find`, `str.replace`, `str.strip(chars)`; insertion-ordered `dict`; `None` and raised exceptions as values |

Objects whose fields the source updates in place are classes with
`modifies` frames. Each method is proved against a specification function
of the old state, and the properties are lemmas about those functions.
Randomness (`random.choice`, `randint`, `set.pop`, the optional-token coin)
is a caller-supplied index or coin, or a `:|` choice. Collaborators whose
code the repository does not contain are parameters: the template parser
`TextParser` (`parse`), `get_all_placeholder_values` (`expand`, which
sees the choices of the registered grammars and returns the values of a
template or the exception it raises), `Grammar.entity_value`,
`Placeholder` of the current revision (`nameOf`) and the grammar classes
of the older revision (`make`). `get_digest` is taken as the identity on
the template text.

A grammar's `synonyms` is a `defaultdict(list)`: reading a missing name
stores it with `[]`. The model follows when each key comes into being,
in `load_data` (`Grammar.LoadEntries`: not for an empty list, and before
the TypeError of a `None` value) and in the read of the used synonyms at
the end of each iteration of `CommonExample.process` (`CommonExample.TouchAll`).

## Model

| member | source | states |
|---|---|---|
| CombinationIndex.Decode | tests/test_combination.py:29-30 | `index_to_combination` yields one index per placeholder |
| CombinationIndex.PrefixedLength | src/chatter/combinator.py:35 | each block of the itertools listing (one value of the slowest-varying index) holds one tuple per tuple of the remaining ranges |
| CombinationIndex.ProductSeqLength | src/chatter/combinator.py:31-35 | `itertools.product` lists exactly `count` tuples, the product of the ranges (1 for no placeholders) |
| CombinationIndex.OffsetIsProduct | src/chatter/combinator.py:35 | the position arithmetic used for the itertools order equals `k * w + e` |
| CombinationIndex.PrefixedAt | src/chatter/combinator.py:35 | in the itertools listing, the `e`-th tuple after prefix `u` sits at `(u - v) * |ps| + e` |
| CombinationIndex.EncodeBound | tests/test_combination.py:29 | a combination inside the ranges encodes to an index in `[0, count)` |
| CombinationIndex.ProductSeqAt | src/chatter/combinator.py:35 | combination `c` stands at position `Encode(r, c)` of the itertools listing |
| CombinationIndex.DecodeInRange | tests/test_combination.py:30 | decoding an index below `count` gives a combination inside every range |
| CombinationIndex.DecodeEncode | tests/test_combination.py:27-30 | round trip: `index_to_combination(combination_to_index(c)) == c` for every combination inside the ranges |
| CombinationIndex.EncodeDecode | tests/test_combination.py:27-30 | round trip the other way: `combination_to_index(index_to_combination(n)) == n` for every `n < count` |
| CombinationIndex.ProductSeqIndex | src/chatter/combinator.py:35 | the n-th tuple listed by `itertools.product` is the mixed-radix decoding of `n` |
| CombinationIndex.ProductSeqMembers | src/chatter/combinator.py:31-35 | a tuple is listed by `itertools.product` iff each index lies in its placeholder's range |
| CombinationIndex.ProductSeqDistinct | src/chatter/combinator.py:35 | `itertools.product` lists no tuple twice |
| CombinationIndex.ProductSnoc | src/chatter/combinator.py:32 | `count = count * p.index_range` per placeholder gives the product of all ranges |
| CombinationIndex.DistinctSetSize | src/chatter/combinator.py:37 | the set built from a repeat-free list has as many members as the list |
| CombinationIndex.AllCombinationsSize | src/chatter/combinator.py:34-37 | `set(available_combinations)` has exactly `count` members, and they are exactly the in-range tuples |
| Combinator.Ranges | src/chatter/combinator.py:30-31 | the range list holds each placeholder's `index_range`, in template order |
| Combinator.PrioritySumCovers | src/chatter/combinator.py:65 | every priority placeholder's range is part of the priority sum, and the sum is 0 when no placeholder has priority |
| Combinator.Combinator.constructor | src/chatter/combinator.py:11-17 | a new combinator has nothing used, `count` the product of the ranges, and `available` exactly the in-range tuples (with `count` members); with no placeholders `available` stays empty although `count` is 1 |
| Combinator.Combinator.ResetCombinations | src/chatter/combinator.py:22-37 | `count` becomes the product of the ranges; with placeholders `available` becomes exactly the in-range tuples, `count` of them; with none, `available` is left as it was |
| Combinator.Combinator.Get | src/chatter/combinator.py:39-48 | one step of `get`: with `available` empty nothing is handed out; otherwise one available combination moves to `used` and is returned; the union is unchanged and disjointness is kept |
| Combinator.Combinator.TakeAll | src/chatter/combinator.py:45-48 | running `get` to its end hands out every formerly available combination exactly once, without repeats, and leaves them all in `used` |
| Combinator.Combinator.GetUsed | src/chatter/combinator.py:50-57 | `get_used` returns a member of `used`, and None exactly when `used` is empty |
| Combinator.Combinator.GetMinCombinations | src/chatter/combinator.py:59-68 | `get_min_combinations` is at least 1, equals the priority sum when that is nonzero, and bounds each priority placeholder's range from above |
| Combinator.Combinator.EnsurePriorities | src/chatter/combinator.py:70-102 | the loop over placeholders computes the specification `Priorities.EnsurePriorities` (with the corrected bound check, see Findings), and a successful result is a permutation of the input order |
| Combinator.Scan | src/chatter/combinator.py:88-96 | the backward `while missing` loop computes the corrected scan `Priorities.ScanFixed` |
| Combinator.MoveEach | src/chatter/combinator.py:98-100 | the `insert(0, pop(index(c)))` loop computes `Priorities.MoveAll` |
| Priorities.Existing | src/chatter/combinator.py:81 | `existing` holds exactly the values at the priority position among the first `num` entries |
| Priorities.Missing | src/chatter/combinator.py:82-83 | `missing` holds exactly the values in `[0, index_range)` that none of the first `num` entries carries |
| Priorities.ScanAsWritten | src/chatter/combinator.py:88-96 | the scan as written collects only entries of the list (see Findings) |
| Priorities.ScanFixed | src/chatter/combinator.py:88-96 | the corrected scan collects only entries of the list |
| Priorities.IndexOf | src/chatter/combinator.py:100 | `list.index` returns the first position holding the combination |
| Priorities.MoveToFront | src/chatter/combinator.py:100 | `insert(0, pop(index(c)))` puts `c` first and permutes the list |
| Priorities.MoveAll | src/chatter/combinator.py:98-100 | moving each collected combination to the front permutes the list |
| Priorities.MoveAllStep | src/chatter/combinator.py:98-100 | the first move is one pop-and-insert, and the remaining moves continue from that list |
| Priorities.PermMembers | src/chatter/combinator.py:100 | a permuted list has the same members |
| Priorities.PriorityStep | src/chatter/combinator.py:79-102 | one priority placeholder's step permutes the list when it succeeds |
| Priorities.PriorityStepAsWritten | src/chatter/combinator.py:79-102 | the step with the scan as written also only permutes the list |
| Priorities.WidthPerm | src/chatter/combinator.py:102 | reordering keeps every combination one index per placeholder |
| Priorities.EnsureFrom | src/chatter/combinator.py:78-102 | the loop over the remaining placeholders permutes the list when it succeeds |
| Priorities.EnsurePriorities | src/chatter/combinator.py:70-102 | `ensure_priorities` only permutes the combinations: none added, none dropped |
| Priorities.ScanFixedSucceeds | src/chatter/combinator.py:90-96 | the corrected scan succeeds iff every missing value occurs at some index it visits |
| Priorities.ScanFixedFinds | src/chatter/combinator.py:90-93 | a successful scan appends one combination per missing value, their values at the priority position pairwise different, and every appended one carries a value that was missing |
| Priorities.CollectOne | src/chatter/combinator.py:91-93 | collecting an entry whose value is missing removes exactly that value from `missing` and keeps the collected values distinct |
| Priorities.ScanAsWrittenRefines | src/chatter/combinator.py:88-96 | wherever the scan as written succeeds, the corrected scan returns the same list |
| Priorities.MoveToFrontPrefix | src/chatter/combinator.py:100 | moving a combination not in the front block puts it ahead of that block |
| Priorities.MoveAllPrefix | src/chatter/combinator.py:98-100 | distinct combinations moved one after another end up at the front in reverse order, ahead of the earlier front |
| Priorities.RestOfMoves | src/chatter/combinator.py:98-100 | after the first move, the remaining moves are still in the list and not yet in front |
| Priorities.ReverseCons | src/chatter/combinator.py:98-100 | reversal order of the moved block: the first move ends up just before the earlier front |
| Priorities.ValsSize | src/chatter/combinator.py:91-93 | collected entries with distinct values at the position carry as many values as entries |
| Priorities.MovedInFront | src/chatter/combinator.py:98-100 | after all moves, the a-th collected combination stands at index `|moves| - 1 - a` |
| Priorities.ScanCollects | src/chatter/combinator.py:88-96 | a successful scan collects distinct entries of the list, exactly one per missing value; each is the entry at the greatest index carrying its value, and they come in decreasing index order |
| Priorities.LastAt | src/chatter/combinator.py:90-93 | the greatest index at or below the scan start whose combination carries the value at the priority position, or -1 when none does |
| Priorities.ScanFixedLast | src/chatter/combinator.py:88-96 | every combination the scan appends from index `ti` down is the one at `LastAt` of its value, and later appends sit at smaller indices |
| Priorities.ScanFixedTaken | src/chatter/combinator.py:91-93 | the same when the entry at `ti` is taken: it is the last carrier of its value, and every later append comes from below `ti` |
| Priorities.ScanOrder | src/chatter/combinator.py:88-96 | from the whole list: each collected combination is the last carrier of its value, in decreasing index order |
| Priorities.PriorityStepCovers | src/chatter/combinator.py:70-102 | after a successful step, every previously missing value is carried by one of the first |missing| entries |
| Priorities.PriorityStepFails | src/chatter/combinator.py:95-96 | with the corrected scan, the step fails iff some missing value occurs nowhere in the list |
| Priorities.NothingMissing | src/chatter/combinator.py:85-86 | when nothing is missing for any priority placeholder, the list is returned unchanged |
| Priorities.AsWrittenGivesUp | src/chatter/combinator.py:94-96 | counterexample: for `[[0],[1]]`, range 2 and `num` 1, the scan as written raises although value 1 was found; the corrected step returns `[[1],[0]]` |
| Priorities.MissingOnPair | src/chatter/combinator.py:81-83 | for `[[0],[1]]` and `num` 1, exactly value 1 is missing |
| Priorities.ScanOnPair | src/chatter/combinator.py:88-96 | on `[[0],[1]]` the corrected scan collects `[1]`, the scan as written raises |
| Priorities.MoveOnPair | src/chatter/combinator.py:98-100 | moving `[1]` to the front of `[[0],[1]]` gives `[[1],[0]]` |
| Priorities.WindowBefore | src/chatter/combinator.py:81 | `[[0,0],[0,1],[1,0],[2,0],[1,1],[2,1]]`, one order the shuffle of `reset_combinations` can give the six combinations of ranges 3 and 2, is distinct and two positions wide; values 0 and 1 are among its first three entries at position 0, value 2 is not |
| Priorities.WindowAfter | src/chatter/combinator.py:72 | after the step the first three entries are `[2,1]`, `[0,0]`, `[0,1]`: value 2 is in the window but value 1 has left it, so the docstring's coverage promise does not hold |
| Priorities.StepOnExample | src/chatter/combinator.py:79-102 | the step on that list with range 3 and `num` 3 moves its last entry `[2,1]` to the front |
| Priorities.MoveOnExample | src/chatter/combinator.py:98-100 | moving `[2,1]`, the last entry and found nowhere before it, to the front rotates the list by one |
| Priorities.MissingOnExample | src/chatter/combinator.py:81-83 | for that list, range 3 and `num` 3, exactly value 2 is missing |
| Priorities.ScanOnExample | src/chatter/combinator.py:88-96 | the scan for value 2 starts at index 5 and collects just `[2,1]` |
| Priorities.MoveLast | src/chatter/combinator.py:100 | `s.insert(0, s.pop(s.index(x)))` for the last entry, found nowhere before it: the list rotated by one |
| Priorities.EnsureOnExample | src/chatter/combinator.py:70-102 | `ensure_priorities(3)` on that list, with a priority placeholder of range 3 followed by a plain one, returns the rotated list: only the priority position moves anything |
| PyStr.FindFrom | src/chatter/entity.py:37 | `str.find` from an index: -1 or the first occurrence at or after it, with no occurrence in between |
| PyStr.Find | src/chatter/entity.py:37 | `text.find(placeholder_text)` is -1 iff the placeholder occurs nowhere, else its first occurrence |
| PyStr.ReplaceFromAbsent | src/chatter/grammar.py:71 | `replace` copies text without the pattern unchanged |
| PyStr.ReplaceAllAbsent | src/chatter/grammar.py:67-71 | text without the placeholder is returned unchanged by `replace` |
| PyStr.ReplaceAllSelf | src/chatter/grammar.py:71 | replacing a pattern by itself changes nothing |
| PyStr.ReplaceFromFirst | src/chatter/grammar.py:71 | up to the first occurrence the text is copied and that occurrence becomes the replacement |
| PyStr.ReplaceAllFirst | src/chatter/entity.py:37-38 | `replace` leaves the text before the first occurrence unchanged and puts the replacement there |
| PyStr.Leading | src/chatter/placeholder.py:18 | the first index from `i` on whose character is not stripped |
| PyStr.Trailing | src/chatter/placeholder.py:18 | the end of the kept part once stripped characters are dropped from the back |
| PyStr.Strip | src/chatter/placeholder.py:18 | `strip(chars)` returns a slice whose outside consists of `chars` and whose first and last characters are not in `chars` |
| PyStr.Decimal | src/chatter/common_example.py:20 | `str(n)` is a non-empty string of decimal digits |
| PyStr.StripSurrounded | src/chatter/placeholder.py:18 | `strip` removes exactly the surrounding reserved characters and keeps interior ones |
| PyStr.StripTwice | src/chatter/placeholder.py:18 | stripping is idempotent |
| Placeholder.NewPlaceHolder | src/chatter/placeholder.py:14-23 | a new placeholder keeps `pattern` verbatim, has `index_range` 0, takes value/synonym/start/end from its arguments; `optional` (`priority`) holds iff the marker occurs anywhere in the pattern; `name` is the pattern stripped of reserved characters at both ends |
| Placeholder.NameOfToken | src/chatter/placeholder.py:18 | the name of `{n}`, `{n?}` or `{n>}` is `n` whenever `n` neither starts nor ends with a reserved character |
| Placeholder.FlagsOfToken | src/chatter/placeholder.py:16-17 | a token is optional (priority) iff its marker is in the name or is the token's final marker, so `{a?b}` is optional |
| Placeholder.MarkerInToken | src/chatter/placeholder.py:16-17 | a marker occurs in `{` + n + marker + `}` iff it occurs in `n` or in the marker |
| Grammar.ProcessTemplate | src/chatter/grammar.py:10-17 | `process_template` returns `[template]` when there is no `{`, and the expansion otherwise |
| Grammar.ExpandPlain | src/chatter/grammar.py:10-17 | synonym entries without `{` expand to themselves, in order, and never raise |
| Grammar.ExtendFromRaises | src/chatter/grammar.py:38-39 | the loop over a synonym list raises exactly what the first expansion that raises raises |
| Grammar.ExtendFromGet | src/chatter/grammar.py:38-39 | the loop over a non-empty synonym list leaves its key holding the old list followed by the expansions up to the first raise; every other key, and the key itself for an empty list, is unchanged |
| Grammar.ExtendGet | src/chatter/grammar.py:41 | `synonyms[k].extend(xs)` on a `defaultdict(list)` appends to `k`'s list (empty if absent) and changes no other key |
| Grammar.Chars | src/chatter/grammar.py:41 | extending a list by a string adds its characters one by one |
| Grammar.EntryKeys | src/chatter/grammar.py:33 | the keys of a mapping definition, in iteration order |
| Grammar.LoadAppends | src/chatter/grammar.py:30-59 | `load_data` only appends: old `choices` and `used_synonyms` are prefixes of the new ones, so an index keeps naming the same choice |
| Grammar.ItemsAppend | src/chatter/grammar.py:43-44 | loading a list element by element only appends to `choices` and `used_synonyms` |
| Grammar.EntriesAppend | src/chatter/grammar.py:33-42 | loading a mapping only appends to `choices` and `used_synonyms` |
| Grammar.LoadMapFails | src/chatter/grammar.py:33-42 | a mapping raises exactly when some value raises while its synonyms are added: TypeError for a value that cannot be iterated, the expansion's exception for a list |
| Grammar.LoadMapKeys | src/chatter/grammar.py:33-42 | a loadable mapping appends its keys, in order, to `choices` and to `used_synonyms` |
| Grammar.LoadMapOtherSynonyms | src/chatter/grammar.py:33-42 | a key that no entry names keeps its synonyms, whether or not the loop raises |
| Grammar.LoadMapSynonyms | src/chatter/grammar.py:36-42 | with distinct keys and no earlier value that raises, an entry whose value is an empty list leaves its key as it was (absent if it was), because `synonyms[name]` is only read inside the loop over the list; any other key holds its old list followed by what its value adds, up to an expansion that raises |
| Grammar.AddEntryGet | src/chatter/grammar.py:36-42 | one entry raises what adding its value raises, changes only its own key's synonyms, and not at all when its value is an empty list |
| Grammar.AddEntryRaises | src/chatter/grammar.py:36-42 | one entry raises exactly what adding its value raises |
| Grammar.AddEntryStores | src/chatter/grammar.py:37-41 | an entry whose value is not an empty list leaves its key stored in the synonyms, even when it raises |
| Grammar.LoadMapStops | src/chatter/grammar.py:33-42 | the first value that raises (TypeError for `None`, the expansion's exception for a list) ends the loop with that exception, after its name went into `choices` and `synonyms[name]` stored the key, but before `used_synonyms` gained it; the entries before it are in `choices` and `used_synonyms` |
| Grammar.LoadReferenceEffect | src/chatter/grammar.py:46-55 | a `{`-bearing string whose expansion raises changes nothing and raises that; otherwise it appends its expansion to `choices` and the grammar's name to `used_synonyms`; the stripped name, if known, gets the known grammar's choices as synonyms, else the grammar's own name gains the expansion; nothing else changes |
| Grammar.LoadPlainList | src/chatter/grammar.py:43-57 | a list of `{`-free strings appends them to `choices` in order and changes nothing else |
| Grammar.ChosenIndex | src/chatter/grammar.py:62-65 | the index used by `update`: the given index read the Python way (negative from the end) or the random pick; None exactly where Python raises IndexError |
| Grammar.Replacement | src/chatter/grammar.py:67-70 | the replacement is the value itself when it has no synonym entry, one of its synonyms otherwise, and IndexError for an empty synonym list |
| Grammar.SubstitutedCases | src/chatter/grammar.py:61-71 | `update` raises IndexError for an index out of range or an empty synonym list, else replaces every occurrence of the placeholder by the value or by one of its synonyms |
| Grammar.SubstitutedAbsent | src/chatter/grammar.py:67-71 | text without the placeholder comes back unchanged |
| Grammar.Grammar.constructor | src/chatter/grammar.py:20-28 | a new grammar has its name and entity flag, no value and empty tables |
| Grammar.Grammar.LoadData | src/chatter/grammar.py:30-59 | `load_data` leaves the tables and the raised exception exactly as the specification `LoadSpec` says, including when a key of a mapping is created and what an exception inside a list or a mapping leaves in place (`LoadMapSynonyms`, `LoadMapStops`) |
| Grammar.Grammar.LoadMap | src/chatter/grammar.py:33-42 | the loop over `data.items()` computes `LoadEntries`: it stops at the first value that raises with the key already stored, and skips the key of an empty list |
| Grammar.Grammar.LoadEntry | src/chatter/grammar.py:36-42 | one iteration moves the tables as `AddEntry` says: the name into `choices`, the synonyms extended up to the first raise, and the name into `used_synonyms` only when nothing raised |
| Grammar.Grammar.ExtendSynonyms | src/chatter/grammar.py:38-39 | the loop `for x in value: synonyms[name].extend(process_template(x, ...))` computes `ExtendFrom`, stopping at the first expansion that raises |
| Grammar.Grammar.LoadList | src/chatter/grammar.py:43-44 | the loop over list elements computes `LoadItems`, stopping at the first exception |
| Grammar.Grammar.Update | src/chatter/grammar.py:61-71 | `update` returns `Substituted`; `value` becomes the chosen choice, and is unchanged when none can be taken |
| Grammar.Grammar.Choose | src/chatter/grammar.py:73-85 | `choose` returns None iff every choice is excluded; otherwise a choice outside `exclude`, stored in `value` |
| Entity.ValueAtSpan | src/chatter/entity.py:37-39 | with `start` one past the placeholder's position, the replacement occupies `[start - 1, start - 1 + len)` of the new text and the text before it is unchanged |
| Entity.Updated | src/chatter/entity.py:36-44 | the record `update` leaves: `start` is one past the placeholder even when the grammar raises, and then nothing else changes; on success `value` is the chosen choice, `end = start + len(value)`, the entity value is the grammar's, and `used_synonyms` gains it only when it differs from `value` |
| Entity.Entity.constructor | src/chatter/entity.py:19-27 | a new entity takes the grammar's name, no values, span 0/0 and no used synonyms |
| Entity.Entity.Choices | src/chatter/entity.py:32-34 | the `choices` property is the grammar's own choice list |
| Entity.Entity.Update | src/chatter/entity.py:36-44 | `start` is one past the first occurrence (0 iff absent) and is set even when the grammar raises; the text is what `Grammar.update` produced; on success `value` is the canonical choice, `end = start + len(value)`, and `used_synonyms` gains the entity value only when it differs from `value` |
| Entity.Entity.ToExample | src/chatter/entity.py:46-48 | `to_example` reports `start`, `end`, the entity value and the grammar's name |
| ReplacementPattern.CloseFrom | src/chatter/intents.py:7 | the closing `}` of a match is the first `}` at least two characters after the `{`, with no newline in between; -1 when there is none |
| ReplacementPattern.SpansFrom | src/chatter/intents.py:7 | the matches are in bounds, each looks like a token, and they do not overlap, left to right |
| ReplacementPattern.FindAll | src/chatter/common_example.py:94 | `findall` returns the matched texts in order, one per match span, each a token |
| ReplacementPattern.NoBraceNoToken | src/chatter/intents.py:7 | text without `{` has no match |
| CommonExample.DigitInjective | src/chatter/common_example.py:20 | a decimal digit names exactly one number |
| CommonExample.KeyInjectiveOnDigits | src/chatter/common_example.py:20 | combinations of one length whose indices are single digits share a key only when equal |
| CommonExample.KeysCollide | src/chatter/common_example.py:20 | keys have no separator: `[1, 12]` and `[11, 2]` differ but share the key `"112"` |
| CommonExample.Draw | src/chatter/common_example.py:19 | a draw holds one element per inner list, each taken from that list |
| CommonExample.Combinations.constructor | src/chatter/common_example.py:14-16 | a new picker keeps its lists and has no used keys |
| CommonExample.Combinations.FindUnused | src/chatter/common_example.py:18-26 | `find_unused` returns the first draw whose key is not yet used, one element per inner list drawn from it; `used_keys` grows by exactly that new key; an empty inner list raises IndexError and records nothing |
| CommonExample.Range | src/chatter/common_example.py:60 | `list(range(n))` holds `0..n-1` in order |
| CommonExample.Resolved | src/chatter/common_example.py:92-99 | each token up to the first unknown name is resolved to the intent's grammar of its name |
| CommonExample.SplitPartition | src/chatter/common_example.py:62-66 | every placeholder's grammar goes to exactly one of `entities` or `grammars` |
| CommonExample.SplitKinds | src/chatter/common_example.py:63-66 | `entities` receives only entity grammars, `grammars` none |
| CommonExample.SplitSnoc | src/chatter/common_example.py:63-66 | one more placeholder appends its grammar to exactly the list its entity flag selects |
| CommonExample.GrammarsOf | src/chatter/common_example.py:97-98 | the grammars of the placeholders, one per placeholder, in order |
| CommonExample.ValuesOf | src/chatter/common_example.py:60 | `grammar_values[i]` is `list(range(len(choices_i)))` for the i-th placeholder in template order |
| CommonExample.UsedTable | src/chatter/common_example.py:88-90 | the used-synonym table maps each used name, in order, to its synonyms (`[]` when missing); what the read stores in the grammar is `TouchAll` |
| CommonExample.TouchAllGet | src/chatter/common_example.py:88-90 | reading `synonyms[name]` on the `defaultdict` for every used name leaves each used name with a list, its old one or `[]`, and every other key as it was |
| CommonExample.TouchAllKeeps | src/chatter/common_example.py:88-90 | when every used name is already a key, the reads store nothing |
| CommonExample.TouchAllTwice | src/chatter/common_example.py:88-90 | a second round of reads for the same names stores nothing more |
| CommonExample.UsedTableTouched | src/chatter/common_example.py:88-90 | the table read after the reads equals the one read before: the stored `[]` do not change what `synonyms_used` gains |
| CommonExample.FillSucceeds | src/chatter/common_example.py:75-85 | with a combination drawn from the grammars' own ranges, `process` fails only on a value whose synonym list is empty, where the lists are those a slot reads, including the `[]` that earlier slots of the same grammar stored |
| CommonExample.LastNamed | src/chatter/common_example.py:79-82 | `{e.name: e for e in entities}[n]` is the last entity named `n`; -1 iff there is none |
| CommonExample.CountsKeys | src/chatter/common_example.py:73 | the keys of the dict comprehension are exactly the names listed |
| CommonExample.CountsLastWins | src/chatter/common_example.py:73 | each name maps to the count of its last occurrence |
| CommonExample.CountsNames | src/chatter/common_example.py:72-73 | counting grammars by name gives exactly the grammars' names as keys |
| CommonExample.GrammarsOfEntities | src/chatter/common_example.py:64 | each entity wraps its grammar, in order |
| CommonExample.AsSet | src/chatter/common_example.py:70 | `set(combination)` holds exactly the indices of the combination |
| CommonExample.FirstDraw | src/chatter/common_example.py:68-69 | a fresh `Combinations` picker has no used keys, so `find_unused()` takes the first draw, or raises IndexError on an empty list |
| CommonExample.Effects | src/chatter/common_example.py:75-90 | what the loop of `process` writes into grammars, entities and the grammars' synonyms keeps exactly the grammars and entities it started from |
| CommonExample.TablesAtGet | src/chatter/common_example.py:88-90 | after the first `i` slots, a grammar one of them used has its used names stored, and any other grammar is as it was |
| CommonExample.DataOfReads | src/chatter/common_example.py:76-90 | slot `i` reads its grammar's choices and the synonyms as the first `i` slots left them, and adds the table read from them to `synonyms_used` |
| CommonExample.ReusedNameRaises | src/chatter/common_example.py:76-90 | two placeholders of one grammar and a used name without synonyms key (an empty-list entry, src/chatter/grammar.py:37-39): the first placeholder is replaced by the name, its reads store `[]` under it, and the second placeholder choosing that name raises IndexError |
| CommonExample.EffectsTables | src/chatter/common_example.py:88-90 | when the loop runs to the end, each grammar's synonyms are the old ones with the used names of its last slot stored, and a grammar no slot uses is unchanged |
| CommonExample.TrackedStep | src/chatter/common_example.py:76-90 | one slot carries the loop state from slot `i` to slot `i + 1`, or ends it with the slot's exception, without losing its link to `Fill` and `Effects` |
| CommonExample.EffectsStep | src/chatter/common_example.py:76-85 | one slot of the loop either stops it with what that slot wrote or hands the rest to the next slot |
| CommonExample.Advance | src/chatter/common_example.py:76-90 | one slot takes `Fill` and `Effects` to the next slot together, or ends both with the same exception |
| CommonExample.SlotValues | src/chatter/common_example.py:85 | `grammar.update` with an index writes the grammar's value and no other key |
| CommonExample.SlotRecords | src/chatter/common_example.py:81-83 | `entity.update` changes only the entity the placeholder goes through |
| CommonExample.LastFrom | src/chatter/common_example.py:79 | the last slot from `k` on that holds `x`, -1 iff there is none |
| CommonExample.EffectsValues | src/chatter/common_example.py:75-85 | when `process` runs to the end, every grammar holds the choice of the last placeholder that uses it, and one no placeholder uses keeps its value |
| CommonExample.EffectsRecords | src/chatter/common_example.py:75-85 | when `process` runs to the end, every entity holds the chosen value and entity value of the last placeholder through it, with `end - start` the length of that value, and its used synonyms only grow; an entity no placeholder reaches is unchanged |
| CommonExample.EntitiesFilledStep | src/chatter/common_example.py:81-83 | `EntityFilledStep` for every entity at once |
| CommonExample.EntityFilledStep | src/chatter/common_example.py:81-83 | one more slot before the rest of the loop keeps the entity's final record as `EffectsRecords` describes it |
| CommonExample.CommonExample.constructor | src/chatter/common_example.py:30-40 | a new example starts with `text == template` and empty lists, no grammar values (the field assignments of `__init__`; `New` adds its last line) |
| CommonExample.CommonExample.New | src/chatter/common_example.py:30-42 | `CommonExample(template, parent)`: `text == template`, no used synonyms, then `find_unused_combination()` from nothing loaded: KeyError with empty values for a token without grammar; otherwise the placeholders and values of the template, the first draw, and that draw appended as a set to the parent's `used_combinations[text]` (AttributeError when the parent has no such table, IndexError for an empty range); on success, with the intent's grammars registered under their own names, the example is `Valid`: one index per placeholder, and each entity placeholder finds by name an entity wrapping its own grammar |
| CommonExample.CommonExample.AllGrammars | src/chatter/common_example.py:44-46 | `all_grammars()` is `grammars` followed by the entities' grammars |
| CommonExample.CommonExample.Sizes | src/chatter/common_example.py:73 | each grammar of `all_grammars()` paired with its number of choices |
| CommonExample.CommonExample.GetCombinations | src/chatter/common_example.py:72-73 | `get_combinations()` has exactly the names of `all_grammars()` as keys |
| CommonExample.CommonExample.LoadPlaceholders | src/chatter/common_example.py:56-66 | a token without grammar raises KeyError before anything is recorded; otherwise each placeholder is recorded in template order, its range in `grammar_values`, its grammar in exactly one of `entities` (wrapped anew) and `grammars`; each new entity carries its grammar's name, and with the grammars registered under their own names every entity placeholder finds by name an entity wrapping its own grammar |
| CommonExample.SlotsFound | src/chatter/common_example.py:62-82 | the entities made for freshly resolved placeholders, appended in order and named after their grammars, let `{e.name: e for e in entities}` find for each entity placeholder an entity wrapping its own grammar, when placeholders of one name share their grammar |
| CommonExample.ResolvedKeyed | src/chatter/common_example.py:92-99 | with the intent's grammars registered under their own names, two resolved placeholders whose grammars share a name share the grammar |
| CommonExample.CommonExample.AddSlots | src/chatter/common_example.py:58-66 | the loop records each placeholder and range, and splits the grammars between `entities` and `grammars` |
| CommonExample.CommonExample.AddSlot | src/chatter/common_example.py:59-66 | one placeholder: recorded, and its grammar wrapped as a new entity or appended to `grammars` |
| CommonExample.CommonExample.FindUnusedCombination | src/chatter/common_example.py:55-70 | placeholders are resolved only on the first call, a token without grammar raising KeyError with `grammar_values` left empty; a fresh picker has no used keys, so the combination is the first draw over `grammar_values`, appended as a set to the parent's `used_combinations[text]` (AttributeError without that table); an empty range raises IndexError and records nothing; on a first call that succeeds, with the grammars registered under their own names, the example is `Valid` |
| CommonExample.CommonExample.DrawAndRecord | src/chatter/common_example.py:68-70 | the first draw becomes the combination and is appended as a set under the text in the parent's table; IndexError leaves both as they were |
| CommonExample.CommonExample.GrammarValues | src/chatter/common_example.py:77 | the value of every placeholder's grammar |
| CommonExample.CommonExample.EntityRecords | src/chatter/entity.py:37-43 | the record of every entity |
| CommonExample.CommonExample.Targets | src/chatter/common_example.py:79-82 | the entity `entities_map[grammar.name]` each entity placeholder goes through, one of `entities` |
| CommonExample.CommonExample.Data | src/chatter/common_example.py:76-90 | one entry per placeholder: what `process` reads of its grammar, given the reads of the earlier slots |
| CommonExample.CommonExample.ReadingAt | src/chatter/common_example.py:76-90 | what placeholder `i` reads now is what `DataOf` says once the first `i` slots have read their used synonyms |
| CommonExample.CommonExample.FillSlot | src/chatter/common_example.py:76-85 | placeholder `i` is filled with choice `combination[i]` and the result is what `Grammar.update` returns; the grammar's value and the entity of that name, if any, change as `SlotValues` and `SlotRecords` say (span, value, entity value, used synonyms), and nothing else |
| CommonExample.CommonExample.FillGrammar | src/chatter/common_example.py:85 | a plain grammar's `update`: only its own value changes, no entity |
| CommonExample.CommonExample.FillEntity | src/chatter/common_example.py:81-83 | `entity.update`: the entity's record and its grammar's value change as `SlotRecords` and `SlotValues` say, nothing else |
| CommonExample.CommonExample.UpdateEntity | src/chatter/common_example.py:81-83 | `entity.update(...)`: the text as `Grammar.update` returns it, the record as `Entity.Updated` says, the grammar's value set to the chosen choice; no synonyms change |
| CommonExample.CommonExample.Absorb | src/chatter/common_example.py:83-90 | the filled text is kept, the table read from the grammar's synonyms is merged into `synonyms_used`, and the reads store `[]` for each used name the grammar lacked; no grammar value or entity changes |
| CommonExample.CommonExample.Keep | src/chatter/common_example.py:83-90 | the two assignments to `self`: the new text and `synonyms_used`, nothing a grammar or an entity holds |
| CommonExample.CommonExample.ReadUsed | src/chatter/common_example.py:88-90 | the reads `synonyms[name]` store `[]` for each used name the grammar lacked; only that grammar's synonyms change |
| CommonExample.CommonExample.Step | src/chatter/common_example.py:76-90 | one loop iteration: fill, then merge the table read from the grammar into `synonyms_used` and store the names it read; it advances `Fill` and `Effects` by one slot, or ends both with the exception, where nothing is read |
| CommonExample.CommonExample.Iterate | src/chatter/common_example.py:76-90 | one iteration keeps the link between the object and `Fill` / `Effects` over the data read before the loop |
| CommonExample.CommonExample.Run | src/chatter/common_example.py:76-90 | from placeholder `i`, the loop runs to the last placeholder or stops at the first one that raises, keeping that link |
| CommonExample.CommonExample.Process | src/chatter/common_example.py:75-90 | `process()` leaves the text, `synonyms_used` and the exception exactly as `Fill` over what the slots read says, and the grammars' values and synonyms and the entities' spans, values, entity values and used synonyms as `Effects` says, which `EffectsValues`, `EffectsRecords` and `EffectsTables` spell out |
| PyDict.Keys | src/chatter/intents.py:34 | the keys of a dict, in insertion order |
| PyDict.IndexOfKey | src/chatter/intents.py:35 | a key's position is -1 iff the dict lacks it, else its first position |
| PyDict.Get | src/chatter/intents.py:87-90 | `d.get(k)` is None iff `k` is not a key, else the value stored under `k` |
| PyDict.Put | src/chatter/intents.py:35 | `d[k] = v` keeps the key order for an existing key and appends a new one |
| PyDict.IndexOfKeyByKeys | src/chatter/models/rasa_nlu.py:101 | a key's position depends only on the keys before it |
| PyDict.PutGet | src/chatter/intents.py:35 | after `d[k] = v`, `k` holds `v` and every other key keeps its value |
| PyDict.PutUnique | src/chatter/intents.py:35 | assignment keeps keys unique |
| PyDict.UpdateGet | src/chatter/intents.py:57 | after `d.update(e)`, a key of `e` holds its value from `e`, any other its value from `d` |
| PyDict.UpdateSuffix | src/chatter/intents.py:57 | `update` assigns the first entry, then the rest |
| PyDict.GetTail | src/chatter/intents.py:57 | a lookup skips entries with other keys |
| PyDict.UpdateKeys | src/chatter/intents.py:54-57 | `update` keeps keys unique and in place, and holds exactly the keys of both dicts |
| PyDict.UpdateAllGet | src/chatter/intents.py:53-54 | merging dicts in order leaves each key with its value from the last dict holding it |
| PyDict.UpdateAllStep | src/chatter/intents.py:54 | one more dict merged: its keys take its values, the others keep theirs |
| PyDict.UpdateAllUnique | src/chatter/intents.py:54 | merging dicts in order keeps keys unique |
| PyDict.UpdateAllKeys | src/chatter/intents.py:54 | the merge holds exactly the keys of the start dict and of the merged dicts |
| PyDict.LastFor | src/chatter/common_example.py:88-90 | the value of the last entry for a key; None iff the key is absent |
| PyDict.LastForAt | src/chatter/common_example.py:88-90 | the last entry with key `k` determines `LastFor` |
| PyDict.LastForSame | src/chatter/common_example.py:88-90 | when all entries for `k` hold `v`, so does the last |
| PyDict.UpdateSnoc | src/chatter/common_example.py:88-90 | updating with one more entry is one more assignment |
| PyDict.UpdateLastWins | src/chatter/common_example.py:88-90 | `update` with repeated keys leaves each key with the value of its last entry |
| PyDict.UpdateConcat | src/chatter/common_example.py:88-90 | two successive updates equal one update with the concatenated entries |
| Intents.MergedGet | src/chatter/intents.py:48-59 | `get_data`: a key of `contents` has its `contents` value, any other key its value from the last `included` table holding it |
| Intents.MergedKeys | src/chatter/intents.py:48-59 | `get_data` holds exactly the keys of `contents` and of the `included` tables, each once |
| Intents.MergedNothing | src/chatter/intents.py:53-59 | missing or empty sections contribute nothing |
| Intents.GetData | src/chatter/intents.py:48-59 | the loops of `get_data` compute `Merged`: `included` in list order, then `contents` |
| Intents.AssignAll | src/chatter/intents.py:34-35 | assigning each item in turn is `dict.update` |
| Intents.SameFor | src/chatter/intents.py:39-44 | every entity name is paired with the same synonyms mapping, in the section's order |
| Intents.SameForUnique | src/chatter/intents.py:39-44 | that pairing keeps the names, unique and in order |
| Intents.Loaded | src/chatter/intents.py:29-46 | `load` raises KeyError for the first missing key among `domain`, `text`, `grammers`, `entities`, and succeeds iff all four are present; `domain` is set whenever present, and nothing changes when it is missing |
| Intents.LoadedTables | src/chatter/intents.py:33-40 | after a clean `load`, a grammar (entity) name of the section has its merged value and every other name keeps its old one |
| Intents.LoadedSynonyms | src/chatter/intents.py:38-44 | every entity name gets the same merged synonyms mapping when the `synonyms` entry is present and non-empty; otherwise no synonyms change |
| Intents.Choose | src/chatter/intents.py:88-90 | `random.choice` raises IndexError iff the list is empty, else returns a member |
| Intents.ReplaceStepOk | src/chatter/intents.py:77-97 | an elided optional token is removed without a record; a name in `grammers` (looked up first) is replaced by one of its values without a record; otherwise an entity value replaces it and the record starts one past the token's first occurrence; the text is stripped each time |
| Intents.AllGoodCons | src/chatter/intents.py:93 | adding a good record to good records keeps them good |
| Intents.RecordsStep | src/chatter/intents.py:93 | the records of one step extend the earlier ones, and what follows stays good |
| Intents.RunRecords | src/chatter/intents.py:76-99 | the loop's records extend the earlier ones by at most one per iteration, each new one good |
| Intents.RunFails | src/chatter/intents.py:76-99 | the loop raises exactly when one of its iterations raises |
| Intents.StepRecordGood | src/chatter/intents.py:89-93 | a record names an entity that is not a grammar, has one of its values, starts one past the token's first occurrence, and has `end = start + len(repl)` |
| Intents.ReplacementsRecords | src/chatter/intents.py:74-99 | `_get_replacements` returns at most one record per token, each a good record |
| Intents.ReplacementsFail | src/chatter/intents.py:87-95 | `_get_replacements` raises iff some token's replacement raises: an unknown name (RuntimeError) or an empty value list (IndexError) |
| Intents.RecordSpan | src/chatter/intents.py:91-93 | the recorded value sits in the replaced text from `start - 1` to `end - 1`, before the strip |
| Intents.ExampleRecords | src/chatter/intents.py:61-66 | an intent without templates raises IndexError; an example carries the intent's name and at most one good record per placeholder |
| Intents.Intent.constructor | src/chatter/intents.py:21-27 | a new intent has its name and empty attributes |
| Intents.Intent.Load | src/chatter/intents.py:29-46 | `load` leaves the attributes and exception exactly as `Loaded` says |
| Intents.Intent.Replace | src/chatter/intents.py:77-97 | one iteration of `_get_replacements` computes `ReplaceStep` |
| Intents.Intent.GetReplacements | src/chatter/intents.py:74-99 | `_get_replacements` computes `Replacements` over the template's tokens |
| Intents.Intent.CommonExample | src/chatter/intents.py:61-66 | `common_example` computes `ExampleOf` |
| Intents.Intent.Sentence | src/chatter/intents.py:68-72 | `sentence` raises as `common_example` does, and otherwise returns its text |
| Intents.AssignEntities | src/chatter/intents.py:39-44 | the entity loop is `entities.update(m)`, plus the merged synonyms per name when the section is present |
| Texts.Items | src/chatter/rasa_nlu.py:40 | `list += value` adds a list's items, a string's characters one by one, and raises for a value that cannot be iterated |
| Texts.LoadMappingShape | src/chatter/rasa_nlu.py:38-41 | a mapping puts its `important` lists in front, the later ones first, counts one block per `important` key, ignores other keys, and raises TypeError iff an `important` value cannot be iterated |
| Texts.MappingAccepted | src/chatter/rasa_nlu.py:37-41 | a mapping loads without error iff its `important` values can all be iterated |
| Texts.LoadFromFails | src/chatter/rasa_nlu.py:33-43 | the loop raises iff some entry is neither a string nor a mapping, or holds an `important` value that cannot be iterated |
| Texts.LoadFromShape | src/chatter/rasa_nlu.py:33-41 | a clean loop leaves the important blocks in front (latest first), then the old stack, then the plain templates in order, with one count per block |
| Texts.LoadTextsShape | src/chatter/rasa_nlu.py:28-43 | `load` raises for an empty section, and otherwise as the loop describes |
| Texts.CountOf | src/chatter/rasa_nlu.py:24-26 | the corrected `count`: the number of templates on both lists (see Findings) |
| Texts.CountAsWritten | src/chatter/rasa_nlu.py:24-26 | `sum(available + used)` succeeds (with 0) iff both lists are empty, and otherwise raises TypeError |
| Texts.CountAsWrittenFails | src/chatter/rasa_nlu.py:26 | counterexample: with one template loaded, `count` as written raises TypeError where the intended count is 1 |
| Texts.FirstIndex | src/chatter/rasa_nlu.py:47 | `list.remove` acts on the first occurrence |
| Texts.RemoveFirst | src/chatter/rasa_nlu.py:47 | `list.remove(x)` takes out exactly the first copy of `x` and keeps the order of the rest |
| Texts.Reversed | src/chatter/rasa_nlu.py:56-59 | popping from the end hands templates out in reverse order |
| Texts.Texts.constructor | src/chatter/rasa_nlu.py:19-22 | a new stack is empty with no important blocks |
| Texts.Texts.Count | src/chatter/rasa_nlu.py:24-26 | the count of templates, the corrected definition |
| Texts.Texts.Load | src/chatter/rasa_nlu.py:28-43 | `load` leaves the stack, block count and exception as `LoadTexts` says |
| Texts.Texts.LoadEntries | src/chatter/rasa_nlu.py:38-41 | the loop over one mapping computes `LoadMapping` |
| Texts.Texts.InvalidateText | src/chatter/rasa_nlu.py:45-48 | an available template moves from `available` to `used` (first copy); otherwise nothing changes; the count and the multiset of all templates are kept |
| Texts.Texts.Get | src/chatter/rasa_nlu.py:50-59 | one `get` step pops the last available template and appends it to `used`; nothing when `available` is empty; the count is kept |
| Texts.Texts.TakeAll | src/chatter/rasa_nlu.py:56-59 | running `get` to its end hands out the stack in reverse order (important templates last) and moves them all to `used` |
| Texts.Texts.GetUsed | src/chatter/rasa_nlu.py:61-68 | `get_used` returns a member of `used`, None iff `used` is empty |
| RasaNlu.Parser.constructor | src/chatter/rasa_nlu.py:169-171 | a parser keeps its template and count and owns a fresh combinator over its placeholders with nothing used |
| RasaNlu.PossibleCount | src/chatter/rasa_nlu.py:88-89 | `get_possible_combination_count` is at least 1 and equals the sum over the table whenever that is nonzero |
| RasaNlu.UpdateFresh | src/chatter/rasa_nlu.py:86 | a dict comprehension over distinct keys lists them all, in order |
| RasaNlu.PossibleDistinct | src/chatter/rasa_nlu.py:85-89 | when all templates differ, the count is the plain sum of their counts (1 if that is 0) |
| RasaNlu.UpdateSnoc | src/chatter/rasa_nlu.py:86 | one more parser is one more assignment in the comprehension |
| RasaNlu.SumAt | src/chatter/rasa_nlu.py:89 | replacing an entry changes the sum by the difference of the values |
| RasaNlu.PossibleRepeat | src/chatter/rasa_nlu.py:85-89 | a repeated template replaces its earlier count: duplicate texts count once, with the last parser's count |
| RasaNlu.SumSnoc | src/chatter/rasa_nlu.py:89 | a new key adds its value to the sum |
| RasaNlu.MinimumNum | src/chatter/rasa_nlu.py:108-117 | `_get_minimum_num` replaces 0 by the possible count and returns the larger of that and the sum of the combinators' minima plus `important_count` |
| RasaNlu.MinsOf | src/chatter/rasa_nlu.py:112 | the list of each parser's `get_min_combinations()` |
| RasaNlu.TestingCount | src/chatter/rasa_nlu.py:207 | `math.ceil(num * ratio / 100)` is the least count whose hundredfold reaches `num * ratio` |
| RasaNlu.LoadOneFlags | src/chatter/rasa_nlu.py:180-184 | one item registers its stripped name with the section's entity flag and changes no other name |
| RasaNlu.EntriesStep | src/chatter/rasa_nlu.py:180-189 | after an item the loop continues on success, queues the mapping and continues on PlaceholderError without `raise_on_error`, and stops on any other error |
| RasaNlu.ProcessEntriesKeeps | src/chatter/rasa_nlu.py:180-189 | names already registered with the section's flag keep it |
| RasaNlu.ProcessEntriesFlags | src/chatter/rasa_nlu.py:175-189 | a mapping processed without an escaping error leaves all its names registered with its section's entity flag |
| RasaNlu.ExtendsWithSelf | src/chatter/rasa_nlu.py:189 | a queue extends itself |
| RasaNlu.ExtendsWithSnoc | src/chatter/rasa_nlu.py:189 | appending one more copy of the mapping keeps the queue an extension |
| RasaNlu.ProcessEntriesQueue | src/chatter/rasa_nlu.py:185-189 | processing a mapping only appends copies of that mapping to the queue |
| RasaNlu.ProcessEntriesRaising | src/chatter/rasa_nlu.py:186-188 | with `raise_on_error` nothing is queued |
| RasaNlu.ProcessEntriesSwallows | src/chatter/rasa_nlu.py:185-189 | without `raise_on_error` a PlaceholderError never escapes |
| RasaNlu.CountFailure | src/chatter/rasa_nlu.py:156-162 | the counting loop of the retry computes `Bump`: new counters and whether a name failed more than 3 times |
| RasaNlu.BumpEffect | src/chatter/rasa_nlu.py:156-162 | counters only grow, other names keep theirs, and without a raise every key's counter grew and is at most 3 |
| RasaNlu.ItemLeftMono | src/chatter/rasa_nlu.py:161 | higher counters leave fewer attempts |
| RasaNlu.BudgetMono | src/chatter/rasa_nlu.py:161 | higher counters shrink the attempts left over the whole queue |
| RasaNlu.BudgetSnoc | src/chatter/rasa_nlu.py:163 | re-queuing a mapping adds its attempts left to the budget |
| RasaNlu.RetryShrinks | src/chatter/rasa_nlu.py:146-163 | a failed retry that does not give up re-queues the mapping with raised counters, and the attempts left strictly shrink, so the loop terminates |
| RasaNlu.DrainAllFail | src/chatter/rasa_nlu.py:151-162 | a queue whose every mapping starts with a reference that raises PlaceholderError whatever is registered ends the loop with PlaceholderError: the last one's, or that of the first whose name failed more than three times |
| RasaNlu.RetryKeepsFlag | src/chatter/rasa_nlu.py:150 | with the corrected flag, a retried mapping registers its names with the flag of the section it came from |
| RasaNlu.EntityFlagLostAsWritten | src/chatter/rasa_nlu.py:150 | counterexample: an entity definition drained from the queue is registered as a plain grammar as written, and as an entity with the corrected flag |
| RasaNlu.LastWith | src/chatter/rasa_nlu.py:166-167 | the last registered grammar whose synonyms hold the key, or -1 iff none does |
| RasaNlu.MergeSynonymsGet | src/chatter/rasa_nlu.py:166-167 | after the merge a key holds the synonyms of the last grammar having it; other keys keep the intent's old value |
| RasaNlu.Intent.constructor | src/chatter/rasa_nlu.py:72-80 | a new intent has empty texts, parsers, grammars, synonyms and queue |
| RasaNlu.Intent.PossiblePairs | src/chatter/rasa_nlu.py:86 | each parser's text with its possible count, in parser order |
| RasaNlu.Intent.GetPossibleCombinationCount | src/chatter/rasa_nlu.py:88-89 | the count is never 0 |
| RasaNlu.Intent.GetMinimumNum | src/chatter/rasa_nlu.py:108-117 | the result is at least the priority minimum plus `important_count`, and at least `num` (or the possible count for 0) |
| RasaNlu.Intent.GetParserCombination | src/chatter/rasa_nlu.py:91-96 | while the combinator has combinations, one moves to `used` and is returned with the texts untouched; once exhausted, the parser's text is invalidated and a used combination (None iff there is none) is returned |
| RasaNlu.Intent.ChooseText | src/chatter/rasa_nlu.py:191-195 | the top template moves to `used` and is returned; once the stack is empty, a used template, None iff there is none |
| RasaNlu.Intent.RegisterGrammar | src/chatter/rasa_nlu.py:181-188 | one item: the grammar is registered under the stripped name and stays registered with what its load put in place, and the exception, its PlaceholderError carrying the name, is as `LoadOne` says |
| RasaNlu.Tagged | src/chatter/rasa_nlu.py:185-188 | `err.grammar_name = name`: a PlaceholderError comes out carrying the grammar's name, any other exception and no exception pass unchanged |
| RasaNlu.LoadOneUnresolvable | src/chatter/rasa_nlu.py:181-188 | a definition that is a reference no registered grammar resolves raises PlaceholderError with the grammar's name, and the grammar stays registered, with its flag and empty tables |
| RasaNlu.LoadOneKeepsPartial | src/chatter/rasa_nlu.py:181-188 | a mapping definition whose `j`-th value is the first to raise, with PlaceholderError, stays registered with its flag and what `load_data` put in place: the keys up to and including the `j`-th as choices, those before it as used synonyms, the `j`-th stored in its synonyms; the exception carries its name |
| RasaNlu.Intent.ProcessGrammars | src/chatter/rasa_nlu.py:175-189 | `process_grammars` computes `ProcessDefs` on the registry and queue |
| RasaNlu.Intent.ProcessItems | src/chatter/rasa_nlu.py:176-178 | the list branch computes `ProcessList`, each element without `raise_on_error` |
| RasaNlu.Intent.ProcessMapping | src/chatter/rasa_nlu.py:180-189 | the mapping branch computes `ProcessEntries` |
| RasaNlu.Intent.Retry | src/chatter/rasa_nlu.py:144-163 | the retry loop computes `Drain` with the corrected flag and empties the queue on success |
| RasaNlu.Intent.MergeGrammarSynonyms | src/chatter/rasa_nlu.py:166-167 | the synonyms loop computes `MergeSynonyms` |
| RasaNlu.Intent.BuildParsers | src/chatter/rasa_nlu.py:169-171 | one fresh parser per available template is appended in order, and `parser_map` maps every template to a parser of it |
| RasaNlu.Intent.AddParser | src/chatter/rasa_nlu.py:170-171 | one parser built for the template, appended and indexed |
| RasaNlu.Intent.Load | src/chatter/rasa_nlu.py:135-173 | `load` puts a fresh `Texts` in place; a missing `text` key raises KeyError with nothing else changed; the texts load as `LoadTexts` says, and a failure there changes nothing else; then grammars and entities register as `Registration` says (KeyError for a missing `grammars` or `entities` key, the latter after the grammars registered), the queue drains, the synonyms merge, and one parser per available template is appended and indexed; on any exception the parsers and synonyms are untouched (corrected flag, see Findings) |
| RasaNlu.Intent.LoadGrammars | src/chatter/rasa_nlu.py:141-167 | the grammar part of `load` computes `Registration`, including KeyError for a missing `grammars` key before anything registers and for a missing `entities` key after the grammars did, and on success empties the queue and merges the synonyms, which an exception leaves untouched (corrected flag, see Findings) |
| RasaNlu.AllBuiltSnoc | src/chatter/rasa_nlu.py:170 | parsers built one per template stay aligned when one more is added |
| RasaNlu.IndexedSnoc | src/chatter/rasa_nlu.py:171 | indexing one more parser keeps `parser_map` mapping each template to a parser of it |
| RasaNlu.TrainingCount | src/chatter/rasa_nlu.py:207-208 | the training count never exceeds `num`; with training and testing counts summing to `num` whenever the testing count fits |
| RasaNlu.SliceSnoc | src/chatter/rasa_nlu.py:214-219 | slices grow by one element per example |
| RasaNlu.SplitPoint | src/chatter/rasa_nlu.py:216 | where examples stop going to training: the training count, clamped to the number of examples |
| RasaNlu.PlaceStep | src/chatter/rasa_nlu.py:216-219 | an example before the split extends the training part, one after it the testing part |
| RasaNlu.SliceAll | src/chatter/rasa_nlu.py:214-219 | slice bookkeeping at the end of the loop |
| RasaNlu.UsedBy | src/chatter/rasa_nlu.py:215 | the synonyms each example used, in order |
| RasaNlu.Distribute | src/chatter/rasa_nlu.py:214-219 | the loop puts the examples before the split point into training and the rest into testing, in order, and merges each example's used synonyms |
| RasaNlu.RasaNluIntent.constructor | src/chatter/rasa_nlu.py:199-203 | a new Rasa intent has empty `synonyms_used` and example lists |
| RasaNlu.RasaNluIntent.Process | src/chatter/rasa_nlu.py:205-219 | the first `num - ceil(num * ratio / 100)` examples go to training and the rest to testing, in order, and every example's used synonyms are merged |
| RasaNlu.RasaNluIntent.EntitySynonyms | src/chatter/rasa_nlu.py:235-236 | one entry per `synonyms_used` item, in insertion order, with its name and synonyms |
| ModelsEntity.Updated | src/chatter/models/entity.py:11-16 | after `update`, the value is the replacement and the entity name is kept, `end - start` is the replacement's length, `start` is 0 exactly when the placeholder is absent and otherwise one past its first occurrence |
| ModelsEntity.StartAfterFirstBrace | src/chatter/models/entity.py:13 | for a placeholder starting with `{` and no earlier `{`, `start` is the length of the text before the first `{`, plus one |
| ModelsEntity.UpdatedSpan | src/chatter/models/entity.py:11-16 | in the text with the placeholder replaced, the value sits between `start - 1` and `end - 1` and the text before it is unchanged |
| ModelsEntity.Entity.constructor | src/chatter/models/entity.py:5-9 | a new entity has `start` and `end` 0, no value and the given entity name |
| ModelsEntity.Entity.ToDict | src/chatter/models/entity.py:18-19 | `to_dict` carries exactly the four fields |
| ModelsEntity.Entity.Update | src/chatter/models/entity.py:11-16 | `update` returns the same object and moves its record to `Updated` of the old one; the entity name is not touched |
| ModelsPlaceholder.NewPlaceholder | src/chatter/models/placeholder.py:10-22 | only an optional placeholder can be ignored |
| ModelsPlaceholder.TokenPlaceholder | src/chatter/models/placeholder.py:10-22 | for `{n}` and `{n?}` the name is `n`, the placeholder text is the token, only `{n?}` is optional, and it is ignored exactly when it is optional and the coin says so |
| ModelsPlaceholder.TokenInner | src/chatter/models/placeholder.py:15 | the inner text of a well-formed token starts and ends with no brace |
| ModelsPlaceholder.NameOfInner | src/chatter/models/placeholder.py:19-21 | the inner text ends with `?` exactly for an optional token, and stripping `?` leaves the name |
| ModelsPlaceholder.TokenText | src/chatter/models/placeholder.py:12 | a token from `{` to `}` has no whitespace for `strip()` to remove |
| ModelsPlaceholder.ProcessReplaces | src/chatter/models/placeholder.py:24-27 | `process` leaves a text without the placeholder unchanged; otherwise the text before its first occurrence is kept and the grammar's value follows it |
| ModelsPlaceholder.Render | src/chatter/models/placeholder.py:44-50 | one stripped variant per choice |
| ModelsPlaceholder.RenderAt | src/chatter/models/placeholder.py:44-50 | each variant is the original text with one placeholder replaced, stripped |
| ModelsPlaceholder.RenderOne | src/chatter/models/placeholder.py:44-45 | a single choice gives a single variant |
| ModelsPlaceholder.ValueChoices | src/chatter/models/placeholder.py:48-50 | the placeholder paired with each value, in order |
| ModelsPlaceholder.RenderConcat | src/chatter/models/placeholder.py:43-50 | the variants of consecutive choices are concatenated |
| ModelsPlaceholder.ChoicesOfOrder | src/chatter/models/placeholder.py:43-50 | an optional placeholder's removal comes first, then one substitution per value of its grammar, in order |
| ModelsPlaceholder.Parsed | src/chatter/models/placeholder.py:41-42 | one placeholder per matched token, in order |
| ModelsPlaceholder.KnownLists | src/chatter/models/placeholder.py:47-52 | each placeholder's values, none for a name that is not a grammar |
| ModelsPlaceholder.ChoicesCount | src/chatter/models/placeholder.py:38-53 | `all_placeholders` returns one variant per optional placeholder plus one per value of each known grammar |
| ModelsPlaceholder.ChoicesOfFor | src/chatter/models/placeholder.py:43-50 | every choice of a placeholder removes it (when optional) or replaces it by one of its values |
| ModelsPlaceholder.ChoicesOneToken | src/chatter/models/placeholder.py:38-53 | every variant changes a single placeholder of the template, starting from the original text each time |
| ModelsPlaceholder.Substitute | src/chatter/models/placeholder.py:48-50 | the inner loop yields the template with the placeholder replaced by each value, stripped |
| ModelsPlaceholder.TokenVariants | src/chatter/models/placeholder.py:42-52 | the loop body yields the removal (if optional) and then the substitutions |
| ModelsPlaceholder.RenderStep | src/chatter/models/placeholder.py:41-52 | one more placeholder appends its own variants |
| ModelsPlaceholder.PlaceholdersVariants | src/chatter/models/placeholder.py:41-53 | the outer loop builds every variant from the original text |
| ModelsPlaceholder.AllPlaceholders | src/chatter/models/placeholder.py:38-53 | `all_placeholders` returns the variants counted by `ChoicesCount` and described by `ChoicesOneToken` |
| ModelsPlaceholder.PlaceholderStep | src/chatter/models/placeholder.py:57-65 | an ignored token is removed, a known one replaced by one of its values (IndexError iff the grammar has none), an unknown one left in place |
| ModelsPlaceholder.ExpandFromStripped | src/chatter/models/placeholder.py:66 | the result of `process_placeholders` has no outer whitespace, taken as every character for which `str.isspace()` holds |
| ModelsPlaceholder.ExpandFromFails | src/chatter/models/placeholder.py:56-66 | `process_placeholders` raises, always an IndexError, exactly when some token is not ignored and names a grammar without values |
| ModelsPlaceholder.ProcessPlaceholders | src/chatter/models/placeholder.py:56-66 | the loop computes `Expanded`, whose failure and stripping are stated by the two lemmas above |
| ModelsCommonExample.GrammarObj.constructor | src/chatter/models/common_example.py:27-30 | a grammar object holds exactly the name, values, entity flag, synonym table and used synonyms that `combinations` and `process` read |
| ModelsCommonExample.Bind | src/chatter/models/common_example.py:68-75 | the lookups succeed iff every placeholder name is registered, giving the registered grammars in token order; otherwise KeyError for the first missing name |
| ModelsCommonExample.BindStops | src/chatter/models/common_example.py:72-73 | once a lookup fails, `get_placeholders` as a whole fails with that error |
| ModelsCommonExample.Sizes | src/chatter/models/common_example.py:29-30 | one `(name, len(values))` pair per grammar, in order |
| ModelsCommonExample.SizesSnoc | src/chatter/models/common_example.py:29-30 | one more grammar adds one pair |
| ModelsCommonExample.CountsLast | src/chatter/models/common_example.py:22-31 | a name in `combinations()` counts the values of the last grammar of that name |
| ModelsCommonExample.CountsKeys | src/chatter/models/common_example.py:22-31 | the keys of `combinations()` are exactly the grammar names, each once |
| ModelsCommonExample.Remaining | src/chatter/models/common_example.py:51 | a value remains iff it is a grammar value and not excluded |
| ModelsCommonExample.RemainingNone | src/chatter/models/common_example.py:50-51 | nothing excluded leaves every value |
| ModelsCommonExample.ChooseExcluding | src/chatter/models/common_example.py:50-53 | `choose` returns None iff every value is excluded, and otherwise a grammar value that is not excluded |
| ModelsCommonExample.ExcludesNeverApply | src/chatter/models/common_example.py:50 | with the list of used combinations as `excludes`, `name in excludes` never holds, so `choose` draws among all values |
| ModelsCommonExample.MissingFrom | src/chatter/models/common_example.py:62-64 | the first used synonym the grammar's table lacks, None iff all are present |
| ModelsCommonExample.UsedPairs | src/chatter/models/common_example.py:62-64 | one `(name, synonyms[name])` pair per used synonym, in order |
| ModelsCommonExample.UsedTableGet | src/chatter/models/common_example.py:62-64 | the merged table holds exactly the used names, each with its list from the grammar's synonyms |
| ModelsCommonExample.SlotOf | src/chatter/models/common_example.py:39-64 | per placeholder: the choice obeys `choose`, RuntimeError when every value is excluded, KeyError for a missing used synonym, and no error iff a value is chosen and the table is built |
| ModelsCommonExample.SlotsOf | src/chatter/models/common_example.py:39-64 | one slot per placeholder, each fitting its grammar |
| ModelsCommonExample.Sort | src/chatter/models/common_example.py:43-46 | the grammar is appended to `entities` when it is an entity and to `grammars` otherwise, nothing else changes |
| ModelsCommonExample.Reached | src/chatter/models/common_example.py:39-66 | the loop stops inside the range |
| ModelsCommonExample.ReachedEnd | src/chatter/models/common_example.py:39-66 | with no raising slot the loop reaches every placeholder |
| ModelsCommonExample.ProcessFails | src/chatter/models/common_example.py:39-66 | `process` raises iff some placeholder's body raises, and then with the first such exception |
| ModelsCommonExample.OfKindCons | src/chatter/models/common_example.py:43-46 | the first grammar of a range goes first into the list of its flag |
| ModelsCommonExample.OfKindHolds | src/chatter/models/common_example.py:43-46 | a grammar lands in the list of a flag iff it has that flag and a reached placeholder is bound to it |
| ModelsCommonExample.OfKindLengths | src/chatter/models/common_example.py:43-46 | each reached placeholder lands in exactly one of the two lists |
| ModelsCommonExample.StagedSorts | src/chatter/models/common_example.py:43-46 | the loop body appends its grammar to the list of its flag whether or not it later raises |
| ModelsCommonExample.ProcessStep | src/chatter/models/common_example.py:39-66 | an iteration either goes on to the next placeholder or stops with its own state |
| ModelsCommonExample.ProcessSorts | src/chatter/models/common_example.py:39-46 | `process` appends the grammar of every reached placeholder, including the one that raises, to `entities` or `grammars` by its flag, in order |
| ModelsCommonExample.StagedChosen | src/chatter/models/common_example.py:59 | the body stores the chosen value under the grammar's name once there is one |
| ModelsCommonExample.LastChoice | src/chatter/models/common_example.py:59 | the value chosen by the last slot of the name, None iff no slot of that name chose |
| ModelsCommonExample.LastChoiceFront | src/chatter/models/common_example.py:59 | a later choice wins over an earlier one |
| ModelsCommonExample.ProcessChosen | src/chatter/models/common_example.py:39-66 | after the loop each name holds the value of the last reached placeholder of that name, or its earlier value |
| ModelsCommonExample.ProcessDraws | src/chatter/models/common_example.py:39-66 | every value `process` returns was drawn from a grammar of that name and is not excluded for it |
| ModelsCommonExample.ProcessCompletes | src/chatter/models/common_example.py:39-66 | when `process` returns, every grammar name of the template has a value |
| ModelsCommonExample.StagedSynonyms | src/chatter/models/common_example.py:62-64 | the body merges the grammar's used-synonym table once a value is chosen |
| ModelsCommonExample.StagedSynonymKeys | src/chatter/models/common_example.py:62-64 | the body adds exactly the names it merges to `synonyms_used` |
| ModelsCommonExample.ProcessSynonymKeys | src/chatter/models/common_example.py:39-66 | after the loop, `synonyms_used` holds a name iff it held it before or a reached placeholder merged it |
| ModelsCommonExample.ProcessUnique | src/chatter/models/common_example.py:39-66 | the returned values and `synonyms_used` keep one entry per name |
| ModelsCommonExample.CommonExample.constructor | src/chatter/models/common_example.py:8-13 | a new example keeps its template and parent, with nothing sorted and no synonyms used |
| ModelsCommonExample.CommonExample.BindPlaceholders | src/chatter/models/common_example.py:68-75 | the lookup loop computes `Bind` |
| ModelsCommonExample.CommonExample.Combinations | src/chatter/models/common_example.py:22-31 | `combinations()` computes `CombinationsOf`: the lookups' KeyError, AttributeError without a parent, or the counts of `CountsLast` and `CountsKeys` |
| ModelsCommonExample.CommonExample.CountValues | src/chatter/models/common_example.py:29-31 | the loop of `combinations` computes `Counts` |
| ModelsCommonExample.CommonExample.ProcessOne | src/chatter/models/common_example.py:39-64 | the loop body changes the lists, synonyms, text and values as `Staged` of its slot says and reports the slot's exception |
| ModelsCommonExample.CommonExample.Process | src/chatter/models/common_example.py:33-66 | `process` leaves the lists and `synonyms_used` as the loop leaves them, also when it raises, and returns the chosen values or the exception, as the lemmas above describe |
| ModelsRasaNlu.Made | src/chatter/models/rasa_nlu.py:52-53 | one `(name, cls(name, value))` pair per entry of a mapping section, in order |
| ModelsRasaNlu.DefineFlattens | src/chatter/models/rasa_nlu.py:47-53 | a section of mappings and nested lists raises nothing and assigns the entries of all its mappings, depth first, in order |
| ModelsRasaNlu.DefineListFlattens | src/chatter/models/rasa_nlu.py:48-50 | the list branch assigns the entries of its elements in order |
| ModelsRasaNlu.DefineLastWins | src/chatter/models/rasa_nlu.py:52-53 | after a mapping section a name holds the object made from its last entry, and a name the section lacks keeps its object |
| ModelsRasaNlu.SynonymTables | src/chatter/models/rasa_nlu.py:42-43 | the synonym table of each registered object, in registration order |
| ModelsRasaNlu.LoadedSynonyms | src/chatter/models/rasa_nlu.py:26-45 | after a successful `load`, a synonym holds the list of the last registered object whose table has it, or its earlier list |
| ModelsRasaNlu.LoadedTexts | src/chatter/models/rasa_nlu.py:28-31 | a successful `load` had a nonempty `text` section and keeps it both as `texts` and as the copy of available texts |
| ModelsRasaNlu.Counted | src/chatter/models/rasa_nlu.py:106 | the values of a `combinations()` result, in order |
| ModelsRasaNlu.ProductZero | src/chatter/models/rasa_nlu.py:106 | the product of the counts is 0 iff one of them is |
| ModelsRasaNlu.NumCombosAgree | src/chatter/models/rasa_nlu.py:103-106 | the written `reduce` and the intended product agree on every template with a placeholder; without one the written code raises TypeError where the intended count is 1 |
| ModelsRasaNlu.NumCombosMeaning | src/chatter/models/rasa_nlu.py:103-106 | the corrected count raises exactly the KeyError of an unregistered name, is 1 for a template without placeholders, and is 0 exactly when the last grammar of some name has no values |
| ModelsRasaNlu.NoPlaceholderTemplate | src/chatter/models/rasa_nlu.py:103-106 | counterexample: the empty template makes the written `reduce` raise TypeError while its intended count is 1 |
| ModelsRasaNlu.CountsZero | src/chatter/models/rasa_nlu.py:103-106 | a template's count is 0 iff some grammar counted for its name (the last of that name) has no values |
| ModelsRasaNlu.LastOfName | src/chatter/models/common_example.py:28-31 | every name among the grammars has a last occurrence, the one `combinations()` keeps |
| ModelsRasaNlu.GetUnique | src/chatter/models/rasa_nlu.py:111 | in a dict with distinct keys each entry is what its key gives |
| ModelsRasaNlu.PutCount | src/chatter/models/rasa_nlu.py:111 | `rv[text] = count` in the loop of `get_possible_combinations` keeps every earlier template's count and only templates as keys |
| ModelsRasaNlu.SumFromBounds | src/chatter/models/rasa_nlu.py:115 | the sum raises iff some count does, with the first count's exception; otherwise no count exceeds it |
| ModelsRasaNlu.SumStep | src/chatter/models/rasa_nlu.py:115 | adding one count to the running total |
| ModelsRasaNlu.CounterCounts | src/chatter/models/rasa_nlu.py:103-106 | `_get_num_combos_for_text` on a fixed registry counts by that registry |
| ModelsRasaNlu.CountsOf | src/chatter/models/rasa_nlu.py:115 | one count per template, in order |
| ModelsRasaNlu.Validated | src/chatter/models/rasa_nlu.py:114-117 | `validate_num` raises the first count's exception, or RuntimeError naming the total exactly when `num` exceeds it |
| ModelsRasaNlu.ValidatedBound | src/chatter/models/rasa_nlu.py:114-117 | a `num` that validates is at most the total, and every template's count is known and at most the total |
| ModelsRasaNlu.Touch | src/chatter/models/rasa_nlu.py:130 | reading the `defaultdict` stores the key and changes no list |
| ModelsRasaNlu.RemoveFirst | src/chatter/models/rasa_nlu.py:131 | `list.remove` takes out exactly one occurrence of the text |
| ModelsRasaNlu.ChooseShrinks | src/chatter/models/rasa_nlu.py:125-135 | `choose_text` only removes templates from the available list |
| ModelsRasaNlu.ChooseRemovesExhausted | src/chatter/models/rasa_nlu.py:130-131 | every template `choose_text` removes has recorded combinations reaching its count |
| ModelsRasaNlu.ChooseReturnsFresh | src/chatter/models/rasa_nlu.py:130-135 | a returned template is still available and has fewer recorded combinations than its count |
| ModelsRasaNlu.ChooseFailure | src/chatter/models/rasa_nlu.py:127-133 | `choose_text` fails only with IndexError on an empty list, RuntimeError once the last template goes, or a count's exception |
| ModelsRasaNlu.ChooseKeepsUsed | src/chatter/models/rasa_nlu.py:125-135 | `choose_text` records no combination: every list reads as before |
| ModelsRasaNlu.TotalUsedAt | src/chatter/models/rasa_nlu.py:98 | replacing one list changes the total by the difference of the lengths |
| ModelsRasaNlu.TotalUsedSnoc | src/chatter/models/rasa_nlu.py:98 | a new key adds its list's length to the total |
| ModelsRasaNlu.Recorded | src/chatter/models/rasa_nlu.py:98 | appending a combination adds one to the total and to the key's list |
| ModelsRasaNlu.TotalUsedTouch | src/chatter/models/rasa_nlu.py:97 | reading a missing key adds no combination |
| ModelsRasaNlu.ChooseKeepsTotal | src/chatter/models/rasa_nlu.py:125-135 | `choose_text` leaves the number of recorded combinations as it was |
| ModelsRasaNlu.SynonymEntries | src/chatter/models/rasa_nlu.py:119-123 | one entry per `synonyms_used` item |
| ModelsRasaNlu.Table | src/chatter/models/rasa_nlu.py:122 | the entries read back as a table, one item each |
| ModelsRasaNlu.SynonymEntriesRoundTrip | src/chatter/models/rasa_nlu.py:119-123 | reading the entries back gives `synonyms_used`: nothing is lost or reordered |
| ModelsRasaNlu.RecordedWithin | src/chatter/models/rasa_nlu.py:97-98 | recording a combination for a template below its count keeps every template within its count |
| ModelsRasaNlu.SynonymsOf | src/chatter/models/rasa_nlu.py:78-79 | the `synonyms_used` of each example, in order |
| ModelsRasaNlu.TextsOf | src/chatter/models/rasa_nlu.py:69 | the template of each example, in order |
| ModelsRasaNlu.ExampleTexts | src/chatter/models/rasa_nlu.py:69 | `[example.text for example in examples]` |
| ModelsRasaNlu.RecordAt | src/chatter/models/rasa_nlu.py:98 | appending one combination under its own template, then the later ones, gives each template its earlier list plus the combinations of its own examples |
| ModelsRasaNlu.RecordsAfter | src/chatter/models/rasa_nlu.py:97-98 | one iteration followed by the rest of the loop keeps that per-template account |
| ModelsRasaNlu.SplitAfter | src/chatter/models/rasa_nlu.py:99 | the examples made so far followed by one more |
| ModelsRasaNlu.GenerateRecords | src/chatter/models/rasa_nlu.py:88-101 | when the loop runs to the end, it adds one example per iteration after the earlier ones, and each template's recorded list becomes its old list plus the combinations of that template's new examples, in order |
| ModelsRasaNlu.GenerateLength | src/chatter/models/rasa_nlu.py:90-99 | when the loop runs to the end it makes exactly one example per iteration |
| ModelsRasaNlu.GenerateRecordsAt | src/chatter/models/rasa_nlu.py:97-98 | the per-template account of `GenerateRecords` for one template |
| ModelsRasaNlu.GenerateShrinks | src/chatter/models/rasa_nlu.py:88-101 | `generate_examples` only removes templates from the available list |
| ModelsRasaNlu.GenerateWithin | src/chatter/models/rasa_nlu.py:88-101 | no template goes past its count, and every new example is of an available template |
| ModelsRasaNlu.ChooseBelow | src/chatter/models/rasa_nlu.py:125-135 | on counts that hold, `choose_text` returns a template still below its count and keeps every count |
| ModelsRasaNlu.GenerateWithinCounts | src/chatter/models/rasa_nlu.py:88-101 | recording one combination per example never takes a template past its count |
| ModelsRasaNlu.GenerateFromAvailable | src/chatter/models/rasa_nlu.py:91-94 | every new example is of a template that was available when the loop began |
| ModelsRasaNlu.GenerateFacts | src/chatter/models/rasa_nlu.py:88-101 | the whole loop: templates only removed, counts kept, and on success `num` examples of available templates with one recorded combination each |
| ModelsRasaNlu.GenerateRecordsFrom | src/chatter/models/rasa_nlu.py:88-101 | the whole loop: each template's recorded list becomes its old list plus the combinations of its own examples, in order |
| ModelsRasaNlu.GenerateTotal | src/chatter/models/rasa_nlu.py:98 | the recorded combinations grow by one per iteration |
| ModelsRasaNlu.RasaNluIntent.constructor | src/chatter/models/rasa_nlu.py:18-24 | a new intent has its name and no templates, grammars, synonyms, used synonyms or recorded combinations |
| ModelsRasaNlu.RasaNluIntent.Load | src/chatter/models/rasa_nlu.py:26-45 | `load` leaves the state and exception `Loaded` describes, as `LoadedTexts` and `LoadedSynonyms` state |
| ModelsRasaNlu.RasaNluIntent.ProcessData | src/chatter/models/rasa_nlu.py:47-53 | `process_data` changes the registry as `Define` says, as `DefineFlattens` and `DefineLastWins` state |
| ModelsRasaNlu.RasaNluIntent.Merged | src/chatter/models/rasa_nlu.py:42-43 | the synonyms loop merges every object's table in registration order |
| ModelsRasaNlu.RasaNluIntent.NumCombosOf | src/chatter/models/rasa_nlu.py:103-106 | the count of a template with the intended empty product of 1 |
| ModelsRasaNlu.RasaNluIntent.CountWith | src/chatter/models/rasa_nlu.py:103-106 | the count of the template, as `NumCombosMeaning` describes it (corrected count, see Findings) |
| ModelsRasaNlu.RasaNluIntent.ProductOf | src/chatter/models/rasa_nlu.py:106 | the loop multiplies out the counts |
| ModelsRasaNlu.RasaNluIntent.PossibleCombinations | src/chatter/models/rasa_nlu.py:108-112 | every template maps to its count and nothing else is a key, or the first template whose count raises gives the exception (corrected count, see Findings) |
| ModelsRasaNlu.RasaNluIntent.CountAll | src/chatter/models/rasa_nlu.py:109-112 | the loop of `get_possible_combinations`, as above (corrected count, see Findings) |
| ModelsRasaNlu.RasaNluIntent.ValidateNum | src/chatter/models/rasa_nlu.py:114-117 | `validate_num` raises exactly what `Validated` says: the first count's exception, or RuntimeError when `num` exceeds the total (corrected count, see Findings) |
| ModelsRasaNlu.RasaNluIntent.EntitySynonyms | src/chatter/models/rasa_nlu.py:119-123 | `entity_synonyms` returns the entries that read back to `synonyms_used` |
| ModelsRasaNlu.RasaNluIntent.ChooseText | src/chatter/models/rasa_nlu.py:125-135 | `choose_text` ends as `ChooseFrom` says: it only removes templates; a returned one is available with fewer recorded combinations than its count; no recorded combination changes (corrected count, see Findings) |
| ModelsRasaNlu.RasaNluIntent.Draw | src/chatter/models/rasa_nlu.py:128-135 | one draw either ends the loop with its outcome or removes a template and continues (corrected count, see Findings) |
| ModelsRasaNlu.RasaNluIntent.GenerateExamples | src/chatter/models/rasa_nlu.py:88-101 | the examples, available templates, recorded combinations and exception are those of `GenerateFrom`; on success `num` examples (none below one), each from an available template, each template's recorded list growing by exactly the combinations of its own examples in order, never past its count (corrected count, see Findings) |
| ModelsRasaNlu.RasaNluIntent.GenerateLoop | src/chatter/models/rasa_nlu.py:90-101 | the loop ends as `GenerateFrom` does, each example carrying the template and used synonyms of its sample (corrected count, see Findings) |
| ModelsRasaNlu.RasaNluIntent.GenerateOne | src/chatter/models/rasa_nlu.py:91-98 | one iteration: `choose_text`, a processed example, and its combination appended under its template; it takes `GenerateFrom` to the next iteration or ends it with the exception (corrected count, see Findings) |
| ModelsRasaNlu.RasaNluIntent.NewExample | src/chatter/models/rasa_nlu.py:94-97 | a new example of the template bound to the intent's grammars; `process(excluded)` leaves its lists and used synonyms and returns the combination or raises, as `ModelsCommonExample.Processed` says from an empty start |
| ModelsRasaNlu.RasaNluIntent.Sentences | src/chatter/models/rasa_nlu.py:67-69 | raises when `validate_num` does, changing nothing; otherwise the texts of the examples of `GenerateFrom`, which also gives the available templates and recorded combinations: `num` texts, each an available template, each template's list growing by the combinations of its own examples (corrected count, see Findings) |
| ModelsRasaNlu.RasaNluIntent.GeneratedTexts | src/chatter/models/rasa_nlu.py:69 | the texts of `generate_examples(num)`, with its state changes (corrected count, see Findings) |
| ModelsRasaNlu.RasaNluIntent.Generate | src/chatter/models/rasa_nlu.py:71-86 | raises when `validate_num` does, changing nothing; otherwise the state of `GenerateFrom` (each template's list growing by its own examples' combinations), `synonyms_used` updated with every example's `synonyms_used` in order, and the zipcode feature, `num` examples and the entity synonyms of `synonyms_used` (corrected count, see Findings) |
| ModelsRasaNlu.RasaNluIntent.TrainingData | src/chatter/models/rasa_nlu.py:76-86 | the part of `generate` after `validate_num`, with the same state changes and result (corrected count, see Findings) |
| ModelsRasaNlu.RasaNluIntent.Package | src/chatter/models/rasa_nlu.py:78-86 | the examples' used synonyms merged in order into `synonyms_used`, and the training data built from the examples |
| ModelsRasaNlu.RasaNluIntent.MergeUsed | src/chatter/models/rasa_nlu.py:78-79 | the loop updates `synonyms_used` with each example's `synonyms_used`, in order, keeping every old key |
| ModelsBase.IntentBase.constructor | src/chatter/models/base.py:4-10 | a new intent keeps its name and has no domain, no templates and empty tables |
| ModelsBase.IntentBase.ParseData | src/chatter/models/base.py:31-42 | `_parse_data` merges `included` in list order and then `contents` (`Intents.MergedGet` gives each key's value), holds exactly their keys once each, and is empty when both parts are missing or empty |
| ModelsBase.IntentBase.Load | src/chatter/models/base.py:12-29 | `load` behaves as `Intents.Loaded`: KeyError for the first missing key, merged tables otherwise, and the same parsed synonyms mapping for every entity name when that part is non-empty (`Intents.LoadedTables`, `Intents.LoadedSynonyms`) |

## Left out

- YAML loading, `!include`, `intents_loader`, `loader` and the command-line tools: file I/O. Intent data comes in as values (`IntentData`, `TextEntry`, `GrammarDefs`).
- JSON output (`to_json`, `json`, `to_dict` of `CommonExample`, `__str__`, the `json.dumps` in `Intents.Intent.CommonExample`) and every `__repr__`: serialisation only. The data `to_dict` and `to_example` report is modelled (`ModelsEntity.Entity.ToDict`, `Entity.Example`).
- Logging calls: no effect on state.
- `domain` in the current revision: the assignment is commented out in the source.
- `get_digest`: it is not defined in the repository, and `utils/digest.py` holds only `list_digest`. SHA-1 is a foreign call. The key of a template is the template itself.
- Random distributions: `random.choice`, `randint`, the SystemRandom shuffle and `set.pop` are caller-supplied indices, coins or `:|` choices. No uniformity is claimed.
- The shuffle and the write-back of `set(available_combinations)` in `ensure_priorities` (src/chatter/combinator.py:36, 102): a set has no order, so the state does not change. `Combinator.Combinator.EnsurePriorities` returns the reordered list instead.
- The template parser `TextParser`, the `PATTERN_*` constants and `get_all_placeholder_values`: not in the repository. Parsing and expansion are the parameters `parse` and `expand`; the `{`-bearing string branch of `Grammar.load_data` goes through `expand`. The markers are not parameters: `Placeholder.OptionalMarker` and `Placeholder.PriorityMarker` fix them to `?` and `>`, the `{name?}` and `{name>}` token forms, and `Placeholder.ReservedChars` to those two and the braces; `Placeholder.NameOfToken` and `Placeholder.FlagsOfToken` rely on those values.
- `Grammar.entity_value`: not defined in the repository. It is the parameter `grammarEntityValue`.
- `chatter.utils.regex` and the current `Placeholder` class used by src/chatter/common_example.py are not in the repository. Tokens come from the `REPLACEMENT_PATTERN` scanner and names from the parameter `nameOf`.
- The grammar classes of the older revision (`Grammar`, and an `Entity` taking a value): not in the repository. `cls(name, value)` is the parameter `make`, and `GrammarObj` holds what is read of the objects.
- `obj.process_data(self.grammars)` in `RasaBase.load` (src/chatter/models/rasa_nlu.py:38-39): a method of that missing grammar class. `ModelsRasaNlu.Loaded` skips it.
- `Intent.get_combinations`, `Intent.sentences` and `RasaNLUIntent.examples` (src/chatter/rasa_nlu.py:98-133, 238-245): they need `TextParser.process` and `ensure_priority_combinations`, which are missing, and `sentences` adds lists to a set, which Python rejects. `RasaNlu.RasaNluIntent.Process` takes the generated examples as a parameter.
- Floating point in `process` (src/chatter/rasa_nlu.py:207): `RasaNlu.TestingCount` is the exact integer ceiling of `num * test_ratio / 100`, with `test_ratio` a whole percentage. The float product can round above an integer and give one more testing example.
- `CommonExample.CommonExample.constructor`: it sets the fields of `__init__` only. A Dafny constructor cannot return the parent's updated `used_combinations` table, so the call to `find_unused_combination()` at src/chatter/common_example.py:42 is in `CommonExample.CommonExample.New`, which is `CommonExample(template, parent)` as a whole.
- `CommonExample.CommonExample.FindUnusedCombination`, `CommonExample.CommonExample.New`: the parent's `used_combinations` is passed in and returned updated rather than written through the parent object. A parent that does not hold the table is `None`, and the model raises AttributeError for it.
- `CommonExample.Combinations.FindUnused`: the source loops forever when every key is used. The model requires some draw to give an unused key.
- `RasaNlu.Intent.Load` and `RasaNlu.Parser`: each parser's placeholders and combination count come from `parse`, not from a modelled `TextParser`.
- `RasaNlu.Intent.Load`: drains the queue with the corrected entity flag (see Findings): a mapping retried from the queue keeps the flag of the section it came from, where src/chatter/rasa_nlu.py:150 as written registers a retried entity as a plain grammar (`RasaNlu.EntityFlagLostAsWritten`).
- `RasaNlu.Intent.LoadGrammars`: the same corrected entity flag as `RasaNlu.Intent.Load`.
- `RasaNlu.LoadOne`: while a grammar loads, the registered grammars `expand` sees hold it with empty tables. The source holds the live object, whose tables fill as the load goes on, so a definition that refers to itself sees fewer choices in the model.
- `RasaNlu.Intent.Load`: `intent_data` is the three sections `text`, `grammars` and `entities`, each None when the key is absent; other keys are never read.
- `ModelsRasaNlu.RasaNluIntent.CountWith`: counts with the corrected count through `CountsBy` (see Findings): a template without placeholders counts 1, where src/chatter/models/rasa_nlu.py:106 as written raises TypeError (`ModelsRasaNlu.NoPlaceholderTemplate`). For every template with a placeholder the two agree (`ModelsRasaNlu.NumCombosAgree`).
- `ModelsRasaNlu.RasaNluIntent.PossibleCombinations`: the same corrected count as `ModelsRasaNlu.RasaNluIntent.CountWith`.
- `ModelsRasaNlu.RasaNluIntent.CountAll`: the same corrected count as `ModelsRasaNlu.RasaNluIntent.CountWith`.
- `ModelsRasaNlu.RasaNluIntent.ValidateNum`: the same corrected count as `ModelsRasaNlu.RasaNluIntent.CountWith`.
- `ModelsRasaNlu.RasaNluIntent.ChooseText`: the same corrected count as `ModelsRasaNlu.RasaNluIntent.CountWith`.
- `ModelsRasaNlu.RasaNluIntent.Draw`: the same corrected count as `ModelsRasaNlu.RasaNluIntent.CountWith`.
- `ModelsRasaNlu.RasaNluIntent.GenerateExamples`: the same corrected count as `ModelsRasaNlu.RasaNluIntent.CountWith`.
- `ModelsRasaNlu.RasaNluIntent.GenerateLoop`: the same corrected count as `ModelsRasaNlu.RasaNluIntent.CountWith`.
- `ModelsRasaNlu.RasaNluIntent.GenerateOne`: the same corrected count as `ModelsRasaNlu.RasaNluIntent.CountWith`.
- `ModelsRasaNlu.RasaNluIntent.Sentences`: the same corrected count as `ModelsRasaNlu.RasaNluIntent.CountWith`.
- `ModelsRasaNlu.RasaNluIntent.GeneratedTexts`: the same corrected count as `ModelsRasaNlu.RasaNluIntent.CountWith`.
- `ModelsRasaNlu.RasaNluIntent.Generate`: the same corrected count as `ModelsRasaNlu.RasaNluIntent.CountWith`.
- `ModelsRasaNlu.RasaNluIntent.TrainingData`: the same corrected count as `ModelsRasaNlu.RasaNluIntent.CountWith`.
- `ModelsCommonExample.ExcludesNeverApply`: the `excludes` that `generate_examples` passes is a list of dictionaries, so `name in excludes` is never true. The model shows this rather than excluding used values.
- `ModelsRasaNlu.RasaNluIntent`: one class with the fields and methods of both `RasaBase` and `RasaNLUIntent`. There is no inheritance.
- `RasaNlu.Intent.GetParserCombination`, `Combinator.Combinator.GetUsed`: which used combination `random.choice` returns is left unspecified.
- `Grammar.Grammar.LoadData`: for a reference to a known grammar, src/chatter/grammar.py:51 stores that grammar's `choices` list object itself in `synonyms`, so later appends to either grammar show through both. The model stores the list's value at that moment; the aliasing is not modelled.
- `Grammar.Grammar.LoadMap`: a value in a mapping is a list, a string or `None` (`Grammar.SynonymData`). A nested mapping or a tuple, which `extend` at src/chatter/grammar.py:41 would iterate (a mapping by its keys), cannot be represented.
- `CommonExample.CommonExample.Run`: the `for` loop of `process()` (src/chatter/common_example.py:76) is written as recursion over the placeholder index, one call of `CommonExample.CommonExample.Iterate` per iteration, with `Track` as its invariant.
- The recursion of `process_grammars` over nested lists: it is modelled through the `GrammarDefs` datatype. Merging in `_parse_data` and `get_data` is one level deep, and values are copied as they are.
- `Combinator.Combinator.EnsurePriorities`: it does not prove the docstring's promise that every value of a priority placeholder shows up among the first `num` combinations. `Priorities.EnsureOnExample` with `Priorities.WindowBefore` and `Priorities.WindowAfter` exhibits a reachable input where the source breaks that promise: a priority placeholder of range 3 and a plain one of range 2, `num` 3, value 1 pushed out of the first three combinations.

## Findings

| source | as written | input that shows it | evidently intended | confidence | as-written member | corrected member |
|---|---|---|---|---|---|---|
| src/chatter/combinator.py:94-96 | the backward scan decrements `table_index` and raises as soon as it is `<= 0`, before the `while missing` condition is checked again; index 0 is never examined | one priority placeholder with range 2, list `[[0],[1]]`, `num` 1: value 1 is found at index 1, the index drops to 0 and RuntimeError is raised | stop once nothing is missing, examine every index down to 0, and raise only when a missing value occurs nowhere | high; not executed | Priorities.AsWrittenGivesUp | Priorities.ScanFixedSucceeds |
| src/chatter/rasa_nlu.py:24-26 | `count` is `sum(self.available + self.used)`, a sum over template strings | any loaded template: `sum(["hello"])` raises TypeError | the number of templates, `len(available) + len(used)` | high; not executed | Texts.CountAsWrittenFails | Texts.Texts.Count |
| src/chatter/rasa_nlu.py:150 | the retry calls `process_grammars(data, raise_on_error=True)` without `is_entity`, and the queue keeps only the mapping | an entity definition that fails once and is queued at line 189 is registered as a plain grammar on retry | retry with the entity flag of the section the mapping came from | medium; not executed | RasaNlu.EntityFlagLostAsWritten | RasaNlu.RetryKeepsFlag |
| src/chatter/models/rasa_nlu.py:106 | `reduce(lambda x, y: x * y, combos.values())` without an initial value | a template without placeholders, such as `""`: `reduce` of an empty sequence raises TypeError | an empty product of 1, since such a template has exactly one rendering | high; not executed | ModelsRasaNlu.NoPlaceholderTemplate | ModelsRasaNlu.NumCombosMeaning |
