# Star Wars dice roller — the roll calculation in Dafny

This project models the calculation core of a browser dice roller for the
narrative dice of a Star Wars role-playing game. The modelled file is
`src/components/App/App.tsx`. It covers three parts:

- **Symbol tallies.** A `DiceSide` is a record of eight counters: success,
  advantage, failure, threat, triumph, despair, dark and light. `BLANK` is the
  all-zero tally. The named faces in `sides` are `BLANK` with a few counters set.
  In Dafny these are `Tallies.Tally`, `Tallies.Blank` and the `...Face`
  constants of module `Dice`.
- **Die tables.** `dice` gives each of the seven die kinds an ordered face list:
  boost, setback, ability, difficulty, proficiency, challenge and force. A face
  that repeats in a list is drawn more often. This is `Dice.Face` and
  `Dice.Sides`.
- **Rolling.**
  - `sumSides` folds tallies field by field, starting from `BLANK`
    (`Tallies.SumSides`).
  - `rollDice` picks the face at index `Math.floor(Math.random() * length)`
    (`Roll.DrawIndex`, `Roll.RollDice`).
  - `handleRoll` rolls each die kind its requested number of times, in a fixed
    die order, and sums every draw (`Roll.RollGroup`, `Roll.CollectRolls`,
    `Roll.HandleRoll`).

The random generator is a parameter. `random[k]` is the value that the k-th
`Math.random()` call of one roll returns, a real number in [0, 1). `Roll.Rolls`
and `Roll.RollResult` are the functional reference for what a roll draws and
reports. The imperative `Roll.CollectRolls` and `Roll.HandleRoll` are proved
equal to them.

The rolling functions take the die table as a parameter. They need only two
facts about it: every die has a face (`Dice.HasFaces`), and no face leaves its
die's symbol vocabulary (`Dice.WithinVocabulary`). `Dice.SidesIsDieTable`
proves both for the application's table, and `Roll.HandleRoll` rolls on that
table.

A request (`Roll.Request`) holds the counts as the user entered them. The
dice it actually draws (`Roll.Counts`, computed by `Roll.Drawn`) give each die
kind the number of times its `for` loop runs.

Two points where the model follows the code closely:

- `App.tsx` has no cancellation step: `handleRoll` reports the raw sum
  (`App.tsx:244`), so the model has none.
- `handleRoll` itself never checks counts. A loop `for (let i = 0; i < n; i++)`
  just runs zero times when `n` is not positive. The model keeps integer counts
  (`Roll.Request`) and proves that such a die draws nothing (`Roll.Drawn`,
  `Roll.RollGroup`, `Roll.EmptyRollIsBlank`). The page's number inputs carry
  `min={0} step={1}` (`App.tsx:264-281`), so the browser does not submit a
  negative or fractional Boost or Setback count; the model's negative counts go
  beyond what the page can send, and cover only what the handler would do
  with them.

Counters are modelled as `int`, like the source's `number` fields. That they
are never negative is proved, not assumed from the type.

## Model

| member | source | states |
|---|---|---|
| `Tallies.Extensionality` | src/components/App/App.tsx:7-16 | Two tallies that agree on all eight counters are the same tally |
| `Tallies.Add` | src/components/App/App.tsx:175-186 | Each counter of the combined tally is the sum of that counter in the two arguments; no counter feeds another |
| `Tallies.AddCommutative` | src/components/App/App.tsx:175-186 | The combining step does not depend on argument order |
| `Tallies.AddAssociative` | src/components/App/App.tsx:175-186 | The combining step is associative |
| `Tallies.BlankIsIdentity` | src/components/App/App.tsx:20-29 | `BLANK` is a two-sided identity of the combining step |
| `Tallies.SumSides` | src/components/App/App.tsx:174-187 | Each counter of the folded sum equals the plain arithmetic total of that counter over the faces; an empty sequence sums to `BLANK` |
| `Tallies.TotalAppend` | src/components/App/App.tsx:174-187 | The per-symbol total of a concatenation is the sum of the totals of its parts |
| `Tallies.SumConcat` | src/components/App/App.tsx:174-187 | The sum of a concatenation is the combination of the sums of its parts |
| `Tallies.SameCounts` | src/components/App/App.tsx:175-186 | A tally whose every counter is the sum of two tallies' counters is their combination |
| `Tallies.TotalRemove` | src/components/App/App.tsx:174-187 | Removing one face from the middle of a sequence removes exactly its count from the total |
| `Tallies.PermutationStep` | src/components/App/App.tsx:174-187 | Matching the first face of one permutation with an equal face of the other leaves two shorter permutations |
| `Tallies.TotalPermutation` | src/components/App/App.tsx:174-187 | The per-symbol total is the same for any reordering (same multiset) of the faces |
| `Tallies.SumPermutation` | src/components/App/App.tsx:174-187 | Any reordering of the faces gives the same sum, so the draw order does not affect the result |
| `Tallies.TotalNonNegative` | src/components/App/App.tsx:174-187 | A total of faces with no negative counter is not negative |
| `Tallies.SumNonNegative` | src/components/App/App.tsx:174-187 | A sum of faces with no negative counter has no negative counter |
| `Tallies.TotalAtMost` | src/components/App/App.tsx:174-187 | If no face shows more than `hi` of a symbol, the total shows at most `hi` per face |
| `Dice.Face` | src/components/App/App.tsx:50-169 | Every entry of every die's list has no negative counter and stays within its die's symbol vocabulary; every Force face shows at least one dark or light symbol |
| `Dice.Sides` | src/components/App/App.tsx:69-170 | Each die's list, as the application writes it, has exactly one face per physical side of that die (6, 6, 8, 8, 12, 12, 12), so none is empty |
| `Dice.MaxFaceAttained` | src/components/App/App.tsx:78-169 | Every non-zero per-die symbol bound is shown by some face of that die, so the ceiling used for roll bounds is tight face by face |
| `Dice.SidesIsDieTable` | src/components/App/App.tsx:69-170 | The application's table gives every die a face and keeps every face within its die's vocabulary |
| `Dice.FaceBounds` | src/components/App/App.tsx:50-169 | Any face found in a die's list is non-negative and within that die's vocabulary bounds |
| `Dice.ForceVocabularyDisjoint` | src/components/App/App.tsx:78-169 | Force faces carry only dark and light; faces of the other six dice never carry dark or light |
| `Dice.TriumphAndDespairFaces` | src/components/App/App.tsx:122-153 | A face shows triumph exactly when it is the last Proficiency face, and despair exactly when it is the last Challenge face |
| `Roll.DrawIndex` | src/components/App/App.tsx:190 | `Math.floor(r * n)` for r in [0, 1) is a valid index below `n`, and is the floor of `r * n` |
| `Roll.DrawIndexInterval` | src/components/App/App.tsx:190 | Index `i` is chosen exactly when r lies in [i/n, (i+1)/n), an interval of the same width for every face |
| `Roll.RollDice` | src/components/App/App.tsx:189-190 | The drawn face is always one of the die's faces |
| `Roll.RollReachesEveryFace` | src/components/App/App.tsx:189-190 | Every face of a die can be drawn: the random value i/n selects face i |
| `Roll.Drawn` | src/components/App/App.tsx:215-241 | Each die kind is drawn exactly as many times as its loop runs for the requested count |
| `Roll.Offset` | src/components/App/App.tsx:213-241 | The group of each die starts after the draws of every die before it and ends inside the roll |
| `Roll.DieAt` | src/components/App/App.tsx:213-241 | Each position of a roll lies in the group of a die, between that die's offset and its offset plus its count |
| `Roll.DieAtGroup` | src/components/App/App.tsx:213-241 | The groups of different dice do not overlap: a position inside the group of `d` belongs to `d` |
| `Roll.OffsetsChain` | src/components/App/App.tsx:213-241 | The boost group starts the roll, each group ends where the next one in die order starts, and the force group ends the roll |
| `Roll.Draws` | src/components/App/App.tsx:213-241 | The first `n` draws of a roll are `n` faces |
| `Roll.DrawsAt` | src/components/App/App.tsx:213-241 | Draw `k` is taken from the list of the die whose group holds `k`, with the k-th random value, no matter how many draws follow |
| `Roll.Rolls` | src/components/App/App.tsx:213-241 | A roll draws one face per die drawn |
| `Roll.RollsGroupAt` | src/components/App/App.tsx:213-241 | Draw `j` of die `d` sits at the die's offset plus `j`, comes from that die's list, and uses the random value at its own position |
| `Roll.GroupPrefix` | src/components/App/App.tsx:215-241 | The draws of a die up to a position are as many faces as positions passed, each a face of that die |
| `Roll.Group` | src/components/App/App.tsx:215-241 | A die's group holds as many faces as that die is drawn, each a face of that die |
| `Roll.DrawsIntoGroup` | src/components/App/App.tsx:213-241 | Partway into a die's group, the draws are the draws before the group followed by the group's draws so far |
| `Roll.DrawsThroughGroup` | src/components/App/App.tsx:213-241 | At the end of a die's group, the draws are the draws before the group followed by the whole group |
| `Roll.RollGroup` | src/components/App/App.tsx:215-217 | The loop `for (let i = 0; i < n; i++)` of one die kind runs `n` times when `n` is positive and not at all otherwise, and appends exactly that die's group to the draws of the dice before it, ending at the next die's offset |
| `Roll.GroupStep` | src/components/App/App.tsx:215-217 | One turn of a die's loop pushes that die's next draw |
| `Roll.GroupDone` | src/components/App/App.tsx:215-217 | When a die's loop ends, it has pushed the whole group |
| `Roll.CollectRolls` | src/components/App/App.tsx:213-241 | The seven loops, run in die order, produce exactly the reference draw sequence |
| `Roll.GroupFollows` | src/components/App/App.tsx:213-241 | If the draws before a die's group are a prefix of the roll, so are those draws followed by the group |
| `Roll.DrawsComplete` | src/components/App/App.tsx:213-241 | Draws that cover the whole roll are the roll |
| `Roll.RollsAreGroups` | src/components/App/App.tsx:213-241 | The draw sequence is the seven groups concatenated in die order |
| `Roll.SubtotalSum` | src/components/App/App.tsx:213-244 | The seven per-die subtotals, added in die order, equal the reported sum of all draws |
| `Roll.GroupCeiling` | src/components/App/App.tsx:78-169 | The total of one die's draws is non-negative and at most the draw count times the die's largest face for that symbol |
| `Roll.GroupSubtotal` | src/components/App/App.tsx:213-244 | One die's subtotal of a symbol lies between zero and that die's share of the ceiling |
| `Roll.SubtotalsWithinCeiling` | src/components/App/App.tsx:174-187 | Seven subtotals, each within its die's share, combine into a tally within the ceiling |
| `Roll.RollBounds` | src/components/App/App.tsx:212-245 | Every counter of a roll's tally is at least zero and at most the ceiling for that symbol |
| `Roll.EmptyRollIsBlank` | src/components/App/App.tsx:213-244 | A request whose counts are all zero or negative draws nothing and reports the blank tally |
| `Roll.RollVocabulary` | src/components/App/App.tsx:212-245 | Triumphs never exceed the Proficiency dice drawn, despairs never exceed the Challenge dice drawn, and dark and light each stay within twice the Force dice drawn |
| `Roll.CeilingVocabulary` | src/components/App/App.tsx:122-169 | A tally within the ceiling shows triumph only up to the Proficiency dice, despair only up to the Challenge dice, and dark or light only up to twice the Force dice |
| `Roll.HandleRoll` | src/components/App/App.tsx:212-245 | The handler rolls on the application's table, draws the reference sequence and reports its sum; every counter lies between zero and its ceiling; a request that draws nothing reports the blank tally |

## Left out

- React state, form controls, change handlers and rendering (`App.tsx:192-287`) are user-interface wiring. Only the boost and setback counts are bound to inputs there.
- The `JSON.stringify` formatting of the result (`App.tsx:244`) is presentation only.
- The random generator itself is not modelled. Its values arrive as a parameter in [0, 1), and the model does not state a probability distribution. `Roll.DrawIndexInterval` shows that every face owns an interval of random values of the same width.
- Floating-point rounding of `r * n` is not modelled; the product is exact in the model. For lists of at most 12 faces, the double-precision product of a value below 1 stays below the list length, so the index bound still holds.
- Fractional die counts, such as `2.5`, are not modelled. Counts are integers; the page's inputs (`step={1}`) do not submit fractional Boost or Setback counts.
- Opposing-symbol cancellation is not in the code, and `handleRoll` does not reject negative counts, so neither is modelled (see above).
- `Roll.RollDice` requires a non-empty face list. The code would return `undefined` for an empty list, but no die has an empty list (`Dice.Sides`, `Dice.HasFaces`).
- `Roll.HandleRoll` requires exactly one random value per die drawn. The code calls the generator as often as it needs.
- `Roll.HandleRoll` returns a sum for any number of draws. The code spreads the draws into `sumSides(...rolls)` (`App.tsx:244`), which passes each draw as a separate argument; beyond the JavaScript engine's argument or stack limit (on the order of 10^5 draws) that call throws a `RangeError` after `event.preventDefault()` (`App.tsx:243`), and no result is set. Engine limits are not modelled.
- `Roll.RollVocabulary` bounds dark and light separately by twice the Force dice drawn. It does not state that their sum is at least the number of Force dice, although every Force face shows one of them (`Dice.Face`).
