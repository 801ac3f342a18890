# Weasel: cumulative selection, modelled and proved in Dafny

The Weasel program is Dawkins' "METHINKS IT IS LIKE A WEASEL" simulation,
written as one Java class. It starts from a random 28-symbol string. Each
generation, it puts the current champion (`darwin`) in slot 0 of a
100-slot array and fills slots 1..99 with copies. In each copy, every
position is either kept or replaced by a random symbol of the alphabet
`"ABCDEFGHIJKLMNOPQRSTUVWXYZ "`. It then scores every slot against the
target, picks a new champion, and records a score in `darwinScore`. It
stops when the champion is the target.

This project models the whole of that engine. Every `Math.random()` call
becomes an explicit draw:

- a percent draw in [0, 99] for `percentChance`;
- an alphabet draw in [0, 26] for `getRandomChar`.

A `Draws` value holds the 28 percent draws and the 28 alphabet draws of one
`makeCopy` call. The alphabet draw at a position is used only where that
position is replaced. A generation consumes 99 such values, one per copy.
The main loop consumes a schedule of generations. With the draws given,
every operation is deterministic.

- `weasel_spec.dfy`, module `WeaselSpec`: the constants, and one pure
  function per operation. `PercentChance`, `RandomChar`, `Score`, `Mutant`
  and `RandomString` are the scorer, the mutation and random generation.
  `Population`, `Select`/`SelectFrom` and `Champion` model getDarwinGeneration
  and scoreGeneration. `Step` is one generation, `RunFor` a fixed number of
  generations, and `Evolution` main's while loop. The module also holds the
  lemmas about these functions.
- `weasel.dfy`, module `Weasel`: the class `Weasel`.
  - It holds the array `selectionGeneration` and the fields `darwin` and
    `darwinScore`, which are static in the source.
  - Its methods run the source's loops: the match counter, the string
    grown by concatenation, the array filled in place, the `bestIndex`
    scan, and the main loop.
  - Each method is proved to compute the matching function of `WeaselSpec`.

The selection rule is modelled as written. At Weasel.java:93, `scoreGeneration`
compares each score with `bestIndex`, an array index, and not with the best
score so far. Consequences proved here:

- The chosen slot is the last one whose score beat the value of `bestIndex`
  at the time it was scored. Every later slot scores at most the chosen
  index (`SelectedIsLastImprovement`).
- Once `bestIndex` reaches 28, no score can pass the test
  (`FrozenFromLength`).
- The choice is not an argmax. With the target in slot 0, a 1-point string in
  slot 1 and 0-point strings after it, slot 1 is chosen
  (`SelectionIsNotArgmax`).
- A champion's score can fall from one generation to the next: a parent that
  scores 27 can be replaced by a copy that scores 1
  (`ChampionScoreCanDecrease`). The header comment (Weasel.java:19) says
  to take the highest-scoring string, and with slot 0 holding the parent
  that would make the score never decrease. The code does neither, and
  the model follows the code.
- The reported `darwinScore` never lags behind the champion once the program
  has started from `darwinScore` 0 (`RunReportsChampionScore`,
  `EvolutionFromSeed`). When no slot passes the test, `darwinScore` is left
  unchanged (`SelectDarwinScore`). But that only happens when the parent
  itself scores 0, and then the recorded score is also 0.

Two more facts in the code:

- `makeCopy` replaces a position when `percentChance(5)` is false, that is
  for a draw of 5 or less. That is 6 of the 100 draws, not the 5% the
  header comment states (`PercentChanceFalseCount`).
- A string of 28 'A's scores 2, not 1, because the target has an 'A' at
  positions 20 and 24 (`ScoreOfAllA`).

## Model

| member | source | states |
|---|---|---|
| `WeaselSpec.PercentChance` | Weasel.java:56-61 | percentChance with its draw explicit: it always succeeds for a negative percent and never for 99 or more |
| `WeaselSpec.PercentChanceFalseCount` | Weasel.java:56-61 | percentChance(p) is false for exactly p + 1 of the 100 draws (6 for makeCopy's p = 5) |
| `WeaselSpec.RandomChar` | Weasel.java:112-114 | getRandomChar with draw k gives a letter or space: character code 65 + k for k < 26, and 32 (space) for k = 26 |
| `WeaselSpec.SymbolIndex` | Weasel.java:112-114 | every upper-case letter and the space is produced by some draw in [0, 26] |
| `WeaselSpec.SymbolIndexOfRandomChar` | Weasel.java:112-114 | distinct alphabet draws give distinct symbols |
| `WeaselSpec.DnaLayout` | Weasel.java:41-48 | the alphabet has 27 symbols: 'A'..'Z' at codes MIN..MAX in order, then SPACE |
| `WeaselSpec.MatchCount` | Weasel.java:76-85 | the matches among the first n positions number between 0 and n |
| `WeaselSpec.Score` | Weasel.java:76-85 | scoreString lies in [0, 28] |
| `WeaselSpec.ScoreCountsMatches` | Weasel.java:76-85 | scoreString is the number of positions i < 28 where the candidate equals the target |
| `WeaselSpec.ScorePerfect` | Weasel.java:76-85 | the score is 28 exactly when the first 28 characters are the target |
| `WeaselSpec.CandidateScorePerfect` | Weasel.java:158 | for a 28-symbol candidate, main's stopping test darwin.equals(target) is the test score == 28 |
| `WeaselSpec.ScoreOfPrefix` | Weasel.java:76-85 | characters beyond position 27 never count |
| `WeaselSpec.ScoreOfAllA` | Weasel.java:53 | 28 'A's score 2 against the target |
| `WeaselSpec.ScoreOfAllZ` | Weasel.java:53 | 28 'Z's score 0 against the target |
| `WeaselSpec.Mutant` | Weasel.java:63-74 | makeCopy with its draws explicit: a 28-character string each of whose characters is the parent's or an alphabet symbol |
| `WeaselSpec.MutantShape` | Weasel.java:63-74 | a copy has 28 characters; where the draw is above 5 it keeps the parent's character, otherwise it holds the alphabet symbol getRandomChar drew |
| `WeaselSpec.MutantIsCandidate` | Weasel.java:63-74 | a copy of a candidate is a candidate |
| `WeaselSpec.MutantWithoutMutation` | Weasel.java:63-74 | with every draw above 5 the copy is the parent |
| `WeaselSpec.FullMutation` | Weasel.java:63-74 | valid draws that replace every position (each draw at most 5) and whose alphabet draws spell out the given candidate |
| `WeaselSpec.MutantReachesEveryCandidate` | Weasel.java:63-74 | every candidate is a possible copy of any parent, since a replacement may draw any symbol, the parent's own included |
| `WeaselSpec.MutantScoreBound` | Weasel.java:63-85 | a copy's score differs from its parent's by at most the number of replaced positions |
| `WeaselSpec.RandomString` | Weasel.java:116-127 | getRandomGeneration with its draws explicit: 28 alphabet symbols from which each draw can be read back |
| `WeaselSpec.RandomStringIsCandidate` | Weasel.java:116-127 | getRandomGeneration returns 28 alphabet symbols |
| `WeaselSpec.RandomStringExactlyOnce` | Weasel.java:116-127 | each candidate comes from exactly one list of 28 alphabet draws |
| `WeaselSpec.Population` | Weasel.java:102-107 | the generation has 100 slots of at least 28 characters |
| `WeaselSpec.PopulationSlots` | Weasel.java:102-107 | slot 0 is the unmodified parent, and slot j in 1..99 is the copy made with the j-th draws |
| `WeaselSpec.PopulationOfCandidate` | Weasel.java:102-107 | the generation of a candidate holds only candidates |
| `WeaselSpec.SelectFrom` | Weasel.java:91-97 | the remaining iterations leave bestIndex as it was or move it to a slot not yet scored |
| `WeaselSpec.SelectFromRecordsScore` | Weasel.java:91-97 | if the remaining iterations change anything, darwinScore ends as the positive score of the slot bestIndex ends on |
| `WeaselSpec.Select` | Weasel.java:87-100 | the chosen index lies in [0, 99] |
| `WeaselSpec.BestIndexBefore` | Weasel.java:91-97 | bestIndex on entry to iteration i is non-negative and below i (or 0) |
| `WeaselSpec.SelectIsBestIndexBefore` | Weasel.java:87-100 | the loop's result equals an independent backward definition of bestIndex |
| `WeaselSpec.SelectedIsLastImprovement` | Weasel.java:91-97 | the chosen slot is the last whose score beat bestIndex's value then; every later slot scores at most the chosen index |
| `WeaselSpec.FrozenFromLength` | Weasel.java:93 | once bestIndex is 28 or more it never changes again, since no score exceeds 28 |
| `WeaselSpec.SelectDarwinScore` | Weasel.java:87-100 | all scores 0: slot 0 is chosen and darwinScore is unchanged; otherwise darwinScore is the chosen slot's positive score |
| `WeaselSpec.SelectionIsNotArgmax` | Weasel.java:93 | with the target in slot 0, the 1-point slot 1 is chosen and darwinScore becomes 1 |
| `WeaselSpec.Champion` | Weasel.java:99 | scoreGeneration returns one of the generation's strings |
| `WeaselSpec.Step` | Weasel.java:160 | the new champion of a parent of at least 28 characters has at least 28 characters |
| `WeaselSpec.StepChampionInPopulation` | Weasel.java:102-110 | getDarwinGeneration returns one of the 100 slots |
| `WeaselSpec.StepPreservesCandidate` | Weasel.java:102-110 | a candidate parent yields a candidate champion |
| `WeaselSpec.StepReportsChampionScore` | Weasel.java:87-110 | if the parent scores above 0 or darwinScore is 0, the new darwinScore is the champion's score |
| `WeaselSpec.ChampionScoreCanDecrease` | Weasel.java:93 | a 27-point parent is replaced by a 1-point copy: the champion's score falls |
| `WeaselSpec.RunFor` | Weasel.java:158-162 | after any number of generations the champion has at least 28 characters |
| `WeaselSpec.RunPreservesCandidate` | Weasel.java:156-162 | every champion of a run from a candidate seed is a candidate |
| `WeaselSpec.RunReportsChampionScore` | Weasel.java:156-162 | from darwinScore 0, after each generation darwinScore is the champion's score |
| `WeaselSpec.Evolution` | Weasel.java:158-162 | the loop runs at most as many generations as there are draws |
| `WeaselSpec.EvolutionStops` | Weasel.java:158 | the loop ends with the target as champion unless the draws ran out |
| `WeaselSpec.EvolutionIsRunFor` | Weasel.java:158-162 | the loop's final state is the state after the generations it ran |
| `WeaselSpec.EvolutionIsFirstHit` | Weasel.java:158 | no state before the loop's last one had the target as champion |
| `WeaselSpec.EvolutionFromSeed` | Weasel.java:156-162 | from a random seed: the champion stays a candidate, is the target unless the draws ran out, and its reported score is its own |
| `Weasel.Weasel.constructor` | Weasel.java:45-54 | a fresh 100-slot selectionGeneration and darwinScore 0 |
| `Weasel.Weasel.ScoreString` | Weasel.java:76-85 | the match-counting loop computes Score, a value in [0, 28] |
| `Weasel.Weasel.MakeCopy` | Weasel.java:63-74 | the concatenation loop computes Mutant and keeps a candidate a candidate |
| `Weasel.Weasel.GetRandomGeneration` | Weasel.java:116-127 | the concatenation loop computes RandomString, a candidate |
| `Weasel.Weasel.ScoreGeneration` | Weasel.java:87-100 | returns generation[bestIndex] and sets darwinScore, as Select prescribes from the previous darwinScore |
| `Weasel.Weasel.GetDarwinGeneration` | Weasel.java:102-110 | fills selectionGeneration in place with Population, then performs one Step from the old darwinScore |
| `Weasel.Weasel.Seed` | Weasel.java:156 | darwin becomes the random string of the seed draws, a candidate |
| `Weasel.Weasel.Evolve` | Weasel.java:158-162 | main's loop leaves darwin, darwinScore and the generation count as Evolution prescribes |
| `Weasel.Weasel.Simulate` | Weasel.java:137-163 | the whole run: the final champion is a candidate, is the target unless the draws ran out, and after one generation or more carries its own score |

## Left out

- `Math.random()` itself, and so the probabilities. Every draw is a
  parameter in its range, and nothing is said about how often each value
  comes up.
- Termination of main's loop, which holds only with probability 1. The loop
  is modelled with a finite schedule of draws and also stops when the
  schedule runs out.
- The order in which `makeCopy` consumes draws: the source draws an
  alphabet symbol only after a failed `percentChance`. Here each position
  has its own percent draw and alphabet draw, and the alphabet draw is
  ignored where the character is kept. Every interleaved stream of draws
  corresponds to one such assignment.
- Console output: `commandLinePrint` (Weasel.java:129-134), the debug
  printing at Weasel.java:142-154, and the `random` string that main draws
  each generation only to print it (Weasel.java:36, Weasel.java:159).
- The exceptions Java raises on malformed input, such as a string shorter
  than 28 characters, a generation array shorter than 100, or a null slot.
  The requires clauses of `ScoreString`, `MakeCopy` and `ScoreGeneration`
  exclude these inputs, and the program never passes them.
- `getRandomChar` returns the symbol's code as an `int` that its callers
  cast back to `char`. `RandomChar` returns the `char`, and its contract
  gives the code.
- The statics `target`, `darwin` and `darwinScore`:
  - `target` is assigned once by the constructor and modelled as the
    constant `Target`.
  - `darwin` and `darwinScore` are fields of the single engine object.
  - `darwin` is null until the seed is drawn; the constructor models that
    as the empty string.
