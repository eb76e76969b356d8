# lango word generator, modelled in Dafny

lango trains a character-level Markov chain on a list of words and then
generates one new word from it. This project models that core: the chain
(`chain.go`) and the ranking of candidate letters (`rank.go`).

- **Training** (`Chain.Build`) walks each word with a rolling prefix of
  `prefixLen` runes. The prefix starts as all rune 0. Each letter is appended
  to the table entry of the current prefix, counted as a vowel or as an
  "other" rune, and shifted into the prefix. The two quotas are the per-word
  averages of those counts, rounded down. Finally every table entry is
  replaced by its ranking.
- **Ranking** (`Rank`) lists each distinct letter once: higher count first,
  ties to the smaller rune. That order is total, so the ranking of a count
  table is unique, whatever order Go visits the map in.
- **Generation** (`Chain.Generate`) looks up the current prefix. `chooseNext`
  picks the first ranked candidate whose class (vowel or other) still has
  quota, and spends one unit of it. When no candidate fits, the loop does a
  *forced advance*: it shifts the top candidate into the prefix, emits
  nothing and leaves the counter `i` unchanged.

Files:

- `rank.dfy` (module `Ranking`): the order `Precedes` (rank.go's `Less`), the
  specification `Ranked`, the class `Ranker` holding the parallel `letters`
  and `counts` arrays with `Len`, `Less`, `Swap` and an in-place `Sort`, and
  the method `Rank`.
- `chain.dfy` (module `MarkovChain`): the class `Prefix` (a rune array shifted
  in place), `IsVowel`, the training fold (`RecordLetters`, `RecordWords`,
  `RankedTable`), the selection rule (`FirstFit`, `Choose`), the generation
  loop as the step function `Step` and the fuel-bounded `Run`, and the class
  `Chain` with `Build`, `ChooseNext` and `Generate`.
- `scenarios.dfy` (module `Scenarios`): the example of `rank_test.go`, the
  corpus of `chain_test.go`, and a corpus on which `Generate` never returns.

`Build` and `Generate` are methods over the `Chain` object's fields. Each is
proved against a pure specification. `Build` leaves
`chain == RankedTable(RecordWords(old(chain), words, prefixLen))`, and
`TrainedTable` says what that table holds. `Generate(fuel)` returns what
`Run` gives from the initial state, and `RunKeepsQuota` bounds that word.

## Where the documentation and the code disagree

The package comment (chain.go:22-23) says generation goes on until a prefix
has no suffixes or the length limit is exceeded, and chain_test.go:8-13
expects the corpus `kaixo, hola, ola, hola` to produce `hola`. The code does
neither, and the model follows the code:

- The forced advance (chain.go:125-129) does `i--` and then `continue`, so
  `i` does not move. `Scenarios.SpinCorpusNeverFinishes` proves that
  `NewChain(1)` built from `aaaa, bbbbbbb` spins forever. The quotas are 2
  and 3. After `aa`, the prefix `a` has the single candidate `a` and no
  vowel quota, and every forced advance shifts `a` back in. So `Generate`
  takes a `fuel` bound and reports whether the loop stopped by itself.
- The test corpus `kaixo, hola, ola, hola` gives quotas of 2 vowels and 1
  other rune (9 / 4 and 7 / 4, rounded down). `hola` has 2 other runes, so
  `Scenarios.SpanishCorpusNeverYieldsHola` proves no run produces it.
  `Scenarios.SpanishCorpusYieldsHoa` proves what the code yields instead:
  `hoa`. From the empty prefix, `h` spends the only other-rune quota and
  `o` a vowel. The prefix `ho` offers only `l`, so a forced advance moves
  to `ol`, and `a` ends the loop.

## Model

| member | source | states |
|---|---|---|
| Ranking.PrecedesIsStrictTotalOrder | rank.go:21-27 | Less's order on (letter, count) entries is irreflexive, asymmetric and transitive, and total on distinct letters |
| Ranking.Ranker.Less | rank.go:21-27 | entry i is Less than entry j exactly when it precedes j in that order: higher count, or equal count and smaller rune |
| Ranking.Ranker.Len | rank.go:12-14 | the length is the number of letters, which equals the number of counts |
| Ranking.Ranker.constructor | rank.go:7-10 | the two parallel arrays hold the given letters and counts |
| Ranking.Ranker.Swap | rank.go:16-19 | entries i and j trade places in both arrays together, so the multiset of (letter, count) pairs is unchanged |
| Ranking.Ranker.Sort | rank.go:35 | afterwards no entry is Less than an entry to its left, and the (letter, count) pairs are a permutation of the old ones |
| Ranking.Ranked | rank.go:29-37 | the ranking of a count table lists each key once and nothing else, in Less order; its length is the number of keys, so an empty map ranks as an empty sequence |
| Ranking.RankingLength | rank.go:29-37 | any ranking has exactly one entry per key of the table |
| Ranking.RankingIsUnique | rank.go:21-27 | two rankings of the same table are equal, so the result does not depend on map iteration order |
| Ranking.NeighboursSorted | rank.go:21-27 | a sequence whose neighbours are in Less order is in Less order throughout |
| Ranking.SortedCollectionIsRanking | rank.go:29-37 | sorting the collected (key, value) pairs by Less yields a ranking of the map |
| Ranking.Rank | rank.go:29-37 | the result contains every key exactly once, sorted by Less, and equals the unique ranking whatever order the map is visited in |
| MarkovChain.Prefix.constructor | chain.go:115 | make(Prefix, n) holds n runes, all 0 |
| MarkovChain.Prefix.String | chain.go:47-49 | the key has the prefix's length and its runes in order |
| MarkovChain.Prefix.Shift | chain.go:52-55 | in place, the prefix keeps its length and becomes the old p[1..] followed by letter |
| MarkovChain.Shifted | chain.go:52-55 | the shifted prefix keeps its length, moves each rune one place left and ends with the new letter |
| MarkovChain.Zeros | chain.go:73 | the initial prefix of n runes is all rune 0 |
| MarkovChain.WindowAt | chain.go:72-82 | letter i of a word is recorded under the n letters before it, left-padded with rune 0 |
| MarkovChain.WindowShift | chain.go:80-82 | shifting letter i into the prefix of position i gives the prefix of position i + 1 |
| MarkovChain.IsVowel | chain.go:62-68 | a rune is a vowel exactly when it is one of a, e, i, o, u |
| MarkovChain.ClassesPartition | chain.go:76-80 | every rune is counted in exactly one class: vowels plus others equals the length |
| MarkovChain.Average | chain.go:85-87 | the quota is the floor of the per-word average: a * count <= total < (a + 1) * count |
| MarkovChain.UniformCorpusQuotas | chain.go:71-87 | when every word has v vowels and o other runes, the quotas are exactly v and o |
| MarkovChain.RecordContents | chain.go:81 | one append adds exactly one occurrence of the letter under its key (as a multiset), adds the key if it was missing, and keeps every other entry unchanged |
| MarkovChain.RecordLettersContents | chain.go:72-83 | after one word, a key holds a letter exactly when it held it before or the letter followed that prefix in the word |
| MarkovChain.RecordLettersEntries | chain.go:72-83 | after one word, each entry is the old entry (empty if missing) followed by exactly the letters that followed its prefix in the word, in order |
| MarkovChain.RecordWordsEntries | chain.go:71-84 | after the corpus, each entry is the old entry followed by exactly the letters that followed its prefix, word by word, in order; so each letter occurs as often as it followed the prefix |
| MarkovChain.RecordWordsContents | chain.go:71-84 | after the corpus, the raw table holds exactly the old letters plus every letter that followed each prefix somewhere in the corpus |
| MarkovChain.TrainedTable | chain.go:70-94 | from an empty chain, the keys are exactly the prefixes seen, and each entry lists exactly the letters that followed that prefix, once each, in Less order of how often each followed it in the corpus |
| MarkovChain.CountLetters | chain.go:89-92 | counts[letter]++ over the recorded list gives each letter its number of occurrences, and no other keys |
| MarkovChain.CountsPrefix | chain.go:91 | counting one more letter raises its count by one, starting from 0 for a missing key |
| MarkovChain.FirstFit | chain.go:99-110 | the position found is the first candidate whose class has quota left, or the end of the list |
| MarkovChain.ChooseSpendsOne | chain.go:97-112 | chooseNext returns the first candidate that fits and spends one unit of its class only; with none it returns 0 and leaves the pool unchanged; a non-negative pool stays non-negative |
| MarkovChain.Step | chain.go:120-133 | one iteration keeps the prefix length |
| MarkovChain.StepSpendsPool | chain.go:124-133 | per class, runes emitted plus quota left never grow in one iteration, and the pool never goes negative |
| MarkovChain.RunKeepsQuota | chain.go:114-136 | a run adds at most the vowel quota of vowels and the other quota of other runes to the word |
| MarkovChain.MoreFuelSameWord | chain.go:119-134 | once a run stops by itself, more fuel gives the same word |
| MarkovChain.Chain.constructor | chain.go:58-60 | NewChain has an empty table, the given prefix length and zero quotas |
| MarkovChain.Chain.Build | chain.go:70-95 | the quotas are the floor averages of the vowel and other totals, and the table is the ranking of every recorded list, starting from the old table |
| MarkovChain.Chain.RecordCorpus | chain.go:71-84 | the outer loop records every word in order and totals vowels and other runes over the corpus |
| MarkovChain.Chain.RecordWord | chain.go:73-83 | one word, walked with a fresh all-zero prefix, records each letter under the prefix before it and counts its vowels and other runes |
| MarkovChain.Chain.RankEntries | chain.go:88-94 | every entry of the table is replaced by the ranking of its letter counts, and no key is added or removed |
| MarkovChain.Chain.RankLetters | chain.go:89-93 | one entry becomes the ranking of the counts of its recorded letters |
| MarkovChain.Chain.ChooseNext | chain.go:97-112 | the returned rune and the updated pool are those of the first-fit rule |
| MarkovChain.Chain.Generate | chain.go:114-136 | the word and the stop flag are those of the loop run from the zero prefix and full pool; the word has at most vowels vowels, at most consonants other runes and at most vowels + consonants runes; the table and quotas are not changed |
| Scenarios.RankTestExample | rank_test.go:9-22 | {k:1, a:4, i:1, x:1, o:4, h:2, l:3} ranks as a, o, l, h, i, k, x |
| Scenarios.SpanishCorpusQuotas | chain_test.go:8-10 | kaixo, hola, ola, hola give quotas of 2 vowels and 1 other rune |
| Scenarios.SpanishCorpusNeverYieldsHola | chain_test.go:8-13 | no run on that corpus, however long, yields hola |
| Scenarios.SpanishCorpusTrained | chain.go:70-94 | NewChain(2) built from kaixo, hola, ola, hola ranks the list under rune 0 twice as h, k, o and holds o under "\0h", l under "ho" and a under "ol" |
| Scenarios.HoaRun | chain.go:114-136 | on such a table, with quotas 2 and 1, the loop emits h and o, makes a forced advance at "ho", emits a and stops with hoa |
| Scenarios.SpanishCorpusYieldsHoa | chain_test.go:8-13 | Generate on that corpus, given at least four iterations, returns hoa rather than the hola the test expects |
| Scenarios.SpinCorpusTrained | chain.go:70-94 | NewChain(1) built from aaaa, bbbbbbb maps rune 0 to "ab", "a" to "a" and "b" to "b" |
| Scenarios.SpinCorpusQuotas | chain.go:85-87 | that corpus gives quotas of 2 vowels and 3 other runes |
| Scenarios.Spinning | chain.go:125-129 | from prefix "a" with no vowel quota and i = 2 < 5, every iteration is a forced advance back to the same state |
| Scenarios.SpinCorpusNeverFinishes | chain.go:119-129 | on that chain, Generate's loop is cut off by the fuel for every fuel, holding at most "aa" |

## Left out

- `lango.go` (reading the corpus file, command-line arguments, `log.Fatal`) is I/O and is not part of this model.
- `ipa.go` is a static phoneme table that the generator does not use; it is not part of this model.
- The `fmt.Printf` debug lines in `Generate` (chain.go:117, 126, 131) only print.
- UTF-8 decoding by `range word`: a word is a sequence of runes (`seq<char>`) from the start.
- MarkovChain.Chain.Build: requires a non-empty corpus, because 0.0 / 0.0 is NaN and its conversion to `int` is implementation-defined.
- MarkovChain.Average: the quotas use exact integer floor division. Go divides `float64` totals and takes `math.Floor`, which agrees while the totals stay far below 2^53.
- MarkovChain.Chain.Generate: takes a `fuel` bound on loop iterations and returns `finished = false` when the bound cuts it off, because the Go loop need not stop (see above).
- MarkovChain.Chain.constructor: requires `prefixLen >= 1`. With 0, the first letter `Build` records makes `Shift` evaluate `p[1:]` on an empty slice (chain.go:53), which panics. A chain of length 0 that never records a letter (`NewChain(0)` alone, or built from empty words only) does not panic and generates the empty word; the model leaves that degenerate case out. A negative length panics in `make` (chain.go:73, chain.go:115).
- `sort.Sort`'s algorithm is in the Go standard library: `Ranker.Sort` is an insertion sort through `Less` and `Swap`, and only its contract (sorted, a permutation) stands for the library's.
- A second `Build` on the same chain appends to lists that are already ranked. The model computes exactly that, from `old(chain)`, but states nothing about the result beyond it.
- Map iteration order: `Rank` and `RankEntries` pick keys in an unspecified order, and the results are proved not to depend on it.
