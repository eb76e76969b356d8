// The character-level Markov chain of chain.go: training on a corpus
// (Build) and quota-steered generation of one word (Generate).
//
// Training is specified by pure folds over the corpus (the raw table of
// letters recorded per prefix and the vowel/other totals); generation by a
// step function `Run` that follows the Go loop one iteration at a time and
// takes a fuel bound, because the loop is not guaranteed to stop.
module MarkovChain {
  import opened Ranking

  // ---------------------------------------------------------------------
  // Prefixes

  /** A prefix of n runes before anything has been read: all rune 0. */
  function Zeros(n: nat): (z: string)
    ensures |z| == n && forall k :: 0 <= k < n ==> z[k] == '\0'
  {
    seq(n, _ => '\0')
  }

  /** The prefix after shifting `letter` in: the oldest rune drops out. */
  function Shifted(p: string, letter: char): (q: string)
    requires |p| >= 1
    ensures |q| == |p|
    ensures forall k :: 0 <= k < |p| - 1 ==> q[k] == p[k + 1]
    ensures q[|p| - 1] == letter
  {
    p[1..] + [letter]
  }

  /** The prefix under which letter i of w is recorded: the n letters of w
      before position i, left-padded with rune 0. */
  function Window(w: string, i: nat, n: nat): (key: string)
    requires i <= |w|
    ensures |key| == n
  {
    (Zeros(n) + w[..i])[i..]
  }

  /** Rune k of the window: the letter n - k places before position i, or
      rune 0 before the start of the word. */
  lemma WindowAt(w: string, i: nat, n: nat)
    requires i <= |w|
    ensures forall k :: 0 <= k < n ==> Window(w, i, n)[k] == if i + k >= n then w[i + k - n] else '\0'
  {
  }

  /** Shifting letter i into the window of position i gives the window of
      position i + 1. */
  lemma WindowShift(w: string, i: nat, n: nat)
    requires n >= 1 && i < |w|
    ensures Shifted(Window(w, i, n), w[i]) == Window(w, i + 1, n)
  {
    WindowAt(w, i, n);
    WindowAt(w, i + 1, n);
  }

  /** chain.go's Prefix: a fixed-length rune buffer shifted in place. */
  class Prefix {
    const runes: array<char>

    /** make(Prefix, n): n runes, all 0. */
    constructor (n: nat)
      ensures runes.Length == n && runes[..] == Zeros(n)
      ensures fresh(runes)
    {
      runes := new char[n](_ => '\0');
    }

    /** The prefix as a map key. */
    function String(): (s: string)
      reads runes
      ensures |s| == runes.Length
      ensures forall k :: 0 <= k < |s| ==> s[k] == runes[k]
    {
      runes[..]
    }

    /** copy(p, p[1:]) followed by p[len(p)-1] = letter. */
    method Shift(letter: char)
      requires runes.Length >= 1
      modifies runes
      ensures runes[..] == Shifted(old(runes[..]), letter)
    {
      var n := runes.Length;
      var k := 0;
      while k < n - 1
        invariant 0 <= k <= n - 1
        invariant forall m :: 0 <= m < k ==> runes[m] == old(runes[m + 1])
        invariant forall m :: k <= m < n ==> runes[m] == old(runes[m])
      {
        runes[k] := runes[k + 1];
        k := k + 1;
      }
      runes[n - 1] := letter;
    }
  }

  // ---------------------------------------------------------------------
  // Letter classes

  const Vowels: set<char> := {'a', 'e', 'i', 'o', 'u'}

  predicate IsVowel(c: char)
    ensures IsVowel(c) <==> c in Vowels
  {
    match c
    case 'a' | 'e' | 'i' | 'o' | 'u' => true
    case _ => false
  }

  function CountVowels(s: string): nat
  {
    if s == [] then 0
    else CountVowels(s[..|s| - 1]) + if IsVowel(s[|s| - 1]) then 1 else 0
  }

  function CountOthers(s: string): nat
  {
    if s == [] then 0
    else CountOthers(s[..|s| - 1]) + if IsVowel(s[|s| - 1]) then 0 else 1
  }

  /** Every rune is counted in exactly one of the two classes. */
  lemma {:induction false} ClassesPartition(s: string)
    ensures CountVowels(s) + CountOthers(s) == |s|
  {
    if s != [] {
      ClassesPartition(s[..|s| - 1]);
    }
  }

  lemma CountAppend(s: string, c: char)
    ensures CountVowels(s + [c]) == CountVowels(s) + if IsVowel(c) then 1 else 0
    ensures CountOthers(s + [c]) == CountOthers(s) + if IsVowel(c) then 0 else 1
  {
    assert (s + [c])[..|s|] == s;
  }

  /** Counting one more letter of s. */
  lemma CountPrefix(s: string, i: nat)
    requires i < |s|
    ensures CountVowels(s[..i + 1]) == CountVowels(s[..i]) + if IsVowel(s[i]) then 1 else 0
    ensures CountOthers(s[..i + 1]) == CountOthers(s[..i]) + if IsVowel(s[i]) then 0 else 1
  {
    assert s[..i + 1][..i] == s[..i];
  }

  function TotalVowels(words: seq<string>): nat
  {
    if words == [] then 0
    else TotalVowels(words[..|words| - 1]) + CountVowels(words[|words| - 1])
  }

  function TotalOthers(words: seq<string>): nat
  {
    if words == [] then 0
    else TotalOthers(words[..|words| - 1]) + CountOthers(words[|words| - 1])
  }

  /** math.Floor(total / count) for a whole-number total: the per-word
      average, rounded down. */
  function Average(total: nat, count: nat): (a: nat)
    requires count > 0
    ensures a * count <= total < a * count + count
  {
    total / count
  }

  /** When every word has v vowels and o other runes, the quotas Build
      computes are exactly v and o. */
  lemma {:induction false} UniformCorpusQuotas(words: seq<string>, v: nat, o: nat)
    requires |words| > 0
    requires forall j :: 0 <= j < |words| ==> CountVowels(words[j]) == v && CountOthers(words[j]) == o
    ensures Average(TotalVowels(words), |words|) == v
    ensures Average(TotalOthers(words), |words|) == o
  {
    UniformCorpusTotals(words, v, o);
    var n := |words|;
    assert TotalVowels(words) == n * v;
    assert TotalOthers(words) == n * o;
    DivExact(n, v);
    DivExact(n, o);
  }

  lemma {:induction false} UniformCorpusTotals(words: seq<string>, v: nat, o: nat)
    requires forall j :: 0 <= j < |words| ==> CountVowels(words[j]) == v && CountOthers(words[j]) == o
    ensures TotalVowels(words) == |words| * v
    ensures TotalOthers(words) == |words| * o
  {
    if words != [] {
      var init := words[..|words| - 1];
      UniformCorpusTotals(init, v, o);
      assert (|words| - 1) * v + v == |words| * v;
      assert (|words| - 1) * o + o == |words| * o;
    }
  }

  lemma DivExact(n: int, v: int)
    requires n > 0
    ensures (n * v) / n == v
  {
    var q, r := (n * v) / n, (n * v) % n;
    assert n * v == n * q + r && 0 <= r < n;
    assert n * (v - q) == r;
    if v - q >= 1 {
      assert false;
    } else if v - q <= -1 {
      assert false;
    }
  }

  // ---------------------------------------------------------------------
  // The raw table: letters recorded per prefix, before ranking

  /** The list under `key`; a missing key reads as the empty (nil) list. */
  function Entry(table: map<string, seq<char>>, key: string): seq<char>
  {
    if key in table then table[key] else []
  }

  /** c.chain[key] = append(c.chain[key], letter) */
  function Record(table: map<string, seq<char>>, key: string, letter: char): map<string, seq<char>>
  {
    table[key := Entry(table, key) + [letter]]
  }

  /** The table after recording the first i letters of word w. */
  function RecordLetters(table: map<string, seq<char>>, w: string, i: nat, n: nat): map<string, seq<char>>
    requires i <= |w|
  {
    if i == 0 then table
    else Record(RecordLetters(table, w, i - 1, n), Window(w, i - 1, n), w[i - 1])
  }

  /** The table after recording every letter of every word, in order,
      starting from `table`. */
  function RecordWords(table: map<string, seq<char>>, words: seq<string>, n: nat): map<string, seq<char>>
  {
    if words == [] then table
    else
      var last := words[|words| - 1];
      RecordLetters(RecordWords(table, words[..|words| - 1], n), last, |last|, n)
  }

  /** Among the first i letters of w, letter c follows prefix `key`. */
  ghost predicate FollowsIn(w: string, i: nat, n: nat, key: string, c: char)
    requires i <= |w|
  {
    exists m :: 0 <= m < i && Window(w, m, n) == key && w[m] == c
  }

  /** Among the first i letters of w, some letter follows prefix `key`. */
  ghost predicate SeenIn(w: string, i: nat, n: nat, key: string)
    requires i <= |w|
  {
    exists m :: 0 <= m < i && Window(w, m, n) == key
  }

  /** Processing word j extends what was built from the words before it. */
  lemma CorpusStep(table: map<string, seq<char>>, words: seq<string>, j: nat, n: nat)
    requires j < |words|
    ensures RecordWords(table, words[..j + 1], n)
      == RecordLetters(RecordWords(table, words[..j], n), words[j], |words[j]|, n)
    ensures TotalVowels(words[..j + 1]) == TotalVowels(words[..j]) + CountVowels(words[j])
    ensures TotalOthers(words[..j + 1]) == TotalOthers(words[..j]) + CountOthers(words[j])
  {
    assert words[..j + 1][..j] == words[..j];
  }

  /** Some word of the corpus has letter c right after prefix `key`. */
  ghost predicate Follows(words: seq<string>, n: nat, key: string, c: char)
  {
    exists j :: 0 <= j < |words| && FollowsIn(words[j], |words[j]|, n, key, c)
  }

  /** Some word of the corpus has prefix `key` before one of its letters. */
  ghost predicate Seen(words: seq<string>, n: nat, key: string)
  {
    exists j :: 0 <= j < |words| && SeenIn(words[j], |words[j]|, n, key)
  }

  lemma FollowsInStep(w: string, i: nat, n: nat)
    requires i < |w|
    ensures forall key, c :: FollowsIn(w, i + 1, n, key, c) <==>
      FollowsIn(w, i, n, key, c) || (key == Window(w, i, n) && c == w[i])
    ensures forall key :: SeenIn(w, i + 1, n, key) <==> SeenIn(w, i, n, key) || key == Window(w, i, n)
  {
    forall key, c | FollowsIn(w, i + 1, n, key, c) && !(key == Window(w, i, n) && c == w[i])
      ensures FollowsIn(w, i, n, key, c)
    {
      var m :| 0 <= m < i + 1 && Window(w, m, n) == key && w[m] == c;
    }
    forall key | SeenIn(w, i + 1, n, key) && key != Window(w, i, n)
      ensures SeenIn(w, i, n, key)
    {
      var m :| 0 <= m < i + 1 && Window(w, m, n) == key;
    }
  }

  /** One append adds exactly one letter under one key: a letter is in an
      entry afterwards exactly when it was before or it is the letter
      appended under `key`, the keys gain `key`, the entry under `key`
      gains one occurrence of `letter`, and every other entry is unchanged. */
  lemma RecordContents(table: map<string, seq<char>>, key: string, letter: char)
    ensures var t := Record(table, key, letter);
      forall k, c :: (k in t && c in t[k]) <==> (k in table && c in table[k]) || (k == key && c == letter)
    ensures Record(table, key, letter).Keys == table.Keys + {key}
    ensures multiset(Record(table, key, letter)[key]) == multiset(Entry(table, key)) + multiset{letter}
    ensures var t := Record(table, key, letter);
      forall k :: k in table && k != key ==> t[k] == table[k]
  {
  }

  lemma {:induction false} RecordLettersContents(table: map<string, seq<char>>, w: string, i: nat, n: nat)
    requires i <= |w|
    ensures var t := RecordLetters(table, w, i, n);
      forall key, c :: (key in t && c in t[key]) <==>
        (key in table && c in table[key]) || FollowsIn(w, i, n, key, c)
    ensures var t := RecordLetters(table, w, i, n);
      forall key :: key in t <==> key in table || SeenIn(w, i, n, key)
  {
    if i > 0 {
      RecordLettersContents(table, w, i - 1, n);
      FollowsInStep(w, i - 1, n);
      RecordContents(RecordLetters(table, w, i - 1, n), Window(w, i - 1, n), w[i - 1]);
    }
  }

  lemma FollowsSnoc(words: seq<string>, n: nat)
    requires words != []
    ensures var init, last := words[..|words| - 1], words[|words| - 1];
      forall key, c :: Follows(words, n, key, c) <==>
        Follows(init, n, key, c) || FollowsIn(last, |last|, n, key, c)
    ensures var init, last := words[..|words| - 1], words[|words| - 1];
      forall key :: Seen(words, n, key) <==> Seen(init, n, key) || SeenIn(last, |last|, n, key)
  {
    var init := words[..|words| - 1];
    forall key, c | Follows(init, n, key, c)
      ensures Follows(words, n, key, c)
    {
      var j :| 0 <= j < |init| && FollowsIn(init[j], |init[j]|, n, key, c);
      assert words[j] == init[j];
    }
    forall key | Seen(init, n, key)
      ensures Seen(words, n, key)
    {
      var j :| 0 <= j < |init| && SeenIn(init[j], |init[j]|, n, key);
      assert words[j] == init[j];
    }
    forall key, c | Follows(words, n, key, c) && !FollowsIn(words[|words| - 1], |words[|words| - 1]|, n, key, c)
      ensures Follows(init, n, key, c)
    {
      var j :| 0 <= j < |words| && FollowsIn(words[j], |words[j]|, n, key, c);
      assert init[j] == words[j];
    }
    forall key | Seen(words, n, key) && !SeenIn(words[|words| - 1], |words[|words| - 1]|, n, key)
      ensures Seen(init, n, key)
    {
      var j :| 0 <= j < |words| && SeenIn(words[j], |words[j]|, n, key);
      assert init[j] == words[j];
    }
  }

  /** The raw table holds what `table` held plus, under each prefix seen,
      the letters that followed it in the corpus. */
  lemma {:induction false} RecordWordsContents(table: map<string, seq<char>>, words: seq<string>, n: nat)
    ensures var t := RecordWords(table, words, n);
      forall key, c :: (key in t && c in t[key]) <==>
        (key in table && c in table[key]) || Follows(words, n, key, c)
    ensures var t := RecordWords(table, words, n);
      forall key :: key in t <==> key in table || Seen(words, n, key)
  {
    if words != [] {
      var init, last := words[..|words| - 1], words[|words| - 1];
      RecordWordsContents(table, init, n);
      RecordLettersContents(RecordWords(table, init, n), last, |last|, n);
      FollowsSnoc(words, n);
    }
  }

  /** The letters among the first i of w that follow prefix `key`, in order. */
  function FollowersIn(w: string, i: nat, n: nat, key: string): seq<char>
    requires i <= |w|
  {
    if i == 0 then []
    else FollowersIn(w, i - 1, n, key) + (if Window(w, i - 1, n) == key then [w[i - 1]] else [])
  }

  /** The letters that follow prefix `key` in the corpus, word by word. */
  function Followers(words: seq<string>, n: nat, key: string): seq<char>
  {
    if words == [] then []
    else
      var last := words[|words| - 1];
      Followers(words[..|words| - 1], n, key) + FollowersIn(last, |last|, n, key)
  }

  /** Recording a word appends to each entry exactly the letters that
      followed its prefix in the word, in order, and nothing else. */
  lemma {:induction false} RecordLettersEntries(table: map<string, seq<char>>, w: string, i: nat, n: nat)
    requires i <= |w|
    ensures forall key :: Entry(RecordLetters(table, w, i, n), key) == Entry(table, key) + FollowersIn(w, i, n, key)
  {
    if i > 0 {
      RecordLettersEntries(table, w, i - 1, n);
      var before := RecordLetters(table, w, i - 1, n);
      forall key
        ensures Entry(RecordLetters(table, w, i, n), key) == Entry(table, key) + FollowersIn(w, i, n, key)
      {
        if Window(w, i - 1, n) == key {
          assert Entry(RecordLetters(table, w, i, n), key) == Entry(before, key) + [w[i - 1]];
        } else {
          assert Entry(RecordLetters(table, w, i, n), key) == Entry(before, key);
        }
      }
    }
  }

  /** Recording the corpus appends to each entry exactly the letters that
      followed its prefix, word by word, in order. So the recorded list
      holds each letter as often as it followed the prefix. */
  lemma {:induction false} RecordWordsEntries(table: map<string, seq<char>>, words: seq<string>, n: nat)
    ensures forall key :: Entry(RecordWords(table, words, n), key) == Entry(table, key) + Followers(words, n, key)
  {
    if words != [] {
      var init, last := words[..|words| - 1], words[|words| - 1];
      RecordWordsEntries(table, init, n);
      RecordLettersEntries(RecordWords(table, init, n), last, |last|, n);
    }
  }

  /** How often each letter occurs in a recorded list. */
  function Counts(letters: seq<char>): map<char, int>
  {
    map c | c in letters :: multiset(letters)[c]
  }

  /** Counting one more letter bumps its count, starting from 0. */
  lemma CountsPrefix(letters: seq<char>, i: nat)
    requires i < |letters|
    ensures var before, c := Counts(letters[..i]), letters[i];
      Counts(letters[..i + 1]) == before[c := (if c in before then before[c] else 0) + 1]
  {
    assert letters[..i + 1] == letters[..i] + [letters[i]];
  }

  /** Build's final pass: each recorded list becomes the ranking of its
      letter counts. */
  ghost function RankedTable(raw: map<string, seq<char>>): map<string, seq<char>>
  {
    map key | key in raw :: Ranked(Counts(raw[key]))
  }

  lemma RankedTableIs(raw: map<string, seq<char>>, table: map<string, seq<char>>)
    requires table.Keys == raw.Keys
    requires forall key :: key in raw ==> table[key] == Ranked(Counts(raw[key]))
    ensures table == RankedTable(raw)
  {
  }

  /** The table that Build leaves when it starts from an empty chain: its
      keys are exactly the prefixes seen in the corpus, and each entry lists,
      without repetition and best-ranked first, exactly the letters that
      followed that prefix, ordered by how often each followed it. */
  lemma TrainedTable(words: seq<string>, n: nat)
    ensures var table := RankedTable(RecordWords(map[], words, n));
      forall key :: key in table <==> Seen(words, n, key)
    ensures var table := RankedTable(RecordWords(map[], words, n));
      forall key, c :: key in table ==> (c in table[key] <==> Follows(words, n, key, c))
    ensures var raw := RecordWords(map[], words, n);
      forall key :: key in raw ==> IsRanking(RankedTable(raw)[key], Counts(Followers(words, n, key)))
  {
    RecordWordsContents(map[], words, n);
    RecordWordsEntries(map[], words, n);
    var raw := RecordWords(map[], words, n);
    forall key | key in raw
      ensures raw[key] == Followers(words, n, key)
    {
      assert Entry(raw, key) == Entry(map[], key) + Followers(words, n, key);
    }
  }

  // ---------------------------------------------------------------------
  // Choosing the next letter

  /** Candidate c has quota left in its class. */
  predicate Fits(c: char, vowelsLeft: int, othersLeft: int)
  {
    if IsVowel(c) then vowelsLeft > 0 else othersLeft > 0
  }

  /** The position of the first candidate that fits, or |candidates|. */
  function FirstFit(candidates: seq<char>, vowelsLeft: int, othersLeft: int): (k: nat)
    ensures k <= |candidates|
    ensures k < |candidates| ==> Fits(candidates[k], vowelsLeft, othersLeft)
    ensures forall m :: 0 <= m < k ==> !Fits(candidates[m], vowelsLeft, othersLeft)
  {
    if candidates == [] then 0
    else if Fits(candidates[0], vowelsLeft, othersLeft) then 0
    else 1 + FirstFit(candidates[1..], vowelsLeft, othersLeft)
  }

  /** What chooseNext returns and the pool it leaves behind. */
  datatype Choice = Choice(next: char, vowelsLeft: int, othersLeft: int)

  function Choose(candidates: seq<char>, vowelsLeft: int, othersLeft: int): Choice
  {
    var k := FirstFit(candidates, vowelsLeft, othersLeft);
    if k == |candidates| then Choice('\0', vowelsLeft, othersLeft)
    else if IsVowel(candidates[k]) then Choice(candidates[k], vowelsLeft - 1, othersLeft)
    else Choice(candidates[k], vowelsLeft, othersLeft - 1)
  }

  /** chooseNext takes the first candidate whose class has quota left and
      spends one unit of that class; with none, it returns 0 and spends
      nothing. A non-negative pool stays non-negative. */
  lemma ChooseSpendsOne(candidates: seq<char>, vowelsLeft: int, othersLeft: int)
    requires vowelsLeft >= 0 && othersLeft >= 0
    ensures var ch := Choose(candidates, vowelsLeft, othersLeft);
      && ch.vowelsLeft >= 0 && ch.othersLeft >= 0
      && (if exists m :: 0 <= m < |candidates| && Fits(candidates[m], vowelsLeft, othersLeft) then
            && (exists k :: 0 <= k < |candidates| && ch.next == candidates[k]
                 && Fits(candidates[k], vowelsLeft, othersLeft)
                 && forall m :: 0 <= m < k ==> !Fits(candidates[m], vowelsLeft, othersLeft))
            && (IsVowel(ch.next) ==> ch.vowelsLeft == vowelsLeft - 1 && ch.othersLeft == othersLeft)
            && (!IsVowel(ch.next) ==> ch.vowelsLeft == vowelsLeft && ch.othersLeft == othersLeft - 1)
          else
            ch == Choice('\0', vowelsLeft, othersLeft))
  {
    var k := FirstFit(candidates, vowelsLeft, othersLeft);
    if k < |candidates| {
      assert Fits(candidates[k], vowelsLeft, othersLeft);
    }
  }

  // ---------------------------------------------------------------------
  // Generation

  /** The variables of Generate's loop: the prefix p, the pool, the word so
      far and the productive-step counter i. */
  datatype State = State(prefix: string, vowelsLeft: int, othersLeft: int, word: string, steps: int)

  /** How a fuel-bounded run ends: the loop stopped with `word`, or the fuel
      ran out while the loop would still go on. */
  datatype Outcome = Finished(word: string) | OutOfFuel(word: string)

  /** One iteration of Generate's loop from a prefix that has candidates. */
  function Step(table: map<string, seq<char>>, s: State): (t: State)
    requires |s.prefix| >= 1 && s.prefix in table && |table[s.prefix]| > 0
    ensures |t.prefix| == |s.prefix|
  {
    var choices := table[s.prefix];
    var ch := Choose(choices, s.vowelsLeft, s.othersLeft);
    if ch.next == '\0' then
      // forced advance: shift by the top candidate, emit nothing, and
      // leave i where it was (i-- followed by the loop's i++)
      State(Shifted(s.prefix, choices[0]), ch.vowelsLeft, ch.othersLeft, s.word, s.steps)
    else
      State(Shifted(s.prefix, ch.next), ch.vowelsLeft, ch.othersLeft, s.word + [ch.next], s.steps + 1)
  }

  /** Generate's loop from state s, allowing at most `fuel` iterations. */
  function Run(table: map<string, seq<char>>, budget: int, s: State, fuel: nat): Outcome
    requires |s.prefix| >= 1
    decreases fuel
  {
    if s.steps >= budget then Finished(s.word)
    else if s.prefix !in table || |table[s.prefix]| == 0 then Finished(s.word)
    else if fuel == 0 then OutOfFuel(s.word)
    else Run(table, budget, Step(table, s), fuel - 1)
  }

  /** A loop iteration that neither stops nor runs out of fuel is one Step. */
  lemma RunUnfolds(table: map<string, seq<char>>, budget: int, s: State, fuel: nat)
    requires |s.prefix| >= 1 && s.steps < budget && s.prefix in table && |table[s.prefix]| > 0 && fuel > 0
    ensures Run(table, budget, s, fuel) == Run(table, budget, Step(table, s), fuel - 1)
  {
  }

  /** A step moves at most a unit of quota from the pool into the word:
      per class, the runes emitted plus the quota left never grow, and the
      pool never goes negative. (They shrink without emitting when a
      candidate rune 0 is chosen: chooseNext spends quota on it, and
      Generate then takes it for "nothing fits".) */
  lemma StepSpendsPool(table: map<string, seq<char>>, s: State)
    requires |s.prefix| >= 1 && s.prefix in table && |table[s.prefix]| > 0
    requires s.vowelsLeft >= 0 && s.othersLeft >= 0
    ensures var t := Step(table, s);
      && t.vowelsLeft >= 0 && t.othersLeft >= 0
      && CountVowels(t.word) + t.vowelsLeft <= CountVowels(s.word) + s.vowelsLeft
      && CountOthers(t.word) + t.othersLeft <= CountOthers(s.word) + s.othersLeft
  {
    var choices := table[s.prefix];
    var ch := Choose(choices, s.vowelsLeft, s.othersLeft);
    ChooseSpendsOne(choices, s.vowelsLeft, s.othersLeft);
    CountAppend(s.word, ch.next);
  }

  /** Whatever a run emits spends the pool: it adds at most vowelsLeft
      vowels and othersLeft other runes to the word it started with. */
  lemma {:induction false} RunKeepsQuota(table: map<string, seq<char>>, budget: int, s: State, fuel: nat)
    requires |s.prefix| >= 1 && s.vowelsLeft >= 0 && s.othersLeft >= 0
    ensures CountVowels(Run(table, budget, s, fuel).word) <= CountVowels(s.word) + s.vowelsLeft
    ensures CountOthers(Run(table, budget, s, fuel).word) <= CountOthers(s.word) + s.othersLeft
    decreases fuel
  {
    if s.steps < budget && s.prefix in table && |table[s.prefix]| > 0 && fuel > 0 {
      StepSpendsPool(table, s);
      RunKeepsQuota(table, budget, Step(table, s), fuel - 1);
    }
  }

  /** Fuel only truncates: once a run finishes, more fuel changes nothing. */
  lemma {:induction false} MoreFuelSameWord(table: map<string, seq<char>>, budget: int, s: State, fuel: nat, more: nat)
    requires |s.prefix| >= 1 && fuel <= more
    requires Run(table, budget, s, fuel).Finished?
    ensures Run(table, budget, s, more) == Run(table, budget, s, fuel)
    decreases fuel
  {
    if s.steps < budget && s.prefix in table && |table[s.prefix]| > 0 {
      MoreFuelSameWord(table, budget, Step(table, s), fuel - 1, more - 1);
    }
  }

  // ---------------------------------------------------------------------
  // The chain

  class Chain {
    var chain: map<string, seq<char>>
    const prefixLen: nat
    var vowels: int
    var consonants: int

    ghost predicate Valid()
      reads this
    {
      prefixLen >= 1 && vowels >= 0 && consonants >= 0
    }

    /** NewChain(prefixLen) */
    constructor (prefixLen: nat)
      requires prefixLen >= 1
      ensures Valid()
      ensures this.prefixLen == prefixLen && chain == map[] && vowels == 0 && consonants == 0
    {
      this.prefixLen := prefixLen;
      chain := map[];
      vowels, consonants := 0, 0;
    }

    /** Records every letter of every word under its prefix, sets the two
        quotas to the per-word averages (rounded down) and replaces each
        recorded list by the ranking of its letter counts. */
    method Build(words: seq<string>)
      requires Valid() && |words| > 0
      modifies this
      ensures Valid()
      ensures vowels == Average(TotalVowels(words), |words|)
      ensures consonants == Average(TotalOthers(words), |words|)
      ensures chain == RankedTable(RecordWords(old(chain), words, prefixLen))
    {
      var vowelTotal, otherTotal := RecordCorpus(words);
      vowels := Average(vowelTotal, |words|);
      consonants := Average(otherTotal, |words|);
      RankEntries();
    }

    /** Build's outer loop: records every word and totals its vowels and
        other runes. */
    method RecordCorpus(words: seq<string>) returns (vowelTotal: nat, otherTotal: nat)
      requires prefixLen >= 1
      modifies this`chain
      ensures chain == RecordWords(old(chain), words, prefixLen)
      ensures vowelTotal == TotalVowels(words) && otherTotal == TotalOthers(words)
    {
      ghost var start := chain;
      vowelTotal, otherTotal := 0, 0;
      var j := 0;
      while j < |words|
        invariant 0 <= j <= |words|
        invariant chain == RecordWords(start, words[..j], prefixLen)
        invariant vowelTotal == TotalVowels(words[..j]) && otherTotal == TotalOthers(words[..j])
      {
        var wordVowels, wordOthers := RecordWord(words[j]);
        vowelTotal, otherTotal := vowelTotal + wordVowels, otherTotal + wordOthers;
        CorpusStep(start, words, j, prefixLen);
        j := j + 1;
      }
      assert words[..|words|] == words;
    }

    /** One word of Build's outer loop: records each letter under the
        prefix of the letters before it and counts the word's vowels and
        other runes. */
    method RecordWord(word: string) returns (wordVowels: nat, wordOthers: nat)
      requires prefixLen >= 1
      modifies this`chain
      ensures chain == RecordLetters(old(chain), word, |word|, prefixLen)
      ensures wordVowels == CountVowels(word) && wordOthers == CountOthers(word)
    {
      var p := new Prefix(prefixLen);
      wordVowels, wordOthers := 0, 0;
      var i := 0;
      while i < |word|
        invariant 0 <= i <= |word|
        invariant fresh(p.runes) && p.runes.Length == prefixLen
        invariant p.runes[..] == Window(word, i, prefixLen)
        invariant chain == RecordLetters(old(chain), word, i, prefixLen)
        invariant wordVowels == CountVowels(word[..i]) && wordOthers == CountOthers(word[..i])
      {
        var letter := word[i];
        var key := p.String();
        assert key == Window(word, i, prefixLen);
        if IsVowel(letter) {
          wordVowels := wordVowels + 1;
        } else {
          wordOthers := wordOthers + 1;
        }
        chain := chain[key := Entry(chain, key) + [letter]];
        p.Shift(letter);
        WindowShift(word, i, prefixLen);
        CountPrefix(word, i);
        i := i + 1;
      }
      assert word[..|word|] == word;
    }

    /** Build's last loop: every recorded list becomes the ranking of its
        letter counts. */
    method RankEntries()
      modifies this`chain
      ensures chain == RankedTable(old(chain))
    {
      ghost var raw := chain;
      var pending := chain.Keys;
      while pending != {}
        invariant pending <= raw.Keys && chain.Keys == raw.Keys
        invariant forall key :: key in pending ==> chain[key] == raw[key]
        invariant forall key :: key in raw && key !in pending ==> chain[key] == Ranked(Counts(raw[key]))
        decreases pending
      {
        var prefix :| prefix in pending;
        var letters := RankLetters(chain[prefix]);
        chain := chain[prefix := letters];
        pending := pending - {prefix};
      }
      RankedTableIs(raw, chain);
    }

    static method RankLetters(recorded: seq<char>) returns (letters: seq<char>)
      ensures letters == Ranked(Counts(recorded))
    {
      var counts := CountLetters(recorded);
      letters := Rank(counts);
    }

    /** chooseNext: the first candidate whose class has quota left in pool
        (pool[0] for vowels, pool[1] for the rest), spending one unit of
        that class; 0 and an untouched pool when no candidate fits. */
    method ChooseNext(candidates: seq<char>, pool: array<int>) returns (next: char)
      requires pool.Length == 2
      modifies pool
      ensures Choice(next, pool[0], pool[1]) == Choose(candidates, old(pool[0]), old(pool[1]))
    {
      next := '\0';
      var k := 0;
      while k < |candidates|
        invariant 0 <= k <= |candidates|
        invariant pool[0] == old(pool[0]) && pool[1] == old(pool[1])
        invariant forall m :: 0 <= m < k ==> !Fits(candidates[m], pool[0], pool[1])
      {
        var candidate := candidates[k];
        if IsVowel(candidate) && pool[0] > 0 {
          next := candidate;
          pool[0] := pool[0] - 1;
          break;
        }
        if !IsVowel(candidate) && pool[1] > 0 {
          next := candidate;
          pool[1] := pool[1] - 1;
          break;
        }
        k := k + 1;
      }
      assert k == FirstFit(candidates, old(pool[0]), old(pool[1]));
    }

    /** Generate's loop run from its initial state: the all-zero prefix,
        the full pool, an empty word and i = 0. */
    ghost function Generated(fuel: nat): Outcome
      reads this
      requires Valid()
    {
      Run(chain, vowels + consonants, State(Zeros(prefixLen), vowels, consonants, [], 0), fuel)
    }

    /** Generates one word, running Generate's loop for at most `fuel`
        iterations; `finished` tells whether the loop stopped by itself. */
    method Generate(fuel: nat) returns (word: string, finished: bool)
      requires Valid()
      ensures Generated(fuel) == if finished then Finished(word) else OutOfFuel(word)
      ensures CountVowels(word) <= vowels && CountOthers(word) <= consonants
      ensures |word| <= vowels + consonants
    {
      var p := new Prefix(prefixLen);
      var pool := new int[2];
      pool[0], pool[1] := vowels, consonants;
      word := [];
      finished := true;
      var i := 0;
      var left := fuel;
      ghost var budget := vowels + consonants;
      ghost var start := State(Zeros(prefixLen), vowels, consonants, [], 0);
      ghost var outcome := Generated(fuel);
      ghost var current := start;
      while i < vowels + consonants
        invariant fresh(p.runes) && p.runes.Length == prefixLen
        invariant fresh(pool) && pool.Length == 2
        invariant current == State(p.runes[..], pool[0], pool[1], word, i)
        invariant Run(chain, budget, current, left) == outcome
        invariant finished
        decreases left
      {
        var key := p.String();
        var choices := Entry(chain, key);
        if |choices| == 0 {
          assert outcome == Finished(word);
          break;
        }
        if left == 0 {
          assert outcome == OutOfFuel(word);
          finished := false;
          break;
        }
        ghost var after := Step(chain, current);
        RunUnfolds(chain, budget, current, left);
        var next := ChooseNext(choices, pool);
        if next == '\0' {
          // forced advance; the source's i-- cancels the loop's i++
          p.Shift(choices[0]);
        } else {
          word := word + [next];
          p.Shift(next);
          i := i + 1;
        }
        left := left - 1;
        current := after;
      }
      RunKeepsQuota(chain, budget, start, fuel);
      ClassesPartition(word);
    }
  }

  /** The counting loop of Build: counts[letter]++ for each recorded letter. */
  method CountLetters(letters: seq<char>) returns (counts: map<char, int>)
    ensures counts == Counts(letters)
  {
    counts := map[];
    var i := 0;
    while i < |letters|
      invariant 0 <= i <= |letters|
      invariant counts == Counts(letters[..i])
    {
      var letter := letters[i];
      CountsPrefix(letters, i);
      counts := counts[letter := (if letter in counts then counts[letter] else 0) + 1];
      i := i + 1;
    }
    assert letters[..|letters|] == letters;
  }
}
