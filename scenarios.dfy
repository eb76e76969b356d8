// Concrete runs of the model: the ranking from rank_test.go, the word that
// chain_test.go asks for, and a corpus on which Generate's loop never stops.
module Scenarios {
  import opened Ranking
  import opened MarkovChain

  /** The table of rank_test.go ranks as a, o, l, h, i, k, x: by count,
      ties broken by the smaller rune. */
  lemma RankTestExample()
    ensures Ranked(map['k' := 1, 'a' := 4, 'i' := 1, 'x' := 1, 'o' := 4, 'h' := 2, 'l' := 3])
      == ['a', 'o', 'l', 'h', 'i', 'k', 'x']
  {
    var counts := map['k' := 1, 'a' := 4, 'i' := 1, 'x' := 1, 'o' := 4, 'h' := 2, 'l' := 3];
    var expected := ['a', 'o', 'l', 'h', 'i', 'k', 'x'];
    NeighboursSorted(expected, counts);
    RankingIsUnique(expected, Ranked(counts), counts);
  }

  const SpanishCorpus: seq<string> := ["kaixo", "hola", "ola", "hola"]

  /** Vowels and other runes in each word of chain_test.go's corpus. */
  lemma SpanishWordCounts()
    ensures CountVowels("kaixo") == 3 && CountOthers("kaixo") == 2
    ensures CountVowels("hola") == 2 && CountOthers("hola") == 2
    ensures CountVowels("ola") == 2 && CountOthers("ola") == 1
  {
    assert "kaixo"[..4] == "kaix" && "kaix"[..3] == "kai" && "kai"[..2] == "ka" && "ka"[..1] == "k";
    assert "hola"[..3] == "hol" && "hol"[..2] == "ho" && "ho"[..1] == "h";
    assert "ola"[..2] == "ol" && "ol"[..1] == "o";
  }

  /** The corpus of chain_test.go has 9 vowels and 7 other runes in 4
      words, so Build sets the quotas to 2 and 1. */
  lemma SpanishCorpusQuotas()
    ensures Average(TotalVowels(SpanishCorpus), |SpanishCorpus|) == 2
    ensures Average(TotalOthers(SpanishCorpus), |SpanishCorpus|) == 1
  {
    SpanishWordCounts();
    var words := SpanishCorpus;
    assert words[..1] == ["kaixo"] && words[..1][..0] == [];
    assert TotalVowels(words[..1]) == 3 && TotalOthers(words[..1]) == 2;
    assert words[..2][..1] == words[..1];
    assert TotalVowels(words[..2]) == 5 && TotalOthers(words[..2]) == 4;
    assert words[..3][..2] == words[..2];
    assert TotalVowels(words[..3]) == 7 && TotalOthers(words[..3]) == 5;
    assert words[..4] == words;
    assert TotalVowels(words) == 9 && TotalOthers(words) == 7;
  }

  /** chain_test.go expects "hola", which has 2 other runes; with a quota
      of 1, no run of Generate on that corpus, however long, yields it. */
  lemma SpanishCorpusNeverYieldsHola(fuel: nat)
    ensures Run(RankedTable(RecordWords(map[], SpanishCorpus, 2)), 3, State(Zeros(2), 2, 1, [], 0), fuel).word != "hola"
  {
    var table := RankedTable(RecordWords(map[], SpanishCorpus, 2));
    RunKeepsQuota(table, 3, State(Zeros(2), 2, 1, [], 0), fuel);
    SpanishWordCounts();
  }

  /** The windows of two runes under which the letters of the corpus
      above are recorded. */
  lemma SpanishWindows()
    ensures Window("kaixo", 0, 2) == "\0\0" && Window("kaixo", 1, 2) == "\0k" && Window("kaixo", 2, 2) == "ka"
    ensures Window("kaixo", 3, 2) == "ai" && Window("kaixo", 4, 2) == "ix"
    ensures Window("hola", 0, 2) == "\0\0" && Window("hola", 1, 2) == "\0h" && Window("hola", 2, 2) == "ho"
    ensures Window("hola", 3, 2) == "ol"
    ensures Window("ola", 0, 2) == "\0\0" && Window("ola", 1, 2) == "\0o" && Window("ola", 2, 2) == "ol"
  {
    WindowAt("kaixo", 0, 2); WindowAt("kaixo", 1, 2); WindowAt("kaixo", 2, 2);
    WindowAt("kaixo", 3, 2); WindowAt("kaixo", 4, 2);
    WindowAt("hola", 0, 2); WindowAt("hola", 1, 2); WindowAt("hola", 2, 2); WindowAt("hola", 3, 2);
    WindowAt("ola", 0, 2); WindowAt("ola", 1, 2); WindowAt("ola", 2, 2);
  }

  /** Recording each word of the corpus with two runes of prefix. */
  lemma KaixoRecorded(table: map<string, seq<char>>)
    ensures RecordLetters(table, "kaixo", 5, 2)
      == Record(Record(Record(Record(Record(table, "\0\0", 'k'), "\0k", 'a'), "ka", 'i'), "ai", 'x'), "ix", 'o')
  {
    SpanishWindows();
    assert RecordLetters(table, "kaixo", 0, 2) == table;
    assert "kaixo"[0] == 'k';
    var t1 := RecordLetters(table, "kaixo", 1, 2);
    assert t1 == Record(table, "\0\0", 'k');
    var t2 := RecordLetters(table, "kaixo", 2, 2);
    assert t2 == Record(t1, "\0k", 'a');
    var t3 := RecordLetters(table, "kaixo", 3, 2);
    assert t3 == Record(t2, "ka", 'i');
    var t4 := RecordLetters(table, "kaixo", 4, 2);
    assert t4 == Record(t3, "ai", 'x');
    assert RecordLetters(table, "kaixo", 5, 2) == Record(t4, "ix", 'o');
  }

  lemma HolaRecorded(table: map<string, seq<char>>)
    ensures RecordLetters(table, "hola", 4, 2)
      == Record(Record(Record(Record(table, "\0\0", 'h'), "\0h", 'o'), "ho", 'l'), "ol", 'a')
  {
    SpanishWindows();
    assert RecordLetters(table, "hola", 0, 2) == table;
    assert "hola"[0] == 'h';
    var t1 := RecordLetters(table, "hola", 1, 2);
    assert t1 == Record(table, "\0\0", 'h');
    var t2 := RecordLetters(table, "hola", 2, 2);
    assert t2 == Record(t1, "\0h", 'o');
    var t3 := RecordLetters(table, "hola", 3, 2);
    assert t3 == Record(t2, "ho", 'l');
    assert RecordLetters(table, "hola", 4, 2) == Record(t3, "ol", 'a');
  }

  lemma OlaRecorded(table: map<string, seq<char>>)
    ensures RecordLetters(table, "ola", 3, 2)
      == Record(Record(Record(table, "\0\0", 'o'), "\0o", 'l'), "ol", 'a')
  {
    SpanishWindows();
    assert RecordLetters(table, "ola", 0, 2) == table;
    assert "ola"[0] == 'o';
    var t1 := RecordLetters(table, "ola", 1, 2);
    assert t1 == Record(table, "\0\0", 'o');
    var t2 := RecordLetters(table, "ola", 2, 2);
    assert t2 == Record(t1, "\0o", 'l');
    assert RecordLetters(table, "ola", 3, 2) == Record(t2, "ol", 'a');
  }

  /** The corpus is recorded word by word. */
  lemma SpanishCorpusUnfolds()
    ensures RecordWords(map[], SpanishCorpus, 2)
      == RecordLetters(RecordLetters(RecordLetters(RecordLetters(map[], "kaixo", 5, 2), "hola", 4, 2), "ola", 3, 2), "hola", 4, 2)
  {
    var words := SpanishCorpus;
    assert words[..1][..0] == [];
    assert RecordWords(map[], words[..1], 2) == RecordLetters(map[], "kaixo", 5, 2);
    assert words[..2][..1] == words[..1];
    assert words[..3][..2] == words[..2];
    assert words[..4][..3] == words[..3] && words[..4] == words;
  }

  /** What "hola" appends under the four prefixes it visits. */
  lemma HolaEntries(table: map<string, seq<char>>)
    ensures var t := RecordLetters(table, "hola", 4, 2);
      && Entry(t, "\0\0") == Entry(table, "\0\0") + "h" && Entry(t, "\0h") == Entry(table, "\0h") + "o"
      && Entry(t, "ho") == Entry(table, "ho") + "l" && Entry(t, "ol") == Entry(table, "ol") + "a"
  {
    HolaRecorded(table);
  }

  /** What "ola" appends under the same four prefixes. */
  lemma OlaEntries(table: map<string, seq<char>>)
    ensures var t := RecordLetters(table, "ola", 3, 2);
      && Entry(t, "\0\0") == Entry(table, "\0\0") + "o" && Entry(t, "\0h") == Entry(table, "\0h")
      && Entry(t, "ho") == Entry(table, "ho") && Entry(t, "ol") == Entry(table, "ol") + "a"
  {
    OlaRecorded(table);
  }

  /** What "kaixo" records under them, from an empty table. */
  lemma KaixoEntries()
    ensures var t := RecordLetters(map[], "kaixo", 5, 2);
      && Entry(t, "\0\0") == "k" && Entry(t, "\0h") == [] && Entry(t, "ho") == [] && Entry(t, "ol") == []
  {
    KaixoRecorded(map[]);
  }

  /** The lists under those four prefixes after "kaixo" and "hola". */
  lemma SecondSpanishWord(t1: map<string, seq<char>>)
    requires t1 == RecordLetters(map[], "kaixo", 5, 2)
    ensures var t := RecordLetters(t1, "hola", 4, 2);
      && Entry(t, "\0\0") == "kh" && Entry(t, "\0h") == "o" && Entry(t, "ho") == "l" && Entry(t, "ol") == "a"
  {
    KaixoEntries();
    HolaEntries(t1);
  }

  /** The lists under those four prefixes after "ola" as well. */
  lemma ThirdSpanishWord(t2: map<string, seq<char>>)
    requires Entry(t2, "\0\0") == "kh" && Entry(t2, "\0h") == "o" && Entry(t2, "ho") == "l" && Entry(t2, "ol") == "a"
    ensures var t := RecordLetters(t2, "ola", 3, 2);
      && Entry(t, "\0\0") == "kho" && Entry(t, "\0h") == "o" && Entry(t, "ho") == "l" && Entry(t, "ol") == "aa"
  {
    OlaEntries(t2);
  }

  /** The lists under those four prefixes after the whole corpus. */
  lemma FourthSpanishWord(t3: map<string, seq<char>>)
    requires Entry(t3, "\0\0") == "kho" && Entry(t3, "\0h") == "o" && Entry(t3, "ho") == "l" && Entry(t3, "ol") == "aa"
    ensures var t := RecordLetters(t3, "hola", 4, 2);
      && Entry(t, "\0\0") == "khoh" && Entry(t, "\0h") == "oo" && Entry(t, "ho") == "ll" && Entry(t, "ol") == "aaa"
  {
    HolaEntries(t3);
  }

  /** The recorded lists under the four prefixes a run from the empty
      prefix visits. */
  lemma SpanishCorpusRecorded()
    ensures var raw := RecordWords(map[], SpanishCorpus, 2);
      && "\0\0" in raw && raw["\0\0"] == "khoh"
      && "\0h" in raw && raw["\0h"] == "oo"
      && "ho" in raw && raw["ho"] == "ll"
      && "ol" in raw && raw["ol"] == "aaa"
  {
    SpanishCorpusUnfolds();
    var t1 := RecordLetters(map[], "kaixo", 5, 2);
    var t2 := RecordLetters(t1, "hola", 4, 2);
    var t3 := RecordLetters(t2, "ola", 3, 2);
    SecondSpanishWord(t1);
    ThirdSpanishWord(t2);
    FourthSpanishWord(t3);
  }

  /** k, h, o, h ranks as h, k, o: h twice, then the tie by rune. */
  lemma RankedOpening()
    ensures Ranked(Counts("khoh")) == "hko"
  {
    var counts := Counts("khoh");
    assert multiset("khoh")['h'] == 2 && multiset("khoh")['k'] == 1 && multiset("khoh")['o'] == 1;
    assert counts.Keys == {'h', 'k', 'o'};
    NeighboursSorted("hko", counts);
    RankingIsUnique("hko", Ranked(counts), counts);
  }

  /** "oo" and "ll" rank as their one letter ("aaa" is in RankedRepeats). */
  lemma SpanishSingles()
    ensures Ranked(Counts("oo")) == "o" && Ranked(Counts("ll")) == "l"
  {
    assert forall k :: 0 <= k < 2 ==> "oo"[k] == 'o';
    RankedSingle("oo", 'o');
    assert forall k :: 0 <= k < 2 ==> "ll"[k] == 'l';
    RankedSingle("ll", 'l');
  }

  /** The entries a run from the empty prefix meets on the corpus above. */
  predicate OffersHoa(table: map<string, seq<char>>)
  {
    && "\0\0" in table && table["\0\0"] == "hko"
    && "\0h" in table && table["\0h"] == "o"
    && "ho" in table && table["ho"] == "l"
    && "ol" in table && table["ol"] == "a"
  }

  /** The trained table holds those entries. */
  lemma SpanishCorpusTrained()
    ensures OffersHoa(RankedTable(RecordWords(map[], SpanishCorpus, 2)))
  {
    SpanishCorpusRecorded();
    RankedOpening();
    SpanishSingles();
    RankedRepeats();
  }

  /** On a table with those entries the loop emits 'h' (the only
      other-rune quota), then 'o'; the prefix "ho" offers only 'l', which
      no longer fits, so it forces an advance to "ol"; 'a' then completes
      the third step. */
  lemma HoaRun(table: map<string, seq<char>>, fuel: nat)
    requires OffersHoa(table) && fuel >= 4
    ensures Run(table, 3, State(Zeros(2), 2, 1, [], 0), fuel) == Finished("hoa")
  {
    assert Zeros(2) == "\0\0";
    assert FirstFit("hko", 2, 1) == 0 && FirstFit("o", 2, 0) == 0;
    assert FirstFit("l", 1, 0) == 1 && FirstFit("a", 1, 0) == 0;
    var s1 := State("\0h", 2, 0, "h", 1);
    assert Step(table, State("\0\0", 2, 1, [], 0)) == s1;
    var s2 := State("ho", 1, 0, "ho", 2);
    assert Step(table, s1) == s2;
    var s3 := State("ol", 1, 0, "ho", 2);
    assert Step(table, s2) == s3;
    assert Step(table, s3) == State("la", 0, 0, "hoa", 3);
    assert Run(table, 3, State("\0\0", 2, 1, [], 0), 4) == Finished("hoa");
    MoreFuelSameWord(table, 3, State("\0\0", 2, 1, [], 0), 4, fuel);
  }

  /** What Generate actually yields on the corpus of chain_test.go: given
      four iterations or more, the run stops with "hoa". */
  lemma SpanishCorpusYieldsHoa(fuel: nat)
    requires fuel >= 4
    ensures Run(RankedTable(RecordWords(map[], SpanishCorpus, 2)), 3, State(Zeros(2), 2, 1, [], 0), fuel)
      == Finished("hoa")
  {
    SpanishCorpusTrained();
    HoaRun(RankedTable(RecordWords(map[], SpanishCorpus, 2)), fuel);
  }

  // A corpus on which Generate never returns: NewChain(1) built from
  // "aaaa" and "bbbbbbb" has quotas of 2 vowels and 3 other runes, and
  // the prefix "a" is only ever followed by 'a'. Once the two vowels are
  // spent, every iteration is a forced advance that shifts 'a' in again
  // and leaves i where it was.

  const SpinCorpus: seq<string> := ["aaaa", "bbbbbbb"]

  /** The trained table of the corpus above. */
  const SpinTable: map<string, seq<char>> := map["\0" := "ab", "a" := "a", "b" := "b"]

  /** With one rune of prefix, letter i is recorded under the letter
      before it, or under rune 0 at the start of the word. */
  lemma WindowOfOne(w: string, i: nat)
    requires i <= |w|
    ensures Window(w, i, 1) == if i == 0 then "\0" else [w[i - 1]]
  {
    WindowAt(w, i, 1);
  }

  /** Recording the first i letters of a word made of one letter c
      appends c once under rune 0 and i - 1 times under the key [c]. */
  lemma {:induction false} RecordRepeated(table: map<string, seq<char>>, c: char, w: string, i: nat)
    requires 2 <= i <= |w| && c != '\0' && forall k :: 0 <= k < |w| ==> w[k] == c
    ensures RecordLetters(table, w, i, 1)
      == Record(table, "\0", c)[[c] := Entry(table, [c]) + seq(i - 1, _ => c)]
  {
    WindowOfOne(w, i - 1);
    var before := Entry(table, [c]);
    assert [c] != "\0";
    if i == 2 {
      WindowOfOne(w, 0);
      var start := Record(table, "\0", c);
      assert RecordLetters(table, w, 1, 1) == start;
      assert RecordLetters(table, w, 2, 1) == Record(start, [c], c);
      assert seq(1, _ => c) == [c];
    } else {
      RecordRepeated(table, c, w, i - 1);
      var start := Record(table, "\0", c);
      var prev := start[[c] := before + seq(i - 2, _ => c)];
      assert RecordLetters(table, w, i, 1) == Record(prev, [c], w[i - 1]);
      assert before + seq(i - 2, _ => c) + [c] == before + seq(i - 1, _ => c);
      assert Record(prev, [c], c) == start[[c] := before + seq(i - 1, _ => c)];
    }
  }

  /** The letters recorded from the corpus above, before ranking. */
  lemma SpinCorpusRecorded()
    ensures RecordWords(map[], SpinCorpus, 1) == map["\0" := "ab", "a" := "aaa", "b" := "bbbbbb"]
  {
    var first := map["\0" := "a", "a" := "aaa"];
    assert SpinCorpus[..1] == ["aaaa"] && SpinCorpus[..1][..0] == [];
    assert RecordWords(map[], ["aaaa"], 1) == RecordLetters(map[], "aaaa", 4, 1);
    FirstWordRecorded();
    assert RecordWords(map[], SpinCorpus, 1) == RecordLetters(first, "bbbbbbb", 7, 1);
    SecondWordRecorded(first);
  }

  lemma FirstWordRecorded()
    ensures RecordLetters(map[], "aaaa", 4, 1) == map["\0" := "a", "a" := "aaa"]
  {
    assert forall k :: 0 <= k < 4 ==> "aaaa"[k] == 'a';
    RecordRepeated(map[], 'a', "aaaa", 4);
    assert ['a'] == "a";
    assert [] + seq(3, _ => 'a') == "aaa";
    var none: seq<char> := [];
    assert none + ['a'] == "a";
    assert Record(map[], "\0", 'a') == map["\0" := "a"];
  }

  lemma SecondWordRecorded(first: map<string, seq<char>>)
    requires first == map["\0" := "a", "a" := "aaa"]
    ensures RecordLetters(first, "bbbbbbb", 7, 1) == map["\0" := "ab", "a" := "aaa", "b" := "bbbbbb"]
  {
    assert forall k :: 0 <= k < 7 ==> "bbbbbbb"[k] == 'b';
    RecordRepeated(first, 'b', "bbbbbbb", 7);
    assert ['b'] == "b" && ['b'] !in first;
    assert [] + seq(6, _ => 'b') == "bbbbbb";
    assert "a" + ['b'] == "ab";
    assert Record(first, "\0", 'b') == map["\0" := "ab", "a" := "aaa"];
  }

  /** A recorded list holding one letter only ranks as that letter. */
  lemma RankedSingle(letters: seq<char>, c: char)
    requires |letters| > 0 && forall k :: 0 <= k < |letters| ==> letters[k] == c
    ensures Ranked(Counts(letters)) == [c]
  {
    var counts := Counts(letters);
    assert letters[0] == c;
    assert counts.Keys == {c};
    RankingIsUnique([c], Ranked(counts), counts);
  }

  /** 'a' and 'b' once each: the tie goes to the smaller rune. */
  lemma RankedTie()
    ensures Ranked(Counts("ab")) == "ab"
  {
    var counts := Counts("ab");
    assert multiset("ab")['a'] == 1 && multiset("ab")['b'] == 1;
    assert counts.Keys == {'a', 'b'} && counts['a'] == counts['b'];
    RankingIsUnique("ab", Ranked(counts), counts);
  }

  /** Ranking the recorded letters gives the table above. */
  lemma SpinCorpusTrained()
    ensures RankedTable(RecordWords(map[], SpinCorpus, 1)) == SpinTable
  {
    SpinCorpusRecorded();
    var raw := map["\0" := "ab", "a" := "aaa", "b" := "bbbbbb"];
    assert raw.Keys == SpinTable.Keys;
    forall key | key in raw
      ensures SpinTable[key] == Ranked(Counts(raw[key]))
    {
      if key == "\0" {
        assert raw[key] == "ab" && SpinTable[key] == "ab";
        RankedTie();
      } else if key == "a" {
        assert raw[key] == "aaa" && SpinTable[key] == "a";
        RankedRepeats();
      } else {
        assert key == "b";
        assert raw[key] == "bbbbbb" && SpinTable[key] == "b";
        RankedRepeats();
      }
    }
    RankedTableIs(raw, SpinTable);
  }

  lemma RankedRepeats()
    ensures Ranked(Counts("aaa")) == "a" && Ranked(Counts("bbbbbb")) == "b"
  {
    assert forall k :: 0 <= k < 3 ==> "aaa"[k] == 'a';
    RankedSingle("aaa", 'a');
    assert forall k :: 0 <= k < 6 ==> "bbbbbb"[k] == 'b';
    RankedSingle("bbbbbb", 'b');
  }

  lemma SpinWordCounts()
    ensures CountVowels("aaaa") == 4 && CountOthers("aaaa") == 0
    ensures CountVowels("bbbbbbb") == 0 && CountOthers("bbbbbbb") == 7
  {
    assert "aaaa"[..3] == "aaa" && "aaa"[..2] == "aa" && "aa"[..1] == "a";
    assert "bbbbbbb"[..6] == "bbbbbb" && "bbbbbb"[..5] == "bbbbb" && "bbbbb"[..4] == "bbbb";
    assert "bbbb"[..3] == "bbb" && "bbb"[..2] == "bb" && "bb"[..1] == "b";
  }

  /** 4 vowels and 7 other runes in 2 words: quotas 2 and 3. */
  lemma SpinCorpusQuotas()
    ensures Average(TotalVowels(SpinCorpus), |SpinCorpus|) == 2
    ensures Average(TotalOthers(SpinCorpus), |SpinCorpus|) == 3
  {
    SpinWordCounts();
    assert SpinCorpus[..1] == ["aaaa"] && SpinCorpus[..1][..0] == [];
    assert TotalVowels(SpinCorpus) == 4 && TotalOthers(SpinCorpus) == 7;
  }

  /** Once both vowels are spent with prefix "a", the loop spins: every
      iteration is a forced advance back to prefix "a" with i still 2 < 5. */
  lemma {:induction false} Spinning(fuel: nat)
    ensures Run(SpinTable, 5, State("a", 0, 3, "aa", 2), fuel) == OutOfFuel("aa")
  {
    if fuel > 0 {
      var s := State("a", 0, 3, "aa", 2);
      assert FirstFit("a", 0, 3) == 1;
      assert Step(SpinTable, s) == s;
      Spinning(fuel - 1);
    }
  }

  /** The first two iterations spend both vowels on 'a', 'a'. */
  lemma SpinOpening()
    ensures Step(SpinTable, State("\0", 2, 3, [], 0)) == State("a", 1, 3, "a", 1)
    ensures Step(SpinTable, State("a", 1, 3, "a", 1)) == State("a", 0, 3, "aa", 2)
  {
    assert FirstFit("ab", 2, 3) == 0;
    assert FirstFit("a", 1, 3) == 0;
  }

  /** Generate on NewChain(1) built from the corpus above never finishes:
      whatever the fuel, the run is cut off by it, holding at most "aa". */
  lemma SpinCorpusNeverFinishes(fuel: nat)
    ensures var v, o := Average(TotalVowels(SpinCorpus), |SpinCorpus|), Average(TotalOthers(SpinCorpus), |SpinCorpus|);
      Run(RankedTable(RecordWords(map[], SpinCorpus, 1)), v + o, State(Zeros(1), v, o, [], 0), fuel)
        == OutOfFuel(if fuel == 0 then "" else if fuel == 1 then "a" else "aa")
  {
    SpinCorpusTrained();
    SpinCorpusQuotas();
    assert Zeros(1) == "\0";
    SpinFromStart(fuel);
  }

  lemma SpinFromStart(fuel: nat)
    ensures Run(SpinTable, 5, State("\0", 2, 3, [], 0), fuel)
      == OutOfFuel(if fuel == 0 then "" else if fuel == 1 then "a" else "aa")
  {
    SpinOpening();
    if fuel >= 2 {
      Spinning(fuel - 2);
    }
  }
}
