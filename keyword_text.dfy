/**
 * The keyword generators of the keyword manager (keyword_manager.py): n-grams of a text, brand and
 * category combinations, long-tail phrases of a description, negative keywords derived from poor
 * performers and the match-type rule.
 */
module KeywordText {
  import opened Wrappers
  import opened Seqs
  import opened Text

  /** The Russian prepositions and conjunctions the manager ignores (keyword_manager.py:15-19). */
  const StopWords: set<string> := {
    "и", "в", "на", "с", "по", "для", "от", "до", "из", "к", "о", "про", "при",
    "без", "над", "под", "через", "между", "среди", "около", "вокруг", "внутри",
    "снаружи", "сверху", "снизу", "спереди", "сзади", "слева", "справа" }

  /** A word worth keeping: not a stop word and longer than two characters. */
  predicate Meaningful(w: string) {
    w !in StopWords && |w| > 2
  }

  /** The lower-cased, cleaned words of a text: `re.sub(r'[^\w\s<extra>]', ' ', text.lower()).split()`. */
  function RawWords(text: string, extra: set<char>): seq<string> {
    SplitWs(Clean(Lower(text), extra))
  }

  /** Holds of the pieces `str.split()` produces. */
  predicate AreWords(ws: seq<string>) {
    forall i :: 0 <= i < |ws| ==> ws[i] != [] && NoSpace(ws[i])
  }

  /** The meaningful words of a text. */
  function Words(text: string, extra: set<char>): (ws: seq<string>)
    ensures AreWords(ws)
    ensures forall i :: 0 <= i < |ws| ==> Meaningful(ws[i])
  {
    var raw := RawWords(text, extra);
    var ws := Filter(raw, Meaningful);
    assert forall i :: 0 <= i < |ws| ==> ws[i] in raw;
    ws
  }

  /**
   * The meaningful words are the cleaned words in their order, with exactly the stop words and
   * the words of at most two characters left out: every other cleaned word is kept, as often
   * as it occurs.
   */
  lemma WordsKept(text: string, extra: set<char>)
    ensures forall w :: w in RawWords(text, extra) && Meaningful(w) ==> w in Words(text, extra)
    ensures IsSubsequence(Words(text, extra), RawWords(text, extra))
    ensures forall w ::
      multiset(Words(text, extra))[w] == (if Meaningful(w) then multiset(RawWords(text, extra))[w] else 0)
  {
    FilterSubsequence(RawWords(text, extra), Meaningful);
    FilterCounts(RawWords(text, extra), Meaningful);
  }

  /** `words[i:i+width]`. */
  function Window(ws: seq<string>, i: nat, width: nat): seq<string>
    requires i + width <= |ws|
  {
    ws[i..i + width]
  }

  /** `' '.join(words[i:i+width])`. */
  function Phrase(ws: seq<string>, i: nat, width: nat): string
    requires i + width <= |ws|
  {
    JoinWith(Window(ws, i, width), ' ')
  }

  /** The number of start positions `range(len(words) - width + 1)` yields. */
  function Starts(ws: seq<string>, width: nat): (n: nat)
    ensures n == 0 || n - 1 + width <= |ws|
  {
    if |ws| >= width then |ws| - width + 1 else 0
  }

  /**
   * The phrases of `width` consecutive words starting at positions 0 .. n-1, in order, kept when
   * `keep` holds of their words.
   */
  function Windows(ws: seq<string>, width: nat, n: nat, keep: seq<string> -> bool): (r: seq<string>)
    requires n == 0 || n - 1 + width <= |ws|
    ensures |r| <= n
  {
    if n == 0 then []
    else
      var init := Windows(ws, width, n - 1, keep);
      if keep(Window(ws, n - 1, width)) then init + [Phrase(ws, n - 1, width)] else init
  }

  /** A phrase is in the list iff it starts at one of the positions and passes the filter. */
  lemma {:induction false} WindowsMembers(ws: seq<string>, width: nat, n: nat, keep: seq<string> -> bool)
    requires n == 0 || n - 1 + width <= |ws|
    ensures forall k :: k in Windows(ws, width, n, keep) <==>
      exists i :: 0 <= i < n && keep(Window(ws, i, width)) && k == Phrase(ws, i, width)
  {
    if n > 0 {
      WindowsMembers(ws, width, n - 1, keep);
    }
  }

  /** Every phrase of `width` words has exactly `width` words. */
  lemma PhraseWords(ws: seq<string>, i: nat, width: nat)
    requires AreWords(ws) && i + width <= |ws|
    ensures WordCount(Phrase(ws, i, width)) == width
  {
    SplitWsJoin(Window(ws, i, width));
  }

  /** A single word counts as one word. */
  lemma SingleWord(w: string)
    requires w != [] && NoSpace(w)
    ensures WordCount(w) == 1
  {
    SplitWsJoin([w]);
  }

  /** Every phrase of a window list has `width` words. */
  lemma WindowsWords(ws: seq<string>, width: nat, n: nat, keep: seq<string> -> bool)
    requires AreWords(ws)
    requires n == 0 || n - 1 + width <= |ws|
    ensures forall k :: k in Windows(ws, width, n, keep) ==> WordCount(k) == width
  {
    WindowsMembers(ws, width, n, keep);
    forall k | k in Windows(ws, width, n, keep) ensures WordCount(k) == width {
      var i :| 0 <= i < n && keep(Window(ws, i, width)) && k == Phrase(ws, i, width);
      PhraseWords(ws, i, width);
    }
  }

  function KeepAll(w: seq<string>): bool {
    true
  }

  /** The trigram condition: its first two words are longer than three characters. */
  function LongPair(w: seq<string>): bool {
    |w| >= 2 && |w[0]| > 3 && |w[1]| > 3
  }

  /** The list `_extract_keywords_from_text` builds before turning it into a set. */
  function Candidates(ws: seq<string>): seq<string> {
    ws + Windows(ws, 2, Starts(ws, 2), KeepAll) + Windows(ws, 3, Starts(ws, 3), LongPair)
  }

  /** An item is a word, a pair of consecutive words or a triple starting with two long words. */
  predicate FromWords(ws: seq<string>, k: string) {
    k in ws
    || (exists i :: 0 <= i < Starts(ws, 2) && k == Phrase(ws, i, 2))
    || (exists i :: 0 <= i < Starts(ws, 3) && LongPair(Window(ws, i, 3)) && k == Phrase(ws, i, 3))
  }

  lemma CandidatesFromWords(ws: seq<string>)
    ensures forall k :: k in Candidates(ws) <==> FromWords(ws, k)
  {
    var two := Windows(ws, 2, Starts(ws, 2), KeepAll);
    var three := Windows(ws, 3, Starts(ws, 3), LongPair);
    WindowsMembers(ws, 2, Starts(ws, 2), KeepAll);
    WindowsMembers(ws, 3, Starts(ws, 3), LongPair);
    assert forall k :: k in Candidates(ws) <==> k in ws || k in two || k in three;
  }

  /** One-word items are meaningful words, and no item has more than three words. */
  lemma CandidatesWords(ws: seq<string>)
    requires AreWords(ws)
    requires forall i :: 0 <= i < |ws| ==> Meaningful(ws[i])
    ensures forall k :: k in Candidates(ws) ==> 1 <= WordCount(k) <= 3
    ensures forall k :: k in Candidates(ws) && WordCount(k) == 1 ==> Meaningful(k)
  {
    var two := Windows(ws, 2, Starts(ws, 2), KeepAll);
    var three := Windows(ws, 3, Starts(ws, 3), LongPair);
    WindowsWords(ws, 2, Starts(ws, 2), KeepAll);
    WindowsWords(ws, 3, Starts(ws, 3), LongPair);
    forall k | k in ws ensures WordCount(k) == 1 && Meaningful(k) {
      SingleWord(k);
    }
    assert forall k :: k in Candidates(ws) ==> k in ws || k in two || k in three;
  }

  /**
   * `_extract_keywords_from_text`: the meaningful words of the text, every pair of consecutive
   * ones and every triple whose first two words are longer than three characters, as a set.
   * One-word items are meaningful words; no item has more than three words.
   */
  method ExtractKeywordsFromText(text: string) returns (r: set<string>)
    ensures forall k :: k in r <==> FromWords(Words(text, {'-'}), k)
    ensures forall k :: k in r ==> 1 <= WordCount(k) <= 3
    ensures forall k :: k in r && WordCount(k) == 1 ==> Meaningful(k)
  {
    var words := Words(text, {'-'});
    var keywords := NGrams(words);
    r := set k | k in keywords;
    CandidatesFromWords(words);
    CandidatesWords(words);
  }

  /** The list-building loops of `_extract_keywords_from_text`, over the meaningful words. */
  method NGrams(words: seq<string>) returns (keywords: seq<string>)
    ensures keywords == Candidates(words)
  {
    keywords := words;
    for i := 0 to Starts(words, 2)
      invariant keywords == words + Windows(words, 2, i, KeepAll)
    {
      keywords := keywords + [JoinWith(words[i..i + 2], ' ')];
    }
    for i := 0 to Starts(words, 3)
      invariant keywords == words + Windows(words, 2, Starts(words, 2), KeepAll)
        + Windows(words, 3, i, LongPair)
    {
      assert Window(words, i, 3)[0] == words[i] && Window(words, i, 3)[1] == words[i + 1];
      if |words[i]| > 3 && |words[i + 1]| > 3 {
        keywords := keywords + [JoinWith(words[i..i + 3], ' ')];
      }
    }
  }

  /** `suggested_match_type` of `optimize_keyword_match_types`. */
  datatype MatchType = Broad | PhraseMatch | Exact

  /** One entry of the result; the reason text is represented by the word count it quotes. */
  datatype MatchSuggestion = MatchSuggestion(keyword: string, matchType: MatchType, wordCount: nat)

  /**
   * `optimize_keyword_match_types`: one entry per keyword, in order: one word gives broad match,
   * two words phrase match and anything else (including no word at all) exact match.
   */
  method OptimizeKeywordMatchTypes(keywords: seq<string>) returns (r: seq<MatchSuggestion>)
    ensures |r| == |keywords|
    ensures forall i :: 0 <= i < |r| ==>
      r[i].keyword == keywords[i] && r[i].wordCount == WordCount(keywords[i])
    ensures forall i :: 0 <= i < |r| ==>
      (r[i].matchType == Broad <==> WordCount(keywords[i]) == 1)
      && (r[i].matchType == PhraseMatch <==> WordCount(keywords[i]) == 2)
      && (r[i].matchType == Exact <==> WordCount(keywords[i]) != 1 && WordCount(keywords[i]) != 2)
  {
    r := [];
    for j := 0 to |keywords|
      invariant |r| == j
      invariant forall i :: 0 <= i < j ==>
        r[i].keyword == keywords[i] && r[i].wordCount == WordCount(keywords[i])
      invariant forall i :: 0 <= i < j ==>
        (r[i].matchType == Broad <==> WordCount(keywords[i]) == 1)
        && (r[i].matchType == PhraseMatch <==> WordCount(keywords[i]) == 2)
        && (r[i].matchType == Exact <==> WordCount(keywords[i]) != 1 && WordCount(keywords[i]) != 2)
    {
      var n := |SplitWs(keywords[j])|;
      var m := if n == 1 then Broad else if n == 2 then PhraseMatch else Exact;
      r := r + [MatchSuggestion(keywords[j], m, n)];
    }
  }

  /** `f"{p} {x}"` for every x, in order. */
  function Prefixed(p: string, xs: seq<string>): (r: seq<string>)
    ensures |r| == |xs|
  {
    if xs == [] then [] else Prefixed(p, xs[..|xs| - 1]) + [p + " " + xs[|xs| - 1]]
  }

  lemma PrefixedSnoc(p: string, xs: seq<string>, x: string)
    ensures Prefixed(p, xs + [x]) == Prefixed(p, xs) + [p + " " + x]
  {
    assert (xs + [x])[..|xs|] == xs;
  }

  lemma PrefixedConcat(p: string, xs: seq<string>, ys: seq<string>)
    ensures Prefixed(p, xs + ys) == Prefixed(p, xs) + Prefixed(p, ys)
    decreases |ys|
  {
    if ys != [] {
      var init := ys[..|ys| - 1];
      assert xs + ys == (xs + init) + [ys[|ys| - 1]];
      PrefixedSnoc(p, xs + init, ys[|ys| - 1]);
      PrefixedConcat(p, xs, init);
    } else {
      assert xs + ys == xs;
    }
  }

  /** Each entry is p, a space and the corresponding x. */
  lemma {:induction false} PrefixedAt(p: string, xs: seq<string>)
    ensures forall i :: 0 <= i < |xs| ==> Prefixed(p, xs)[i] == p + " " + xs[i]
    decreases |xs|
  {
    if xs != [] {
      PrefixedAt(p, xs[..|xs| - 1]);
    }
  }

  /**
   * The brand followed by each of the words that does not contain it, in order
   * (`for word in title_words[:5]: if brand_lower not in word: ...`).
   */
  function BrandWords(brand: string, ws: seq<string>): (r: seq<string>)
    ensures |r| <= |ws|
  {
    if ws == [] then []
    else
      var w := ws[|ws| - 1];
      BrandWords(brand, ws[..|ws| - 1]) + (if IsSubstring(brand, w) then [] else [brand + " " + w])
  }

  /** Each brand combination is the brand and a space before a word that does not contain it. */
  lemma {:induction false} BrandWordsFrom(brand: string, ws: seq<string>, k: string)
    requires k in BrandWords(brand, ws)
    ensures exists w :: w in ws && !IsSubstring(brand, w) && k == brand + " " + w
    decreases |ws|
  {
    var w := ws[|ws| - 1];
    if k in BrandWords(brand, ws[..|ws| - 1]) {
      BrandWordsFrom(brand, ws[..|ws| - 1], k);
      var v :| v in ws[..|ws| - 1] && !IsSubstring(brand, v) && k == brand + " " + v;
      assert v in ws;
    }
  }

  /**
   * The list `_generate_brand_combinations` returns: the lower-cased brand followed by each of the
   * first five meaningful title words that does not contain it, then the brand followed by each
   * of the first three pairs of consecutive title words.
   */
  function BrandCombinations(brand: string, title: string): seq<string> {
    var bl := Lower(brand);
    var tw := Words(title, {});
    BrandWords(bl, Take(tw, 5)) + Prefixed(bl, Windows(tw, 2, Min(3, Starts(tw, 2)), KeepAll))
  }

  /**
   * There are at most eight combinations, each made of the brand, a space and either a title
   * word that does not contain the brand or two consecutive title words.
   */
  lemma BrandCombinationsShape(brand: string, title: string)
    ensures |BrandCombinations(brand, title)| <= 8
    ensures forall k :: k in BrandCombinations(brand, title) ==>
      Lower(brand) + " " <= k && 1 <= WordCount(k[|Lower(brand)| + 1..]) <= 2
  {
    var bl := Lower(brand);
    var tw := Words(title, {});
    var first := BrandWords(bl, Take(tw, 5));
    var pairs := Windows(tw, 2, Min(3, Starts(tw, 2)), KeepAll);
    PrefixedAt(bl, pairs);
    WindowsWords(tw, 2, Min(3, Starts(tw, 2)), KeepAll);
    forall k | k in BrandCombinations(brand, title)
      ensures Lower(brand) + " " <= k && 1 <= WordCount(k[|bl| + 1..]) <= 2
    {
      if k in first {
        BrandWordsFrom(bl, Take(tw, 5), k);
        var w :| w in Take(tw, 5) && !IsSubstring(bl, w) && k == bl + " " + w;
        assert k[|bl| + 1..] == w;
        SingleWord(w);
      } else {
        assert k in Prefixed(bl, pairs);
        var i :| 0 <= i < |pairs| && k == bl + " " + pairs[i];
        assert k[|bl| + 1..] == pairs[i];
      }
    }
  }

  /** `_generate_brand_combinations`. */
  method GenerateBrandCombinations(brand: string, title: string) returns (r: seq<string>)
    ensures r == BrandCombinations(brand, title)
    ensures |r| <= 8
    ensures forall k :: k in r ==> Lower(brand) + " " <= k && 1 <= WordCount(k[|Lower(brand)| + 1..]) <= 2
  {
    var titleWords := Words(title, {});
    var brandLower := Lower(brand);
    var words := BrandWithWords(brandLower, Take(titleWords, 5));
    var pairs := BrandWithPairs(brandLower, titleWords);
    r := words + pairs;
    BrandCombinationsShape(brand, title);
  }

  /** The first loop of `_generate_brand_combinations`: the brand with single title words. */
  method BrandWithWords(brandLower: string, top: seq<string>) returns (r: seq<string>)
    ensures r == BrandWords(brandLower, top)
  {
    r := [];
    for i := 0 to |top|
      invariant r == BrandWords(brandLower, top[..i])
    {
      assert top[..i + 1][..i] == top[..i];
      if !IsSubstring(brandLower, top[i]) {
        r := r + [brandLower + " " + top[i]];
      }
    }
    assert top[..|top|] == top;
  }

  /** The second loop of `_generate_brand_combinations`: the brand with the first three pairs. */
  method BrandWithPairs(brandLower: string, titleWords: seq<string>) returns (r: seq<string>)
    ensures r == Prefixed(brandLower, Windows(titleWords, 2, Min(3, Starts(titleWords, 2)), KeepAll))
  {
    r := [];
    var n := Min(3, Starts(titleWords, 2));
    assert n <= Starts(titleWords, 2);
    for i := 0 to n
      invariant r == Prefixed(brandLower, Windows(titleWords, 2, i, KeepAll))
    {
      var pair := Phrase(titleWords, i, 2);
      PrefixedSnoc(brandLower, Windows(titleWords, 2, i, KeepAll), pair);
      r := r + [brandLower + " " + pair];
    }
  }

  /**
   * A category word followed by each title word longer than three characters that differs from
   * it, in order.
   */
  function Companions(cat: string, ts: seq<string>): (r: seq<string>)
    ensures |r| <= |ts|
  {
    if ts == [] then []
    else
      var t := ts[|ts| - 1];
      Companions(cat, ts[..|ts| - 1]) + (if |t| > 3 && cat != t then [cat + " " + t] else [])
  }

  /** What one category word contributes: itself, then itself with each companion title word. */
  function CategoryEntries(cat: string, titleWords: seq<string>): seq<string> {
    if |cat| > 3 then [cat] + Companions(cat, titleWords) else []
  }

  /** The keywords the category words contribute, in order. */
  function CategoryKeywords(cats: seq<string>, titleWords: seq<string>): seq<string> {
    if cats == [] then []
    else CategoryKeywords(cats[..|cats| - 1], titleWords) + CategoryEntries(cats[|cats| - 1], titleWords)
  }

  /** With at most three title words, each category word contributes at most four keywords. */
  lemma {:induction false} CategoryKeywordsBounded(cats: seq<string>, titleWords: seq<string>)
    requires |titleWords| <= 3
    ensures |CategoryKeywords(cats, titleWords)| <= 4 * |cats|
    decreases |cats|
  {
    if cats != [] {
      CategoryKeywordsBounded(cats[..|cats| - 1], titleWords);
    }
  }

  /** k is category word c, or c with a companion title word. */
  predicate CategorySource(cats: seq<string>, titleWords: seq<string>, c: string, k: string) {
    c in cats && |c| > 3
    && (k == c || exists t :: t in titleWords && |t| > 3 && t != c && k == c + " " + t)
  }

  lemma {:induction false} CompanionsFrom(cat: string, ts: seq<string>, k: string)
    requires k in Companions(cat, ts)
    ensures exists t :: t in ts && |t| > 3 && t != cat && k == cat + " " + t
    decreases |ts|
  {
    if k in Companions(cat, ts[..|ts| - 1]) {
      CompanionsFrom(cat, ts[..|ts| - 1], k);
      var t :| t in ts[..|ts| - 1] && |t| > 3 && t != cat && k == cat + " " + t;
      assert t in ts;
    }
  }

  /**
   * Every category keyword is a category word longer than three characters, or such a word, a
   * space and a different one of the given title words longer than three characters.
   */
  lemma {:induction false} CategoryKeywordsSources(cats: seq<string>, titleWords: seq<string>, k: string)
    requires k in CategoryKeywords(cats, titleWords)
    ensures exists c :: CategorySource(cats, titleWords, c, k)
    decreases |cats|
  {
    var init := cats[..|cats| - 1];
    var c := cats[|cats| - 1];
    if k in CategoryKeywords(init, titleWords) {
      CategoryKeywordsSources(init, titleWords, k);
      var c' :| CategorySource(init, titleWords, c', k);
      assert CategorySource(cats, titleWords, c', k);
    } else {
      assert k in CategoryEntries(c, titleWords);
      if k != c {
        CompanionsFrom(c, titleWords, k);
      }
      assert CategorySource(cats, titleWords, c, k);
    }
  }

  /**
   * `_generate_category_keywords`: the cleaned category words longer than three characters, each
   * followed by its combinations with the first three title words.
   */
  method GenerateCategoryKeywords(category: string, title: string) returns (r: seq<string>)
    ensures r == CategoryKeywords(RawWords(category, {}), Take(RawWords(title, {}), 3))
    ensures |r| <= 4 * |RawWords(category, {})|
  {
    var categoryWords := RawWords(category, {});
    var titleWords := Take(RawWords(title, {}), 3);
    r := CombineCategories(categoryWords, titleWords);
    CategoryKeywordsBounded(categoryWords, titleWords);
  }

  /** The outer loop of `_generate_category_keywords`, over the category words. */
  method CombineCategories(categoryWords: seq<string>, titleWords: seq<string>) returns (r: seq<string>)
    ensures r == CategoryKeywords(categoryWords, titleWords)
  {
    r := [];
    for i := 0 to |categoryWords|
      invariant r == CategoryKeywords(categoryWords[..i], titleWords)
    {
      var cat := categoryWords[i];
      assert categoryWords[..i + 1][..i] == categoryWords[..i];
      if |cat| > 3 {
        var combinations := CategoryCombinations(cat, titleWords);
        r := r + [cat] + combinations;
      }
    }
    assert categoryWords[..|categoryWords|] == categoryWords;
  }

  /** The inner loop of `_generate_category_keywords` for one category word. */
  method CategoryCombinations(cat: string, titleWords: seq<string>) returns (r: seq<string>)
    ensures r == Companions(cat, titleWords)
  {
    r := [];
    for j := 0 to |titleWords|
      invariant r == Companions(cat, titleWords[..j])
    {
      var t := titleWords[j];
      assert titleWords[..j + 1][..j] == titleWords[..j];
      if |t| > 3 && cat != t {
        r := r + [cat + " " + t];
      }
    }
    assert titleWords[..|titleWords|] == titleWords;
  }

  /** The three-word long-tail filter: the phrase is longer than 10 characters. */
  function LongerThan10(w: seq<string>): bool {
    |JoinWith(w, ' ')| > 10
  }

  /** The four-word long-tail filter: the phrase is longer than 15 characters. */
  function LongerThan15(w: seq<string>): bool {
    |JoinWith(w, ' ')| > 15
  }

  /** The meaningful words of one sentence. */
  function SentenceWords(sentence: string): (ws: seq<string>)
    ensures AreWords(ws)
  {
    var raw := SplitWs(Strip(sentence));
    var ws := Filter(raw, Meaningful);
    assert forall i :: 0 <= i < |ws| ==> ws[i] in raw;
    ws
  }

  /** The phrases of one sentence: three words over 10 characters, then four words over 15. */
  function SentencePhrases(sentence: string): seq<string> {
    var ws := SentenceWords(sentence);
    Windows(ws, 3, Starts(ws, 3), LongerThan10) + Windows(ws, 4, Starts(ws, 4), LongerThan15)
  }

  /** The phrases of the sentences, sentence by sentence. */
  function LongTail(sentences: seq<string>): seq<string> {
    if sentences == [] then []
    else LongTail(sentences[..|sentences| - 1]) + SentencePhrases(sentences[|sentences| - 1])
  }

  /** The description's sentences: split at every full stop after cleaning. */
  function Sentences(description: string): seq<string> {
    SplitOn(Clean(Lower(description), {'.', '-'}), '.')
  }

  /** The phrases of one sentence have three words and over 10 characters, or four and over 15. */
  lemma SentencePhrasesShape(sentence: string)
    ensures forall k :: k in SentencePhrases(sentence) ==>
      (WordCount(k) == 3 && |k| > 10) || (WordCount(k) == 4 && |k| > 15)
  {
    var ws := SentenceWords(sentence);
    WindowsMembers(ws, 3, Starts(ws, 3), LongerThan10);
    WindowsWords(ws, 3, Starts(ws, 3), LongerThan10);
    WindowsMembers(ws, 4, Starts(ws, 4), LongerThan15);
    WindowsWords(ws, 4, Starts(ws, 4), LongerThan15);
  }

  /** Every long-tail phrase has three words and over 10 characters, or four and over 15. */
  lemma {:induction false} LongTailShape(sentences: seq<string>)
    ensures forall k :: k in LongTail(sentences) ==>
      (WordCount(k) == 3 && |k| > 10) || (WordCount(k) == 4 && |k| > 15)
    decreases |sentences|
  {
    if sentences != [] {
      LongTailShape(sentences[..|sentences| - 1]);
      SentencePhrasesShape(sentences[|sentences| - 1]);
    }
  }

  /** `_extract_long_tail_keywords`. */
  method ExtractLongTailKeywords(description: string) returns (r: seq<string>)
    ensures r == LongTail(Sentences(description))
    ensures forall k :: k in r ==> (WordCount(k) == 3 && |k| > 10) || (WordCount(k) == 4 && |k| > 15)
  {
    var sentences := Sentences(description);
    r := CollectLongTail(sentences);
    LongTailShape(sentences);
  }

  /** The loop of `_extract_long_tail_keywords` over the sentences. */
  method CollectLongTail(sentences: seq<string>) returns (r: seq<string>)
    ensures r == LongTail(sentences)
  {
    r := [];
    for s := 0 to |sentences|
      invariant r == LongTail(sentences[..s])
    {
      assert sentences[..s + 1][..s] == sentences[..s];
      var phrases := PhrasesOf(SentenceWords(sentences[s]));
      r := r + phrases;
    }
    assert sentences[..|sentences|] == sentences;
  }

  /** The two phrase loops of `_extract_long_tail_keywords` for one sentence's words. */
  method PhrasesOf(words: seq<string>) returns (r: seq<string>)
    ensures r == Windows(words, 3, Starts(words, 3), LongerThan10)
      + Windows(words, 4, Starts(words, 4), LongerThan15)
  {
    r := [];
    for i := 0 to Starts(words, 3)
      invariant r == Windows(words, 3, i, LongerThan10)
    {
      var phrase := JoinWith(words[i..i + 3], ' ');
      if |phrase| > 10 {
        r := r + [phrase];
      }
    }
    var three := r;
    for i := 0 to Starts(words, 4)
      invariant r == three + Windows(words, 4, i, LongerThan15)
    {
      var phrase := JoinWith(words[i..i + 4], ' ');
      if |phrase| > 15 {
        r := r + [phrase];
      }
    }
  }

  /** One entry of `poor_performing_keywords`; each field may be missing. */
  datatype PoorKeyword = PoorKeyword(
    keyword: Option<string>,
    ctr: Option<real>,
    clicks: Option<int>,
    orders: Option<int>)

  /** The words that mark a keyword as unwanted (keyword_manager.py:222). */
  const CommonNegatives: set<string> := {
    "бесплатно", "скачать", "торрент", "взлом", "crack", "обзор", "отзыв", "видео", "фото",
    "картинки", "вакансия", "работа", "резюме", "зарплата" }

  /** The cap on the number of negative keywords. */
  const MaxNegatives: nat := 100

  /** `keyword_data.get('keyword', '').lower()`. */
  function PhraseOf(kd: PoorKeyword): string {
    Lower(kd.keyword.GetOr(""))
  }

  /** The word contains one of the stems of cheap, fake or copied goods. */
  predicate HasStem(w: string) {
    IsSubstring("дешев", w) || IsSubstring("подделк", w) || IsSubstring("копи", w)
    || IsSubstring("фейк", w)
  }

  /** A click-through rate below 0.1 with more than 20 clicks (missing values count as 0). */
  predicate LowCtr(kd: PoorKeyword) {
    kd.ctr.GetOr(0.0) < 0.1 && kd.clicks.GetOr(0) > 20
  }

  /** More than 50 clicks and no order (missing values count as 0). */
  predicate Unproductive(kd: PoorKeyword) {
    kd.clicks.GetOr(0) > 50 && kd.orders.GetOr(0) == 0
  }

  /** A word of the keyword that becomes a negative keyword. */
  predicate Flagged(kd: PoorKeyword, w: string) {
    |w| > 3 && (HasStem(w) || LowCtr(kd))
  }

  /** The flagged words among ws. */
  function FlaggedWords(kd: PoorKeyword, ws: seq<string>): set<string> {
    if ws == [] then {}
    else
      var w := ws[|ws| - 1];
      FlaggedWords(kd, ws[..|ws| - 1]) + (if Flagged(kd, w) then {w} else {})
  }

  lemma {:induction false} FlaggedWordsMembers(kd: PoorKeyword, ws: seq<string>)
    ensures forall k :: k in FlaggedWords(kd, ws) <==> k in ws && Flagged(kd, k)
    decreases |ws|
  {
    if ws != [] {
      FlaggedWordsMembers(kd, ws[..|ws| - 1]);
      assert ws == ws[..|ws| - 1] + [ws[|ws| - 1]];
    }
  }

  /** What one poor performer contributes: its flagged words, and the whole phrase when unproductive. */
  function NegativesOf(kd: PoorKeyword): set<string> {
    FlaggedWords(kd, SplitWs(PhraseOf(kd))) + (if Unproductive(kd) then {PhraseOf(kd)} else {})
  }

  /** The negatives the poor performers contribute. */
  function Negatives(poor: seq<PoorKeyword>): set<string> {
    if poor == [] then {} else Negatives(poor[..|poor| - 1]) + NegativesOf(poor[|poor| - 1])
  }

  /** The set `generate_negative_keywords` builds before truncating it. */
  function NegativeCandidates(poor: seq<PoorKeyword>): set<string> {
    Negatives(poor) + CommonNegatives
  }

  /**
   * The ways a keyword becomes negative for one poor performer: a word longer than three characters
   * with a blacklisted stem, a word longer than three characters of a keyword with low CTR, or the
   * whole phrase of an unproductive keyword.
   */
  predicate NegativeSource(kd: PoorKeyword, k: string) {
    (k in SplitWs(PhraseOf(kd)) && |k| > 3 && HasStem(k))
    || (k in SplitWs(PhraseOf(kd)) && |k| > 3 && LowCtr(kd))
    || (Unproductive(kd) && k == PhraseOf(kd))
  }

  /** A keyword is a candidate iff it is a common negative or comes from one of the poor performers. */
  lemma {:induction false} NegativeCandidatesSources(poor: seq<PoorKeyword>, k: string)
    ensures k in NegativeCandidates(poor) <==>
      k in CommonNegatives || exists j :: 0 <= j < |poor| && NegativeSource(poor[j], k)
  {
    NegativesSources(poor, k);
  }

  lemma {:induction false} NegativesSources(poor: seq<PoorKeyword>, k: string)
    ensures k in Negatives(poor) <==> exists j :: 0 <= j < |poor| && NegativeSource(poor[j], k)
    decreases |poor|
  {
    if poor != [] {
      var init := poor[..|poor| - 1];
      var kd := poor[|poor| - 1];
      NegativesSources(init, k);
      FlaggedWordsMembers(kd, SplitWs(PhraseOf(kd)));
      assert k in NegativesOf(kd) <==> NegativeSource(kd, k);
      if k in Negatives(init) {
        var j :| 0 <= j < |init| && NegativeSource(init[j], k);
        assert poor[j] == init[j];
      }
      if exists j :: 0 <= j < |poor| && NegativeSource(poor[j], k) {
        var j :| 0 <= j < |poor| && NegativeSource(poor[j], k);
        if j < |init| {
          assert init[j] == poor[j];
        }
      }
    }
  }

  /**
   * `generate_negative_keywords`: at most 100 keywords, all of them candidates (a common negative
   * or one contributed by a poor performer), and all the candidates when there are at most 100.
   */
  method GenerateNegativeKeywords(poor: seq<PoorKeyword>) returns (r: set<string>)
    ensures r <= NegativeCandidates(poor)
    ensures |r| == Min(MaxNegatives, |NegativeCandidates(poor)|)
    ensures forall k :: k in r ==>
      k in CommonNegatives || exists j :: 0 <= j < |poor| && NegativeSource(poor[j], k)
  {
    var negatives := CollectNegatives(poor);
    negatives := negatives + CommonNegatives;
    r := {};
    var rest := negatives;
    while |r| < MaxNegatives && rest != {}
      invariant r !! rest && r + rest == negatives
      invariant |r| + |rest| == |negatives|
      invariant |r| <= MaxNegatives
      decreases |rest|
    {
      var x :| x in rest;
      r := r + {x};
      rest := rest - {x};
    }
    forall k | k in r
      ensures k in CommonNegatives || exists j :: 0 <= j < |poor| && NegativeSource(poor[j], k)
    {
      NegativeCandidatesSources(poor, k);
    }
  }

  /** The loop of `generate_negative_keywords` over the poor performers. */
  method CollectNegatives(poor: seq<PoorKeyword>) returns (negatives: set<string>)
    ensures negatives == Negatives(poor)
  {
    negatives := {};
    for i := 0 to |poor|
      invariant negatives == Negatives(poor[..i])
    {
      assert poor[..i + 1][..i] == poor[..i];
      var kd := poor[i];
      var keyword := PhraseOf(kd);
      var words := FlaggedOf(kd, SplitWs(keyword));
      negatives := negatives + words;
      if kd.clicks.GetOr(0) > 50 && kd.orders.GetOr(0) == 0 {
        negatives := negatives + {keyword};
      }
    }
    assert poor[..|poor|] == poor;
  }

  /** The loop over the words of one poor performer's keyword. */
  method FlaggedOf(kd: PoorKeyword, words: seq<string>) returns (flagged: set<string>)
    ensures flagged == FlaggedWords(kd, words)
  {
    flagged := {};
    for j := 0 to |words|
      invariant flagged == FlaggedWords(kd, words[..j])
    {
      assert words[..j + 1][..j] == words[..j];
      var word := words[j];
      if |word| > 3 {
        if HasStem(word) {
          flagged := flagged + {word};
        }
        if kd.ctr.GetOr(0.0) < 0.1 && kd.clicks.GetOr(0) > 20 {
          flagged := flagged + {word};
        }
      }
    }
    assert words[..|words|] == words;
  }
}
