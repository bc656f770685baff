/**
 * The keyword manager (keyword_manager.py): bid-adjustment suggestions, the filter that
 * deduplicates keyword suggestions, negative-keyword derivation, the n-gram extractors that
 * produce suggestions from product texts, and the match-type rule.
 */
module Keywords {
  import opened Wrappers
  import opened Seqs
  import opened Text
  import opened Records
  import opened Analysis

  // ---------------------------------------------------------------------------------------------
  // Bid adjustments.

  /** The bid assumed for a keyword whose current bid is unknown. */
  const DefaultBid: real := 25.0
  const MinBid: real := 5.0
  const MaxBid: real := 500.0

  /** The whole number of cents nearest to x, ties going to the even number. */
  function Cents(x: real): (n: int)
    ensures -0.5 <= n as real - x * 100.0 <= 0.5
    ensures x * 100.0 - (x * 100.0).Floor as real == 0.5 ==> n % 2 == 0
  {
    var y := x * 100.0;
    var f := y.Floor;
    var d := y - f as real;
    if d > 0.5 || (d == 0.5 && f % 2 != 0) then f + 1 else f
  }

  /**
   * Python's `round(x, 2)` on the exact value: the nearest multiple of 0.01, ties going to the
   * even multiple.
   */
  function Round2(x: real): (r: real)
    ensures r * 100.0 == Cents(x) as real
    ensures r * 100.0 == (r * 100.0).Floor as real
    ensures -0.005 <= r - x <= 0.005
  {
    Cents(x) as real / 100.0
  }

  /** Rounding to cents keeps a value between two whole numbers of cents. */
  lemma Round2Within(x: real, lo: int, hi: int)
    requires lo as real <= x * 100.0 <= hi as real
    ensures lo as real <= Round2(x) * 100.0 <= hi as real
  {
    var f := (x * 100.0).Floor;
    assert lo <= f <= hi;
    assert Cents(x) == f || Cents(x) == f + 1;
  }

  /** `max(5.0, min(500.0, x))`. */
  function Clamp(x: real): (r: real)
    ensures MinBid <= r <= MaxBid
    ensures MinBid <= x <= MaxBid ==> r == x
    ensures x < MinBid ==> r == MinBid
    ensures x > MaxBid ==> r == MaxBid
  {
    if x > MaxBid then MaxBid else if x < MinBid then MinBid else x
  }

  /** The target bid `max(5.0, min(500.0, current * (1 + percent / 100)))`. */
  function Target(current: real, percent: real): (t: real)
    ensures MinBid <= t <= MaxBid
  {
    Clamp(current * (1.0 + percent / 100.0))
  }

  /**
   * `round(max(5.0, min(500.0, current * (1 + percent / 100))), 2)`: always a whole number of
   * cents between 5 and 500, within half a cent of the clamped target.
   */
  function SuggestedBid(current: real, percent: real): (r: real)
    ensures MinBid <= r <= MaxBid
    ensures r * 100.0 == (r * 100.0).Floor as real
    ensures -0.005 <= r - Target(current, percent) <= 0.005
  {
    var target := Target(current, percent);
    Round2Within(target, 500, 50000);
    Round2(target)
  }

  datatype BidAdjustment = BidAdjustment(
    keyword: string,
    currentBid: real,
    suggestedBid: real,
    adjustmentPercent: real,
    reason: Advice,
    priority: int)

  predicate ChangesBid(c: Classified) {
    c.bidAdjustment != 0.0
  }

  /** The suggestion made for one analysed keyword whose bid adjustment is non-zero. */
  function Proposal(c: Classified): (a: BidAdjustment)
    ensures a.keyword == c.metric.keyword && a.priority == c.priority && a.reason == c.advice
    ensures a.currentBid == c.metric.currentBid.GetOr(DefaultBid)
    ensures a.adjustmentPercent == c.bidAdjustment
    ensures a.suggestedBid == SuggestedBid(a.currentBid, a.adjustmentPercent)
  {
    var current := c.metric.currentBid.GetOr(DefaultBid);
    BidAdjustment(c.metric.keyword, current, SuggestedBid(current, c.bidAdjustment),
                  c.bidAdjustment, c.advice, c.priority)
  }

  /** The proposals for the analysed keywords that change their bid, in input order. */
  function Proposals(analysis: seq<Classified>): (r: seq<BidAdjustment>)
    ensures |r| <= |analysis|
    ensures forall i :: 0 <= i < |r| ==> MinBid <= r[i].suggestedBid <= MaxBid
    decreases |analysis|
  {
    if analysis == [] then []
    else
      var c := analysis[|analysis| - 1];
      Proposals(analysis[..|analysis| - 1]) + (if ChangesBid(c) then [Proposal(c)] else [])
  }

  /** The proposals are exactly the proposals of the entries that change their bid, in order. */
  lemma {:induction false} ProposalsOfChanging(analysis: seq<Classified>)
    ensures |Proposals(analysis)| == |Filter(analysis, ChangesBid)|
    ensures forall i :: 0 <= i < |Proposals(analysis)| ==>
      Proposals(analysis)[i] == Proposal(Filter(analysis, ChangesBid)[i])
    decreases |analysis|
  {
    if analysis != [] {
      var front := analysis[..|analysis| - 1];
      var c := analysis[|analysis| - 1];
      ProposalsOfChanging(front);
      assert analysis == front + [c];
      FilterAppend(front, [c], ChangesBid);
      var ps := Proposals(analysis);
      var fs := Filter(analysis, ChangesBid);
      var n := |Proposals(front)|;
      forall i | 0 <= i < |ps| ensures ps[i] == Proposal(fs[i]) {
        if i < n {
          assert ps[i] == Proposals(front)[i];
          assert fs[i] == Filter(front, ChangesBid)[i];
        }
      }
    }
  }

  function AdjustmentPriority(a: BidAdjustment): real {
    a.priority as real
  }

  /** What `suggest_bid_adjustments` returns: the proposals, stably sorted by priority. */
  function BidAdjustmentsFor(analysis: seq<Classified>): seq<BidAdjustment> {
    SortDesc(Proposals(analysis), AdjustmentPriority)
  }

  /**
   * `suggest_bid_adjustments`: one proposal per analysed keyword with a non-zero adjustment,
   * stably sorted by priority, highest first. No more proposals than analysed keywords, every
   * suggested bid between 5 and 500.
   */
  method SuggestBidAdjustments(analysis: seq<Classified>) returns (r: seq<BidAdjustment>)
    ensures r == BidAdjustmentsFor(analysis)
    ensures SortedDesc(r, AdjustmentPriority)
    ensures multiset(r) == multiset(Proposals(analysis))
    ensures forall k :: WithKey(r, AdjustmentPriority, k) == WithKey(Proposals(analysis), AdjustmentPriority, k)
    ensures |r| <= |analysis|
    ensures forall i :: 0 <= i < |r| ==> MinBid <= r[i].suggestedBid <= MaxBid
  {
    var adjustments: seq<BidAdjustment> := [];
    for i := 0 to |analysis|
      invariant adjustments == Proposals(analysis[..i])
    {
      var c := analysis[i];
      assert analysis[..i + 1][..i] == analysis[..i];
      if c.bidAdjustment != 0.0 {
        adjustments := adjustments + [Proposal(c)];
      }
    }
    assert analysis[..|analysis|] == analysis;
    r := SortDesc(adjustments, AdjustmentPriority);
    SortDescSpec(adjustments, AdjustmentPriority);
    assert |r| == |adjustments|;
    forall i | 0 <= i < |r| ensures MinBid <= r[i].suggestedBid <= MaxBid {
      assert r[i] in multiset(adjustments);
    }
  }

  // ---------------------------------------------------------------------------------------------
  // Keyword suggestions and their deduplication.

  datatype Source = ProductTitle | BrandCombination | CategorySource | Description

  /** The `priority` label of a suggestion. */
  datatype Tier = High | Medium | Low

  datatype Suggestion = Suggestion(keyword: string, source: Source, tier: Tier, suggestedBid: real)

  /** `{'high': 3, 'medium': 2, 'low': 1}`. */
  function TierRank(t: Tier): int {
    match t
    case High => 3
    case Medium => 2
    case Low => 1
  }

  function TierKey(s: Suggestion): real {
    TierRank(s.tier) as real
  }

  /** `keyword.strip().lower()`. */
  function Normalize(k: string): string {
    Lower(Strip(k))
  }

  /** A normalised keyword is kept when it has 3 to 100 characters, one of them Cyrillic. */
  predicate Acceptable(k: string) {
    3 <= |k| <= 100 && HasCyrillic(k)
  }

  /** Stripped and lower-case already. */
  predicate IsNormal(k: string) {
    Strip(k) == k && Lower(k) == k
  }

  /** Lower-casing twice is lower-casing once. */
  lemma LowerIdempotent(t: string)
    ensures Lower(Lower(t)) == Lower(t)
  {
    var n := Lower(t);
    forall i | 0 <= i < |n| ensures Lower(n)[i] == n[i] {
      assert n[i] == LowerChar(t[i]);
    }
  }

  /** Lower-casing keeps a string free of whitespace at its ends. */
  lemma LowerTrimmed(t: string)
    requires t == [] || (!IsSpace(t[0]) && !IsSpace(t[|t| - 1]))
    ensures var n := Lower(t); n == [] || (!IsSpace(n[0]) && !IsSpace(n[|n| - 1]))
  {
    if t != [] {
      assert Lower(t)[0] == LowerChar(t[0]);
      assert Lower(t)[|t| - 1] == LowerChar(t[|t| - 1]);
    }
  }

  /** Strip leaves a string whose ends are not whitespace unchanged. */
  lemma StripTrimmed(s: string)
    requires s == [] || (!IsSpace(s[0]) && !IsSpace(s[|s| - 1]))
    ensures Strip(s) == s
  {
    assert TrimStart(s) == s;
  }

  /** Normalising gives a normal keyword, so normalising is idempotent. */
  lemma NormalizeNormal(k: string)
    ensures IsNormal(Normalize(k))
  {
    var t := Strip(k);
    LowerTrimmed(t);
    StripTrimmed(Lower(t));
    LowerIdempotent(t);
  }

  /** A suggestion with its keyword normalised by `norm`. */
  function Normalized(s: Suggestion, norm: string -> string): Suggestion {
    s.(keyword := norm(s.keyword))
  }

  /**
   * The deduplicating pass over suggestions already sorted by tier: each suggestion whose
   * keyword, normalised by `norm`, is accepted by `ok` and not in `seen` is kept with that
   * keyword; the rest are skipped. The source's pass is Dedup with Normalize and Acceptable.
   */
  function Dedup(xs: seq<Suggestion>, seen: set<string>, norm: string -> string, ok: string -> bool)
    : seq<Suggestion>
    decreases |xs|
  {
    if xs == [] then []
    else
      var k := norm(xs[0].keyword);
      if ok(k) && k !in seen then [Normalized(xs[0], norm)] + Dedup(xs[1..], seen + {k}, norm, ok)
      else Dedup(xs[1..], seen, norm, ok)
  }

  function KeywordsOf(xs: seq<Suggestion>): set<string> {
    set i | 0 <= i < |xs| :: xs[i].keyword
  }

  /** Distinct keywords. */
  predicate DistinctKeywords(xs: seq<Suggestion>) {
    forall i, j :: 0 <= i < j < |xs| ==> xs[i].keyword != xs[j].keyword
  }

  /** Every keyword satisfies p. */
  predicate AllKeywords(xs: seq<Suggestion>, p: string -> bool) {
    forall i :: 0 <= i < |xs| ==> p(xs[i].keyword)
  }

  /** No suggestion of a lower tier comes before one of a higher tier. */
  predicate TiersDescend(xs: seq<Suggestion>) {
    forall i, j :: 0 <= i < j < |xs| ==> TierRank(xs[i].tier) >= TierRank(xs[j].tier)
  }

  /** Every suggestion of ys is a suggestion of xs with its keyword normalised. */
  predicate NormalizedFrom(ys: seq<Suggestion>, xs: seq<Suggestion>, norm: string -> string) {
    forall i :: 0 <= i < |ys| ==> ys[i] in NormalizedSet(xs, norm)
  }

  /** The suggestions of xs, each with its keyword normalised. */
  function NormalizedSet(xs: seq<Suggestion>, norm: string -> string): set<Suggestion> {
    set x | x in xs :: Normalized(x, norm)
  }

  lemma NormalizedSetTail(xs: seq<Suggestion>, norm: string -> string)
    requires xs != []
    ensures NormalizedSet(xs[1..], norm) <= NormalizedSet(xs, norm)
    ensures Normalized(xs[0], norm) in NormalizedSet(xs, norm)
  {
    forall y | y in NormalizedSet(xs[1..], norm) ensures y in NormalizedSet(xs, norm) {
      var x :| x in xs[1..] && y == Normalized(x, norm);
      assert x in xs;
    }
  }

  /** Kept keywords are accepted, pairwise distinct, and none of them was seen before. */
  lemma {:induction false} DedupDistinct(xs: seq<Suggestion>, seen: set<string>,
                                         norm: string -> string, ok: string -> bool)
    ensures AllKeywords(Dedup(xs, seen, norm, ok), ok)
    ensures DistinctKeywords(Dedup(xs, seen, norm, ok))
    ensures KeywordsOf(Dedup(xs, seen, norm, ok)) !! seen
    decreases |xs|
  {
    if xs != [] {
      var k := norm(xs[0].keyword);
      if ok(k) && k !in seen {
        DedupDistinct(xs[1..], seen + {k}, norm, ok);
        var rest := Dedup(xs[1..], seen + {k}, norm, ok);
        var r := [Normalized(xs[0], norm)] + rest;
        forall i | 1 <= i < |r| ensures r[i].keyword != k && r[i].keyword !in seen {
          assert r[i] == rest[i - 1];
          assert rest[i - 1].keyword in KeywordsOf(rest);
        }
        forall i, j | 0 <= i < j < |r| ensures r[i].keyword != r[j].keyword {
          if i > 0 {
            assert r[i] == rest[i - 1] && r[j] == rest[j - 1];
          }
        }
        forall i | 0 <= i < |r| ensures ok(r[i].keyword) {
          if i > 0 {
            assert r[i] == rest[i - 1];
          }
        }
        forall x | x in KeywordsOf(r) ensures x !in seen {
          var i :| 0 <= i < |r| && r[i].keyword == x;
        }
      } else {
        DedupDistinct(xs[1..], seen, norm, ok);
      }
    }
  }

  /** Every kept suggestion is an input suggestion with its keyword normalised. */
  lemma {:induction false} DedupFromInput(xs: seq<Suggestion>, seen: set<string>,
                                          norm: string -> string, ok: string -> bool)
    ensures NormalizedFrom(Dedup(xs, seen, norm, ok), xs, norm)
    decreases |xs|
  {
    if xs != [] {
      var k := norm(xs[0].keyword);
      var kept := ok(k) && k !in seen;
      var seen' := if kept then seen + {k} else seen;
      DedupFromInput(xs[1..], seen', norm, ok);
      NormalizedSetTail(xs, norm);
      var rest := Dedup(xs[1..], seen', norm, ok);
      var r := Dedup(xs, seen, norm, ok);
      var d := if kept then 1 else 0;
      assert r == (if kept then [Normalized(xs[0], norm)] else []) + rest;
      forall i | 0 <= i < |r| ensures r[i] in NormalizedSet(xs, norm) {
        if i >= d {
          assert r[i] == rest[i - d];
        }
      }
    }
  }

  /** Deduplicating suggestions sorted by tier keeps them sorted by tier. */
  lemma {:induction false} DedupTiers(xs: seq<Suggestion>, seen: set<string>,
                                      norm: string -> string, ok: string -> bool)
    requires TiersDescend(xs)
    ensures TiersDescend(Dedup(xs, seen, norm, ok))
    decreases |xs|
  {
    if xs != [] {
      var k := norm(xs[0].keyword);
      var kept := ok(k) && k !in seen;
      var seen' := if kept then seen + {k} else seen;
      DedupTiers(xs[1..], seen', norm, ok);
      if kept {
        var rest := Dedup(xs[1..], seen', norm, ok);
        DedupFromInput(xs[1..], seen', norm, ok);
        var r := [Normalized(xs[0], norm)] + rest;
        forall i, j | 0 <= i < j < |r| ensures TierRank(r[i].tier) >= TierRank(r[j].tier) {
          assert r[j] == rest[j - 1];
          if i == 0 {
            assert rest[j - 1] in NormalizedSet(xs[1..], norm);
            var x :| x in xs[1..] && rest[j - 1] == Normalized(x, norm);
            var t :| 0 <= t < |xs[1..]| && xs[1..][t] == x;
            assert xs[1..][t] == xs[t + 1];
          } else {
            assert r[i] == rest[i - 1];
          }
        }
      }
    }
  }

  /** Every input whose normalised keyword is accepted is represented, unless seen before. */
  lemma {:induction false} DedupComplete(xs: seq<Suggestion>, seen: set<string>,
                                         norm: string -> string, ok: string -> bool)
    ensures forall j :: 0 <= j < |xs| && ok(norm(xs[j].keyword)) ==>
      norm(xs[j].keyword) in seen + KeywordsOf(Dedup(xs, seen, norm, ok))
    decreases |xs|
  {
    if xs != [] {
      var k := norm(xs[0].keyword);
      var kept := ok(k) && k !in seen;
      var seen' := if kept then seen + {k} else seen;
      DedupComplete(xs[1..], seen', norm, ok);
      var rest := Dedup(xs[1..], seen', norm, ok);
      var r := Dedup(xs, seen, norm, ok);
      var d := if kept then 1 else 0;
      assert r == (if kept then [Normalized(xs[0], norm)] else []) + rest;
      assert KeywordsOf(rest) <= KeywordsOf(r) by {
        forall x | x in KeywordsOf(rest) ensures x in KeywordsOf(r) {
          var i :| 0 <= i < |rest| && rest[i].keyword == x;
          assert r[i + d] == rest[i];
        }
      }
      if kept {
        assert r[0].keyword == k;
      }
      forall j | 0 <= j < |xs| && ok(norm(xs[j].keyword))
        ensures norm(xs[j].keyword) in seen + KeywordsOf(r)
      {
        if j > 0 {
          assert xs[1..][j - 1] == xs[j];
        }
      }
    }
  }

  /**
   * Over suggestions sorted by tier, a kept keyword carries the highest tier any suggestion
   * with that normalised keyword has.
   */
  lemma {:induction false} DedupBest(xs: seq<Suggestion>, seen: set<string>,
                                     norm: string -> string, ok: string -> bool)
    requires TiersDescend(xs)
    ensures BestTiers(Dedup(xs, seen, norm, ok), xs, norm)
    decreases |xs|
  {
    if xs != [] {
      var k := norm(xs[0].keyword);
      var kept := ok(k) && k !in seen;
      var seen' := if kept then seen + {k} else seen;
      var rest := Dedup(xs[1..], seen', norm, ok);
      var d := Dedup(xs, seen, norm, ok);
      var e := if kept then 1 else 0;
      DedupBest(xs[1..], seen', norm, ok);
      DedupDistinct(xs[1..], seen', norm, ok);
      assert d == (if kept then [Normalized(xs[0], norm)] else []) + rest;
      forall i, j | 0 <= i < |d| && 0 <= j < |xs| && norm(xs[j].keyword) == d[i].keyword
        ensures TierRank(xs[j].tier) <= TierRank(d[i].tier)
      {
        if !kept || i > 0 {
          assert d[i] == rest[i - e];
          assert d[i].keyword in KeywordsOf(rest);
          if j > 0 {
            assert xs[1..][j - 1] == xs[j];
          }
        }
      }
    }
  }

  /**
   * Over suggestions sorted by tier, an accepted keyword that is neither seen before nor among
   * the first n kept ranks no higher than the n-th kept suggestion.
   */
  lemma {:induction false} DedupCut(xs: seq<Suggestion>, seen: set<string>,
                                    norm: string -> string, ok: string -> bool, n: nat)
    requires TiersDescend(xs)
    requires 0 < n <= |Dedup(xs, seen, norm, ok)|
    ensures var d := Dedup(xs, seen, norm, ok);
      forall j ::
        (0 <= j < |xs| && ok(norm(xs[j].keyword)) && norm(xs[j].keyword) !in seen
         && norm(xs[j].keyword) !in KeywordsOf(d[..n])) ==>
        TierRank(xs[j].tier) <= TierRank(d[n - 1].tier)
    decreases |xs|
  {
    var k := norm(xs[0].keyword);
    var kept := ok(k) && k !in seen;
    var seen' := if kept then seen + {k} else seen;
    var rest := Dedup(xs[1..], seen', norm, ok);
    var d := Dedup(xs, seen, norm, ok);
    assert d == (if kept then [Normalized(xs[0], norm)] else []) + rest;
    if kept {
      assert d[..n][0].keyword == k;
      if n > 1 {
        DedupCut(xs[1..], seen', norm, ok, n - 1);
        assert d[n - 1] == rest[n - 2];
        assert KeywordsOf(rest[..n - 1]) <= KeywordsOf(d[..n]) by {
          forall x | x in KeywordsOf(rest[..n - 1]) ensures x in KeywordsOf(d[..n]) {
            var i :| 0 <= i < n - 1 && rest[..n - 1][i].keyword == x;
            assert d[..n][i + 1] == rest[..n - 1][i];
          }
        }
      }
      forall j | 0 <= j < |xs| && ok(norm(xs[j].keyword)) && norm(xs[j].keyword) !in seen
        && norm(xs[j].keyword) !in KeywordsOf(d[..n])
        ensures TierRank(xs[j].tier) <= TierRank(d[n - 1].tier)
      {
        assert j > 0;
        assert xs[1..][j - 1] == xs[j];
      }
    } else {
      DedupCut(xs[1..], seen', norm, ok, n);
      forall j | 0 <= j < |xs| && ok(norm(xs[j].keyword)) && norm(xs[j].keyword) !in seen
        && norm(xs[j].keyword) !in KeywordsOf(d[..n])
        ensures TierRank(xs[j].tier) <= TierRank(d[n - 1].tier)
      {
        assert j > 0;
        assert xs[1..][j - 1] == xs[j];
      }
    }
  }

  /** The cap on the number of suggestions. */
  const MaxSuggestions: nat := 50

  /**
   * `_filter_and_deduplicate`: stably sorts by tier, then keeps the first suggestion of each
   * acceptable normalised keyword, at most 50 of them. The result holds at most 50 pairwise
   * distinct, normalised, acceptable keywords, high tier before medium before low, each taken
   * from an input suggestion; when the cap is not reached every acceptable input keyword is in it,
   * and when it is reached no acceptable keyword left out ranks above the last one kept. Each kept
   * keyword carries the highest tier it had among the inputs.
   */
  method FilterAndDeduplicate(suggestions: seq<Suggestion>) returns (r: seq<Suggestion>)
    ensures r == Filtered(suggestions)
    ensures |r| <= MaxSuggestions
    ensures AllKeywords(r, Acceptable) && AllKeywords(r, IsNormal)
    ensures DistinctKeywords(r) && TiersDescend(r)
    ensures NormalizedFrom(r, suggestions, Normalize)
    ensures |r| < MaxSuggestions ==>
      forall j :: 0 <= j < |suggestions| && Acceptable(Normalize(suggestions[j].keyword)) ==>
        Normalize(suggestions[j].keyword) in KeywordsOf(r)
    ensures BestTiers(r, suggestions, Normalize) && TopTiers(r, suggestions, Normalize, Acceptable)
  {
    var sorted := SortDesc(suggestions, TierKey);
    var seen: set<string> := {};
    var filtered: seq<Suggestion> := [];
    for i := 0 to |sorted|
      invariant filtered + Dedup(sorted[i..], seen, Normalize, Acceptable)
        == Dedup(sorted, {}, Normalize, Acceptable)
    {
      var s := sorted[i];
      var keyword := Normalize(s.keyword);
      if |keyword| < 3 || |keyword| > 100 {
        DedupSkip(sorted, i, seen);
        continue;
      }
      if keyword in seen {
        DedupSkip(sorted, i, seen);
        continue;
      }
      if !HasCyrillic(keyword) {
        DedupSkip(sorted, i, seen);
        continue;
      }
      DedupKeep(sorted, i, seen, filtered, Normalize, Acceptable);
      seen := seen + {keyword};
      filtered := filtered + [s.(keyword := keyword)];
    }
    assert sorted[|sorted|..] == [];
    r := Take(filtered, MaxSuggestions);
    FilteredProperties(suggestions);
  }

  /** A step of the pass that skips suggestion i. */
  lemma DedupSkip(xs: seq<Suggestion>, i: nat, seen: set<string>)
    requires i < |xs|
    requires var k := Normalize(xs[i].keyword); !Acceptable(k) || k in seen
    ensures Dedup(xs[i..], seen, Normalize, Acceptable) == Dedup(xs[i + 1..], seen, Normalize, Acceptable)
  {
    assert xs[i..][1..] == xs[i + 1..];
  }

  /** A step of the pass that keeps suggestion i, appended to the suggestions kept so far. */
  lemma DedupKeep(xs: seq<Suggestion>, i: nat, seen: set<string>, kept: seq<Suggestion>,
                  norm: string -> string, ok: string -> bool)
    requires i < |xs|
    requires ok(norm(xs[i].keyword)) && norm(xs[i].keyword) !in seen
    ensures var k := norm(xs[i].keyword);
      (kept + [xs[i].(keyword := k)]) + Dedup(xs[i + 1..], seen + {k}, norm, ok)
      == kept + Dedup(xs[i..], seen, norm, ok)
  {
    var k := norm(xs[i].keyword);
    assert xs[i..][1..] == xs[i + 1..];
    var rest := Dedup(xs[i + 1..], seen + {k}, norm, ok);
    assert Dedup(xs[i..], seen, norm, ok) == [xs[i].(keyword := k)] + rest;
    assert (kept + [xs[i].(keyword := k)]) + rest == kept + ([xs[i].(keyword := k)] + rest);
  }

  /** The capped result of the pass over the sorted suggestions. */
  function Filtered(suggestions: seq<Suggestion>): seq<Suggestion> {
    Take(Dedup(SortDesc(suggestions, TierKey), {}, Normalize, Acceptable), MaxSuggestions)
  }

  lemma FilteredAcceptable(suggestions: seq<Suggestion>)
    ensures AllKeywords(Filtered(suggestions), Acceptable)
    ensures DistinctKeywords(Filtered(suggestions))
  {
    DedupDistinct(SortDesc(suggestions, TierKey), {}, Normalize, Acceptable);
  }

  lemma FilteredNormal(suggestions: seq<Suggestion>)
    ensures AllKeywords(Filtered(suggestions), IsNormal)
  {
    DedupNormal(SortDesc(suggestions, TierKey));
  }

  lemma FilteredTiers(suggestions: seq<Suggestion>)
    ensures TiersDescend(Filtered(suggestions))
  {
    SortedTiers(suggestions);
    DedupTiers(SortDesc(suggestions, TierKey), {}, Normalize, Acceptable);
  }

  lemma FilteredFromInput(suggestions: seq<Suggestion>)
    ensures NormalizedFrom(Filtered(suggestions), suggestions, Normalize)
  {
    DedupFromSuggestions(suggestions, Normalize, Acceptable);
  }

  lemma FilteredComplete(suggestions: seq<Suggestion>)
    ensures |Filtered(suggestions)| < MaxSuggestions ==>
      forall j :: 0 <= j < |suggestions| && Acceptable(Normalize(suggestions[j].keyword)) ==>
        Normalize(suggestions[j].keyword) in KeywordsOf(Filtered(suggestions))
  {
    DedupCovers(suggestions, Normalize, Acceptable);
  }

  /** Every kept keyword carries the highest tier any input suggestion with that keyword has. */
  predicate BestTiers(r: seq<Suggestion>, suggestions: seq<Suggestion>, norm: string -> string) {
    forall i, j :: 0 <= i < |r| && 0 <= j < |suggestions| && norm(suggestions[j].keyword) == r[i].keyword ==>
      TierRank(suggestions[j].tier) <= TierRank(r[i].tier)
  }

  /**
   * When the cap is reached, every acceptable input keyword left out ranks no higher than the
   * last one kept.
   */
  predicate TopTiers(r: seq<Suggestion>, suggestions: seq<Suggestion>, norm: string -> string, ok: string -> bool) {
    |r| == MaxSuggestions ==>
      forall j ::
        (0 <= j < |suggestions| && ok(norm(suggestions[j].keyword))
         && norm(suggestions[j].keyword) !in KeywordsOf(r)) ==>
        TierRank(suggestions[j].tier) <= TierRank(r[MaxSuggestions - 1].tier)
  }

  /** Sorting first does not change that a kept keyword carries its best tier. */
  lemma DedupBestSorted(suggestions: seq<Suggestion>, norm: string -> string, ok: string -> bool)
    ensures BestTiers(Dedup(SortDesc(suggestions, TierKey), {}, norm, ok), suggestions, norm)
  {
    var sorted := SortDesc(suggestions, TierKey);
    var d := Dedup(sorted, {}, norm, ok);
    SortedTiers(suggestions);
    DedupBest(sorted, {}, norm, ok);
    forall i, j | 0 <= i < |d| && 0 <= j < |suggestions| && norm(suggestions[j].keyword) == d[i].keyword
      ensures TierRank(suggestions[j].tier) <= TierRank(d[i].tier)
    {
      assert suggestions[j] in multiset(sorted);
      var t :| 0 <= t < |sorted| && sorted[t] == suggestions[j];
      BestTierAt(d, sorted, norm, i, t);
    }
  }

  lemma BestTierAt(r: seq<Suggestion>, xs: seq<Suggestion>, norm: string -> string, i: nat, j: nat)
    requires BestTiers(r, xs, norm) && i < |r| && j < |xs| && norm(xs[j].keyword) == r[i].keyword
    ensures TierRank(xs[j].tier) <= TierRank(r[i].tier)
  {
  }

  /** A prefix of the kept suggestions still carries the best tiers. */
  lemma BestTiersPrefix(r: seq<Suggestion>, xs: seq<Suggestion>, norm: string -> string, n: nat)
    requires BestTiers(r, xs, norm) && n <= |r|
    ensures BestTiers(r[..n], xs, norm)
  {
    forall i, j | 0 <= i < n && 0 <= j < |xs| && norm(xs[j].keyword) == r[..n][i].keyword
      ensures TierRank(xs[j].tier) <= TierRank(r[..n][i].tier)
    {
      BestTierAt(r, xs, norm, i, j);
    }
  }

  /** Sorting first does not change that keywords left out at a cut rank no higher. */
  lemma DedupCutSorted(suggestions: seq<Suggestion>, norm: string -> string, ok: string -> bool, n: nat)
    requires 0 < n <= |Dedup(SortDesc(suggestions, TierKey), {}, norm, ok)|
    ensures var d := Dedup(SortDesc(suggestions, TierKey), {}, norm, ok);
      forall j ::
        (0 <= j < |suggestions| && ok(norm(suggestions[j].keyword))
         && norm(suggestions[j].keyword) !in KeywordsOf(d[..n])) ==>
        TierRank(suggestions[j].tier) <= TierRank(d[n - 1].tier)
  {
    var sorted := SortDesc(suggestions, TierKey);
    var d := Dedup(sorted, {}, norm, ok);
    SortedTiers(suggestions);
    DedupCut(sorted, {}, norm, ok, n);
    forall j | 0 <= j < |suggestions| && ok(norm(suggestions[j].keyword))
      && norm(suggestions[j].keyword) !in KeywordsOf(d[..n])
      ensures TierRank(suggestions[j].tier) <= TierRank(d[n - 1].tier)
    {
      assert suggestions[j] in multiset(sorted);
      var t :| 0 <= t < |sorted| && sorted[t] == suggestions[j];
    }
  }

  lemma FilteredBestTier(suggestions: seq<Suggestion>)
    ensures BestTiers(Filtered(suggestions), suggestions, Normalize)
  {
    var d := Dedup(SortDesc(suggestions, TierKey), {}, Normalize, Acceptable);
    DedupBestSorted(suggestions, Normalize, Acceptable);
    BestTiersPrefix(d, suggestions, Normalize, Min(MaxSuggestions, |d|));
  }

  lemma FilteredTopTiers(suggestions: seq<Suggestion>)
    ensures TopTiers(Filtered(suggestions), suggestions, Normalize, Acceptable)
  {
    var d := Dedup(SortDesc(suggestions, TierKey), {}, Normalize, Acceptable);
    if |Filtered(suggestions)| == MaxSuggestions {
      DedupCutSorted(suggestions, Normalize, Acceptable, MaxSuggestions);
      assert Filtered(suggestions) == d[..MaxSuggestions];
    }
  }

  /** The properties of the capped result, together. */
  lemma FilteredProperties(suggestions: seq<Suggestion>)
    ensures var r := Filtered(suggestions);
      && |r| <= MaxSuggestions
      && AllKeywords(r, Acceptable) && AllKeywords(r, IsNormal)
      && DistinctKeywords(r) && TiersDescend(r)
      && NormalizedFrom(r, suggestions, Normalize)
      && (|r| < MaxSuggestions ==>
           forall j :: 0 <= j < |suggestions| && Acceptable(Normalize(suggestions[j].keyword)) ==>
             Normalize(suggestions[j].keyword) in KeywordsOf(r))
      && BestTiers(r, suggestions, Normalize) && TopTiers(r, suggestions, Normalize, Acceptable)
  {
    FilteredBestTier(suggestions);
    FilteredTopTiers(suggestions);
    FilteredAcceptable(suggestions);
    FilteredNormal(suggestions);
    FilteredTiers(suggestions);
    FilteredFromInput(suggestions);
    FilteredComplete(suggestions);
  }

  /** Stably sorting by tier puts the tiers in descending order. */
  lemma SortedTiers(suggestions: seq<Suggestion>)
    ensures TiersDescend(SortDesc(suggestions, TierKey))
  {
    SortDescSorted(suggestions, TierKey);
  }

  /** The pass yields normal keywords. */
  lemma DedupNormal(xs: seq<Suggestion>)
    ensures AllKeywords(Dedup(xs, {}, Normalize, Acceptable), IsNormal)
  {
    DedupFromInput(xs, {}, Normalize, Acceptable);
    var d := Dedup(xs, {}, Normalize, Acceptable);
    forall i | 0 <= i < |d| ensures IsNormal(d[i].keyword) {
      assert d[i] in NormalizedSet(xs, Normalize);
      var x :| x in xs && d[i] == Normalized(x, Normalize);
      NormalizeNormal(x.keyword);
    }
  }

  /** Sorting first does not change where the kept suggestions come from. */
  lemma DedupFromSuggestions(suggestions: seq<Suggestion>, norm: string -> string, ok: string -> bool)
    ensures NormalizedFrom(Dedup(SortDesc(suggestions, TierKey), {}, norm, ok), suggestions, norm)
  {
    var sorted := SortDesc(suggestions, TierKey);
    DedupFromInput(sorted, {}, norm, ok);
    var d := Dedup(sorted, {}, norm, ok);
    forall i | 0 <= i < |d| ensures d[i] in NormalizedSet(suggestions, norm) {
      assert d[i] in NormalizedSet(sorted, norm);
      var x :| x in sorted && d[i] == Normalized(x, norm);
      assert x in multiset(suggestions);
    }
  }

  /** Sorting first does not lose any acceptable keyword. */
  lemma DedupCovers(suggestions: seq<Suggestion>, norm: string -> string, ok: string -> bool)
    ensures forall j :: 0 <= j < |suggestions| && ok(norm(suggestions[j].keyword)) ==>
      norm(suggestions[j].keyword) in KeywordsOf(Dedup(SortDesc(suggestions, TierKey), {}, norm, ok))
  {
    var sorted := SortDesc(suggestions, TierKey);
    DedupComplete(sorted, {}, norm, ok);
    forall j | 0 <= j < |suggestions| && ok(norm(suggestions[j].keyword))
      ensures norm(suggestions[j].keyword) in KeywordsOf(Dedup(sorted, {}, norm, ok))
    {
      assert suggestions[j] in multiset(sorted);
    }
  }
}
