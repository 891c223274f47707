/** Grouping of the submissions by category: the fold that builds, for every feedbackType,
    a bucket holding the running total of the parsed ratings and the number of submissions.
    The plain object it builds is modelled as an association list kept in insertion order,
    the order in which its keys are enumerated again when the cards are drawn. */
module Aggregate {
  import opened Wrappers
  import opened Records
  import opened Ratings

  datatype Bucket = Bucket(totalRating: Total, count: nat)
  datatype Entry = Entry(category: string, bucket: Bucket)
  type Grouping = seq<Entry>

  /** The category of every submission, in list order. */
  function Types(all: seq<Record>): seq<string> {
    seq(|all|, i requires 0 <= i < |all| => all[i].feedbackType)
  }

  /** The distinct categories, each placed where it first occurs in the list. */
  function Categories(all: seq<Record>): (cs: seq<string>)
    ensures |cs| <= |all|
    ensures |cs| == 0 <==> |all| == 0
  {
    if |all| == 0 then []
    else
      var cs := Categories(all[..|all| - 1]);
      var t := all[|all| - 1].feedbackType;
      if t in cs then cs else cs + [t]
  }

  predicate Distinct(xs: seq<string>) {
    forall i, j :: 0 <= i < j < |xs| ==> xs[i] != xs[j]
  }

  /** Number of submissions of category c. */
  function CountOf(all: seq<Record>, c: string): nat {
    if |all| == 0 then 0
    else CountOf(all[..|all| - 1], c) + (if all[|all| - 1].feedbackType == c then 1 else 0)
  }

  /** The running total of category c: 0 plus each of its parsed ratings, in list order. */
  function TotalOf(all: seq<Record>, c: string): Total {
    if |all| == 0 then Num(0)
    else
      var prev := TotalOf(all[..|all| - 1], c);
      var r := all[|all| - 1];
      if r.feedbackType == c then Plus(prev, ParseRating(r.rating)) else prev
  }

  /** Sum of the ratings of category c, counting a rating that does not parse as 0. */
  function RatingSum(all: seq<Record>, c: string): int {
    if |all| == 0 then 0
    else
      var r := all[|all| - 1];
      RatingSum(all[..|all| - 1], c) + (if r.feedbackType == c then ParseRating(r.rating).GetOr(0) else 0)
  }

  /** The grouping the fold produces, stated declaratively: one entry per category in order
      of first occurrence, holding that category's total and count. */
  function Grouped(all: seq<Record>): Grouping {
    var cs := Categories(all);
    seq(|cs|, i requires 0 <= i < |cs| => Entry(cs[i], Bucket(TotalOf(all, cs[i]), CountOf(all, cs[i]))))
  }

  /** Position of the bucket keyed c, if there is one. */
  function IndexOf(g: Grouping, c: string): (k: Option<nat>)
    ensures k.Some? ==> k.value < |g| && g[k.value].category == c
    ensures k.Some? ==> forall i :: 0 <= i < k.value ==> g[i].category != c
    ensures k.None? <==> forall i :: 0 <= i < |g| ==> g[i].category != c
  {
    if |g| == 0 then None
    else if g[0].category == c then Some(0)
    else match IndexOf(g[1..], c)
      case None => None
      case Some(k) => Some(k + 1)
  }

  /** `grouped[c]`: the bucket keyed c, or nothing. */
  function Lookup(g: Grouping, c: string): (r: Option<Bucket>)
    ensures r.None? <==> forall i :: 0 <= i < |g| ==> g[i].category != c
    ensures r.Some? ==> exists i :: 0 <= i < |g| && g[i] == Entry(c, r.value)
  {
    match IndexOf(g, c)
    case None => None
    case Some(k) => Some(g[k].bucket)
  }

  function SumCounts(g: Grouping): nat {
    if |g| == 0 then 0 else SumCounts(g[..|g| - 1]) + g[|g| - 1].bucket.count
  }

  /** Index of the first occurrence of c. */
  function FirstIndex(xs: seq<string>, c: string): (k: nat)
    requires c in xs
    ensures k < |xs| && xs[k] == c
    ensures forall j :: 0 <= j < k ==> xs[j] != c
  {
    if xs[0] == c then 0 else 1 + FirstIndex(xs[1..], c)
  }

  /** The fold over the list (one `forEach` step per submission). The bucket of a category
      seen for the first time is created with total 0 and count 0; then its total is
      increased by the parsed rating and its count by one. */
  method GroupFeedbackByType(all: seq<Record>) returns (g: Grouping)
    ensures g == Grouped(all)
  {
    g := [];
    for i := 0 to |all|
      invariant g == Grouped(all[..i])
    {
      var r := all[i];
      var t := r.feedbackType;
      var k := IndexOf(g, t);
      if k.None? {
        g := g + [Entry(t, Bucket(Num(0), 0))];
        k := Some(|g| - 1);
      }
      var b := g[k.value].bucket;
      g := g[k.value := Entry(t, Bucket(Plus(b.totalRating, ParseRating(r.rating)), b.count + 1))];
      GroupedSnoc(all[..i], r);
      assert all[..i + 1] == all[..i] + [r];
    }
    assert all[..|all|] == all;
  }

  // ---- Lemmas about the specification functions ----

  lemma Unsnoc(s: seq<Record>, r: Record)
    ensures (s + [r])[..|s|] == s
    ensures Types(s + [r]) == Types(s) + [r.feedbackType]
  {
    assert (s + [r])[..|s|] == s;
  }

  /** The categories are exactly the feedbackTypes that occur in the list. */
  lemma {:induction false} CategoriesAreTypes(all: seq<Record>, c: string)
    ensures c in Categories(all) <==> c in Types(all)
  {
    if |all| > 0 {
      var s, r := all[..|all| - 1], all[|all| - 1];
      assert all == s + [r];
      Unsnoc(s, r);
      CategoriesAreTypes(s, c);
    }
  }

  /** No category is listed twice. */
  lemma {:induction false} CategoriesDistinct(all: seq<Record>)
    ensures Distinct(Categories(all))
  {
    if |all| > 0 {
      var s, t := all[..|all| - 1], all[|all| - 1].feedbackType;
      CategoriesDistinct(s);
      var cs := Categories(s);
      if t in cs {
        assert Categories(all) == cs;
      } else {
        var cs' := cs + [t];
        assert Categories(all) == cs';
        forall i, j | 0 <= i < j < |cs'| ensures cs'[i] != cs'[j] {
          assert cs'[i] == cs[i];
          if j < |cs| {
            assert cs'[j] == cs[j];
          }
        }
      }
    }
  }

  /** A category that does not occur has count 0 and the initial total 0. */
  lemma {:induction false} AbsentCategory(all: seq<Record>, c: string)
    requires c !in Types(all)
    ensures CountOf(all, c) == 0 && TotalOf(all, c) == Num(0)
  {
    if |all| > 0 {
      var s, r := all[..|all| - 1], all[|all| - 1];
      assert all == s + [r];
      Unsnoc(s, r);
      AbsentCategory(s, c);
    }
  }

  /** One more submission changes the grouping as one `forEach` step does: the bucket of its
      category gains the parsed rating and one count, created first (total 0, count 0) at the
      end of the key order when the category is new; every other bucket is unchanged. */
  lemma GroupedSnoc(s: seq<Record>, r: Record)
    ensures var g, t := Grouped(s), r.feedbackType;
      Grouped(s + [r]) ==
        match IndexOf(g, t)
        case Some(k) => g[k := Entry(t, Bucket(Plus(g[k].bucket.totalRating, ParseRating(r.rating)), g[k].bucket.count + 1))]
        case None => g + [Entry(t, Bucket(Plus(Num(0), ParseRating(r.rating)), 1))]
  {
    var a := s + [r];
    Unsnoc(s, r);
    var g, t := Grouped(s), r.feedbackType;
    var cs := Categories(s);
    CategoriesDistinct(s);
    assert forall c :: CountOf(a, c) == CountOf(s, c) + (if c == t then 1 else 0);
    assert forall c :: TotalOf(a, c) == if c == t then Plus(TotalOf(s, c), ParseRating(r.rating)) else TotalOf(s, c);
    if t in cs {
      assert Categories(a) == cs;
      var i :| 0 <= i < |cs| && cs[i] == t;
      assert g[i].category == t;
      var k := IndexOf(g, t).value;
      assert k == i;
    } else {
      CategoriesAreTypes(s, t);
      AbsentCategory(s, t);
      assert Categories(a) == cs + [t];
      assert IndexOf(g, t).None?;
    }
  }

  lemma FirstIndexSnoc(xs: seq<string>, t: string, c: string)
    requires c in xs + [t]
    ensures c in xs ==> FirstIndex(xs + [t], c) == FirstIndex(xs, c)
    ensures c !in xs ==> FirstIndex(xs + [t], c) == |xs|
  {
    var k := FirstIndex(xs + [t], c);
    if c in xs {
      var f := FirstIndex(xs, c);
      assert (xs + [t])[f] == c;
    }
  }

  /** The categories come in order of their first occurrence in the list. */
  lemma {:induction false} CategoriesInFirstOccurrenceOrder(all: seq<Record>)
    ensures var cs, ts := Categories(all), Types(all);
      forall i, j :: 0 <= i < j < |cs| ==>
        cs[i] in ts && cs[j] in ts && FirstIndex(ts, cs[i]) < FirstIndex(ts, cs[j])
  {
    if |all| > 0 {
      var s, r := all[..|all| - 1], all[|all| - 1];
      assert all == s + [r];
      Unsnoc(s, r);
      CategoriesInFirstOccurrenceOrder(s);
      var cs, ts, t := Categories(s), Types(s), r.feedbackType;
      forall c | c in cs ensures c in ts && FirstIndex(ts + [t], c) == FirstIndex(ts, c) {
        CategoriesAreTypes(s, c);
        FirstIndexSnoc(ts, t, c);
      }
      if t !in cs {
        CategoriesAreTypes(s, t);
        FirstIndexSnoc(ts, t, t);
        var cs' := cs + [t];
        assert Categories(all) == cs';
        forall i, j | 0 <= i < j < |cs'|
          ensures cs'[i] in ts + [t] && cs'[j] in ts + [t]
          ensures FirstIndex(ts + [t], cs'[i]) < FirstIndex(ts + [t], cs'[j])
        {
          assert cs'[i] == cs[i];
          if j < |cs| {
            assert cs'[j] == cs[j];
          }
        }
      } else {
        assert Categories(all) == cs;
      }
    }
  }

  /** A category's count is the number of submissions carrying it. */
  lemma {:induction false} CountIsMultiplicity(all: seq<Record>, c: string)
    ensures CountOf(all, c) == multiset(Types(all))[c]
  {
    if |all| > 0 {
      var s, r := all[..|all| - 1], all[|all| - 1];
      assert all == s + [r];
      Unsnoc(s, r);
      CountIsMultiplicity(s, c);
    }
  }

  /** Reading `grouped[c]` back: a bucket exists exactly for the categories that occur, and
      it holds that category's total and count. */
  lemma LookupGrouped(all: seq<Record>, c: string)
    ensures Lookup(Grouped(all), c) ==
      if c in Types(all) then Some(Bucket(TotalOf(all, c), CountOf(all, c))) else None
  {
    CategoriesAreTypes(all, c);
    var g := Grouped(all);
    if c in Categories(all) {
      var i :| 0 <= i < |Categories(all)| && Categories(all)[i] == c;
      assert g[i].category == c;
    }
  }

  /** A submission leaves the buckets of every other category as they were. */
  lemma GroupedOtherCategoriesUnchanged(s: seq<Record>, r: Record, c: string)
    requires c != r.feedbackType
    ensures Lookup(Grouped(s + [r]), c) == Lookup(Grouped(s), c)
  {
    Unsnoc(s, r);
    LookupGrouped(s + [r], c);
    LookupGrouped(s, c);
  }

  /** Each bucket counts the submissions of its category, so no count is 0 and the average's
      divisor is never zero. */
  lemma GroupedCounts(all: seq<Record>)
    ensures var g := Grouped(all);
      forall i :: 0 <= i < |g| ==>
        g[i].bucket.count == multiset(Types(all))[g[i].category] && g[i].bucket.count >= 1
  {
    var g := Grouped(all);
    forall i | 0 <= i < |g|
      ensures g[i].bucket.count == multiset(Types(all))[g[i].category] && g[i].bucket.count >= 1
    {
      var c := Categories(all)[i];
      CountIsMultiplicity(all, c);
      CategoriesAreTypes(all, c);
    }
  }

  lemma {:induction false} SumCountsUpdate(g: Grouping, k: nat, e: Entry)
    requires k < |g|
    ensures SumCounts(g[k := e]) == SumCounts(g) - g[k].bucket.count + e.bucket.count
  {
    var n := |g| - 1;
    if k < n {
      assert g[k := e][..n] == g[..n][k := e];
      SumCountsUpdate(g[..n], k, e);
    } else {
      assert g[k := e][..n] == g[..n];
    }
  }

  /** The counts add up to the number of submissions, the "Feedback Received" figure. */
  lemma {:induction false} GroupedCountsSumToLength(all: seq<Record>)
    ensures SumCounts(Grouped(all)) == |all|
  {
    if |all| > 0 {
      var s, r := all[..|all| - 1], all[|all| - 1];
      assert all == s + [r];
      GroupedCountsSumToLength(s);
      GroupedSnoc(s, r);
      var g := Grouped(s);
      match IndexOf(g, r.feedbackType)
      case Some(k) =>
        SumCountsUpdate(g, k, Entry(r.feedbackType, Bucket(Plus(g[k].bucket.totalRating, ParseRating(r.rating)), g[k].bucket.count + 1)));
      case None =>
        var e := Entry(r.feedbackType, Bucket(Plus(Num(0), ParseRating(r.rating)), 1));
        assert (g + [e])[..|g|] == g;
    }
  }

  /** The grouping has no key exactly when no feedback was submitted. */
  lemma GroupedEmptyIff(all: seq<Record>)
    ensures Grouped(all) == [] <==> all == []
  {
  }

  /** NaN poisoning: a category's total is NaN exactly when one of its ratings does not parse,
      and otherwise it is the plain sum of its ratings. Other categories do not enter. */
  lemma {:induction false} TotalIsSumOrNaN(all: seq<Record>, c: string)
    ensures TotalOf(all, c).NaN? <==>
      exists i :: 0 <= i < |all| && all[i].feedbackType == c && ParseRating(all[i].rating).None?
    ensures TotalOf(all, c).Num? ==> TotalOf(all, c).value == RatingSum(all, c)
  {
    if |all| > 0 {
      var s, r := all[..|all| - 1], all[|all| - 1];
      assert all == s + [r];
      TotalIsSumOrNaN(s, c);
      if exists i :: 0 <= i < |s| && s[i].feedbackType == c && ParseRating(s[i].rating).None? {
        var i :| 0 <= i < |s| && s[i].feedbackType == c && ParseRating(s[i].rating).None?;
        assert all[i] == s[i];
      }
      if exists i :: 0 <= i < |all| && all[i].feedbackType == c && ParseRating(all[i].rating).None? {
        var i :| 0 <= i < |all| && all[i].feedbackType == c && ParseRating(all[i].rating).None?;
        if i < |s| {
          assert s[i] == all[i];
        }
      }
    }
  }

  /** Two submissions of "Delivery" rated "4" and "2" give total 6 over 2, an average of 3. */
  lemma DeliveryExample(a: Record, b: Record)
    requires a.feedbackType == "Delivery" && a.rating == "4"
    requires b.feedbackType == "Delivery" && b.rating == "2"
    ensures Lookup(Grouped([a, b]), "Delivery") == Some(Bucket(Num(6), 2))
  {
    FormRatingValues();
    LookupGrouped([a, b], "Delivery");
    assert [a, b][..1] == [a] && [a][..0] == [];
    assert TotalOf([a], "Delivery") == Num(4) && CountOf([a], "Delivery") == 1;
    assert Types([a, b])[0] == "Delivery";
  }

  /** A category whose only submission has a blank rating has total NaN, shown as "NaN". */
  lemma UnratedExample(a: Record)
    requires a.rating == ""
    ensures Lookup(Grouped([a]), a.feedbackType) == Some(Bucket(NaN, 1))
  {
    LookupGrouped([a], a.feedbackType);
    assert Types([a]) == [a.feedbackType];
  }
}
