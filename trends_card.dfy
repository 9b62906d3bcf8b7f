/** The trends card (src/components/TrendsCard.tsx): the mock list of
    beauty trends, its grouping into the AI, Eco and Style buckets, the
    extra trends shown when the card is expanded, and the expand toggle. */
module Trends {

  /** One trend; the icon element is not modelled. */
  datatype Trend = Trend(title: string, description: string, category: string, tag: string)

  /** The trends of one category, in their original order. */
  function ByCategory(trends: seq<Trend>, category: string): (r: seq<Trend>)
    ensures |r| <= |trends|
    ensures forall t :: t in r <==> t in trends && t.category == category
  {
    if |trends| == 0 then []
    else
      var rest := ByCategory(trends[1..], category);
      assert forall t :: t in trends <==> t == trends[0] || t in trends[1..];
      if trends[0].category == category then [trends[0]] + rest else rest
  }

  /** Filtering distributes over concatenation, so it keeps the relative
      order of the trends it selects. */
  lemma {:induction false} ByCategoryConcat(a: seq<Trend>, b: seq<Trend>, category: string)
    ensures ByCategory(a + b, category) == ByCategory(a, category) + ByCategory(b, category)
    decreases |a|
  {
    if |a| > 0 {
      assert (a + b)[1..] == a[1..] + b;
      ByCategoryConcat(a[1..], b, category);
    } else {
      assert a + b == b;
    }
  }

  /** The three buckets the card lists, in the order it lists them. */
  datatype Buckets = Buckets(ai: seq<Trend>, eco: seq<Trend>, style: seq<Trend>)

  function Categorize(trends: seq<Trend>): Buckets
  {
    Buckets(ByCategory(trends, "AI"), ByCategory(trends, "Eco"), ByCategory(trends, "Style"))
  }

  predicate KnownCategory(t: Trend)
  {
    t.category == "AI" || t.category == "Eco" || t.category == "Style"
  }

  /** No trend is in two buckets, and a trend of any other category is in
      none. */
  lemma BucketsDisjoint(trends: seq<Trend>, t: Trend)
    ensures var b := Categorize(trends);
            (t in b.ai ==> t !in b.eco && t !in b.style)
            && (t in b.eco ==> t !in b.style)
            && (!KnownCategory(t) ==> t !in b.ai && t !in b.eco && t !in b.style)
  {
  }

  function BucketTotal(b: Buckets): nat
  {
    |b.ai| + |b.eco| + |b.style|
  }

  /** The buckets together hold at most every trend, and all of them exactly
      when every category is one of the three. */
  lemma {:induction false} BucketTotalCounts(trends: seq<Trend>)
    ensures BucketTotal(Categorize(trends)) <= |trends|
    ensures BucketTotal(Categorize(trends)) == |trends| <==> forall t :: t in trends ==> KnownCategory(t)
    decreases |trends|
  {
    if |trends| > 0 {
      BucketTotalCounts(trends[1..]);
      assert forall t :: t in trends <==> t == trends[0] || t in trends[1..];
      var head := if KnownCategory(trends[0]) then 1 else 0;
      assert BucketTotal(Categorize(trends)) == BucketTotal(Categorize(trends[1..])) + head;
    }
  }

  /** `trends.slice(2)`: everything after the first two, nothing for a
      shorter list. */
  function Expanded(trends: seq<Trend>): (r: seq<Trend>)
    ensures |r| == if |trends| >= 2 then |trends| - 2 else 0
    ensures forall i :: 0 <= i < |r| ==> r[i] == trends[i + 2]
  {
    if |trends| >= 2 then trends[2..] else []
  }

  /** The first two trends followed by the expanded view give back the
      whole list. */
  lemma ExpandedRestores(trends: seq<Trend>)
    ensures trends == trends[..if |trends| >= 2 then 2 else |trends|] + Expanded(trends)
  {
  }

  const AISkinAnalysis := Trend("AI Skin Analysis",
                                "Real-time diagnostics with smart mirrors & mobile apps.", "AI", "Tech")
  const LabGrownSkincare := Trend("Lab-Grown Skincare",
                                  "Sustainable biotech ingredients like vegan collagen.", "Eco", "Eco")
  const GraphicEyeliners := Trend("Graphic Eyeliners",
                                  "Vibrant, floating liners popular across runways & socials.", "Style", "Style")
  const WaterSavingRoutines := Trend("Water-Saving Routines",
                                     "Beauty routines designed to conserve water usage.", "Eco", "Eco")

  /** What the mock fetch resolves with. */
  const MockTrends := [AISkinAnalysis, LabGrownSkincare, GraphicEyeliners, WaterSavingRoutines]

  /** The mock data fills the buckets with one, two and one trends, and
      expanding shows its last two. */
  lemma MockTrendsLayout()
    ensures Categorize(MockTrends) == Buckets([AISkinAnalysis], [LabGrownSkincare, WaterSavingRoutines],
                                              [GraphicEyeliners])
    ensures Expanded(MockTrends) == [GraphicEyeliners, WaterSavingRoutines]
  {
    FourTrendsLayout(AISkinAnalysis, LabGrownSkincare, GraphicEyeliners, WaterSavingRoutines);
  }

  /** Four trends of categories AI, Eco, Style and Eco, in that order. */
  lemma FourTrendsLayout(a: Trend, b: Trend, c: Trend, d: Trend)
    requires a.category == "AI" && b.category == "Eco" && c.category == "Style" && d.category == "Eco"
    ensures Categorize([a, b, c, d]) == Buckets([a], [b, d], [c])
    ensures Expanded([a, b, c, d]) == [c, d]
  {
    var m := [a, b, c, d];
    assert m[1..] == [b, c, d] && m[1..][1..] == [c, d] && m[1..][1..][1..] == [d];
    assert m[1..][1..][1..][1..] == [];
    assert |"AI"| == 2 && |"Eco"| == 3 && |"Style"| == 5;
    assert ByCategory([d], "AI") == [] && ByCategory([d], "Eco") == [d] && ByCategory([d], "Style") == [];
    assert ByCategory([c, d], "AI") == [] && ByCategory([c, d], "Eco") == [d]
           && ByCategory([c, d], "Style") == [c];
    assert ByCategory([b, c, d], "AI") == [] && ByCategory([b, c, d], "Eco") == [b, d]
           && ByCategory([b, c, d], "Style") == [c];
  }

  /** What the card shows. */
  datatype TrendsView = LoadingView | Shown(buckets: Buckets, extra: seq<Trend>)

  class TrendsCard {
    var trends: seq<Trend>
    var isExpanded: bool
    var loading: bool

    constructor ()
      ensures trends == [] && !isExpanded && loading
    {
      trends, isExpanded, loading := [], false, true;
    }

    /** The loading message, or the buckets and, when expanded, the extra
        trends. */
    function View(): (v: TrendsView)
      reads this
      ensures v.LoadingView? <==> loading
      ensures v.Shown? ==> v.buckets == Categorize(trends)
                           && (isExpanded ==> v.extra == Expanded(trends))
                           && (!isExpanded ==> v.extra == [])
    {
      if loading then LoadingView
      else Shown(Categorize(trends), if isExpanded then Expanded(trends) else [])
    }

    /** The mount effect: the mock data arrives and loading ends. */
    method LoadTrends()
      modifies this`trends, this`loading
      ensures trends == MockTrends && !loading
    {
      trends := MockTrends;
      loading := false;
    }

    method ToggleExpansion()
      modifies this`isExpanded
      ensures isExpanded == !old(isExpanded)
    {
      isExpanded := !isExpanded;
    }
  }

  /** Two clicks on the toggle leave the card as it was. */
  method ToggleTwiceRestores(card: TrendsCard)
    modifies card
    ensures card.isExpanded == old(card.isExpanded)
    ensures card.trends == old(card.trends) && card.loading == old(card.loading)
  {
    card.ToggleExpansion();
    card.ToggleExpansion();
  }
}
