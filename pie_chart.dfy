/** The PieChart component: each slice gets a wedge whose span is its share of the total,
    laid out clockwise from angle 0 by a running `cumulativePercent`. Angles are kept as
    fractions of a full turn; the cosine and sine that turn them into points are not modelled. */
module PieChart {
  import opened ChartMath

  /** One slice of the series, `{ label, value, color }`; the label is kept as `title`. */
  datatype Slice = Slice(title: string, value: real, color: string)

  /** One wedge: its share of the total, the turn fractions where it starts and ends, the SVG
      large-arc flag (0 or 1), the turn fraction of its label and its percentage label. */
  datatype Wedge = Wedge(share: real, start: real, end: real, largeArc: int, labelAt: real, percent: int)

  /** The sum of a series, added from the left as `reduce` does. */
  function Sum(s: seq<real>): real
  {
    if s == [] then 0.0 else Sum(s[..|s| - 1]) + s[|s| - 1]
  }

  function Values(data: seq<Slice>): seq<real>
  {
    seq(|data|, i requires 0 <= i < |data| => data[i].value)
  }

  /** `data.reduce((sum, item) => sum + item.value, 0)`. */
  function Total(data: seq<Slice>): (t: real)
    ensures |data| == 0 ==> t == 0.0
    ensures (forall k :: 0 <= k < |data| ==> data[k].value >= 0.0) ==> t >= 0.0
  {
    var vs := Values(data);
    assert (forall k :: 0 <= k < |data| ==> data[k].value >= 0.0) ==> Sum(vs) >= 0.0 by {
      if forall k :: 0 <= k < |data| ==> data[k].value >= 0.0 {
        assert forall k :: 0 <= k < |vs| ==> vs[k] == data[k].value;
        NonNegativeSum(vs);
      }
    }
    Sum(vs)
  }

  /** Each value divided by the total: the share that, times the total, gives the value back. */
  function Shares(data: seq<Slice>, total: real): (r: seq<real>)
    requires total != 0.0
    ensures |r| == |data|
    ensures forall i {:trigger r[i]} :: 0 <= i < |data| ==> r[i] * total == data[i].value
  {
    seq(|data|, i requires 0 <= i < |data| => data[i].value / total)
  }

  /** The wedge that starts at turn fraction `start` and spans `share` of the circle. */
  function MakeWedge(start: real, share: real): (w: Wedge)
    ensures w.start == start && w.share == share
    ensures w.end - w.start == share
    ensures w.largeArc == 1 <==> share > 0.5
    ensures w.largeArc == 0 <==> share <= 0.5
    ensures 0.0 <= share ==> w.start <= w.labelAt <= w.end
    ensures w.labelAt - w.start == w.end - w.labelAt
    ensures (w.percent as real) - 0.5 <= share * 100.0 < (w.percent as real) + 0.5
  {
    var end := start + share;
    Wedge(share, start, end, if share > 0.5 then 1 else 0, end - share / 2.0, Round(share * 100.0))
  }

  /** Wedge i spans share i, starting where the shares before it add up to and ending where the
      shares up to and including it add up to. */
  function Wedges(shares: seq<real>): (w: seq<Wedge>)
    ensures |w| == |shares|
    ensures forall i {:trigger w[i]} :: 0 <= i < |w| ==>
      w[i] == MakeWedge(Sum(shares[..i]), shares[i]) && w[i].end == Sum(shares[..i + 1])
  {
    assert forall i :: 0 <= i < |shares| ==> Sum(shares[..i + 1]) == Sum(shares[..i]) + shares[i] by {
      forall i | 0 <= i < |shares|
        ensures Sum(shares[..i + 1]) == Sum(shares[..i]) + shares[i]
      {
        assert shares[..i + 1][..i] == shares[..i];
      }
    }
    seq(|shares|, i requires 0 <= i < |shares| => MakeWedge(Sum(shares[..i]), shares[i]))
  }

  /** The component's loop: `cumulativePercent` starts at 0 and grows by each share in turn;
      each wedge starts at its value before the update and ends at its value after it. */
  method LayOutWedges(data: seq<Slice>) returns (r: Result<seq<Wedge>>)
    ensures |data| == 0 ==> r == Ok([])
    ensures |data| > 0 && Total(data) == 0.0 ==> r == Err(ZeroTotal)
    ensures Total(data) != 0.0 ==> r == Ok(Wedges(Shares(data, Total(data))))
  {
    if |data| == 0 {
      return Ok([]);
    }
    var total := Total(data);
    if total == 0.0 {
      return Err(ZeroTotal);
    }
    ghost var shares := Shares(data, total);
    var cumulativePercent := 0.0;
    var wedges: seq<Wedge> := [];
    for i := 0 to |data|
      invariant cumulativePercent == Sum(shares[..i])
      invariant |wedges| == i
      invariant forall k :: 0 <= k < i ==> wedges[k] == Wedges(shares)[k]
    {
      var percent := data[i].value / total;
      var start := cumulativePercent;
      cumulativePercent := cumulativePercent + percent;
      assert shares[..i + 1][..i] == shares[..i];
      wedges := wedges + [MakeWedge(start, percent)];
    }
    assert wedges == Wedges(shares);
    return Ok(wedges);
  }

  /** Summing a series and then dividing is the same as summing the quotients. */
  lemma {:induction false} SumOfQuotients(s: seq<real>, t: real)
    requires t != 0.0
    ensures Sum(seq(|s|, i requires 0 <= i < |s| => s[i] / t)) == Sum(s) / t
  {
    var q := seq(|s|, i requires 0 <= i < |s| => s[i] / t);
    if s != [] {
      var n := |s| - 1;
      assert q[..n] == seq(n, i requires 0 <= i < n => s[..n][i] / t);
      SumOfQuotients(s[..n], t);
      assert Sum(q) == Sum(s[..n]) / t + s[n] / t;
    }
  }

  /** The shares of a series with a non-zero total add up to exactly 1. */
  lemma SharesSumToOne(data: seq<Slice>)
    requires Total(data) != 0.0
    ensures Sum(Shares(data, Total(data))) == 1.0
  {
    var vs := Values(data);
    var total := Total(data);
    assert Shares(data, total) == seq(|vs|, i requires 0 <= i < |vs| => vs[i] / total);
    SumOfQuotients(vs, total);
    assert Sum(vs) == total;
    assert Sum(Shares(data, total)) == Sum(vs) / total;
  }

  /** The wedges chain into a closed circle: the first starts at 0, each starts where the one
      before it ends (so wedge i ends at the sum of shares 0..i), and the last ends at 1. */
  lemma WedgesCloseCircle(data: seq<Slice>)
    requires |data| > 0 && Total(data) != 0.0
    ensures var shares := Shares(data, Total(data));
      var w := Wedges(shares);
      && |w| == |data|
      && w[0].start == 0.0
      && (forall i :: 0 <= i < |w| ==> w[i].end == Sum(shares[..i + 1]))
      && (forall i :: 0 <= i < |w| - 1 ==> w[i].end == w[i + 1].start)
      && w[|w| - 1].end == 1.0
  {
    var shares := Shares(data, Total(data));
    var w := Wedges(shares);
    assert shares[..|w|] == shares;
    SharesSumToOne(data);
  }

  /** A sum of non-negative terms is at least any two of its terms. */
  lemma {:induction false} SumAtLeastTwoTerms(s: seq<real>, i: int, j: int)
    requires forall k :: 0 <= k < |s| ==> s[k] >= 0.0
    requires 0 <= i < |s| && 0 <= j < |s| && i != j
    ensures Sum(s) >= s[i] + s[j]
  {
    var n := |s| - 1;
    var p := s[..n];
    if i == n || j == n {
      var other := if i == n then j else i;
      SumAtLeastOneTerm(p, other);
    } else {
      SumAtLeastTwoTerms(p, i, j);
    }
  }

  /** A sum of non-negative terms is at least each of its terms. */
  lemma {:induction false} SumAtLeastOneTerm(s: seq<real>, i: int)
    requires forall k :: 0 <= k < |s| ==> s[k] >= 0.0
    requires 0 <= i < |s|
    ensures Sum(s) >= s[i]
  {
    var n := |s| - 1;
    NonNegativeSum(s[..n]);
    if i < n {
      SumAtLeastOneTerm(s[..n], i);
    }
  }

  lemma {:induction false} NonNegativeSum(s: seq<real>)
    requires forall k :: 0 <= k < |s| ==> s[k] >= 0.0
    ensures Sum(s) >= 0.0
  {
    if s != [] {
      NonNegativeSum(s[..|s| - 1]);
    }
  }

  /** With non-negative values, at most one wedge is drawn with the large-arc flag, and every
      percentage label sits inside its own wedge. */
  lemma AtMostOneLargeArc(data: seq<Slice>)
    requires Total(data) != 0.0
    requires forall k :: 0 <= k < |data| ==> data[k].value >= 0.0
    ensures var w := Wedges(Shares(data, Total(data)));
      && (forall i, j :: 0 <= i < |w| && 0 <= j < |w| && w[i].largeArc == 1 && w[j].largeArc == 1 ==> i == j)
      && (forall i :: 0 <= i < |w| ==> w[i].start <= w[i].labelAt <= w[i].end)
  {
    var total := Total(data);
    var shares := Shares(data, total);
    var w := Wedges(shares);
    NonNegativeSum(Values(data));
    forall k | 0 <= k < |shares|
      ensures shares[k] >= 0.0
    {
      assert shares[k] == data[k].value / total;
    }
    SharesSumToOne(data);
    forall i, j | 0 <= i < |w| && 0 <= j < |w| && w[i].largeArc == 1 && w[j].largeArc == 1
      ensures i == j
    {
      if i != j {
        SumAtLeastTwoTerms(shares, i, j);
      }
    }
  }

  /** The sum of the percentage labels. */
  function PercentSum(w: seq<Wedge>): int
  {
    if w == [] then 0 else PercentSum(w[..|w| - 1]) + w[|w| - 1].percent
  }

  /** Each label is rounded on its own, so n labels add up to 100 only within n/2 either way. */
  lemma PercentLabelsNearHundred(data: seq<Slice>)
    requires Total(data) != 0.0
    ensures var w := Wedges(Shares(data, Total(data)));
      var n := |w| as real;
      100.0 - n / 2.0 <= PercentSum(w) as real <= 100.0 + n / 2.0
  {
    var shares := Shares(data, Total(data));
    SharesSumToOne(data);
    PercentSumBound(shares);
  }

  lemma {:induction false} PercentSumBound(shares: seq<real>)
    ensures var w := Wedges(shares);
      var n := |w| as real;
      100.0 * Sum(shares) - n / 2.0 <= PercentSum(w) as real <= 100.0 * Sum(shares) + n / 2.0
  {
    var w := Wedges(shares);
    if shares != [] {
      var n := |shares| - 1;
      assert w[..n] == Wedges(shares[..n]) by {
        forall i | 0 <= i < n ensures shares[..n][..i] == shares[..i] {}
      }
      PercentSumBound(shares[..n]);
    }
  }

  /** The point on the circle at a turn fraction depends only on the fraction's part after
      the whole turns: a value in [0, 1). */
  function TurnPosition(f: real): (p: real)
    ensures 0.0 <= p < 1.0
    ensures (f - p).Floor as real == f - p
  {
    f - f.Floor as real
  }

  /** The fraction of the circle the component's path `M 100 100 L start A 100 100 0 flag 1 end
      L 100 100` covers: an SVG arc whose two end points coincide is not drawn at all
      (SVG 1.1, Appendix F.6.2), otherwise it sweeps clockwise from start to end. That reading
      holds for a share in [0, 1], the only shares it is applied to: for a negative share the
      flags pick another arc through the same two points. */
  function DrawnSweep(w: Wedge): (s: real)
    ensures 0.0 <= s < 1.0
    ensures s == 0.0 <==> (w.end - w.start).Floor as real == w.end - w.start
  {
    SamePosition(w.start, w.end);
    if TurnPosition(w.start) == TurnPosition(w.end) then 0.0 else TurnPosition(w.end - w.start)
  }

  /** Two turn fractions name the same point exactly when they are a whole number of turns apart. */
  lemma SamePosition(a: real, b: real)
    ensures TurnPosition(a) == TurnPosition(b) <==> (b - a).Floor as real == b - a
  {
    if TurnPosition(a) == TurnPosition(b) {
      assert b - a == (b.Floor - a.Floor) as real;
    }
    if (b - a).Floor as real == b - a {
      assert b.Floor == a.Floor + (b - a).Floor;
    }
  }

  /** As written, a slice that holds the whole total (the only slice, or the only non-zero one;
      of either sign)
      gets a wedge whose arc starts and ends at the same point, so it covers nothing. */
  lemma WholeTotalWedgeVanishes(title: string, value: real, color: string)
    requires value != 0.0
    ensures var data := [Slice(title, value, color)];
      Total(data) == value &&
      var w := Wedges(Shares(data, Total(data)));
      |w| == 1 && w[0].share == 1.0 && w[0].percent == 100 && DrawnSweep(w[0]) == 0.0
  {
    var data := [Slice(title, value, color)];
    assert Values(data) == [value];
    assert Values(data)[..0] == [];
    assert Sum(Values(data)) == Sum([]) + value;
    assert Total(data) == value;
    assert value / value == 1.0;
    assert Shares(data, value) == [1.0];
    var w := Wedges(Shares(data, Total(data)));
    assert w[0].start == 0.0 && w[0].end == 1.0;
    RoundIntegral(100);
  }

  /** What a wedge is drawn as: a sector path, or a full disc for a wedge spanning the whole turn. */
  datatype Outline = Sector(wedge: Wedge) | Disc

  function WedgeOutline(w: Wedge): (o: Outline)
    ensures o == Disc <==> w.share >= 1.0
    ensures o.Sector? ==> o.wedge == w
  {
    if w.share >= 1.0 then Disc else Sector(w)
  }

  /** The fraction of the circle an outline covers. */
  function OutlineSweep(o: Outline): (r: real)
    ensures 0.0 <= r <= 1.0
    ensures r == 1.0 <==> o == Disc
  {
    match o
    case Disc => 1.0
    case Sector(w) => DrawnSweep(w)
  }

  /** Drawing a whole-turn wedge as a disc makes every wedge cover exactly its share. */
  lemma OutlineCoversShare(start: real, share: real)
    requires 0.0 <= share <= 1.0
    ensures OutlineSweep(WedgeOutline(MakeWedge(start, share))) == share
  {
    var w := MakeWedge(start, share);
    if share < 1.0 {
      var k := start.Floor;
      var f := start - k as real;
      if f + share < 1.0 {
        assert (start + share).Floor == k;
      } else {
        assert (start + share).Floor == k + 1;
      }
      assert share.Floor == 0;
      if share > 0.0 {
        assert TurnPosition(w.start) != TurnPosition(w.end);
      }
    }
  }

  /** The dashboard's pipeline: Applied 400, Screening 250, Interview 150, Assessment 100 and
      Offer 50 of 950; Applied starts at 0 and is labelled 42%. */
  lemma SamplePipeline()
    ensures var data := [Slice("Applied", 400.0, "#3B82F6"), Slice("Screening", 250.0, "#10B981"),
                         Slice("Interview", 150.0, "#F59E0B"), Slice("Assessment", 100.0, "#6366F1"),
                         Slice("Offer", 50.0, "#8B5CF6")];
      Total(data) == 950.0 &&
      var w := Wedges(Shares(data, Total(data)));
      && |w| == 5
      && w[0].start == 0.0 && w[0].percent == 42 && w[0].largeArc == 0
      && w[4].percent == 5
  {
    var data := [Slice("Applied", 400.0, "#3B82F6"), Slice("Screening", 250.0, "#10B981"),
                 Slice("Interview", 150.0, "#F59E0B"), Slice("Assessment", 100.0, "#6366F1"),
                 Slice("Offer", 50.0, "#8B5CF6")];
    var vs := Values(data);
    assert vs == [400.0, 250.0, 150.0, 100.0, 50.0];
    assert vs[..4] == [400.0, 250.0, 150.0, 100.0];
    assert vs[..3] == [400.0, 250.0, 150.0];
    assert vs[..2] == [400.0, 250.0];
    assert vs[..1] == [400.0];
    assert vs[..0] == [];
    assert Sum(vs[..1]) == 400.0;
    assert Sum(vs[..2]) == 650.0;
    assert vs[..3][..2] == vs[..2];
    assert Sum(vs[..3]) == 800.0;
    assert vs[..4][..3] == vs[..3];
    assert Sum(vs[..4]) == 900.0;
    assert Sum(vs) == 950.0;
    assert Total(data) == 950.0;
  }
}
