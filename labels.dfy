/**
 * The size labels and the classifier that maps a total change count to one
 * of them through a threshold policy.
 */
module Labels {
  import opened Config

  /** Every size label starts with this prefix; it is how size labels are told apart. */
  const LabelPrefix: string := "size/"
  const LabelXS: string := "size/XS"
  const LabelS: string := "size/S"
  const LabelM: string := "size/M"
  const LabelL: string := "size/L"
  const LabelXL: string := "size/XL"
  const LabelXXL: string := "size/XXL"

  /** The six label strings. */
  const AllNames: set<string> := {LabelXS, LabelS, LabelM, LabelL, LabelXL, LabelXXL}

  /** A label of the pull request is a size label when it carries the prefix. */
  predicate IsSizeLabel(name: string): (r: bool)
    ensures r <==> |LabelPrefix| <= |name| && name[..|LabelPrefix|] == LabelPrefix
  {
    LabelPrefix <= name
  }

  /** The six buckets, smallest first. */
  datatype SizeLabel = XS | S | M | L | XL | XXL
  {
    /** Position in the order XS < S < M < L < XL < XXL. */
    function Index(): nat
    {
      match this
      case XS => 0
      case S => 1
      case M => 2
      case L => 3
      case XL => 4
      case XXL => 5
    }

    /** The label string put on the pull request. */
    function Name(): (r: string)
      ensures r in AllNames
      ensures IsSizeLabel(r)
    {
      match this
      case XS => LabelXS
      case S => LabelS
      case M => LabelM
      case L => LabelL
      case XL => LabelXL
      case XXL => LabelXXL
    }
  }

  /**
   * Reference for a first-match-wins threshold chain: the position of the
   * first threshold that `count` is below, or |t| when there is none.
   */
  function FirstAbove(count: int, t: seq<int>): (i: nat)
    ensures i <= |t|
    ensures forall k :: 0 <= k < i ==> t[k] <= count
    ensures i < |t| ==> count < t[i]
  {
    if t == [] then 0
    else if count < t[0] then 0
    else 1 + FirstAbove(count, t[1..])
  }

  /** Reference for sorted thresholds: how many thresholds `count` has reached. */
  function CountReached(count: int, t: seq<int>): nat
  {
    if t == [] then 0
    else (if t[0] <= count then 1 else 0) + CountReached(count, t[1..])
  }

  /** The classifier: the first threshold the count is below decides the label. */
  function CompareAndGetLabel(totalCount: int, size: Size): (r: SizeLabel)
    ensures r.Index() == FirstAbove(totalCount, size.Bounds())
  {
    var t := size.Bounds();
    assert t[0] == size.s && t[1] == size.m && t[2] == size.l && t[3] == size.xl && t[4] == size.xxl;
    if totalCount < size.s then XS
    else if totalCount < size.m then S
    else if totalCount < size.l then M
    else if totalCount < size.xl then L
    else if totalCount < size.xxl then XL
    else XXL
  }

  /** No two labels share a string, so the string identifies the bucket. */
  lemma NameInjective(a: SizeLabel, b: SizeLabel)
    ensures a.Name() == b.Name() ==> a == b
  {
  }

  lemma {:induction false} CountReachedNone(count: int, t: seq<int>)
    requires forall k :: 0 <= k < |t| ==> count < t[k]
    ensures CountReached(count, t) == 0
  {
    if t != [] {
      CountReachedNone(count, t[1..]);
    }
  }

  /** On sorted thresholds the first-match position is the number of thresholds reached. */
  lemma {:induction false} FirstAboveIsCountReached(count: int, t: seq<int>)
    requires Sorted(t)
    ensures FirstAbove(count, t) == CountReached(count, t)
  {
    if t != [] {
      assert Sorted(t[1..]) by {
        forall i, j | 0 <= i <= j < |t[1..]| ensures t[1..][i] <= t[1..][j] {
          assert t[1..][i] == t[i + 1] && t[1..][j] == t[j + 1];
        }
      }
      if count < t[0] {
        forall k | 0 <= k < |t[1..]| ensures count < t[1..][k] {
          assert t[0] <= t[k + 1];
        }
        CountReachedNone(count, t[1..]);
      } else {
        FirstAboveIsCountReached(count, t[1..]);
      }
    }
  }

  /** For a valid policy the label's index is the number of thresholds the count has reached. */
  lemma LabelCountsThresholds(count: int, size: Size)
    requires size.Valid()
    ensures CompareAndGetLabel(count, size).Index() == CountReached(count, size.Bounds())
  {
    FirstAboveIsCountReached(count, size.Bounds());
  }

  /** Monotonicity: more changed lines never give a smaller label. */
  lemma LabelMonotone(c1: int, c2: int, size: Size)
    requires c1 <= c2
    ensures CompareAndGetLabel(c1, size).Index() <= CompareAndGetLabel(c2, size).Index()
  {
  }

  /**
   * Threshold exactness for a valid policy: each label is given exactly on its
   * half-open interval; a count equal to a threshold takes the upper label.
   */
  lemma LabelBuckets(count: int, size: Size)
    requires size.Valid()
    ensures var r := CompareAndGetLabel(count, size);
      && (r == XS <==> count < size.s)
      && (r == S <==> size.s <= count < size.m)
      && (r == M <==> size.m <= count < size.l)
      && (r == L <==> size.l <= count < size.xl)
      && (r == XL <==> size.xl <= count < size.xxl)
      && (r == XXL <==> size.xxl <= count)
  {
    var t := size.Bounds();
    assert t[0] <= t[1] <= t[2] <= t[3] <= t[4];
  }

  /** The policy 10, 50, 200, 500, 1000 and some counts around its thresholds. */
  lemma BoundaryExamples()
    ensures var p := Size(10, 50, 200, 500, 1000);
      && CompareAndGetLabel(9, p) == XS
      && CompareAndGetLabel(10, p) == S
      && CompareAndGetLabel(49, p) == S
      && CompareAndGetLabel(50, p) == M
      && CompareAndGetLabel(1000, p) == XXL
      && CompareAndGetLabel(1001, p) == XXL
  {
  }
}
