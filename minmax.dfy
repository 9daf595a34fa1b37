/** The running statistics tracker of src/minmax.rs: a count, the smallest and
    largest value seen, the last value, and a flag that stays true while the
    values arrive in non-decreasing order. */
module ModMinMax {

  /** Rust's i32. */
  newtype i32 = x: int | -0x8000_0000 <= x < 0x8000_0000

  const I32_MAX: int := 0x7fff_ffff

  /** The smallest element of a non-empty sequence, folded from the left. */
  function Least(s: seq<int>): int
    requires |s| > 0
  {
    if |s| == 1 then s[0]
    else
      var m := Least(s[..|s| - 1]);
      if m > s[|s| - 1] then s[|s| - 1] else m
  }

  /** The largest element of a non-empty sequence, folded from the left. */
  function Greatest(s: seq<int>): int
    requires |s| > 0
  {
    if |s| == 1 then s[0]
    else
      var m := Greatest(s[..|s| - 1]);
      if m < s[|s| - 1] then s[|s| - 1] else m
  }

  /** Every element is at least its predecessor. */
  ghost predicate NonDecreasing(s: seq<int>) {
    forall i :: 0 < i < |s| ==> s[i - 1] <= s[i]
  }

  /** Least is a lower bound of the sequence and one of its elements. */
  lemma {:induction false} LeastIsMinimum(s: seq<int>)
    requires |s| > 0
    ensures Least(s) in s
    ensures forall x :: x in s ==> Least(s) <= x
  {
    if |s| > 1 {
      var init := s[..|s| - 1];
      LeastIsMinimum(init);
      assert s == init + [s[|s| - 1]];
    }
  }

  /** Greatest is an upper bound of the sequence and one of its elements. */
  lemma {:induction false} GreatestIsMaximum(s: seq<int>)
    requires |s| > 0
    ensures Greatest(s) in s
    ensures forall x :: x in s ==> x <= Greatest(s)
  {
    if |s| > 1 {
      var init := s[..|s| - 1];
      GreatestIsMaximum(init);
      assert s == init + [s[|s| - 1]];
    }
  }

  /** Comparing neighbours only is enough: a sequence is non-decreasing in the
      adjacent sense exactly when every element is at most every later one. */
  lemma {:induction false} NonDecreasingIsSorted(s: seq<int>)
    ensures NonDecreasing(s) <==> forall i, j :: 0 <= i <= j < |s| ==> s[i] <= s[j]
  {
    if NonDecreasing(s) && |s| > 1 {
      var init := s[..|s| - 1];
      assert NonDecreasing(init);
      NonDecreasingIsSorted(init);
      forall i, j | 0 <= i <= j < |s| ensures s[i] <= s[j] {
        if j == |s| - 1 && i < j {
          assert init[i] <= init[j - 1];
        } else if j < |s| - 1 {
          assert init[i] <= init[j];
        }
      }
    }
  }

  /** Extending a non-empty sequence keeps it non-decreasing exactly when the
      new element is at least the previous last one. */
  lemma NonDecreasingSnoc(s: seq<int>, v: int)
    requires |s| > 0
    ensures NonDecreasing(s + [v]) <==> NonDecreasing(s) && s[|s| - 1] <= v
  {
    var t := s + [v];
    if NonDecreasing(t) {
      forall i | 0 < i < |s| ensures s[i - 1] <= s[i] {
        assert t[i - 1] <= t[i];
      }
      assert t[|s| - 1] <= t[|s|];
    }
  }

  /** The extremes of a history extended by one value, from those of the
      history before it. */
  lemma ExtremesSnoc(s: seq<int>, v: int)
    requires |s| > 0
    ensures Least(s + [v]) == if Least(s) > v then v else Least(s)
    ensures Greatest(s + [v]) == if Greatest(s) < v then v else Greatest(s)
  {
    assert (s + [v])[..|s|] == s;
  }

  /** The order flag of a history extended by one value: the history was in
      order after the initial 0, and the value is at least the one before it. */
  lemma OrderSnoc(s: seq<int>, v: int)
    ensures NonDecreasing([0] + (s + [v]))
        <==> NonDecreasing([0] + s) && (if s == [] then 0 else s[|s| - 1]) <= v
  {
    assert [0] + (s + [v]) == ([0] + s) + [v];
    assert ([0] + s)[|s|] == (if s == [] then 0 else s[|s| - 1]);
    NonDecreasingSnoc([0] + s, v);
  }

  /** Once the order is broken, no later value restores it. */
  lemma OrderNeverRestored(s: seq<int>, t: seq<int>)
    requires !NonDecreasing(s)
    ensures !NonDecreasing(s + t)
  {
    var i :| 0 < i < |s| && s[i - 1] > s[i];
    assert (s + t)[i - 1] > (s + t)[i];
  }

  /** The tracker. `values` is the history of added values, which the
      struct does not keep but which its fields summarise. */
  class MinMax {
    var nb: i32
    var min: i32
    var max: i32
    var last: i32
    var ordre: bool
    ghost var values: seq<int>

    /** The fields summarise the history: the count, the extremes, the last
        value, and whether 0 followed by the history is non-decreasing (the
        first comparison is against the initial `last` of 0). */
    ghost predicate Valid()
      reads this
    {
      && nb as int == |values|
      && (values == [] ==> min == 0 && max == 0 && last == 0)
      && (values != [] ==>
            && min as int == Least(values)
            && max as int == Greatest(values)
            && last as int == values[|values| - 1])
      && (ordre <==> NonDecreasing([0] + values))
    }

    /** create_min_max: everything zero and the order flag set. */
    constructor CreateMinMax()
      ensures Valid() && values == []
      ensures nb == 0 && min == 0 && max == 0 && last == 0 && ordre
    {
      nb, min, max, last, ordre := 0, 0, 0, 0, true;
      values := [];
    }

    /** add: records one more value. */
    method Add(valeur: i32)
      requires Valid()
      requires nb as int < I32_MAX
      modifies this
      ensures Valid()
      ensures values == old(values) + [valeur as int]
      ensures nb == old(nb) + 1 && last == valeur
      ensures old(nb) == 0 ==> min == valeur && max == valeur
      ensures old(nb) != 0 ==> min == (if old(min) > valeur then valeur else old(min))
      ensures old(nb) != 0 ==> max == (if old(max) < valeur then valeur else old(max))
      ensures ordre <==> old(ordre) && old(last) <= valeur
      ensures !old(ordre) ==> !ordre
    {
      ghost var before := values;
      if nb == 0 {
        min := valeur;
        max := valeur;
      } else {
        if min > valeur {
          min := valeur;
        }
        if max < valeur {
          max := valeur;
        }
      }
      nb := nb + 1;
      if ordre {
        if last > valeur {
          ordre := false;
        }
      }
      last := valeur;
      values := values + [valeur as int];

      if before != [] {
        ExtremesSnoc(before, valeur as int);
      }
      OrderSnoc(before, valeur as int);
    }

    /** The tracked extremes of a non-empty history are values of it and
        bound all of it. */
    lemma ExtremesBound()
      requires Valid() && nb > 0
      ensures min as int in values && max as int in values
      ensures forall x :: x in values ==> min as int <= x <= max as int
    {
      LeastIsMinimum(values);
      GreatestIsMaximum(values);
    }

    /** The order flag is set exactly when 0 followed by the history is
        sorted: every value is at most every later one. */
    lemma FlagMeansSorted()
      requires Valid()
      ensures ordre <==> forall i, j :: 0 <= i <= j < |values| + 1 ==> ([0] + values)[i] <= ([0] + values)[j]
    {
      NonDecreasingIsSorted([0] + values);
    }
  }
}
