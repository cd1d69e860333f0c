/** Things with a date, sorted by the text of their dates. */
module DateOrder {
  import opened Calendar

  function PlaceByDate<T>(sorted: seq<T>, x: T, date: T -> string): seq<T> {
    if sorted == [] || !LexLess(date(x), date(sorted[|sorted| - 1])) then sorted + [x]
    else PlaceByDate(sorted[..|sorted| - 1], x, date) + [sorted[|sorted| - 1]]
  }

  /** The order in which a commit takes its items and a rollback its writes. */
  function ByDate<T>(xs: seq<T>, date: T -> string): seq<T> {
    if xs == [] then [] else PlaceByDate(ByDate(xs[..|xs| - 1], date), xs[|xs| - 1], date)
  }

  ghost predicate OnePerDate<T>(xs: seq<T>, of: T -> string) {
    forall i, j :: 0 <= i < j < |xs| ==> of(xs[i]) != of(xs[j])
  }

  lemma {:induction false} PlaceKeepsDates<T(!new)>(sorted: seq<T>, x: T, of: T -> string)
    requires OnePerDate(sorted, of) && forall y :: y in sorted ==> of(y) != of(x)
    ensures OnePerDate(PlaceByDate(sorted, x, of), of)
    ensures forall y :: y in PlaceByDate(sorted, x, of) <==> y in sorted || y == x
  {
    if !(sorted == [] || !LexLess(of(x), of(sorted[|sorted| - 1]))) {
      var init, last := sorted[..|sorted| - 1], sorted[|sorted| - 1];
      assert forall y :: y in sorted <==> y in init || y == last;
      PlaceKeepsDates(init, x, of);
      var placed := PlaceByDate(init, x, of);
      forall i | 0 <= i < |placed| ensures of(placed[i]) != of(last) {
        assert placed[i] in placed;
        if placed[i] in init {
          var k :| 0 <= k < |init| && init[k] == placed[i];
          assert of(sorted[k]) != of(sorted[|sorted| - 1]);
        }
      }
    }
  }

  /** Sorting by date loses nothing, adds nothing, and repeats no date. */
  lemma {:induction false} ByDateKeepsDates<T(!new)>(xs: seq<T>, of: T -> string)
    requires OnePerDate(xs, of)
    ensures OnePerDate(ByDate(xs, of), of)
    ensures forall y :: y in ByDate(xs, of) <==> y in xs
  {
    if xs != [] {
      var init, last := xs[..|xs| - 1], xs[|xs| - 1];
      ByDateKeepsDates(init, of);
      assert forall y :: y in xs <==> y in init || y == last;
      PlaceKeepsDates(ByDate(init, of), last, of);
    }
  }

  ghost predicate AllDated<T(!new)>(xs: seq<T>, of: T -> string) {
    forall x :: x in xs ==> ParseDate(of(x)).Some?
  }

  ghost function NumberOf(date: string): int
    requires ParseDate(date).Some?
  {
    DayNumber(ParseDate(date).value)
  }

  /** Days strictly ascending. */
  ghost predicate InDateOrder<T(!new)>(xs: seq<T>, of: T -> string)
    requires AllDated(xs, of)
  {
    forall i, j :: 0 <= i < j < |xs| ==> NumberOf(of(xs[i])) < NumberOf(of(xs[j]))
  }

  lemma SameDaySameText(a: string, b: string)
    requires ParseDate(a).Some? && ParseDate(b).Some? && NumberOf(a) == NumberOf(b)
    ensures a == b
  {
    SameNumberSameDay(ParseDate(a).value, ParseDate(b).value);
  }

  lemma {:induction false} PlaceKeepsOrder<T(!new)>(sorted: seq<T>, x: T, of: T -> string)
    requires AllDated(sorted, of) && ParseDate(of(x)).Some? && InDateOrder(sorted, of)
    requires forall y :: y in sorted ==> of(y) != of(x)
    ensures forall y :: y in PlaceByDate(sorted, x, of) <==> y in sorted || y == x
    ensures AllDated(PlaceByDate(sorted, x, of), of) && InDateOrder(PlaceByDate(sorted, x, of), of)
  {
    hide ParseDate, DayNumber, LexLess, Format;
    if sorted != [] {
      var init, last := sorted[..|sorted| - 1], sorted[|sorted| - 1];
      assert last in sorted && forall y :: y in sorted <==> y in init || y == last;
      TextOrderIsDayOrder(ParseDate(of(x)).value, ParseDate(of(last)).value);
      if LexLess(of(x), of(last)) {
        PlaceKeepsOrder(init, x, of);
        var placed := PlaceByDate(init, x, of);
        forall i | 0 <= i < |placed| ensures NumberOf(of(placed[i])) < NumberOf(of(last)) {
          assert placed[i] in placed;
          if placed[i] in init {
            var k :| 0 <= k < |init| && init[k] == placed[i];
            assert sorted[k] == init[k];
          }
        }
      } else {
        if NumberOf(of(x)) == NumberOf(of(last)) {
          SameDaySameText(of(x), of(last));
        }
        forall i | 0 <= i < |sorted| ensures NumberOf(of(sorted[i])) < NumberOf(of(x)) {
          assert i < |sorted| - 1 ==> NumberOf(of(sorted[i])) < NumberOf(of(last));
        }
      }
    }
  }

  /** Sorting dated things by text puts them in calendar order. */
  lemma {:induction false} ByDateOrders<T(!new)>(xs: seq<T>, of: T -> string)
    requires AllDated(xs, of) && OnePerDate(xs, of)
    ensures forall y :: y in ByDate(xs, of) <==> y in xs
    ensures AllDated(ByDate(xs, of), of) && InDateOrder(ByDate(xs, of), of)
  {
    hide ParseDate, DayNumber, LexLess;
    if xs != [] {
      var init, last := xs[..|xs| - 1], xs[|xs| - 1];
      assert forall y :: y in xs <==> y in init || y == last;
      ByDateOrders(init, of);
      forall y | y in init ensures of(y) != of(last) {
        var k :| 0 <= k < |init| && init[k] == y;
        assert xs[k] == y;
      }
      PlaceKeepsOrder(ByDate(init, of), last, of);
    }
  }
}
