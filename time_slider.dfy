/** The time slider: which years get a tick label at a given window width,
    and the year-change handler. */
module TimeSlider {

  predicate StrictlyAscending(s: seq<int>) {
    forall i, j :: 0 <= i < j < |s| ==> s[i] < s[j]
  }

  /** `y` added to a strictly ascending list, unless it is already there. */
  function InsertDistinct(y: int, sorted: seq<int>): (r: seq<int>)
    requires StrictlyAscending(sorted)
    ensures StrictlyAscending(r)
    ensures forall x :: x in r <==> x == y || x in sorted
  {
    if sorted == [] then [y]
    else if y < sorted[0] then [y] + sorted
    else if y == sorted[0] then sorted
    else
      var rest := InsertDistinct(y, sorted[1..]);
      assert forall x :: x in sorted <==> x == sorted[0] || x in sorted[1..] by {
        assert sorted == [sorted[0]] + sorted[1..];
      }
      assert forall k :: 0 <= k < |rest| ==> sorted[0] < rest[k] by {
        forall k | 0 <= k < |rest|
          ensures sorted[0] < rest[k]
        {
          assert rest[k] in rest;
          if rest[k] != y {
            var m :| 0 <= m < |sorted[1..]| && sorted[1..][m] == rest[k];
            assert sorted[m + 1] == rest[k];
          }
        }
      }
      [sorted[0]] + rest
  }

  /** `Array.from(new Set(years)).sort((a, b) => a - b)`: the distinct years
      in ascending order. */
  function SortDistinct(years: seq<int>): (r: seq<int>)
    ensures StrictlyAscending(r)
    ensures forall x :: x in r <==> x in years
  {
    if years == [] then []
    else
      var n := |years| - 1;
      assert forall x :: x in years <==> x in years[..n] || x == years[n] by {
        assert years == years[..n] + [years[n]];
      }
      InsertDistinct(years[n], SortDistinct(years[..n]))
  }

  /** Whether `y` gets a label: the two ends always; below 480 pixels the
      middle year; from 480 to 1023 pixels every second year after the first;
      from 1024 pixels every year in between. */
  predicate Shown(minYear: int, maxYear: int, windowWidth: int, y: int) {
    || y == minYear || y == maxYear
    || (windowWidth < 480 && y == (minYear + maxYear) / 2)
    || (480 <= windowWidth < 1024 && minYear < y < maxYear && (y - minYear) % 2 == 0)
    || (1024 <= windowWidth && minYear < y < maxYear)
  }

  /** A strictly ascending list has as many elements as its set. */
  lemma {:induction false} AscendingCard(s: seq<int>)
    requires StrictlyAscending(s)
    ensures |set x | x in s| == |s|
  {
    if s != [] {
      var n := |s| - 1;
      AscendingCard(s[..n]);
      assert s[n] !in s[..n];
      assert (set x | x in s) == (set x | x in s[..n]) + {s[n]} by {
        assert s == s[..n] + [s[n]];
      }
    }
  }

  lemma SubsetCard(a: set<int>, b: set<int>)
    requires a <= b
    ensures |a| <= |b|
  {
    assert b == a + (b - a);
  }

  /** The labels of the narrow layout are at most three. */
  lemma NarrowAtMostThree(labels: seq<int>, minYear: int, maxYear: int, windowWidth: int)
    requires windowWidth < 480 && StrictlyAscending(labels)
    requires forall y :: y in labels <==> Shown(minYear, maxYear, windowWidth, y)
    ensures |labels| <= 3
  {
    AscendingCard(labels);
    var ends := {minYear, maxYear, (minYear + maxYear) / 2};
    SubsetCard((set x | x in labels), ends);
    assert |ends| <= 3;
  }

  /** The tablet and small-desktop loop: every second year after `minYear`
      and below `maxYear`, pushed after `years`. */
  method PushEverySecondYear(years: seq<int>, minYear: int, maxYear: int) returns (out: seq<int>)
    ensures forall y :: y in out <==> y in years || (minYear < y < maxYear && (y - minYear) % 2 == 0)
  {
    out := years;
    var year := minYear + 2;
    while year < maxYear
      invariant year >= minYear + 2 && (year - minYear) % 2 == 0
      invariant year <= maxYear + 1 || year == minYear + 2
      invariant forall y :: y in out <==> y in years || (minYear < y < year && (y - minYear) % 2 == 0)
      decreases maxYear - year
    {
      out := out + [year];
      year := year + 2;
    }
  }

  /** The large-desktop loop: every year strictly between the two ends,
      pushed after `years`. */
  method PushEveryYear(years: seq<int>, minYear: int, maxYear: int) returns (out: seq<int>)
    ensures forall y :: y in out <==> y in years || minYear < y < maxYear
  {
    out := years;
    var year := minYear + 1;
    while year < maxYear
      invariant year >= minYear + 1
      invariant year <= maxYear || year == minYear + 1
      invariant forall y :: y in out <==> y in years || minYear < y < year
      decreases maxYear - year
    {
      out := out + [year];
      year := year + 1;
    }
  }

  /** `getYearLabels`: the years pushed for the current window width, then
      deduplicated and sorted. */
  method YearLabels(minYear: int, maxYear: int, windowWidth: int) returns (labels: seq<int>)
    ensures StrictlyAscending(labels)
    ensures forall y :: y in labels <==> Shown(minYear, maxYear, windowWidth, y)
    ensures |labels| >= 1
    ensures minYear <= maxYear ==> labels[0] == minYear && labels[|labels| - 1] == maxYear
    ensures minYear <= maxYear ==> forall i :: 0 <= i < |labels| ==> minYear <= labels[i] <= maxYear
    ensures minYear == maxYear ==> labels == [minYear]
    ensures windowWidth < 480 ==> |labels| <= 3
  {
    var years := [minYear];
    if windowWidth < 480 {
      var middle := (minYear + maxYear) / 2;
      if middle != minYear && middle != maxYear {
        years := years + [middle];
      }
    } else if windowWidth < 768 {
      years := PushEverySecondYear(years, minYear, maxYear);
    } else if windowWidth < 1024 {
      years := PushEverySecondYear(years, minYear, maxYear);
    } else {
      years := PushEveryYear(years, minYear, maxYear);
    }
    years := years + [maxYear];
    labels := SortDistinct(years);
    LabelFacts(labels, minYear, maxYear, windowWidth);
  }

  /** What the set of labels implies about the sorted list. */
  lemma LabelFacts(labels: seq<int>, minYear: int, maxYear: int, windowWidth: int)
    requires StrictlyAscending(labels)
    requires forall y :: y in labels <==> Shown(minYear, maxYear, windowWidth, y)
    ensures |labels| >= 1
    ensures minYear <= maxYear ==> labels[0] == minYear && labels[|labels| - 1] == maxYear
    ensures minYear <= maxYear ==> forall i :: 0 <= i < |labels| ==> minYear <= labels[i] <= maxYear
    ensures minYear == maxYear ==> labels == [minYear]
    ensures windowWidth < 480 ==> |labels| <= 3
  {
    assert Shown(minYear, maxYear, windowWidth, minYear) && minYear in labels;
    assert Shown(minYear, maxYear, windowWidth, maxYear) && maxYear in labels;
    if minYear <= maxYear {
      forall i | 0 <= i < |labels|
        ensures minYear <= labels[i] <= maxYear
      {
        assert labels[i] in labels;
      }
      var m :| 0 <= m < |labels| && labels[m] == minYear;
      var k :| 0 <= k < |labels| && labels[k] == maxYear;
      if minYear == maxYear {
        assert labels == [minYear];
      }
    }
    if windowWidth < 480 {
      NarrowAtMostThree(labels, minYear, maxYear, windowWidth);
    }
  }

  /** The component's default props: the years 2014 to 2024, starting at 2024. */
  const DefaultMinYear := 2014
  const DefaultMaxYear := 2024
  const DefaultInitialYear := 2024

  /** The slider's state: the selected year, and the years forwarded to the
      optional `onYearChange` callback, oldest first. */
  class Slider {
    var currentYear: int
    var hasCallback: bool
    var forwarded: seq<int>

    constructor (initialYear: int, hasCallback: bool)
      ensures currentYear == initialYear && this.hasCallback == hasCallback && forwarded == []
    {
      currentYear := initialYear;
      this.hasCallback := hasCallback;
      forwarded := [];
    }

    /** A slider mounted without year props starts at the default initial year,
        the last year of the default range. */
    constructor Default(hasCallback: bool)
      ensures currentYear == DefaultInitialYear == DefaultMaxYear && DefaultMinYear <= currentYear
      ensures this.hasCallback == hasCallback && forwarded == []
    {
      currentYear := DefaultInitialYear;
      this.hasCallback := hasCallback;
      forwarded := [];
    }

    /** `handleYearChange`: the selected year becomes `year`, and the same
        year goes to the callback when there is one. */
    method HandleYearChange(year: int)
      modifies this
      ensures currentYear == year
      ensures hasCallback == old(hasCallback)
      ensures forwarded == old(forwarded) + (if hasCallback then [year] else [])
    {
      currentYear := year;
      if hasCallback {
        forwarded := forwarded + [year];
      }
    }
  }
}
