/** The snapshot dates of the offline analysis (`compute_recent_files`). Each
    daily crawl is stored in a folder named after the dataset and the date in
    `dd-mm-yyyy` form; the analysis keeps the newest `max_dates` of them,
    ordering them through the `yyyy-mm-dd` form, in which the string order of
    well-formed dates is their calendar order. */
module Dates {
  import opened Collections
  import opened TextParse

  /** `len('14-10-2018')`. */
  const DateLength := 10

  /** Python's `s[i:j]` for non-negative bounds: both are clamped to the text. */
  function Slice(s: string, i: nat, j: nat): (r: string)
    ensures |r| == (if i < j && i < |s| then (if j <= |s| then j else |s|) - i else 0)
    ensures forall k :: 0 <= k < |r| ==> r[k] == s[i + k]
  {
    var hi := if j <= |s| then j else |s|;
    if i < hi then s[i..hi] else []
  }

  /** A `dd-mm-yyyy` date. */
  predicate DayFirst(d: string)
  {
    |d| == DateLength && d[2] == '-' && d[5] == '-'
  }

  /** A `yyyy-mm-dd` date. */
  predicate YearFirst(d: string)
  {
    |d| == DateLength && d[4] == '-' && d[7] == '-'
  }

  /** `invert_date`: `dd-mm-yyyy` to `yyyy-mm-dd`. */
  function InvertDate(d: string): (r: string)
    ensures |d| == DateLength ==> YearFirst(r)
  {
    Slice(d, 6, 10) + "-" + Slice(d, 3, 5) + "-" + Slice(d, 0, 2)
  }

  /** `revert_date`: `yyyy-mm-dd` to `dd-mm-yyyy`. */
  function RevertDate(d: string): (r: string)
    ensures |d| == DateLength ==> DayFirst(r)
  {
    Slice(d, 8, 10) + "-" + Slice(d, 5, 7) + "-" + Slice(d, 0, 4)
  }

  /** On ten-character texts, reverting the inverted form gives the date back
      exactly when it has its dashes in the `dd-mm-yyyy` places. */
  lemma RevertInverted(d: string)
    requires |d| == DateLength
    ensures RevertDate(InvertDate(d)) == d <==> DayFirst(d)
  {
    var r := RevertDate(InvertDate(d));
    if DayFirst(d) {
      assert forall k :: 0 <= k < DateLength ==> r[k] == d[k];
    } else {
      assert r[2] == '-' && r[5] == '-';
    }
  }

  /** Symmetrically, inverting the reverted form of a `yyyy-mm-dd` date gives it back. */
  lemma InvertReverted(d: string)
    requires |d| == DateLength
    ensures InvertDate(RevertDate(d)) == d <==> YearFirst(d)
  {
    var r := InvertDate(RevertDate(d));
    if YearFirst(d) {
      assert forall k :: 0 <= k < DateLength ==> r[k] == d[k];
    } else {
      assert r[4] == '-' && r[7] == '-';
    }
  }

  // ---------------------------------------------------------------------------
  // Python's string order.

  /** `a < b` on Python strings: lexicographic by code point, a proper prefix first. */
  predicate Less(a: string, b: string)
  {
    if a == [] then b != []
    else b != [] && (a[0] < b[0] || (a[0] == b[0] && Less(a[1..], b[1..])))
  }

  lemma {:induction false} LessIrreflexive(a: string)
    ensures !Less(a, a)
  {
    if a != [] {
      LessIrreflexive(a[1..]);
    }
  }

  lemma {:induction false} LessTransitive(a: string, b: string, c: string)
    requires Less(a, b) && Less(b, c)
    ensures Less(a, c)
  {
    if a != [] && a[0] == b[0] && b[0] == c[0] {
      LessTransitive(a[1..], b[1..], c[1..]);
    }
  }

  /** Two different strings are ordered one way or the other. */
  lemma {:induction false} LessTotal(a: string, b: string)
    requires a != b
    ensures Less(a, b) || Less(b, a)
  {
    if a != [] && b != [] && a[0] == b[0] {
      assert a == [a[0]] + a[1..] && b == [b[0]] + b[1..];
      LessTotal(a[1..], b[1..]);
    }
  }

  /** No two strings are each below the other. */
  lemma LessAsymmetric(a: string, b: string)
    requires Less(a, b)
    ensures !Less(b, a)
  {
    if Less(b, a) {
      LessTransitive(a, b, a);
      LessIrreflexive(a);
    }
  }

  /** Strictly decreasing in string order: what `sorted(s, reverse=True)` gives
      for the elements of a set, which are all different. */
  ghost predicate StrictlyDescending(s: seq<string>)
  {
    forall i, j :: 0 <= i < j < |s| ==> Less(s[j], s[i])
  }

  /** `s` lists the set `e` in decreasing string order. */
  ghost predicate SortedDescOf(s: seq<string>, e: set<string>)
  {
    Elems(s) == e && StrictlyDescending(s)
  }

  /** Places `x` before the first element of `s` that is below it, and drops it
      when it is already there. */
  function InsertDesc(x: string, s: seq<string>): (r: seq<string>)
  {
    if s == [] then [x]
    else if x == s[0] then s
    else if Less(s[0], x) then [x] + s
    else [s[0]] + InsertDesc(x, s[1..])
  }

  /** The elements after the first of a decreasing listing are decreasing too. */
  lemma DescendingTail(s: seq<string>)
    requires s != [] && StrictlyDescending(s)
    ensures StrictlyDescending(s[1..])
    ensures forall k :: 0 <= k < |s[1..]| ==> Less(s[1..][k], s[0])
  {
    forall i, j | 0 <= i < j < |s[1..]| ensures Less(s[1..][j], s[1..][i]) {
      assert s[1..][i] == s[i + 1] && s[1..][j] == s[j + 1];
    }
  }

  /** Putting an element above the first one in front keeps the listing decreasing. */
  lemma DescendingCons(x: string, s: seq<string>)
    requires StrictlyDescending(s) && (s != [] ==> Less(s[0], x))
    ensures StrictlyDescending([x] + s)
  {
    forall i, j | 0 <= i < j < |[x] + s| ensures Less(([x] + s)[j], ([x] + s)[i]) {
      if i == 0 && j > 1 {
        LessTransitive(s[j - 1], s[0], x);
      }
    }
  }

  lemma {:induction false} InsertDescFacts(x: string, s: seq<string>)
    requires StrictlyDescending(s)
    ensures SortedDescOf(InsertDesc(x, s), Elems(s) + {x})
  {
    if s == [] {
    } else if x == s[0] {
    } else if Less(s[0], x) {
      DescendingCons(x, s);
      assert Elems([x] + s) == Elems(s) + {x};
    } else {
      var tail := s[1..];
      DescendingTail(s);
      InsertDescFacts(x, tail);
      var rest := InsertDesc(x, tail);
      LessTotal(x, s[0]);
      assert Elems(s) == {s[0]} + Elems(tail) by {
        assert s == [s[0]] + tail;
      }
      assert forall k :: 0 <= k < |rest| ==> Less(rest[k], s[0]) by {
        forall k | 0 <= k < |rest| ensures Less(rest[k], s[0]) {
          assert rest[k] in Elems(tail) + {x};
        }
      }
      DescendingCons(s[0], rest);
      assert Elems([s[0]] + rest) == {s[0]} + Elems(rest);
    }
  }

  lemma ElemsEmpty<T>(s: seq<T>)
    ensures Elems(s) == {} <==> s == []
  {
    if s != [] {
      assert s[0] in Elems(s);
    }
  }

  /** Two listings of the same set in decreasing order are the same listing. */
  lemma {:induction false} SortedDescUnique(a: seq<string>, b: seq<string>, e: set<string>)
    requires SortedDescOf(a, e) && SortedDescOf(b, e)
    ensures a == b
    decreases |a|
  {
    ElemsEmpty(a);
    ElemsEmpty(b);
    if a != [] && b != [] {
      assert a[0] in e && b[0] in e;
      if a[0] != b[0] {
        var i :| 0 <= i < |a| && a[i] == b[0];
        var j :| 0 <= j < |b| && b[j] == a[0];
        assert i > 0 && j > 0;
        assert Less(a[i], a[0]) && Less(b[j], b[0]);
        LessAsymmetric(a[0], b[0]);
      }
      var e' := e - {a[0]};
      assert SortedDescOf(a[1..], e') by {
        assert a == [a[0]] + a[1..];
        assert a[0] !in a[1..] by {
          forall k | 0 <= k < |a[1..]| ensures a[1..][k] != a[0] {
            assert Less(a[k + 1], a[0]);
            LessIrreflexive(a[0]);
          }
        }
        assert Elems(a) == {a[0]} + Elems(a[1..]);
        forall i, j | 0 <= i < j < |a[1..]| ensures Less(a[1..][j], a[1..][i]) {
          assert a[1..][i] == a[i + 1] && a[1..][j] == a[j + 1];
        }
      }
      assert SortedDescOf(b[1..], e') by {
        assert b == [b[0]] + b[1..];
        assert b[0] !in b[1..] by {
          forall k | 0 <= k < |b[1..]| ensures b[1..][k] != b[0] {
            assert Less(b[k + 1], b[0]);
            LessIrreflexive(b[0]);
          }
        }
        assert Elems(b) == {b[0]} + Elems(b[1..]);
        forall i, j | 0 <= i < j < |b[1..]| ensures Less(b[1..][j], b[1..][i]) {
          assert b[1..][i] == b[i + 1] && b[1..][j] == b[j + 1];
        }
      }
      SortedDescUnique(a[1..], b[1..], e');
      assert a == [a[0]] + a[1..] && b == [b[0]] + b[1..];
    }
  }

  /** `sorted(e, reverse=True)` for a set of strings. */
  method SortedDescending(e: set<string>) returns (s: seq<string>)
    ensures SortedDescOf(s, e)
  {
    s := [];
    var rest := e;
    while rest != {}
      invariant SortedDescOf(s, e - rest) && rest <= e
      decreases rest
    {
      var x :| x in rest;
      InsertDescFacts(x, s);
      s := InsertDesc(x, s);
      rest := rest - {x};
    }
  }

  // ---------------------------------------------------------------------------
  // The date selection.

  /** `pat in s` on Python strings. */
  predicate Contains(s: string, pat: string)
  {
    pat <= s || (s != [] && Contains(s[1..], pat))
  }

  /** A folder name of the dataset: not a `.json` file, holding the dataset's
      name, and exactly one date longer than it. */
  predicate IsSnapshotFolder(name: string, base: string)
  {
    !Contains(name, ".json") && Contains(name, base) && |name| == |base| + DateLength
  }

  /** The dates named by the dataset's folders, in `dd-mm-yyyy` form. */
  ghost function FolderDates(names: seq<string>, base: string): set<string>
  {
    set k | 0 <= k < |names| && IsSnapshotFolder(names[k], base) :: ReplaceAll(names[k], base, "")
  }

  /** The same dates in `yyyy-mm-dd` form. */
  ghost function InvertedDates(names: seq<string>, base: string): set<string>
  {
    set d | d in FolderDates(names, base) :: InvertDate(d)
  }

  /** The selection of `compute_recent_files`: the folder dates, newest first by
      their `yyyy-mm-dd` form, cut to the first `maxDates`. `sorted` is that newest
      first listing of the inverted dates, which is unique (`SortedDescUnique`). */
  method SelectDates(names: seq<string>, base: string, maxDates: nat) returns (dates: seq<string>, ghost sorted: seq<string>)
    ensures SortedDescOf(sorted, InvertedDates(names, base))
    ensures dates == Take(MapSeq(sorted, RevertDate), maxDates)
  {
    var found: set<string> := {};
    for k := 0 to |names|
      invariant found == set m | 0 <= m < k && IsSnapshotFolder(names[m], base) :: ReplaceAll(names[m], base, "")
    {
      if IsSnapshotFolder(names[k], base) {
        found := found + {ReplaceAll(names[k], base, "")};
      }
    }
    var inverted := set d | d in found :: InvertDate(d);
    var listed := SortedDescending(inverted);
    sorted := listed;
    dates := Take(MapSeq(listed, RevertDate), maxDates);
  }

  /** When every folder date is a well-formed `dd-mm-yyyy` date, the selected
      dates are well-formed, different from each other, and newest first. */
  lemma SelectedNewestFirst(names: seq<string>, base: string, maxDates: nat, sorted: seq<string>)
    requires forall d :: d in FolderDates(names, base) ==> DayFirst(d)
    requires SortedDescOf(sorted, InvertedDates(names, base))
    ensures var dates := Take(MapSeq(sorted, RevertDate), maxDates);
      && (forall i :: 0 <= i < |dates| ==> DayFirst(dates[i]) && InvertDate(dates[i]) == sorted[i])
      && (forall i, j :: 0 <= i < j < |dates| ==> Less(InvertDate(dates[j]), InvertDate(dates[i])))
      && Distinct(dates)
  {
    var dates := Take(MapSeq(sorted, RevertDate), maxDates);
    forall i | 0 <= i < |dates| ensures DayFirst(dates[i]) && InvertDate(dates[i]) == sorted[i] {
      assert sorted[i] in InvertedDates(names, base);
      var d :| d in FolderDates(names, base) && InvertDate(d) == sorted[i];
      RevertInverted(d);
      assert dates[i] == RevertDate(sorted[i]) == d;
    }
    forall i, j | 0 <= i < j < |dates| ensures dates[i] != dates[j] {
      LessIrreflexive(sorted[i]);
    }
  }
}
