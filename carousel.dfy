/**
 * View logic of the vertical news carousel (components/VerticalNewsCarousel.tsx):
 * the relative-age label of a card, the bookmark toggle, the bounded pager
 * navigation and the current-page cell.
 */
module Carousel {
  import opened Wrappers
  import opened News

  // ---------------------------------------------------------------------------
  // Relative-age label
  // ---------------------------------------------------------------------------

  const MsPerHour: int := 1000 * 60 * 60
  const HoursPerDay: int := 24
  const MsPerDay: int := MsPerHour * HoursPerDay

  /**
   * Whole hours elapsed since publication, rounded down as `Math.floor` does;
   * negative for a publication time in the future. Dafny's `/` agrees with the
   * floor because the divisor is positive.
   */
  function HoursSince(publishedMs: int, nowMs: int): (h: int)
    ensures h * MsPerHour <= nowMs - publishedMs < (h + 1) * MsPerHour
  {
    (nowMs - publishedMs) / MsPerHour
  }

  /** Flooring hours and then flooring days is flooring days directly. */
  lemma DaysFromHours(elapsedMs: int, h: int)
    requires h * MsPerHour <= elapsedMs < (h + 1) * MsPerHour
    ensures (h / HoursPerDay) * MsPerDay <= elapsedMs < (h / HoursPerDay + 1) * MsPerDay
  {
  }

  /** The three buckets of the label a card shows under its source. */
  datatype AgeLabel = JustNow | HoursAgo(hours: nat) | DaysAgo(days: nat)

  /**
   * The bucket of an article published at `publishedMs`, seen at `nowMs`:
   * under one hour (future dates included) it is JustNow, under a day it is
   * the whole hours, otherwise the whole days, and never zero of either.
   */
  function Age(publishedMs: int, nowMs: int): (r: AgeLabel)
    ensures r == JustNow <==> nowMs - publishedMs < MsPerHour
    ensures r.HoursAgo? <==> MsPerHour <= nowMs - publishedMs < MsPerDay
    ensures r.DaysAgo? <==> MsPerDay <= nowMs - publishedMs
    ensures r.HoursAgo? ==>
      1 <= r.hours < HoursPerDay &&
      r.hours * MsPerHour <= nowMs - publishedMs < (r.hours + 1) * MsPerHour
    ensures r.DaysAgo? ==>
      1 <= r.days &&
      r.days * MsPerDay <= nowMs - publishedMs < (r.days + 1) * MsPerDay
  {
    var h := HoursSince(publishedMs, nowMs);
    if h < 1 then JustNow
    else if h < HoursPerDay then HoursAgo(h)
    else
      DaysFromHours(nowMs - publishedMs, h);
      DaysAgo(h / HoursPerDay)
  }

  predicate IsDigit(c: char)
  {
    '0' <= c <= '9'
  }

  predicate AllDigits(s: string)
  {
    forall i :: 0 <= i < |s| ==> IsDigit(s[i])
  }

  /**
   * The decimal text of a whole number, as a template literal prints it:
   * nonempty, only digits, and no leading zero except for zero itself.
   */
  function NatToString(n: nat): (s: string)
    ensures |s| >= 1 && AllDigits(s)
    ensures (s[0] == '0') == (n == 0)
    ensures n == 0 ==> s == "0"
  {
    if n < 10 then [('0' as int + n) as char]
    else NatToString(n / 10) + [('0' as int + n % 10) as char]
  }

  /** The number a string of decimal digits denotes. */
  function DecimalValue(s: string): (v: nat)
    requires AllDigits(s)
  {
    if s == [] then 0
    else DecimalValue(s[..|s| - 1]) * 10 + (s[|s| - 1] as int - '0' as int)
  }

  /** Printing a number and reading it back gives the number. */
  lemma {:induction false} DecimalValueOfNatToString(n: nat)
    ensures DecimalValue(NatToString(n)) == n
  {
    var s := NatToString(n);
    if n >= 10 {
      assert s[..|s| - 1] == NatToString(n / 10);
      DecimalValueOfNatToString(n / 10);
    }
  }

  /**
   * The text shown for a bucket: "Just now" for JustNow and only for it;
   * otherwise the count in decimal, then "h ago" or "d ago" by bucket.
   */
  function Label(age: AgeLabel): (s: string)
    ensures s == "Just now" <==> age.JustNow?
    ensures !age.JustNow? ==>
      |s| > 5 && AllDigits(s[..|s| - 5]) && (s[0] != '0' || |s| == 6) &&
      s[|s| - 5..] == (if age.HoursAgo? then "h ago" else "d ago")
  {
    match age
    case JustNow => "Just now"
    case HoursAgo(h) =>
      var s := NatToString(h) + "h ago";
      assert s[..|s| - 5] == NatToString(h) && s[|s| - 5..] == "h ago" && s[|s| - 5] == 'h';
      s
    case DaysAgo(d) =>
      var s := NatToString(d) + "d ago";
      assert s[..|s| - 5] == NatToString(d) && s[|s| - 5..] == "d ago" && s[|s| - 5] == 'd';
      s
  }

  /**
   * Reads a label back into its bucket; None for text no bucket shows
   * (a count with a leading zero included).
   * A specification device: it witnesses that a label is unambiguous.
   */
  function ParseLabel(s: string): (r: Option<AgeLabel>)
  {
    if s == "Just now" then Some(JustNow)
    else if |s| > 5 && AllDigits(s[..|s| - 5]) && (s[0] != '0' || |s| == 6) then
      var digits, unit := s[..|s| - 5], s[|s| - 5..];
      if unit == "h ago" then Some(HoursAgo(DecimalValue(digits)))
      else if unit == "d ago" then Some(DaysAgo(DecimalValue(digits)))
      else None
    else None
  }

  lemma {:induction false} ParseLabelOfLabel(age: AgeLabel)
    ensures ParseLabel(Label(age)) == Some(age)
  {
    match age
    case JustNow =>
    case HoursAgo(h) =>
      var s := Label(age);
      var digits := NatToString(h);
      assert s[..|s| - 5] == digits && s[|s| - 5..] == "h ago";
      assert s != "Just now" by { assert s[|s| - 5] == 'h'; }
      DecimalValueOfNatToString(h);
    case DaysAgo(d) =>
      var s := Label(age);
      var digits := NatToString(d);
      assert s[..|s| - 5] == digits && s[|s| - 5..] == "d ago";
      assert s != "Just now" by { assert s[|s| - 5] == 'd'; }
      DecimalValueOfNatToString(d);
  }

  /** Different buckets never show the same text. */
  lemma LabelInjective(a: AgeLabel, b: AgeLabel)
    ensures Label(a) == Label(b) ==> a == b
  {
    ParseLabelOfLabel(a);
    ParseLabelOfLabel(b);
  }

  /**
   * The label of a card: it reads back as exactly the age bucket, and it is
   * "Just now" precisely when less than an hour has elapsed.
   */
  function FormatDate(publishedMs: int, nowMs: int): (s: string)
    ensures ParseLabel(s) == Some(Age(publishedMs, nowMs))
    ensures s == "Just now" <==> nowMs - publishedMs < MsPerHour
  {
    ParseLabelOfLabel(Age(publishedMs, nowMs));
    Label(Age(publishedMs, nowMs))
  }

  // ---------------------------------------------------------------------------
  // Bookmarks
  // ---------------------------------------------------------------------------

  /** The bookmark set after toggling `id`: only `id`'s membership flips. */
  function Toggle(bookmarks: set<string>, id: string): (r: set<string>)
    ensures id in r <==> id !in bookmarks
    ensures forall x :: x != id ==> (x in r <==> x in bookmarks)
    ensures |r| == if id in bookmarks then |bookmarks| - 1 else |bookmarks| + 1
  {
    if id in bookmarks then bookmarks - {id} else bookmarks + {id}
  }

  /** Toggling the same id twice restores the set. */
  lemma ToggleTwice(bookmarks: set<string>, id: string)
    ensures Toggle(Toggle(bookmarks, id), id) == bookmarks
  {
  }

  /** A mutable set of article ids, like the source's `Set<string>`. */
  class IdSet {
    var elems: set<string>

    constructor Empty()
      ensures elems == {}
    {
      elems := {};
    }

    /** `new Set(other)`: a fresh set with the same members. */
    constructor Copy(other: IdSet)
      ensures elems == other.elems
    {
      elems := other.elems;
    }

    method Has(x: string) returns (b: bool)
      ensures b <==> x in elems
    {
      b := x in elems;
    }

    method Add(x: string)
      modifies this
      ensures elems == old(elems) + {x}
    {
      elems := elems + {x};
    }

    method Delete(x: string)
      modifies this
      ensures elems == old(elems) - {x}
    {
      elems := elems - {x};
    }
  }

  // ---------------------------------------------------------------------------
  // The carousel's state cells and event handlers
  // ---------------------------------------------------------------------------

  class NewsCarousel {
    /** The articles the carousel pages through (a property, never changed). */
    const articles: seq<Article>
    /** The page the pager last reported as selected. */
    var currentIndex: int
    /** The ids of the bookmarked articles. */
    var bookmarkedArticles: IdSet

    /** The current page is a page of the pager (page 0 when there is none). */
    ghost predicate Valid()
      reads this
    {
      0 <= currentIndex && (currentIndex == 0 || currentIndex < |articles|)
    }

    /** Mounting: first page, nothing bookmarked. */
    constructor(articles: seq<Article>)
      ensures this.articles == articles
      ensures currentIndex == 0 && fresh(bookmarkedArticles) && bookmarkedArticles.elems == {}
      ensures Valid()
    {
      this.articles := articles;
      currentIndex := 0;
      bookmarkedArticles := new IdSet.Empty();
    }

    /**
     * Toggles the bookmark of `articleId` on a copy of the set and stores the
     * copy; the previous set object keeps its members.
     */
    method HandleBookmark(articleId: string)
      modifies this
      ensures fresh(bookmarkedArticles)
      ensures bookmarkedArticles.elems == Toggle(old(bookmarkedArticles.elems), articleId)
      ensures old(bookmarkedArticles).elems == old(bookmarkedArticles.elems)
      ensures currentIndex == old(currentIndex)
    {
      var newSet := new IdSet.Copy(bookmarkedArticles);
      var present := newSet.Has(articleId);
      if present {
        newSet.Delete(articleId);
      } else {
        newSet.Add(articleId);
      }
      bookmarkedArticles := newSet;
    }

    /** Whether a card shows as bookmarked. */
    method IsBookmarked(article: Article) returns (b: bool)
      ensures b <==> article.id in bookmarkedArticles.elems
    {
      b := bookmarkedArticles.Has(article.id);
    }

    /**
     * The page the pager is asked to show on "up": the previous one, and only
     * when there is one; None when nothing is asked.
     */
    method NavigateUp() returns (page: Option<int>)
      ensures page.Some? <==> currentIndex > 0
      ensures page.Some? ==> page.value == currentIndex - 1 && 0 <= page.value
      ensures page.Some? && Valid() ==> page.value < |articles|
    {
      if currentIndex > 0 {
        page := Some(currentIndex - 1);
      } else {
        page := None;
      }
    }

    /**
     * The page the pager is asked to show on "down": the next one, and only
     * when it exists; None when nothing is asked.
     */
    method NavigateDown() returns (page: Option<int>)
      ensures page.Some? <==> currentIndex < |articles| - 1
      ensures page.Some? ==> page.value == currentIndex + 1 && page.value < |articles|
      ensures page.Some? && Valid() ==> 0 <= page.value
    {
      if currentIndex < |articles| - 1 {
        page := Some(currentIndex + 1);
      } else {
        page := None;
      }
    }

    /** The pager reports a selected page: it becomes the current index. */
    method OnPageSelected(position: int)
      modifies this`currentIndex
      ensures currentIndex == position
      ensures 0 <= position < |articles| ==> Valid()
    {
      currentIndex := position;
    }
  }
}
