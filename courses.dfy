/** The course catalogue page: category slugs, the three-way filter, the
    comparator sort of a copy of the filtered list, and the set of course ids
    the user is enrolled in. */
module Courses {
  import opened Text
  import opened Replies

  /** A fetched course. Prices, ratings and counters are integers here, and
      `createdAt` is the timestamp `new Date(createdAt).getTime()` yields.
      A missing counter or rating is `None`. */
  datatype Course = Course(
    id: string,
    title: string,
    description: string,
    category: string,
    difficulty: string,
    price: int,
    enrollments: Option<int>,
    rating: Option<int>,
    createdAt: int,
    thumbnail: string)

  const AllCategories: string := "All Categories"
  const AllLevels: string := "All Levels"

  // ---------------------------------------------------------------------
  // Slugs: `text.toLowerCase().replace(/\s+/g, "-")`

  /** `replace(/\s+/g, "-")`: every maximal run of whitespace becomes one `-`. */
  function Hyphenate(t: string): (r: string)
    ensures NoSpace(r)
    decreases |t|
  {
    if t == [] then []
    else if IsSpace(t[0]) then
      "-" + Hyphenate(TrimStart(t[1..]))
    else [t[0]] + Hyphenate(t[1..])
  }

  /** The replacement adds no upper-case letter. */
  lemma {:induction false} HyphenateKeepsNoUpper(t: string)
    requires NoUpper(t)
    ensures NoUpper(Hyphenate(t))
    decreases |t|
  {
    if t != [] {
      if IsSpace(t[0]) {
        var u := TrimStart(t[1..]);
        assert forall i :: 0 <= i < |u| ==> u[i] == t[|t| - |u| + i];
        HyphenateKeepsNoUpper(u);
      } else {
        HyphenateKeepsNoUpper(t[1..]);
      }
    }
  }

  /** `toSlug`: lower-case first, then hyphenate. */
  function ToSlug(s: string): (r: string)
    ensures NoUpper(r) && NoSpace(r)
  {
    HyphenateKeepsNoUpper(Lower(s));
    Hyphenate(Lower(s))
  }

  /** A string with no whitespace is left alone by the replacement. */
  lemma {:induction false} HyphenateSpaceFree(t: string)
    requires NoSpace(t)
    ensures Hyphenate(t) == t
    decreases |t|
  {
    if t != [] {
      HyphenateSpaceFree(t[1..]);
    }
  }

  /** A string with no upper-case letter is left alone by `toLowerCase`. */
  lemma LowerOfLower(t: string)
    requires NoUpper(t)
    ensures Lower(t) == t
  {
  }

  /** `toSlug(toSlug(s)) == toSlug(s)`. */
  lemma SlugIdempotent(s: string)
    ensures ToSlug(ToSlug(s)) == ToSlug(s)
  {
    var t := ToSlug(s);
    LowerOfLower(t);
    HyphenateSpaceFree(t);
  }

  /** Whitespace at the front of `w + b` is all of `w` when `b` does not
      itself start with whitespace. */
  lemma {:induction false} TrimStartOfRun(w: string, b: string)
    requires forall i :: 0 <= i < |w| ==> IsSpace(w[i])
    requires b == [] || !IsSpace(b[0])
    ensures TrimStart(w + b) == b
    decreases |w|
  {
    if w != [] {
      assert (w + b)[1..] == w[1..] + b;
      TrimStartOfRun(w[1..], b);
    }
  }

  /** Leading whitespace of `x` is trimmed the same way when more text
      follows, as long as `x` is not all whitespace. */
  lemma {:induction false} TrimStartAppend(x: string, y: string)
    requires TrimStart(x) != []
    ensures TrimStart(x + y) == TrimStart(x) + y
    decreases |x|
  {
    assert (x + y)[0] == x[0];
    if IsSpace(x[0]) {
      assert (x + y)[1..] == x[1..] + y;
      TrimStartAppend(x[1..], y);
    }
  }

  lemma Associative(p: string, q: string, r: string)
    ensures p + (q + r) == p + q + r
  {
  }

  lemma Regroup(p: string, q: string, r: string, t: string)
    ensures p + (q + r + t) == (p + q) + r + t
  {
  }

  lemma HyphenateLeadingRun(w: string, b: string)
    requires w != [] && forall i :: 0 <= i < |w| ==> IsSpace(w[i])
    requires b == [] || !IsSpace(b[0])
    ensures Hyphenate(w + b) == "-" + Hyphenate(b)
  {
    assert (w + b)[1..] == w[1..] + b;
    TrimStartOfRun(w[1..], b);
  }

  /** One maximal whitespace run `w` between `a` and `b` becomes exactly one
      `-`, whatever its length, and the two sides are hyphenated on their
      own. */
  lemma {:induction false} HyphenateRun(a: string, w: string, b: string)
    requires a == [] || !IsSpace(a[|a| - 1])
    requires w != [] && forall i :: 0 <= i < |w| ==> IsSpace(w[i])
    requires b == [] || !IsSpace(b[0])
    ensures Hyphenate(a + w + b) == Hyphenate(a) + "-" + Hyphenate(b)
    decreases |a|, 1
  {
    var x := a + w + b;
    if a == [] {
      assert x == w + b;
      HyphenateLeadingRun(w, b);
    } else if !IsSpace(a[0]) {
      assert x[1..] == a[1..] + w + b;
      HyphenateRun(a[1..], w, b);
      var ha, hb := Hyphenate(a[1..]), Hyphenate(b);
      assert Hyphenate(x) == [a[0]] + (ha + "-" + hb);
      assert Hyphenate(a) == [a[0]] + ha;
      Regroup([a[0]], ha, "-", hb);
    } else {
      HyphenateRunAfterSpace(a, w, b);
    }
  }

  /** Trimming the front of a string that ends in a non-space leaves that
      last character in place. */
  lemma TrimStartKeepsLast(s: string)
    requires s != [] && !IsSpace(s[|s| - 1])
    ensures TrimStart(s) != [] && TrimStart(s)[|TrimStart(s)| - 1] == s[|s| - 1]
  {
  }

  /** A string that opens with whitespace and has a non-space character
      after it is hyphenated the same way when more text follows. */
  lemma HyphenateSpaceFront(a: string, y: string)
    requires a != [] && IsSpace(a[0]) && TrimStart(a[1..]) != []
    ensures Hyphenate(a) == "-" + Hyphenate(TrimStart(a[1..]))
    ensures Hyphenate(a + y) == "-" + Hyphenate(TrimStart(a[1..]) + y)
  {
    assert (a + y)[0] == a[0];
    assert (a + y)[1..] == a[1..] + y;
    TrimStartAppend(a[1..], y);
  }

  /** The case of `HyphenateRun` where `a` itself opens with whitespace. */
  lemma {:induction false} HyphenateRunAfterSpace(a: string, w: string, b: string)
    requires a != [] && IsSpace(a[0]) && !IsSpace(a[|a| - 1])
    requires w != [] && forall i :: 0 <= i < |w| ==> IsSpace(w[i])
    requires b == [] || !IsSpace(b[0])
    ensures Hyphenate(a + w + b) == Hyphenate(a) + "-" + Hyphenate(b)
    decreases |a|, 0
  {
    Associative(a, w, b);
    var a' := TrimStart(a[1..]);
    TrimStartKeepsLast(a[1..]);
    HyphenateSpaceFront(a, w + b);
    Associative(a', w, b);
    HyphenateRun(a', w, b);
    Regroup("-", Hyphenate(a'), "-", Hyphenate(b));
  }

  // ---------------------------------------------------------------------
  // Filtering

  /** The three filter controls. */
  datatype Filters = Filters(query: string, category: string, level: string)

  const NoFilters: Filters := Filters("", AllCategories, AllLevels)

  /** Case-insensitive substring match on the title or the description. */
  predicate MatchesSearch(c: Course, query: string) {
    Contains(Lower(c.title), Lower(query)) || Contains(Lower(c.description), Lower(query))
  }

  /** The stored category is compared, unchanged, with the slug of the label. */
  predicate MatchesCategory(c: Course, category: string) {
    category == AllCategories || c.category == ToSlug(category)
  }

  /** The difficulty is compared with the level, both lower-cased. */
  predicate MatchesLevel(c: Course, level: string) {
    level == AllLevels || Lower(c.difficulty) == Lower(level)
  }

  predicate Matches(c: Course, f: Filters) {
    MatchesSearch(c, f.query) && MatchesCategory(c, f.category) && MatchesLevel(c, f.level)
  }

  /** `r` is `s` with some elements dropped and the rest in their order. */
  predicate IsSubsequence<T(==)>(r: seq<T>, s: seq<T>)
    decreases |s|
  {
    if r == [] then true
    else if s == [] then false
    else (r[0] == s[0] && IsSubsequence(r[1..], s[1..])) || IsSubsequence(r, s[1..])
  }

  /** `courses.filter(...)`: the courses that pass all three tests, in their
      original order, none left out. */
  function FilterCourses(courses: seq<Course>, f: Filters): (r: seq<Course>)
    ensures IsSubsequence(r, courses)
    ensures forall c :: c in r ==> Matches(c, f)
    ensures forall c :: c in courses && Matches(c, f) ==> c in r
    ensures forall c :: multiset(r)[c] == if Matches(c, f) then multiset(courses)[c] else 0
  {
    if courses == [] then []
    else
      var rest := FilterCourses(courses[1..], f);
      assert courses == [courses[0]] + courses[1..];
      if Matches(courses[0], f) then [courses[0]] + rest else rest
  }

  /** The empty query occurs in every string. */
  lemma EmptyQueryMatches(c: Course)
    ensures MatchesSearch(c, "")
  {
    assert OccursAt(Lower(c.title), Lower(""), 0);
  }

  /** With an empty query, "All Categories" and "All Levels" nothing is
      filtered out. */
  lemma {:induction false} NoFiltersKeepAll(courses: seq<Course>)
    ensures FilterCourses(courses, NoFilters) == courses
  {
    if courses != [] {
      EmptyQueryMatches(courses[0]);
      NoFiltersKeepAll(courses[1..]);
    }
  }

  /** Under a specific category, every course kept stores exactly the slug
      of the label, so its stored category has no upper-case letter and no
      whitespace: a course stored as `Web Development` is never kept. */
  lemma CategoryFilterKeepsSlugOnly(courses: seq<Course>, f: Filters)
    requires f.category != AllCategories
    ensures forall c :: c in FilterCourses(courses, f) ==>
              c.category == ToSlug(f.category) && NoUpper(c.category) && NoSpace(c.category)
  {
  }

  // ---------------------------------------------------------------------
  // Sorting

  /** The value a sort mode orders by, ascending; each comparator of the page
      is a difference of two of these. A missing counter counts as 0; an
      unknown mode makes every course equal. */
  function SortKey(mode: string, c: Course): int {
    if mode == "newest" then -c.createdAt
    else if mode == "popular" then -c.enrollments.GetOr(0)
    else if mode == "rating" then -c.rating.GetOr(0)
    else if mode == "price-low" then c.price
    else if mode == "price-high" then -c.price
    else 0
  }

  /** The comparator passed to `sort`: positive means `a` goes after `b`. */
  function Compare(mode: string, a: Course, b: Course): (r: int)
    ensures r == SortKey(mode, a) - SortKey(mode, b)
  {
    match mode
    case "newest" => b.createdAt - a.createdAt
    case "popular" => b.enrollments.GetOr(0) - a.enrollments.GetOr(0)
    case "rating" => b.rating.GetOr(0) - a.rating.GetOr(0)
    case "price-low" => a.price - b.price
    case "price-high" => b.price - a.price
    case _ => 0
  }

  /** No pair is out of order for the comparator. */
  ghost predicate Sorted(mode: string, s: seq<Course>) {
    forall i, j :: 0 <= i < j < |s| ==> Compare(mode, s[i], s[j]) <= 0
  }

  /** The courses of `s` whose sort key is `k`, in their order in `s`. */
  ghost function Tied(mode: string, s: seq<Course>, k: int): (r: seq<Course>)
    decreases |s|
  {
    if s == [] then []
    else Tied(mode, s[..|s| - 1], k) + (if SortKey(mode, s[|s| - 1]) == k then [s[|s| - 1]] else [])
  }

  /** A sort is stable when every group of tied courses keeps its order. */
  ghost predicate SameTies(mode: string, s: seq<Course>, t: seq<Course>) {
    forall k :: Tied(mode, s, k) == Tied(mode, t, k)
  }

  lemma {:induction false} TiedAppend(mode: string, a: seq<Course>, b: seq<Course>, k: int)
    ensures Tied(mode, a + b, k) == Tied(mode, a, k) + Tied(mode, b, k)
    decreases |b|
  {
    if b == [] {
      assert a + b == a;
    } else {
      var b', last := b[..|b| - 1], b[|b| - 1];
      var tail := if SortKey(mode, last) == k then [last] else [];
      assert (a + b)[..|a + b| - 1] == a + b';
      assert (a + b)[|a + b| - 1] == last;
      assert Tied(mode, a + b, k) == Tied(mode, a + b', k) + tail;
      assert Tied(mode, b, k) == Tied(mode, b', k) + tail;
      TiedAppend(mode, a, b', k);
      assert Tied(mode, a + b', k) + tail == Tied(mode, a, k) + (Tied(mode, b', k) + tail);
    }
  }

  /** Two courses with different keys never share a group of ties, so their
      order does not matter to `Tied`. */
  lemma PairSwapKeepsTies(mode: string, x: Course, y: Course, k: int)
    requires SortKey(mode, x) != SortKey(mode, y)
    ensures Tied(mode, [x, y], k) == Tied(mode, [y, x], k)
  {
    assert [x, y][..1] == [x];
    assert [y, x][..1] == [y];
    assert [x][..0] == [] && [y][..0] == [];
  }

  /** A swap of neighbours, cut around the swapped pair. */
  lemma SwapSplit(s: seq<Course>, j: int)
    requires 0 < j < |s|
    ensures s == (s[..j - 1] + [s[j - 1], s[j]]) + s[j + 1..]
    ensures s[j - 1 := s[j]][j := s[j - 1]] == (s[..j - 1] + [s[j], s[j - 1]]) + s[j + 1..]
  {
  }

  /** Swapping two neighbours with different keys changes no group of ties. */
  lemma SwapKeepsTies(mode: string, s: seq<Course>, j: int)
    requires 0 < j < |s|
    requires SortKey(mode, s[j - 1]) != SortKey(mode, s[j])
    ensures SameTies(mode, s[j - 1 := s[j]][j := s[j - 1]], s)
  {
    var t := s[j - 1 := s[j]][j := s[j - 1]];
    var pre, post := s[..j - 1], s[j + 1..];
    var p, q := [s[j - 1], s[j]], [s[j], s[j - 1]];
    SwapSplit(s, j);
    assert s == (pre + p) + post;
    assert t == (pre + q) + post;
    forall k ensures Tied(mode, t, k) == Tied(mode, s, k) {
      TiedAppend(mode, pre + p, post, k);
      TiedAppend(mode, pre, p, k);
      TiedAppend(mode, pre + q, post, k);
      TiedAppend(mode, pre, q, k);
      PairSwapKeepsTies(mode, s[j - 1], s[j], k);
    }
  }

  /** How often `x` occurs among the courses tied at `k`. */
  lemma {:induction false} TiedCount(mode: string, s: seq<Course>, x: Course)
    ensures multiset(Tied(mode, s, SortKey(mode, x)))[x] == multiset(s)[x]
    decreases |s|
  {
    if s != [] {
      var s' := s[..|s| - 1];
      assert s == s' + [s[|s| - 1]];
      TiedCount(mode, s', x);
    }
  }

  /** Equal groups of ties for every key make a permutation. */
  lemma SameTiesPermutation(mode: string, s: seq<Course>, t: seq<Course>)
    requires SameTies(mode, s, t)
    ensures multiset(s) == multiset(t)
  {
    forall x ensures multiset(s)[x] == multiset(t)[x] {
      TiedCount(mode, s, x);
      TiedCount(mode, t, x);
    }
  }

  /** Under a mode the page does not know, every course is tied at 0. */
  lemma {:induction false} UnknownModeAllTied(mode: string, s: seq<Course>)
    requires mode !in {"newest", "popular", "rating", "price-low", "price-high"}
    ensures Tied(mode, s, 0) == s
    decreases |s|
  {
    if s != [] {
      UnknownModeAllTied(mode, s[..|s| - 1]);
    }
  }

  /** A stable sort under an unknown mode returns the input order. */
  lemma UnknownModeKeepsOrder(mode: string, s: seq<Course>, t: seq<Course>)
    requires mode !in {"newest", "popular", "rating", "price-low", "price-high"}
    requires SameTies(mode, s, t)
    ensures s == t
  {
    UnknownModeAllTied(mode, s);
    UnknownModeAllTied(mode, t);
    assert Tied(mode, s, 0) == Tied(mode, t, 0);
  }

  /** What each mode's order means for the courses shown. */
  lemma SortedMeaning(mode: string, s: seq<Course>, i: int, j: int)
    requires Sorted(mode, s)
    requires 0 <= i < j < |s|
    ensures mode == "price-low" ==> s[i].price <= s[j].price
    ensures mode == "price-high" ==> s[i].price >= s[j].price
    ensures mode == "newest" ==> s[i].createdAt >= s[j].createdAt
    ensures mode == "popular" ==> s[i].enrollments.GetOr(0) >= s[j].enrollments.GetOr(0)
    ensures mode == "rating" ==> s[i].rating.GetOr(0) >= s[j].rating.GetOr(0)
  {
    assert Compare(mode, s[i], s[j]) <= 0;
  }

  /** `s` read from the end. */
  function Reverse<T>(s: seq<T>): (r: seq<T>)
    ensures |r| == |s|
    ensures forall i :: 0 <= i < |s| ==> r[i] == s[|s| - 1 - i]
  {
    if s == [] then [] else Reverse(s[1..]) + [s[0]]
  }

  lemma {:induction false} ReverseMultiset<T>(s: seq<T>)
    ensures multiset(Reverse(s)) == multiset(s)
  {
    if s != [] {
      assert s == [s[0]] + s[1..];
      ReverseMultiset(s[1..]);
    }
  }

  /** No two different courses of `s` cost the same. */
  ghost predicate PricesDistinct(s: seq<Course>) {
    forall x, y :: x in s && y in s && x != y ==> x.price != y.price
  }

  /** Dropping the first course keeps a list sorted. */
  lemma SortedTail(mode: string, s: seq<Course>)
    requires s != [] && Sorted(mode, s)
    ensures Sorted(mode, s[1..])
  {
    forall i, j | 0 <= i < j < |s| - 1
      ensures Compare(mode, s[1..][i], s[1..][j]) <= 0
    {
      assert Compare(mode, s[i + 1], s[j + 1]) <= 0;
    }
  }

  /** Two ascending-price listings of the same courses start alike: each
      first course is priced no higher than the other's. */
  lemma PriceLowHeads(a: seq<Course>, b: seq<Course>)
    requires a != [] && Sorted("price-low", a) && Sorted("price-low", b)
    requires multiset(a) == multiset(b)
    requires PricesDistinct(a)
    ensures b != [] && a[0] == b[0]
  {
    assert a[0] in multiset(b) && a[0] in b;
    var k :| 0 <= k < |b| && b[k] == a[0];
    assert b[0] in multiset(a) && b[0] in a;
    var m :| 0 <= m < |a| && a[m] == b[0];
    if 0 < m {
      assert Compare("price-low", a[0], a[m]) <= 0;
    }
    if 0 < k {
      assert Compare("price-low", b[0], b[k]) <= 0;
    }
  }

  /** Equal multisets with equal first elements have equal rests. */
  lemma SameTailMultiset<T>(a: seq<T>, b: seq<T>)
    requires a != [] && b != [] && a[0] == b[0]
    requires multiset(a) == multiset(b)
    ensures multiset(a[1..]) == multiset(b[1..])
  {
    assert a == [a[0]] + a[1..];
    assert b == [b[0]] + b[1..];
    assert multiset(a) == multiset{a[0]} + multiset(a[1..]);
    assert multiset(b) == multiset{a[0]} + multiset(b[1..]);
    forall x ensures multiset(a[1..])[x] == multiset(b[1..])[x] {
      assert multiset(a)[x] == multiset(b)[x];
    }
  }

  /** With distinct prices there is only one way to list a collection of
      courses by ascending price. */
  lemma {:induction false} PriceLowUnique(a: seq<Course>, b: seq<Course>)
    requires Sorted("price-low", a) && Sorted("price-low", b)
    requires multiset(a) == multiset(b)
    requires PricesDistinct(a)
    ensures a == b
    decreases |a|
  {
    if a == [] {
      assert |multiset(b)| == 0;
    } else {
      PriceLowHeads(a, b);
      SameTailMultiset(a, b);
      assert forall x :: x in a[1..] ==> x in a;
      SortedTail("price-low", a);
      SortedTail("price-low", b);
      PriceLowUnique(a[1..], b[1..]);
    }
  }

  /** When no two courses share a price, "Price: High to Low" shows exactly
      the reverse of "Price: Low to High". */
  lemma PriceHighIsReversedPriceLow(s: seq<Course>, a: seq<Course>, b: seq<Course>)
    requires PricesDistinct(s)
    requires Sorted("price-low", a) && multiset(a) == multiset(s)
    requires Sorted("price-high", b) && multiset(b) == multiset(s)
    ensures b == Reverse(a)
  {
    var rb := Reverse(b);
    ReverseMultiset(b);
    forall i, j | 0 <= i < j < |rb|
      ensures Compare("price-low", rb[i], rb[j]) <= 0
    {
      assert Compare("price-high", b[|b| - 1 - j], b[|b| - 1 - i]) <= 0;
    }
    forall x | x in a ensures x in s {
      assert x in multiset(a);
    }
    PriceLowUnique(a, rb);
  }

  /** The prefix `a[..n]` is in ascending key order. */
  ghost predicate SortedPrefix(mode: string, a: seq<Course>, n: int)
    requires 0 <= n <= |a|
  {
    forall p, q :: 0 <= p < q < n ==> SortKey(mode, a[p]) <= SortKey(mode, a[q])
  }

  /** Midway through a pass: the first `i + 1` courses are in order except
      for `s[j]`, which belongs before every course after it. */
  ghost predicate Sifting(mode: string, s: seq<Course>, j: int, i: int)
    requires 0 <= j <= i < |s|
  {
    && (forall p, q :: 0 <= p < q <= i && p != j && q != j ==>
          SortKey(mode, s[p]) <= SortKey(mode, s[q]))
    && (forall q :: j < q <= i ==> SortKey(mode, s[j]) < SortKey(mode, s[q]))
  }

  /** A pass starts midway with nothing moved yet. */
  lemma SiftingStart(mode: string, s: seq<Course>, i: int)
    requires 0 <= i < |s| && SortedPrefix(mode, s, i)
    ensures Sifting(mode, s, i, i)
  {
  }

  /** Swapping `s[j]` with a predecessor the comparator puts after it moves
      the pass one place on. */
  lemma SiftingStep(mode: string, s: seq<Course>, j: int, i: int)
    requires 0 < j <= i < |s| && Sifting(mode, s, j, i)
    requires Compare(mode, s[j - 1], s[j]) > 0
    ensures Sifting(mode, s[j - 1 := s[j]][j := s[j - 1]], j - 1, i)
  {
  }

  /** The pass stops at the front or behind a course that may stay before
      `s[j]`; then the first `i + 1` courses are in order. */
  lemma SiftingDone(mode: string, s: seq<Course>, j: int, i: int)
    requires 0 <= j <= i < |s| && Sifting(mode, s, j, i)
    requires j == 0 || Compare(mode, s[j - 1], s[j]) <= 0
    ensures SortedPrefix(mode, s, i + 1)
  {
  }

  /** One pass of the sort: moves `a[i]` left past every course the
      comparator puts after it, by swaps of neighbours. */
  method SiftDown(a: array<Course>, i: int, mode: string)
    requires 0 <= i < a.Length
    requires SortedPrefix(mode, a[..], i)
    modifies a
    ensures SortedPrefix(mode, a[..], i + 1)
    ensures SameTies(mode, a[..], old(a[..]))
  {
    SiftingStart(mode, a[..], i);
    var j := i;
    while j > 0 && Compare(mode, a[j - 1], a[j]) > 0
      invariant 0 <= j <= i
      invariant Sifting(mode, a[..], j, i)
      invariant SameTies(mode, a[..], old(a[..]))
    {
      ghost var before := a[..];
      a[j - 1], a[j] := a[j], a[j - 1];
      assert a[..] == before[j - 1 := before[j]][j := before[j - 1]];
      SiftingStep(mode, before, j, i);
      SwapKeepsTies(mode, before, j);
      j := j - 1;
    }
    SiftingDone(mode, a[..], j, i);
  }

  /** `[...filteredCourses].sort(cmp)`: a fresh array holding the courses,
      sorted in place by the comparator, stably (ties keep their order), so
      a permutation of the input. The input list itself is a value and is
      not reordered. */
  method SortCourses(filtered: seq<Course>, mode: string) returns (a: array<Course>)
    ensures fresh(a)
    ensures Sorted(mode, a[..])
    ensures SameTies(mode, a[..], filtered)
    ensures multiset(a[..]) == multiset(filtered)
  {
    a := new Course[|filtered|](k requires 0 <= k < |filtered| => filtered[k]);
    assert a[..] == filtered;
    var i := 0;
    while i < a.Length
      invariant 0 <= i <= a.Length
      invariant SortedPrefix(mode, a[..], i)
      invariant SameTies(mode, a[..], filtered)
    {
      SiftDown(a, i, mode);
      i := i + 1;
    }
    assert a[..] == a[..a.Length];
    SameTiesPermutation(mode, a[..], filtered);
  }

  // ---------------------------------------------------------------------
  // Page state

  /** The catalogue page's state: the fetched courses, the ids the user is
      enrolled in, and the filter and sort controls. */
  class Catalogue {
    var courses: seq<Course>
    var enrolled: set<string>
    var filters: Filters
    var sortBy: string

    constructor ()
      ensures courses == [] && enrolled == {}
      ensures filters == NoFilters && sortBy == "popular"
    {
      courses := [];
      enrolled := {};
      filters := NoFilters;
      sortBy := "popular";
    }

    /** `fetchCourses`: the list is replaced on success, kept on failure. */
    method LoadCourses(reply: Reply<seq<Course>>)
      modifies this
      ensures courses == (if reply.Ok? then reply.data else old(courses))
      ensures enrolled == old(enrolled) && filters == old(filters) && sortBy == old(sortBy)
    {
      if reply.Ok? {
        courses := reply.data;
      }
    }

    /** `fetchEnrolled`: on success the set becomes exactly the ids of the
        courses returned; on failure it is kept. */
    method LoadEnrolled(reply: Reply<seq<Course>>)
      modifies this
      ensures reply.Ok? ==> forall id :: id in enrolled <==> exists c :: c in reply.data && c.id == id
      ensures reply.Failed? ==> enrolled == old(enrolled)
      ensures courses == old(courses) && filters == old(filters) && sortBy == old(sortBy)
    {
      if reply.Ok? {
        enrolled := set c | c in reply.data :: c.id;
      }
    }

    /** `handleEnroll`: `reply` is `Ok(success)` for an answered request and
        `Failed` for a thrown one. Only a successful enrolment adds the id,
        and then the page navigates to the course. */
    method HandleEnroll(courseId: string, reply: Reply<bool>) returns (navigateTo: Option<string>)
      modifies this
      ensures enrolled == if reply == Ok(true) then old(enrolled) + {courseId} else old(enrolled)
      ensures navigateTo == if reply == Ok(true) then Some("/course/" + courseId) else None
      ensures reply == Ok(true) ==> courseId in enrolled && old(enrolled) <= enrolled
      ensures courseId in old(enrolled) ==> enrolled == old(enrolled)
      ensures courses == old(courses) && filters == old(filters) && sortBy == old(sortBy)
    {
      navigateTo := None;
      if reply == Ok(true) {
        enrolled := enrolled + {courseId};
        navigateTo := Some("/course/" + courseId);
      }
    }

    /** A card shows "Enrolled" instead of the enrol button. */
    predicate ShowsEnrolled(c: Course)
      reads this
    {
      c.id in enrolled
    }

    /** The search box and the two selects. */
    method SetFilters(f: Filters)
      modifies this
      ensures filters == f
      ensures courses == old(courses) && enrolled == old(enrolled) && sortBy == old(sortBy)
    {
      filters := f;
    }

    /** The sort select. */
    method SetSort(mode: string)
      modifies this
      ensures sortBy == mode
      ensures courses == old(courses) && enrolled == old(enrolled) && filters == old(filters)
    {
      sortBy := mode;
    }

    /** The cards shown, in display order: the filtered courses, sorted. */
    method Cards() returns (cards: array<Course>)
      ensures fresh(cards)
      ensures Sorted(sortBy, cards[..])
      ensures SameTies(sortBy, cards[..], FilterCourses(courses, filters))
      ensures multiset(cards[..]) == multiset(FilterCourses(courses, filters))
    {
      cards := SortCourses(FilterCourses(courses, filters), sortBy);
    }
  }
}
