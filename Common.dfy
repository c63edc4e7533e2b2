/** Shared vocabulary: optional values and the .NET / JavaScript string
    primitives the monitor relies on (whitespace, trimming, splitting,
    ordinal case folding, substring search). */
module Common {

  datatype Option<+T> = None | Some(value: T)

  // ---------------------------------------------------------------------
  // Characters

  /** `char.IsWhiteSpace`: the Unicode space separators plus the control
      characters U+0009..U+000D, U+0085, and the line/paragraph separators. */
  predicate IsWhiteSpace(c: char)
  {
    c == ' ' || ('\t' <= c <= '\r') || c == '\U{0085}' || c == '\U{00A0}' ||
    c == '\U{1680}' || ('\U{2000}' <= c <= '\U{200A}') || c == '\U{2028}' ||
    c == '\U{2029}' || c == '\U{202F}' || c == '\U{205F}' || c == '\U{3000}'
  }

  predicate IsDigit(c: char) { '0' <= c <= '9' }

  predicate IsAsciiLetter(c: char) { 'a' <= c <= 'z' || 'A' <= c <= 'Z' }

  function LowerChar(c: char): char
  {
    if 'A' <= c <= 'Z' then (c as int + 32) as char else c
  }

  function UpperChar(c: char): char
  {
    if 'a' <= c <= 'z' then (c as int - 32) as char else c
  }

  // ---------------------------------------------------------------------
  // Whole strings

  /** `string.IsNullOrWhiteSpace` on a non-null string. */
  predicate IsBlank(s: string)
  {
    forall i :: 0 <= i < |s| ==> IsWhiteSpace(s[i])
  }

  /** `string.IsNullOrWhiteSpace`, a null string being `None`. */
  predicate IsNullOrWhiteSpace(value: Option<string>)
  {
    value.None? || IsBlank(value.value)
  }

  /** The index of the first non-white character at or after i, or |s|. */
  function TrimStartIndex(s: string, i: nat): (n: nat)
    requires i <= |s|
    ensures i <= n <= |s|
    ensures n < |s| ==> !IsWhiteSpace(s[n])
    decreases |s| - i
  {
    if i < |s| && IsWhiteSpace(s[i]) then TrimStartIndex(s, i + 1) else i
  }

  /** The index just past the last non-white character before j, or 0. */
  function TrimEndIndex(s: string, j: nat): (n: nat)
    requires j <= |s|
    ensures n <= j
    ensures n > 0 ==> !IsWhiteSpace(s[n - 1])
  {
    if j > 0 && IsWhiteSpace(s[j - 1]) then TrimEndIndex(s, j - 1) else j
  }

  function TrimStart(s: string): (r: string)
    ensures |r| <= |s| && r == s[|s| - |r|..]
    ensures r == [] || !IsWhiteSpace(r[0])
  {
    s[TrimStartIndex(s, 0)..]
  }

  function TrimEnd(s: string): (r: string)
    ensures |r| <= |s| && r == s[..|r|]
    ensures r == [] || !IsWhiteSpace(r[|r| - 1])
  {
    s[..TrimEndIndex(s, |s|)]
  }

  /** `string.Trim()`. */
  function Trim(s: string): string
  {
    TrimEnd(TrimStart(s))
  }

  function ToLower(s: string): (r: string)
    ensures |r| == |s| && forall i :: 0 <= i < |s| ==> r[i] == LowerChar(s[i])
  {
    seq(|s|, i requires 0 <= i < |s| => LowerChar(s[i]))
  }

  function ToUpper(s: string): (r: string)
    ensures |r| == |s| && forall i :: 0 <= i < |s| ==> r[i] == UpperChar(s[i])
  {
    if s == [] then [] else [UpperChar(s[0])] + ToUpper(s[1..])
  }

  /** Ordinal case-insensitive equality (`StringComparison.OrdinalIgnoreCase`). */
  predicate EqualsIgnoreCase(a: string, b: string)
  {
    ToLower(a) == ToLower(b)
  }

  predicate StartsWith(s: string, prefix: string)
  {
    |prefix| <= |s| && s[..|prefix|] == prefix
  }

  predicate EndsWith(s: string, suffix: string)
  {
    |suffix| <= |s| && s[|s| - |suffix|..] == suffix
  }

  /** `s.Contains(needle)`: needle occurs at some position of s. */
  predicate Contains(s: string, needle: string)
  {
    exists i :: 0 <= i <= |s| - |needle| && OccursAt(s, needle, i)
  }

  predicate OccursAt(s: string, needle: string, i: int)
  {
    0 <= i <= |s| - |needle| && s[i..i + |needle|] == needle
  }

  predicate ContainsIgnoreCase(s: string, needle: string)
  {
    Contains(ToLower(s), ToLower(needle))
  }

  /** The `ContainsAny` helpers of the hardware providers: some pattern
      occurs in the name, ignoring case. */
  predicate ContainsAny(name: string, patterns: seq<string>)
  {
    exists k :: 0 <= k < |patterns| && ContainsIgnoreCase(name, patterns[k])
  }

  // ---------------------------------------------------------------------
  // Splitting

  /** `s.Split(separators)` with no options: every separator ends a part,
      so there is always one more part than separators. */
  function Split(s: string, seps: set<char>): (parts: seq<string>)
    ensures |parts| >= 1
  {
    if s == [] then [""]
    else
      var rest := Split(s[1..], seps);
      if s[0] in seps then [""] + rest else [[s[0]] + rest[0]] + rest[1..]
  }

  /** Trims every part and drops the empty ones
      (`RemoveEmptyEntries | TrimEntries`). */
  function TrimNonEmpty(parts: seq<string>): (r: seq<string>)
    ensures |r| <= |parts|
    ensures forall t :: t in r ==> t != []
  {
    if parts == [] then []
    else
      var t := Trim(parts[0]);
      if t == [] then TrimNonEmpty(parts[1..]) else [t] + TrimNonEmpty(parts[1..])
  }

  function SplitTrimmed(s: string, seps: set<char>): seq<string>
  {
    TrimNonEmpty(Split(s, seps))
  }

  // ---------------------------------------------------------------------
  // Sequences

  /** Applies f to every element and keeps the defined results, in order. */
  function FilterMap<A, B>(xs: seq<A>, f: A -> Option<B>): (ys: seq<B>)
    ensures |ys| <= |xs|
  {
    if xs == [] then []
    else match f(xs[0])
      case Some(y) => [y] + FilterMap(xs[1..], f)
      case None => FilterMap(xs[1..], f)
  }

  function OptionToSeq<T>(o: Option<T>): (r: seq<T>)
    ensures (o.None? <==> r == []) && (o.Some? ==> r == [o.value])
  {
    match o
    case Some(v) => [v]
    case None => []
  }

  lemma FilterMapUnfold<A, B>(xs: seq<A>, i: nat, f: A -> Option<B>)
    requires i < |xs|
    ensures FilterMap(xs[i..], f) == OptionToSeq(f(xs[i])) + FilterMap(xs[i + 1..], f)
  {
    assert xs[i..][1..] == xs[i + 1..];
  }

  /** One step of a loop that accumulates `FilterMap(xs, f)` front to back. */
  lemma FilterMapStep<A, B>(acc: seq<B>, xs: seq<A>, i: nat, f: A -> Option<B>, y: Option<B>)
    requires i < |xs| && y == f(xs[i])
    requires acc + FilterMap(xs[i..], f) == FilterMap(xs, f)
    ensures (acc + OptionToSeq(y)) + FilterMap(xs[i + 1..], f) == FilterMap(xs, f)
  {
    FilterMapUnfold(xs, i, f);
    assert acc + (OptionToSeq(y) + FilterMap(xs[i + 1..], f)) == (acc + OptionToSeq(y)) + FilterMap(xs[i + 1..], f);
  }

  lemma AppendAssociative<T>(p: seq<T>, q: seq<T>, r: seq<T>)
    ensures (p + q) + r == p + (q + r)
  {
  }

  lemma PrefixOfPrefix<T>(s: seq<T>, i: nat)
    requires i < |s|
    ensures s[..i + 1][..i] == s[..i] && s[..i + 1] == s[..i] + [s[i]]
  {
  }

  /** Some element of a non-empty set. */
  method Pick<T>(s: set<T>) returns (x: T)
    requires s != {}
    ensures x in s
  {
    x :| x in s;
  }

  /** Some element satisfies p. */
  predicate Any<T>(xs: seq<T>, p: T -> bool)
  {
    exists j :: 0 <= j < |xs| && p(xs[j])
  }

  /** One step of a loop that ORs p over a sequence front to back. */
  lemma AnyStep<T>(xs: seq<T>, i: nat, p: T -> bool)
    requires i < |xs|
    ensures Any(xs[..i + 1], p) <==> Any(xs[..i], p) || p(xs[i])
  {
    var pre := xs[..i + 1];
    if Any(pre, p) {
      var j :| 0 <= j < |pre| && p(pre[j]);
      if j < i { assert xs[..i][j] == pre[j]; }
    }
    if Any(xs[..i], p) {
      var j :| 0 <= j < i && p(xs[..i][j]);
      assert pre[j] == xs[..i][j];
    }
    if p(xs[i]) {
      assert pre[i] == xs[i];
    }
  }

  predicate NoDuplicates<T(==)>(xs: seq<T>)
  {
    forall i, j :: 0 <= i < j < |xs| ==> xs[i] != xs[j]
  }

  /** LINQ `Distinct`: the first occurrence of each element, in order. */
  function Distinct<T(==)>(xs: seq<T>): seq<T>
  {
    if xs == [] then []
    else
      var d := Distinct(xs[..|xs| - 1]);
      if xs[|xs| - 1] in d then d else d + [xs[|xs| - 1]]
  }

  /** The elements of xs that are not in ys, in order. */
  function Without<T(==)>(xs: seq<T>, ys: seq<T>): seq<T>
  {
    if xs == [] then []
    else if xs[0] in ys then Without(xs[1..], ys)
    else [xs[0]] + Without(xs[1..], ys)
  }

  /** LINQ `Union`: the distinct elements of a, then those of b not in a. */
  function Union<T(==)>(a: seq<T>, b: seq<T>): seq<T> { Distinct(a + b) }

  /** LINQ `Except`: the distinct elements of a that are not in b. */
  function Except<T(==)>(a: seq<T>, b: seq<T>): seq<T> { Distinct(Without(a, b)) }

  lemma {:induction false} WithoutMembership<T>(xs: seq<T>, ys: seq<T>)
    ensures forall x :: x in Without(xs, ys) <==> x in xs && x !in ys
  {
    if xs != [] {
      WithoutMembership(xs[1..], ys);
      assert xs == [xs[0]] + xs[1..];
    }
  }

  /** `Distinct` keeps exactly the elements, once each. */
  lemma {:induction false} DistinctFacts<T>(xs: seq<T>)
    ensures forall x :: x in Distinct(xs) <==> x in xs
    ensures NoDuplicates(Distinct(xs))
  {
    if xs != [] {
      var init := xs[..|xs| - 1];
      DistinctFacts(init);
      assert xs == init + [xs[|xs| - 1]];
    }
  }

  /** LINQ `Where`: the elements satisfying p, in order. */
  function Filter<T>(xs: seq<T>, p: T -> bool): (r: seq<T>)
    ensures |r| <= |xs|
  {
    if xs == [] then []
    else if p(xs[0]) then [xs[0]] + Filter(xs[1..], p)
    else Filter(xs[1..], p)
  }

  /** LINQ `FirstOrDefault(p)`: the first element satisfying p. */
  function FirstWhere<T>(xs: seq<T>, p: T -> bool): Option<T>
  {
    if xs == [] then None
    else if p(xs[0]) then Some(xs[0])
    else FirstWhere(xs[1..], p)
  }

  /** The conjunction of two predicates. */
  function Both<T>(q: T -> bool, p: T -> bool): T -> bool
  {
    x => q(x) && p(x)
  }

  /** `FirstWhere` finds the element at the least index satisfying p. */
  lemma {:induction false} FirstWhereIsFirst<T>(xs: seq<T>, p: T -> bool)
    ensures FirstWhere(xs, p).None? <==> forall i :: 0 <= i < |xs| ==> !p(xs[i])
    ensures FirstWhere(xs, p).Some? ==>
      exists i :: 0 <= i < |xs| && xs[i] == FirstWhere(xs, p).value && p(xs[i])
        && forall j :: 0 <= j < i ==> !p(xs[j])
  {
    if xs != [] && !p(xs[0]) {
      FirstWhereIsFirst(xs[1..], p);
      if FirstWhere(xs, p).Some? {
        var i :| 0 <= i < |xs[1..]| && xs[1..][i] == FirstWhere(xs, p).value && p(xs[1..][i])
          && forall j :: 0 <= j < i ==> !p(xs[1..][j]);
        assert xs[i + 1] == xs[1..][i];
        assert forall j :: 1 <= j < i + 1 ==> xs[j] == xs[1..][j - 1];
      }
      assert forall i :: 1 <= i < |xs| ==> xs[i] == xs[1..][i - 1];
    }
  }

  /** Searching a filtered list is searching for both conditions at once. */
  lemma {:induction false} FirstWhereOfFilter<T>(xs: seq<T>, q: T -> bool, p: T -> bool)
    ensures FirstWhere(Filter(xs, q), p) == FirstWhere(xs, Both(q, p))
  {
    if xs != [] {
      FirstWhereOfFilter(xs[1..], q, p);
    }
  }

  /** `Filter` keeps exactly the elements satisfying p. */
  lemma {:induction false} FilterMembership<T>(xs: seq<T>, p: T -> bool)
    ensures forall x :: x in Filter(xs, p) <==> x in xs && p(x)
  {
    if xs != [] {
      FilterMembership(xs[1..], p);
      assert xs == [xs[0]] + xs[1..];
    }
  }

  /** Filtering twice is filtering once by both predicates. */
  lemma {:induction false} FilterOfFilter<T>(xs: seq<T>, q: T -> bool, p: T -> bool)
    ensures Filter(Filter(xs, q), p) == Filter(xs, Both(q, p))
  {
    if xs != [] {
      FilterOfFilter(xs[1..], q, p);
    }
  }

  /** A filter every element passes keeps the whole sequence. */
  lemma {:induction false} FilterAll<T>(xs: seq<T>, p: T -> bool)
    requires forall i :: 0 <= i < |xs| ==> p(xs[i])
    ensures Filter(xs, p) == xs
  {
    if xs != [] {
      assert forall i :: 0 <= i < |xs[1..]| ==> xs[1..][i] == xs[i + 1];
      FilterAll(xs[1..], p);
    }
  }

  /** Filtering a concatenation filters each part. */
  lemma {:induction false} FilterAppend<T>(xs: seq<T>, ys: seq<T>, p: T -> bool)
    ensures Filter(xs + ys, p) == Filter(xs, p) + Filter(ys, p)
  {
    if xs != [] {
      var zs := xs + ys;
      assert zs != [] && zs[0] == xs[0] && zs[1..] == xs[1..] + ys;
      assert Filter(zs, p) == if p(xs[0]) then [xs[0]] + Filter(xs[1..] + ys, p) else Filter(xs[1..] + ys, p);
      FilterAppend(xs[1..], ys, p);
      if p(xs[0]) {
        AppendAssociative([xs[0]], Filter(xs[1..], p), Filter(ys, p));
      }
    } else {
      assert xs + ys == ys;
    }
  }

  /** A filter no element passes keeps nothing. */
  lemma {:induction false} FilterNone<T>(xs: seq<T>, p: T -> bool)
    requires forall i :: 0 <= i < |xs| ==> !p(xs[i])
    ensures Filter(xs, p) == []
  {
    if xs != [] {
      assert forall i :: 0 <= i < |xs[1..]| ==> xs[1..][i] == xs[i + 1];
      FilterNone(xs[1..], p);
    }
  }

  /** Every kept result comes from some element, and every defined result is kept. */
  lemma {:induction false} FilterMapMembership<A, B>(xs: seq<A>, f: A -> Option<B>)
    ensures forall y :: y in FilterMap(xs, f) ==> exists i :: 0 <= i < |xs| && f(xs[i]) == Some(y)
    ensures forall i :: 0 <= i < |xs| && f(xs[i]).Some? ==> f(xs[i]).value in FilterMap(xs, f)
  {
    if xs != [] {
      FilterMapMembership(xs[1..], f);
      var ys := FilterMap(xs, f);
      forall y | y in ys ensures exists i :: 0 <= i < |xs| && f(xs[i]) == Some(y) {
        if f(xs[0]) != Some(y) {
          var j :| 0 <= j < |xs[1..]| && f(xs[1..][j]) == Some(y);
          assert f(xs[j + 1]) == Some(y);
        }
      }
      forall i | 0 <= i < |xs| && f(xs[i]).Some? ensures f(xs[i]).value in ys {
        if i > 0 { assert xs[i] == xs[1..][i - 1]; }
      }
    }
  }

  // ---------------------------------------------------------------------
  // Integer parsing

  /** The white space `NumberStyles.AllowLeadingWhite/AllowTrailingWhite` skip. */
  predicate IsNumberWhite(c: char) { c == ' ' || ('\t' <= c <= '\r') }

  function TrimNumberWhite(s: string): (r: string)
    ensures |r| <= |s|
  {
    if s != [] && IsNumberWhite(s[0]) then TrimNumberWhite(s[1..])
    else if s != [] && IsNumberWhite(s[|s| - 1]) then TrimNumberWhite(s[..|s| - 1])
    else s
  }

  predicate AllDigits(s: string) { forall i :: 0 <= i < |s| ==> IsDigit(s[i]) }

  function DigitsValue(s: string): (n: nat)
    requires AllDigits(s)
  {
    if s == [] then 0 else DigitsValue(s[..|s| - 1]) * 10 + (s[|s| - 1] as int - '0' as int)
  }

  const Int32Min: int := -0x8000_0000
  const Int32Max: int := 0x7FFF_FFFF

  predicate InInt32(n: int) { Int32Min <= n <= Int32Max }

  /** `int.TryParse(s, NumberStyles.Integer, InvariantCulture)`: optional
      surrounding white space, an optional sign, at least one ASCII digit,
      and a value that fits in 32 bits. */
  function ParseInt32(s: string): (r: Option<int>)
    ensures r.Some? ==> InInt32(r.value)
  {
    var t := TrimNumberWhite(s);
    if t == [] then None
    else
      var body := if t[0] == '-' || t[0] == '+' then t[1..] else t;
      if body == [] || !AllDigits(body) then None
      else
        var v: int := DigitsValue(body);
        var n := if t[0] == '-' then -v else v;
        if InInt32(n) then Some(n) else None
  }

  // ---------------------------------------------------------------------
  // Lemmas

  lemma TrimStartOfTrimmedEnd(s: string)
    requires s == [] || !IsWhiteSpace(s[0])
    ensures TrimStart(s) == s
  {
  }

  lemma TrimEndKeepsStart(s: string)
    requires s == [] || !IsWhiteSpace(s[0])
    ensures TrimEnd(s) == [] || !IsWhiteSpace(TrimEnd(s)[0])
  {
  }

  lemma {:induction false} TrimEndIndexAbove(s: string, j: nat, k: nat)
    requires k < j <= |s| && !IsWhiteSpace(s[k])
    ensures TrimEndIndex(s, j) > k
    decreases j
  {
    if IsWhiteSpace(s[j - 1]) {
      TrimEndIndexAbove(s, j - 1, k);
    }
  }

  lemma TrimEndNonEmpty(s: string)
    requires s != [] && !IsWhiteSpace(s[0])
    ensures TrimEnd(s) != []
  {
    TrimEndIndexAbove(s, |s|, 0);
  }

  lemma TrimIdempotent(s: string)
    ensures Trim(Trim(s)) == Trim(s)
  {
    var t := Trim(s);
    TrimEndKeepsStart(TrimStart(s));
    TrimStartOfTrimmedEnd(t);
  }

  lemma {:induction false} TrimStartIndexOfBlank(s: string, i: nat)
    requires i <= |s| && forall k :: i <= k < |s| ==> IsWhiteSpace(s[k])
    ensures TrimStartIndex(s, i) == |s|
    decreases |s| - i
  {
    if i < |s| { TrimStartIndexOfBlank(s, i + 1); }
  }

  lemma TrimStartOfBlank(s: string)
    requires IsBlank(s)
    ensures TrimStart(s) == []
  {
    TrimStartIndexOfBlank(s, 0);
  }

  /** A string is blank exactly when trimming leaves nothing. */
  lemma BlankIffTrimEmpty(s: string)
    ensures IsBlank(s) <==> Trim(s) == []
  {
    if IsBlank(s) {
      TrimStartOfBlank(s);
    } else {
      var i :| 0 <= i < |s| && !IsWhiteSpace(s[i]);
      TrimStartKeeps(s, i);
    }
  }

  lemma {:induction false} TrimStartIndexBelow(s: string, j: nat, i: nat)
    requires j <= i < |s| && !IsWhiteSpace(s[i])
    ensures TrimStartIndex(s, j) <= i
    decreases i - j
  {
    if j < i && IsWhiteSpace(s[j]) { TrimStartIndexBelow(s, j + 1, i); }
  }

  lemma TrimStartKeeps(s: string, i: nat)
    requires i < |s| && !IsWhiteSpace(s[i])
    ensures TrimStart(s) != [] && TrimEnd(TrimStart(s)) != []
  {
    TrimStartIndexBelow(s, 0, i);
    TrimEndNonEmpty(TrimStart(s));
  }

  lemma {:induction false} ToLowerIdempotent(s: string)
    ensures ToLower(ToLower(s)) == ToLower(s)
  {
  }

  /** A string contains its own prefix, ignoring case. */
  lemma ContainsOwnPrefix(prefix: string, rest: string)
    ensures ContainsIgnoreCase(prefix + rest, prefix)
  {
    var s := ToLower(prefix + rest);
    assert s[0..|prefix|] == ToLower(prefix);
    assert OccursAt(s, ToLower(prefix), 0);
  }

  lemma ContainsEmpty(s: string)
    ensures Contains(s, "")
  {
    assert OccursAt(s, "", 0);
  }

  /** `Math.Clamp(value, min, max)` for min <= max. */
  function ClampInt(value: int, min: int, max: int): (r: int)
    requires min <= max
    ensures min <= r <= max
    ensures min <= value <= max ==> r == value
    ensures value < min ==> r == min
    ensures value > max ==> r == max
  {
    if value < min then min else if value > max then max else value
  }

  /** A sequence has no duplicates exactly when no element occurs twice in it. */
  lemma {:induction false} NoDuplicatesByCount<T>(xs: seq<T>)
    ensures NoDuplicates(xs) <==> forall x :: multiset(xs)[x] <= 1
  {
    if xs != [] {
      var t := xs[1..];
      NoDuplicatesByCount(t);
      assert xs == [xs[0]] + t;
      assert multiset(xs) == multiset{xs[0]} + multiset(t);
      if NoDuplicates(xs) {
        assert NoDuplicates(t) by {
          forall i, j | 0 <= i < j < |t| ensures t[i] != t[j] {
            assert t[i] == xs[i + 1] && t[j] == xs[j + 1];
          }
        }
        assert xs[0] !in t by {
          forall j | 0 <= j < |t| ensures t[j] != xs[0] {
            assert t[j] == xs[j + 1];
          }
        }
      } else {
        var i, j :| 0 <= i < j < |xs| && xs[i] == xs[j];
        if i == 0 {
          assert xs[j] == t[j - 1];
          assert multiset(xs)[xs[0]] >= 2;
        } else {
          assert t[i - 1] == xs[i] && t[j - 1] == xs[j];
          assert !NoDuplicates(t);
          var x :| multiset(t)[x] > 1;
          assert multiset(xs)[x] > 1;
        }
      }
    }
  }

  /** Taking elements out of, or reordering, a sequence without duplicates
      leaves none. */
  lemma NoDuplicatesOfSubMultiset<T>(xs: seq<T>, ys: seq<T>)
    requires NoDuplicates(xs) && multiset(ys) <= multiset(xs)
    ensures NoDuplicates(ys)
  {
    NoDuplicatesByCount(xs);
    NoDuplicatesByCount(ys);
  }

  /** Inserting an absent element anywhere keeps a sequence free of duplicates. */
  lemma NoDuplicatesInsert<T>(xs: seq<T>, i: nat, x: T)
    requires NoDuplicates(xs) && x !in xs && i <= |xs|
    ensures NoDuplicates(xs[..i] + [x] + xs[i..])
  {
    var ys := xs[..i] + [x] + xs[i..];
    assert xs == xs[..i] + xs[i..];
    assert multiset(ys) == multiset(xs) + multiset{x};
    NoDuplicatesByCount(xs);
    NoDuplicatesByCount(ys);
  }


  /** Two sequences without duplicates holding the same elements are
      permutations of each other. */
  lemma SameElementsSameMultiset<T>(xs: seq<T>, ys: seq<T>)
    requires NoDuplicates(xs) && NoDuplicates(ys)
    requires forall x :: x in xs <==> x in ys
    ensures multiset(xs) == multiset(ys)
  {
    NoDuplicatesByCount(xs);
    NoDuplicatesByCount(ys);
    forall x ensures multiset(xs)[x] == multiset(ys)[x] {
      if x in xs {
        assert x in multiset(xs) && x in multiset(ys);
      } else {
        assert x !in multiset(xs) && x !in multiset(ys);
      }
    }
  }

  /** Joining two disjoint sequences without duplicates gives none. */
  lemma NoDuplicatesConcat<T>(xs: seq<T>, ys: seq<T>)
    requires NoDuplicates(xs) && NoDuplicates(ys)
    requires forall x :: x in xs ==> x !in ys
    ensures NoDuplicates(xs + ys)
  {
    var zs := xs + ys;
    forall i, j | 0 <= i < j < |zs| ensures zs[i] != zs[j] {
      if j < |xs| {
        assert zs[i] == xs[i] && zs[j] == xs[j];
      } else if i >= |xs| {
        assert zs[i] == ys[i - |xs|] && zs[j] == ys[j - |xs|];
      } else {
        assert zs[i] == xs[i] && zs[j] == ys[j - |xs|];
        assert zs[i] in xs && zs[j] in ys;
      }
    }
  }

  /** The parts of a sequence without duplicates have none and share
      nothing. */
  lemma NoDuplicatesSplit<T>(xs: seq<T>, ys: seq<T>)
    requires NoDuplicates(xs + ys)
    ensures NoDuplicates(xs) && NoDuplicates(ys)
    ensures forall x :: x in xs ==> x !in ys
  {
    var zs := xs + ys;
    forall i, j | 0 <= i < j < |xs| ensures xs[i] != xs[j] {
      assert xs[i] == zs[i] && xs[j] == zs[j];
    }
    forall i, j | 0 <= i < j < |ys| ensures ys[i] != ys[j] {
      assert ys[i] == zs[|xs| + i] && ys[j] == zs[|xs| + j];
    }
    forall x | x in xs ensures x !in ys {
      var i :| 0 <= i < |xs| && xs[i] == x;
      forall j | 0 <= j < |ys| ensures ys[j] != x {
        assert ys[j] == zs[|xs| + j] && x == zs[i];
      }
    }
  }
}
