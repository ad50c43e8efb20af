/**
 * The shared utilities: the expense categories and their string values, the colour
 * each category is drawn in, and the initials shown in the user's avatar.
 */
module Utils {
  import opened Wrappers
  import opened JsString

  /** The expense categories, named as in the enum. */
  datatype Category =
    | Income
    | Savings
    | Utilities
    | Subscriptions
    | Rent
    | HealthFitness
    | Transport
    | Groceries
    | GoingOut
    | Investment
    | Shopping
    | Education
    | Travel
    | Entertainment
    | Miscellaneous

  /** Every category, in declaration order. */
  const ALL_CATEGORIES: seq<Category> := [
    Income, Savings, Utilities, Subscriptions, Rent, HealthFitness, Transport, Groceries,
    GoingOut, Investment, Shopping, Education, Travel, Entertainment, Miscellaneous]

  const FALLBACK_COLOR: string := "#6b7280"

  /** The string value of a category, as stored by the backend. */
  function Value(c: Category): string
  {
    match c
    case Income => "Income"
    case Savings => "Savings"
    case Utilities => "Utilities"
    case Subscriptions => "Subscriptions"
    case Rent => "Rent"
    case HealthFitness => "Health & Fitness"
    case Transport => "Transport"
    case Groceries => "Groceries"
    case GoingOut => "Going Out"
    case Investment => "Investment"
    case Shopping => "Shopping"
    case Education => "Education"
    case Travel => "Travel"
    case Entertainment => "Entertainment"
    case Miscellaneous => "Miscellaneous"
  }

  /** The category whose string value is `s`, if any. */
  function FromValue(s: string): (r: Option<Category>)
    ensures r.Some? ==> Value(r.value) == s
  {
    if s == "Income" then Some(Income)
    else if s == "Savings" then Some(Savings)
    else if s == "Utilities" then Some(Utilities)
    else if s == "Subscriptions" then Some(Subscriptions)
    else if s == "Rent" then Some(Rent)
    else if s == "Health & Fitness" then Some(HealthFitness)
    else if s == "Transport" then Some(Transport)
    else if s == "Groceries" then Some(Groceries)
    else if s == "Going Out" then Some(GoingOut)
    else if s == "Investment" then Some(Investment)
    else if s == "Shopping" then Some(Shopping)
    else if s == "Education" then Some(Education)
    else if s == "Travel" then Some(Travel)
    else if s == "Entertainment" then Some(Entertainment)
    else if s == "Miscellaneous" then Some(Miscellaneous)
    else None
  }

  /** Every category's value is recognised as that category. */
  lemma FromValueOfValue(c: Category)
    ensures FromValue(Value(c)) == Some(c)
  {
  }

  /** Where a category sits in the declaration order. */
  function Position(c: Category): (i: nat)
    ensures i < |ALL_CATEGORIES|
  {
    match c
    case Income => 0
    case Savings => 1
    case Utilities => 2
    case Subscriptions => 3
    case Rent => 4
    case HealthFitness => 5
    case Transport => 6
    case Groceries => 7
    case GoingOut => 8
    case Investment => 9
    case Shopping => 10
    case Education => 11
    case Travel => 12
    case Entertainment => 13
    case Miscellaneous => 14
  }

  /** The declaration order lists every category once: `Position` is its exact inverse. */
  lemma CategoriesAreListed()
    ensures |ALL_CATEGORIES| == 15
    ensures forall c: Category :: ALL_CATEGORIES[Position(c)] == c
    ensures forall i :: 0 <= i < |ALL_CATEGORIES| ==> Position(ALL_CATEGORIES[i]) == i
  {
  }

  /** The fifteen categories have fifteen distinct string values. */
  lemma CategoriesAreDistinct(i: int, j: int)
    requires 0 <= i < j < |ALL_CATEGORIES|
    ensures Value(ALL_CATEGORIES[i]) != Value(ALL_CATEGORIES[j])
  {
    CategoriesAreListed();
    FromValueOfValue(ALL_CATEGORIES[i]);
    FromValueOfValue(ALL_CATEGORIES[j]);
  }

  /** The colour map: one hex colour per category. */
  function HexColor(c: Category): string
  {
    match c
    case Income => "#22c55e"
    case Entertainment => "#14b8a6"
    case Savings => "#10b981"
    case Utilities => "#eab308"
    case Subscriptions => "#a855f7"
    case Rent => "#6366f1"
    case HealthFitness => "#ef4444"
    case Transport => "#3b82f6"
    case Groceries => "#f97316"
    case GoingOut => "#ec4899"
    case Investment => "#a3e635"
    case Shopping => "#8b5cf6"
    case Education => "#06b6d4"
    case Travel => "#0ea5e9"
    case Miscellaneous => "#6b7280"
  }

  predicate IsHexDigit(ch: char)
  {
    '0' <= ch <= '9' || 'a' <= ch <= 'f'
  }

  /** A `#rrggbb` colour. */
  predicate IsHexColor(s: string)
  {
    |s| == 7 && s[0] == '#' && forall k :: 1 <= k < 7 ==> IsHexDigit(s[k])
  }

  /** The category drawn in colour `s`, if any. */
  function FromColor(s: string): (r: Option<Category>)
    ensures r.Some? ==> HexColor(r.value) == s
  {
    if s == "#22c55e" then Some(Income)
    else if s == "#14b8a6" then Some(Entertainment)
    else if s == "#10b981" then Some(Savings)
    else if s == "#eab308" then Some(Utilities)
    else if s == "#a855f7" then Some(Subscriptions)
    else if s == "#6366f1" then Some(Rent)
    else if s == "#ef4444" then Some(HealthFitness)
    else if s == "#3b82f6" then Some(Transport)
    else if s == "#f97316" then Some(Groceries)
    else if s == "#ec4899" then Some(GoingOut)
    else if s == "#a3e635" then Some(Investment)
    else if s == "#8b5cf6" then Some(Shopping)
    else if s == "#06b6d4" then Some(Education)
    else if s == "#0ea5e9" then Some(Travel)
    else if s == "#6b7280" then Some(Miscellaneous)
    else None
  }

  /** Every category's colour is recognised as that category's. */
  lemma FromColorOfColor(c: Category)
    ensures FromColor(HexColor(c)) == Some(c)
  {
  }

  /** Every category's colour is a well-formed `#rrggbb` colour. */
  lemma ColorIsHex(c: Category)
    ensures IsHexColor(HexColor(c))
  {
  }

  /** No two categories share a colour. */
  lemma ColorsAreDistinct(c: Category, d: Category)
    requires c != d
    ensures HexColor(c) != HexColor(d)
  {
    FromColorOfColor(c);
    FromColorOfColor(d);
  }

  /**
   * `getCategoryColor`: the colour of the category whose value is `category`, and the
   * Miscellaneous colour for any other string.
   */
  function CategoryColor(category: string): (r: string)
    ensures forall c: Category :: Value(c) == category ==> r == HexColor(c)
    ensures FromValue(category).None? ==> r == FALLBACK_COLOR
    ensures IsHexColor(r)
  {
    match FromValue(category)
    case Some(c) =>
      ColorIsHex(c);
      FromValueIsInverse(category, c);
      if HexColor(c) != "" then HexColor(c) else FALLBACK_COLOR
    case None =>
      ColorIsHex(Miscellaneous);
      FALLBACK_COLOR
  }

  /** A string names at most one category: the value map is injective. */
  lemma FromValueIsInverse(s: string, c: Category)
    requires FromValue(s) == Some(c)
    ensures forall d: Category :: Value(d) == s ==> d == c
  {
    forall d: Category | Value(d) == s
      ensures d == c
    {
      FromValueOfValue(d);
    }
  }

  /** An unknown category is drawn in the Miscellaneous colour. */
  lemma UnknownCategoryIsGray(category: string)
    requires forall c: Category :: Value(c) != category
    ensures CategoryColor(category) == HexColor(Miscellaneous)
  {
  }

  /** `words.map((n) => n[0]).join("")`: an empty word's `n[0]` is `undefined`, which joins as "". */
  function FirstChars(words: seq<string>): (r: string)
    ensures |r| <= |words|
    decreases |words|
  {
    if |words| == 0 then ""
    else (if |words[0]| > 0 then [words[0][0]] else "") + FirstChars(words[1..])
  }

  /**
   * Reference definition: the characters of `s` that begin a word, i.e. are not a space
   * and come first or right after a space (`atStart` says whether `s` begins at such a
   * boundary).
   */
  function WordStarts(s: string, atStart: bool): (r: string)
    ensures |r| <= |s|
    decreases |s|
  {
    if |s| == 0 then ""
    else if s[0] == ' ' then WordStarts(s[1..], true)
    else (if atStart then [s[0]] else "") + WordStarts(s[1..], false)
  }

  /**
   * Splitting on spaces and taking each word's first character picks the word starts:
   * runs of spaces and leading or trailing spaces contribute nothing.
   */
  lemma {:induction false} FirstCharsOfSplit(s: string)
    ensures FirstChars(Split(s, ' ')) == WordStarts(s, true)
    ensures FirstChars(Split(s, ' ')[1..]) == WordStarts(s, false)
    decreases |s|
  {
    if |s| > 0 {
      FirstCharsOfSplit(s[1..]);
      var rest := Split(s[1..], ' ');
      if s[0] == ' ' {
        assert Split(s, ' ') == [""] + rest;
        assert Split(s, ' ')[1..] == rest;
      } else {
        var parts := Split(s, ' ');
        assert parts == [[s[0]] + rest[0]] + rest[1..];
        assert parts[1..] == rest[1..];
        assert FirstChars(parts) == [s[0]] + FirstChars(rest[1..]);
      }
    }
  }

  /** `s.slice(0, n)`. */
  function Prefix(s: string, n: nat): (r: string)
    ensures |r| == if |s| <= n then |s| else n
    ensures r <= s
  {
    if |s| <= n then s else s[..n]
  }

  /** `getUserInitials(name)`. */
  function Initials(name: string): (r: string)
    ensures |r| <= 2
  {
    Prefix(Upper(FirstChars(Split(name, ' '))), 2)
  }

  /**
   * The initials are the upper-cased first characters of the first two words, with
   * empty words skipped.
   */
  lemma InitialsAreWordStarts(name: string)
    ensures Initials(name) == Prefix(Upper(WordStarts(name, true)), 2)
    ensures forall k :: 0 <= k < |Initials(name)| ==>
      Initials(name)[k] == UpperChar(WordStarts(name, true)[k])
  {
    FirstCharsOfSplit(name);
  }

  /** The avatar's fallback name "User" shows as "U". */
  lemma FallbackInitials()
    ensures Initials("User") == "U"
  {
    FirstCharsOfSplit("User");
    assert WordStarts("User", true) == "U" by {
      assert WordStarts("r", false) == "";
      assert WordStarts("er", false) == "";
      assert WordStarts("ser", false) == "";
    }
  }

  /** Two space-free words joined by exactly one space give their two initials. */
  lemma TwoWordInitials(first: string, second: string)
    requires |first| > 0 && |second| > 0 && ' ' !in first && ' ' !in second
    ensures WordStarts(first + " " + second, true) == [first[0], second[0]]
  {
    NoSpaceStarts(first, true);
    NoSpaceStarts(second, true);
    StartsAfterWord(first, " " + second);
    assert (first + " " + second) == first + (" " + second);
  }

  /** A word without spaces contributes its first character exactly once. */
  lemma {:induction false} NoSpaceStarts(w: string, atStart: bool)
    requires ' ' !in w
    ensures WordStarts(w, atStart) == if atStart && |w| > 0 then [w[0]] else ""
    decreases |w|
  {
    if |w| > 0 {
      NoSpaceStarts(w[1..], false);
    }
  }

  /** After a word without spaces the word starts of the rest follow unchanged. */
  lemma {:induction false} StartsAfterWord(w: string, rest: string)
    requires |w| > 0 && ' ' !in w && |rest| > 0 && rest[0] == ' '
    ensures WordStarts(w + rest, true) == [w[0]] + WordStarts(rest, false)
  {
    MidWordStarts(w[1..], rest);
    assert (w + rest)[1..] == w[1..] + rest;
  }

  /** Inside a word, nothing starts until the next space. */
  lemma {:induction false} MidWordStarts(w: string, rest: string)
    requires ' ' !in w && |rest| > 0 && rest[0] == ' '
    ensures WordStarts(w + rest, false) == WordStarts(rest, false)
    decreases |w|
  {
    if |w| > 0 {
      MidWordStarts(w[1..], rest);
      assert (w + rest)[1..] == w[1..] + rest;
    } else {
      assert w + rest == rest;
    }
  }
}
