/** The string operations the work-management code relies on: Unicode trimming,
    byte-lexicographic comparison (which for valid UTF-8 is code-point order) and
    the `sortedUnique` normal form of a list of names. */
module Text {

  // ----- white space -----

  /** The Unicode White_Space characters, as Go's `unicode.IsSpace` lists them. */
  predicate IsSpace(c: char) {
    || c == '\t' || c == '\n' || c == '\U{000B}' || c == '\U{000C}' || c == '\r' || c == ' '
    || c == '\U{0085}' || c == '\U{00A0}' || c == '\U{1680}'
    || ('\U{2000}' <= c <= '\U{200A}')
    || c == '\U{2028}' || c == '\U{2029}' || c == '\U{202F}' || c == '\U{205F}' || c == '\U{3000}'
  }

  function TrimLeft(s: string): (t: string)
    ensures t == "" || !IsSpace(t[0])
  {
    if s == "" || !IsSpace(s[0]) then s else TrimLeft(s[1..])
  }

  function TrimRight(s: string): (t: string)
    ensures t == "" || (s != "" && t[0] == s[0] && !IsSpace(t[|t| - 1]))
  {
    if s == "" || !IsSpace(s[|s| - 1]) then s else TrimRight(s[..|s| - 1])
  }

  function Trim(s: string): (t: string)
    ensures t == "" || (!IsSpace(t[0]) && !IsSpace(t[|t| - 1]))
  {
    TrimRight(TrimLeft(s))
  }

  /** `TrimSpace` leaves nothing. */
  predicate IsBlank(s: string) {
    forall c | c in s :: IsSpace(c)
  }

  lemma {:induction false} BlankTrimsToNothing(s: string)
    ensures IsBlank(s) <==> Trim(s) == ""
  {
    var t := TrimLeft(s);
    TrimLeftDropsSpaces(s);
    if t != "" {
      TrimRightKeepsHead(t);
    }
  }

  lemma {:induction false} TrimLeftDropsSpaces(s: string)
    ensures IsBlank(s) <==> TrimLeft(s) == ""
  {
    if s != "" && IsSpace(s[0]) {
      TrimLeftDropsSpaces(s[1..]);
      assert s == [s[0]] + s[1..];
    }
  }

  lemma {:induction false} TrimRightKeepsHead(s: string)
    requires s != "" && !IsSpace(s[0])
    ensures TrimRight(s) != ""
  {
    if IsSpace(s[|s| - 1]) {
      TrimRightKeepsHead(s[..|s| - 1]);
    }
  }

  /** A text with no space at either end is its own trimming. */
  lemma TrimFixes(s: string)
    requires s == "" || (!IsSpace(s[0]) && !IsSpace(s[|s| - 1]))
    ensures Trim(s) == s
  {
  }

  lemma TrimIdempotent(s: string)
    ensures Trim(Trim(s)) == Trim(s)
  {
    TrimFixes(Trim(s));
  }

  /** Spaces around a text that has none at its ends are exactly what `Trim` removes. */
  lemma {:induction false} TrimPadding(left: string, s: string, right: string)
    requires s != "" && !IsSpace(s[0]) && !IsSpace(s[|s| - 1])
    requires forall i | 0 <= i < |left| :: IsSpace(left[i])
    requires forall i | 0 <= i < |right| :: IsSpace(right[i])
    ensures Trim(left + s + right) == s
  {
    TrimLeftPadding(left, s + right);
    assert left + s + right == left + (s + right);
    TrimRightPadding(s, right);
  }

  lemma {:induction false} TrimLeftPadding(left: string, s: string)
    requires s != "" && !IsSpace(s[0])
    requires forall i | 0 <= i < |left| :: IsSpace(left[i])
    ensures TrimLeft(left + s) == s
  {
    if left == "" {
      assert left + s == s;
    } else {
      assert (left + s)[1..] == left[1..] + s;
      TrimLeftPadding(left[1..], s);
    }
  }

  lemma {:induction false} TrimRightPadding(s: string, right: string)
    requires s != "" && !IsSpace(s[|s| - 1])
    requires forall i | 0 <= i < |right| :: IsSpace(right[i])
    ensures TrimRight(s + right) == s
  {
    if right == "" {
      assert s + right == s;
    } else {
      var whole := s + right;
      assert whole[|whole| - 1] == right[|right| - 1];
      assert whole[..|whole| - 1] == s + right[..|right| - 1];
      TrimRightPadding(s, right[..|right| - 1]);
    }
  }

  /** Trimming never reaches past a character that is not a space. */
  lemma {:induction false} TrimKeepsCore(left: string, s: string, right: string)
    requires s != "" && !IsSpace(s[0]) && !IsSpace(s[|s| - 1])
    requires forall i | 0 <= i < |right| :: IsSpace(right[i])
    ensures |Trim(left + s + right)| >= |s|
  {
    if left == "" {
      assert left + s + right == "" + s + right;
      TrimPadding("", s, right);
    } else if IsSpace(left[0]) {
      assert (left + s + right)[1..] == left[1..] + s + right;
      TrimKeepsCore(left[1..], s, right);
    } else {
      assert left + s + right == "" + (left + s) + right;
      TrimPadding("", left + s, right);
    }
  }

  // ----- order -----

  /** Strict lexicographic order, the `<` of Go strings. */
  predicate Less(a: string, b: string) {
    if b == "" then false
    else if a == "" then true
    else a[0] < b[0] || (a[0] == b[0] && Less(a[1..], b[1..]))
  }

  lemma {:induction false} LessTotal(a: string, b: string)
    ensures a == b || Less(a, b) || Less(b, a)
    ensures !(Less(a, b) && Less(b, a)) && (a == b ==> !Less(a, b))
  {
    if a != "" && b != "" && a[0] == b[0] {
      LessTotal(a[1..], b[1..]);
      assert a == [a[0]] + a[1..] && b == [b[0]] + b[1..];
    }
  }

  lemma {:induction false} LessTransitive(a: string, b: string, c: string)
    requires Less(a, b) && Less(b, c)
    ensures Less(a, c)
  {
    if a != "" && a[0] == b[0] == c[0] {
      LessTransitive(a[1..], b[1..], c[1..]);
    }
  }

  predicate StrictlySorted(s: seq<string>) {
    forall i, j | 0 <= i < j < |s| :: Less(s[i], s[j])
  }

  // ----- sortedUnique -----

  /** `value` placed in a strictly sorted list, unless it is already there. */
  function Insert(value: string, s: seq<string>): (r: seq<string>)
    ensures forall v :: v in r <==> v == value || v in s
  {
    if s == [] then [value]
    else if value == s[0] then s
    else if Less(value, s[0]) then [value] + s
    else [s[0]] + Insert(value, s[1..])
  }

  lemma {:induction false} InsertSorted(value: string, s: seq<string>)
    requires StrictlySorted(s)
    ensures StrictlySorted(Insert(value, s))
  {
    if s != [] && value != s[0] {
      LessTotal(value, s[0]);
      if Less(value, s[0]) {
        forall j | 0 < j < |s|
          ensures Less(value, s[j])
        {
          LessTransitive(value, s[0], s[j]);
        }
      } else {
        InsertSorted(value, s[1..]);
        var rest := Insert(value, s[1..]);
        forall j | 0 <= j < |rest|
          ensures Less(s[0], rest[j])
        {
          assert rest[j] in rest;
        }
      }
    }
  }

  /** Inserting a value above every element appends it. */
  lemma {:induction false} InsertAtEnd(value: string, s: seq<string>)
    requires forall i | 0 <= i < |s| :: Less(s[i], value)
    ensures Insert(value, s) == s + [value]
  {
    if s != [] {
      LessTotal(s[0], value);
      InsertAtEnd(value, s[1..]);
    }
  }

  /** The trimmed, non-empty values of a list, each once, in ascending order. */
  function SortedUnique(values: seq<string>): (r: seq<string>) {
    if values == [] then []
    else
      var rest := SortedUnique(values[..|values| - 1]);
      var value := Trim(values[|values| - 1]);
      if value == "" then rest else Insert(value, rest)
  }

  predicate IsNormalized(r: seq<string>) {
    && StrictlySorted(r)
    && forall v | v in r :: v != "" && Trim(v) == v
  }

  lemma {:induction false} SortedUniqueNormalizes(values: seq<string>)
    ensures IsNormalized(SortedUnique(values))
  {
    if values != [] {
      var init, last := values[..|values| - 1], values[|values| - 1];
      SortedUniqueNormalizes(init);
      InsertSorted(Trim(last), SortedUnique(init));
      TrimIdempotent(last);
    }
  }

  /** The normal form of a normal form is itself: a stored list and the list it was
      built from have the same canonical value. */
  lemma {:induction false} SortedUniqueFixes(r: seq<string>)
    requires IsNormalized(r)
    ensures SortedUnique(r) == r
  {
    if r != [] {
      var init, last := r[..|r| - 1], r[|r| - 1];
      assert r == init + [last];
      SortedUniqueFixes(init);
      InsertAtEnd(last, init);
    }
  }

  lemma SortedUniqueIdempotent(values: seq<string>)
    ensures SortedUnique(SortedUnique(values)) == SortedUnique(values)
  {
    SortedUniqueNormalizes(values);
    SortedUniqueFixes(SortedUnique(values));
  }

  // ----- sort.Strings -----

  function Place(value: string, s: seq<string>): (r: seq<string>) {
    if s == [] || !Less(s[0], value) then [value] + s else [s[0]] + Place(value, s[1..])
  }

  /** `sort.Strings`: duplicates are kept. */
  function SortStrings(s: seq<string>): (r: seq<string>) {
    if s == [] then [] else Place(s[|s| - 1], SortStrings(s[..|s| - 1]))
  }

  lemma {:induction false} PlaceNew(value: string, s: seq<string>)
    requires value !in s
    ensures Place(value, s) == Insert(value, s)
  {
    if s != [] {
      LessTotal(value, s[0]);
      PlaceNew(value, s[1..]);
    }
  }

  predicate Ascending(s: seq<string>) {
    forall i, j | 0 <= i < j < |s| :: !Less(s[j], s[i])
  }

  lemma {:induction false} PlaceAscends(value: string, s: seq<string>)
    requires Ascending(s)
    ensures Ascending(Place(value, s)) && multiset(Place(value, s)) == multiset(s) + multiset{value}
  {
    var r := Place(value, s);
    if s == [] {
    } else if !Less(s[0], value) {
      forall j | 0 < j < |r|
        ensures !Less(r[j], value)
      {
        LessTotal(value, s[0]);
        LessTotal(s[0], s[j - 1]);
        if Less(s[j - 1], value) && Less(value, s[0]) {
          LessTransitive(s[j - 1], value, s[0]);
        }
      }
    } else {
      assert s == [s[0]] + s[1..];
      PlaceAscends(value, s[1..]);
      var rest := Place(value, s[1..]);
      forall j | 0 <= j < |rest|
        ensures !Less(rest[j], s[0])
      {
        LessTotal(s[0], value);
        assert rest[j] in multiset(rest);
        assert rest[j] == value || rest[j] in s[1..];
      }
    }
  }

  /** Sorting is a permutation into ascending order. */
  lemma {:induction false} SortStringsSorts(s: seq<string>)
    ensures Ascending(SortStrings(s)) && multiset(SortStrings(s)) == multiset(s)
  {
    if s != [] {
      assert s == s[..|s| - 1] + [s[|s| - 1]];
      SortStringsSorts(s[..|s| - 1]);
      PlaceAscends(s[|s| - 1], SortStrings(s[..|s| - 1]));
    }
  }

  /** The loop of `sortedUnique`: trim, drop the blank, drop the seen, then sort. */
  method SortedUniqueLoop(values: seq<string>) returns (result: seq<string>)
    ensures result == SortedUnique(values)
  {
    var seen: set<string> := {};
    var kept: seq<string> := [];
    var i := 0;
    while i < |values|
      invariant 0 <= i <= |values|
      invariant forall v :: v in seen <==> v in kept
      invariant SortStrings(kept) == SortedUnique(values[..i])
    {
      var value := Trim(values[i]);
      ghost var sorted := SortedUnique(values[..i]);
      assert values[..i + 1][..i] == values[..i];
      if value != "" {
        if value in seen {
          SortStringsElements(kept, value);
          SortedUniqueNormalizes(values[..i]);
          InsertPresent(value, sorted);
        } else {
          assert (kept + [value])[..|kept|] == kept;
          SortStringsElements(kept, value);
          PlaceNew(value, sorted);
          seen := seen + {value};
          kept := kept + [value];
        }
      }
      i := i + 1;
    }
    assert values[..i] == values;
    result := SortStrings(kept);
  }

  lemma SortStringsElements(s: seq<string>, v: string)
    ensures v in SortStrings(s) <==> v in s
  {
    SortStringsSorts(s);
    assert v in SortStrings(s) <==> v in multiset(SortStrings(s));
    assert v in s <==> v in multiset(s);
  }

  lemma {:induction false} InsertPresent(value: string, s: seq<string>)
    requires StrictlySorted(s) && value in s
    ensures Insert(value, s) == s
  {
    if value != s[0] {
      assert value in s[1..];
      LessTotal(value, s[0]);
      InsertPresent(value, s[1..]);
    }
  }

  /** The least string of a non-empty list. */
  function Least(s: seq<string>): (m: string)
    requires s != []
    ensures m in s
  {
    if |s| == 1 then s[0]
    else
      var rest := Least(s[..|s| - 1]);
      if Less(s[|s| - 1], rest) then s[|s| - 1] else rest
  }

  lemma {:induction false} LeastIsLowerBound(s: seq<string>, i: nat)
    requires i < |s|
    ensures !Less(s[i], Least(s))
  {
    var last := |s| - 1;
    LessTotal(Least(s), Least(s));
    if |s| > 1 {
      var rest := Least(s[..last]);
      LessTotal(s[last], rest);
      if i < last {
        LeastIsLowerBound(s[..last], i);
        if Less(s[last], rest) && Less(s[i], s[last]) {
          LessTransitive(s[i], s[last], rest);
        }
      }
    }
  }
}
