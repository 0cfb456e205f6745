/**
 * The two string operations the forms and list views use: trimming
 * `.whitespacesAndNewlines`, and the `<` ordering of `String` used to sort by
 * name (modelled as lexicographic order on characters; no normalisation).
 */
module Text {
  import opened Sorting

  /** Members of Foundation's whitespace-and-newline set: the Unicode space separators and line breaks. */
  predicate IsWhitespace(c: char) {
    || c == ' ' || c == '\t' || c == '\n' || c == '\r'
    || c == '\U{000B}' || c == '\U{000C}' || c == '\U{0085}' || c == '\U{00A0}'
    || c == '\U{1680}' || ('\U{2000}' <= c <= '\U{200A}')
    || c == '\U{2028}' || c == '\U{2029}' || c == '\U{202F}' || c == '\U{205F}' || c == '\U{3000}'
  }

  predicate AllWhitespace(s: string) {
    forall i :: 0 <= i < |s| ==> IsWhitespace(s[i])
  }

  /** `s` keeps only whitespace before index `i` and from index `j` on. */
  predicate WhitespaceOutside(s: string, i: int, j: int) {
    && 0 <= i <= j <= |s|
    && (forall k :: 0 <= k < i ==> IsWhitespace(s[k]))
    && (forall k :: j <= k < |s| ==> IsWhitespace(s[k]))
  }

  /** The first index at or after `from` that is not whitespace, or `|s|`. */
  function SkipLeading(s: string, from: nat): (i: nat)
    requires from <= |s|
    ensures from <= i <= |s|
    ensures forall k :: from <= k < i ==> IsWhitespace(s[k])
    ensures i < |s| ==> !IsWhitespace(s[i])
    decreases |s| - from
  {
    if from < |s| && IsWhitespace(s[from]) then SkipLeading(s, from + 1) else from
  }

  /** The end of `s[lo..hi]` once its trailing whitespace is dropped. */
  function SkipTrailing(s: string, lo: nat, hi: nat): (j: nat)
    requires lo <= hi <= |s|
    ensures lo <= j <= hi
    ensures forall k :: j <= k < hi ==> IsWhitespace(s[k])
    ensures lo < j ==> !IsWhitespace(s[j - 1])
    decreases hi
  {
    if lo < hi && IsWhitespace(s[hi - 1]) then SkipTrailing(s, lo, hi - 1) else hi
  }

  /** `trimmingCharacters(in: .whitespacesAndNewlines)`: the middle of `s` between its leading and trailing whitespace. */
  function Trim(s: string): (r: string)
    ensures r == [] <==> AllWhitespace(s)
    ensures r != [] ==> !IsWhitespace(r[0]) && !IsWhitespace(r[|r| - 1])
    ensures exists i, j :: WhitespaceOutside(s, i, j) && r == s[i..j]
  {
    var i := SkipLeading(s, 0);
    var j := SkipTrailing(s, i, |s|);
    assert WhitespaceOutside(s, i, j);
    assert i < |s| ==> !AllWhitespace(s);
    s[i..j]
  }

  /** Trimming a trimmed string changes nothing. */
  lemma TrimIdempotent(s: string)
    ensures Trim(Trim(s)) == Trim(s)
  {
    var r := Trim(s);
    if r != [] {
      assert SkipLeading(r, 0) == 0;
      assert SkipTrailing(r, 0, |r|) == |r|;
      assert r[0..|r|] == r;
    }
  }

  /** The form rule "the name trims to something": some character is not whitespace. */
  predicate HasContent(s: string) {
    Trim(s) != []
  }

  /** Lexicographic `<=` on strings: `a` may come before `b` when sorting by name. */
  predicate StrLe(a: string, b: string)
    decreases |a|
  {
    if a == [] then true
    else if b == [] then false
    else if a[0] != b[0] then a[0] < b[0]
    else StrLe(a[1..], b[1..])
  }

  lemma {:induction false} StrLeTotal(a: string, b: string)
    ensures StrLe(a, b) || StrLe(b, a)
    decreases |a|
  {
    if a != [] && b != [] && a[0] == b[0] {
      StrLeTotal(a[1..], b[1..]);
    }
  }

  lemma {:induction false} StrLeTransitive(a: string, b: string, c: string)
    requires StrLe(a, b) && StrLe(b, c)
    ensures StrLe(a, c)
    decreases |a|
  {
    if a != [] && b != [] && c != [] && a[0] == b[0] && b[0] == c[0] {
      StrLeTransitive(a[1..], b[1..], c[1..]);
    }
  }

  /** Equal-length strings that order both ways are equal, so `StrLe` orders distinct names strictly. */
  lemma {:induction false} StrLeAntisymmetric(a: string, b: string)
    requires StrLe(a, b) && StrLe(b, a)
    ensures a == b
    decreases |a|
  {
    if a != [] && b != [] {
      StrLeAntisymmetric(a[1..], b[1..]);
      assert a == [a[0]] + a[1..] && b == [b[0]] + b[1..];
    }
  }

  /** Sorting records by `name < name`: "may come before" is `StrLe` on the names. */
  function NameOrder<T>(name: T -> string): (T, T) -> bool {
    (a, b) => StrLe(name(a), name(b))
  }

  /** Any name ordering is a total preorder, so sorting by it is well defined. */
  lemma NameOrderTotalPreorder<T(!new)>(name: T -> string)
    ensures TotalPreorder(NameOrder(name))
  {
    forall a: T, b: T ensures NameOrder(name)(a, b) || NameOrder(name)(b, a) {
      StrLeTotal(name(a), name(b));
    }
    forall a: T, b: T, c: T | NameOrder(name)(a, b) && NameOrder(name)(b, c)
      ensures NameOrder(name)(a, c)
    {
      StrLeTransitive(name(a), name(b), name(c));
    }
  }
}
