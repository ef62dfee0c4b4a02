/**
 * The string operations the dashboard relies on, with Python's meaning:
 * `str.lower`, `str.strip`, and the `<` ordering of `str` that pandas uses
 * when it sorts group keys.
 */
module Text {

  /** Python's `str.isspace()`: exactly the characters `str.strip()` removes. */
  predicate IsSpace(c: char) {
    || ('\t' <= c && c <= '\r')                  // \t \n \v \f \r
    || ('\U{1C}' <= c && c <= '\U{1F}')          // file, group, record and unit separators
    || c == ' ' || c == '\U{85}' || c == '\U{A0}' || c == '\U{1680}'
    || ('\U{2000}' <= c && c <= '\U{200A}')
    || c == '\U{2028}' || c == '\U{2029}' || c == '\U{202F}' || c == '\U{205F}' || c == '\U{3000}'
  }

  /** Upper-case letters of ASCII and of the Latin-1 supplement (which holds the Spanish accented capitals). */
  predicate IsUpper(c: char) {
    ('A' <= c && c <= 'Z') || ('\U{C0}' <= c && c <= '\U{DE}' && c != '\U{D7}')
  }

  /** `str.lower()` on one character: each capital of the two blocks maps 32 code points down the table. */
  function LowerChar(c: char): (l: char)
    ensures !IsUpper(l)
    ensures IsUpper(c) ==> l as int == c as int + 32
    ensures !IsUpper(c) ==> l == c
    ensures IsSpace(l) <==> IsSpace(c)
  {
    if IsUpper(c) then (c as int + 32) as char else c
  }

  /** `str.lower()`: character by character, length preserved. */
  function Lower(s: string): (r: string)
    ensures |r| == |s|
    ensures forall i :: 0 <= i < |s| ==> r[i] == LowerChar(s[i])
  {
    seq(|s|, i requires 0 <= i < |s| => LowerChar(s[i]))
  }

  /** A string that `str.lower()` leaves as it is. */
  predicate IsLower(s: string) {
    forall i :: 0 <= i < |s| ==> !IsUpper(s[i])
  }

  lemma LowerIsLower(s: string)
    ensures IsLower(Lower(s))
    ensures Lower(Lower(s)) == Lower(s)
  {
  }

  /** Leading whitespace removed (`str.lstrip()`). */
  function StripStart(s: string): (r: string)
    ensures r == [] || !IsSpace(r[0])
    ensures |r| <= |s| && r == s[|s| - |r|..]
    ensures forall k :: 0 <= k < |s| - |r| ==> IsSpace(s[k])
  {
    if s != [] && IsSpace(s[0]) then StripStart(s[1..]) else s
  }

  /** Trailing whitespace removed (`str.rstrip()`). */
  function StripEnd(s: string): (r: string)
    ensures r == [] || !IsSpace(r[|r| - 1])
    ensures |r| <= |s| && r == s[..|r|]
    ensures forall k :: |r| <= k < |s| ==> IsSpace(s[k])
  {
    if s != [] && IsSpace(s[|s| - 1]) then StripEnd(s[..|s| - 1]) else s
  }

  /** `str.strip()`: whitespace removed from both ends, so neither end of the result is whitespace. */
  function Strip(s: string): (r: string)
    ensures |r| <= |s|
    ensures r == [] || (!IsSpace(r[0]) && !IsSpace(r[|r| - 1]))
  {
    var t := StripStart(s);
    var r := StripEnd(t);
    assert r != [] ==> r[0] == t[0];
    r
  }

  /**
   * What `Strip` returns: the slice of `s` left after cutting off an
   * all-whitespace head and an all-whitespace tail, and it neither starts
   * nor ends with whitespace.
   */
  lemma StripIsTrimmedSlice(s: string) returns (i: nat, j: nat)
    ensures i <= j <= |s| && Strip(s) == s[i..j]
    ensures forall k :: 0 <= k < i ==> IsSpace(s[k])
    ensures forall k :: j <= k < |s| ==> IsSpace(s[k])
    ensures Strip(s) == [] || (!IsSpace(Strip(s)[0]) && !IsSpace(Strip(s)[|Strip(s)| - 1]))
  {
    var t := StripStart(s);
    var r := StripEnd(t);
    i := |s| - |t|;
    j := i + |r|;
    assert r == t[..|r|];
    assert t == s[i..];
    forall k | j <= k < |s| ensures IsSpace(s[k]) {
      assert s[k] == t[k - i];
    }
    if r != [] {
      assert r[0] == t[0];
    }
  }

  /** Stripping twice is stripping once. */
  lemma StripIdempotent(s: string)
    ensures Strip(Strip(s)) == Strip(s)
  {
    var r := Strip(s);
    var i, j := StripIsTrimmedSlice(s);
    if r != [] {
      assert StripStart(r) == r;
      assert StripEnd(r) == r;
    }
  }

  /** A string of whitespace only. */
  predicate AllSpace(s: string) {
    forall k :: 0 <= k < |s| ==> IsSpace(s[k])
  }

  lemma {:induction false} StripStartPadding(pre: string, rest: string)
    requires AllSpace(pre) && (rest == [] || !IsSpace(rest[0]))
    ensures StripStart(pre + rest) == rest
  {
    if pre != [] {
      assert (pre + rest)[1..] == pre[1..] + rest;
      StripStartPadding(pre[1..], rest);
    } else {
      assert pre + rest == rest;
    }
  }

  lemma {:induction false} StripEndPadding(rest: string, post: string)
    requires AllSpace(post) && (rest == [] || !IsSpace(rest[|rest| - 1]))
    ensures StripEnd(rest + post) == rest
  {
    if post != [] {
      assert (rest + post)[..|rest + post| - 1] == rest + post[..|post| - 1];
      StripEndPadding(rest, post[..|post| - 1]);
    } else {
      assert rest + post == rest;
    }
  }

  /** `Strip` removes exactly the whitespace around a word: padding on either side comes off, the word stays. */
  lemma StripPadding(pre: string, word: string, post: string)
    requires AllSpace(pre) && AllSpace(post)
    requires word != [] && !IsSpace(word[0]) && !IsSpace(word[|word| - 1])
    ensures Strip(pre + word + post) == word
  {
    assert pre + word + post == pre + (word + post);
    StripStartPadding(pre, word + post);
    StripEndPadding(word, post);
  }

  /** Stripping a lower-case string keeps it lower-case: the result is one of its slices. */
  lemma StripKeepsLower(s: string)
    requires IsLower(s)
    ensures IsLower(Strip(s))
  {
    var i, j := StripIsTrimmedSlice(s);
    assert forall k :: 0 <= k < j - i ==> Strip(s)[k] == s[i + k];
  }

  /**
   * Python's `a < b` on `str`: lexicographic by code point, a proper prefix
   * coming first. This is the order in which `groupby` sorts its keys.
   */
  predicate Precedes(a: string, b: string) {
    if a == [] then b != []
    else if b == [] then false
    else if a[0] != b[0] then a[0] < b[0]
    else Precedes(a[1..], b[1..])
  }

  lemma {:induction false} PrecedesIrreflexive(a: string)
    ensures !Precedes(a, a)
  {
    if a != [] {
      PrecedesIrreflexive(a[1..]);
    }
  }

  lemma {:induction false} PrecedesTransitive(a: string, b: string, c: string)
    requires Precedes(a, b) && Precedes(b, c)
    ensures Precedes(a, c)
  {
    if a != [] && b != [] && c != [] && a[0] == b[0] && b[0] == c[0] {
      PrecedesTransitive(a[1..], b[1..], c[1..]);
    }
  }

  /** Any two different strings are ordered one way or the other. */
  lemma {:induction false} PrecedesTotal(a: string, b: string)
    requires a != b
    ensures Precedes(a, b) || Precedes(b, a)
  {
    if a != [] && b != [] && a[0] == b[0] {
      assert a == [a[0]] + a[1..] && b == [b[0]] + b[1..];
      PrecedesTotal(a[1..], b[1..]);
    }
  }

  lemma PrecedesAsymmetric(a: string, b: string)
    requires Precedes(a, b)
    ensures !Precedes(b, a)
  {
    if Precedes(b, a) {
      PrecedesTransitive(a, b, a);
      PrecedesIrreflexive(a);
    }
  }
}
