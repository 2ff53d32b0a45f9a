/**
 * Python's `str.strip()` with no argument: removes leading and trailing characters for which
 * `str.isspace()` holds. Used on URL lines, template names, patterns and the URL entry.
 */
module Text {

  /** The characters Python's `str.isspace()` accepts. */
  predicate IsSpace(c: char) {
    || c == ' ' || ('\t' <= c <= '\r')          // space, \t \n \x0b \x0c \r
    || ('\U{1c}' <= c <= '\U{1f}')             // file, group, record and unit separators
    || c == '\U{85}' || c == '\U{a0}' || c == '\U{1680}'
    || ('\U{2000}' <= c <= '\U{200a}')
    || c == '\U{2028}' || c == '\U{2029}' || c == '\U{202f}' || c == '\U{205f}' || c == '\U{3000}'
  }

  predicate Blank(s: string) {
    forall k :: 0 <= k < |s| ==> IsSpace(s[k])
  }

  /** Index of the first non-space character, or |s| when there is none. */
  function TrimStart(s: string): (i: nat)
    ensures i <= |s|
    ensures forall k :: 0 <= k < i ==> IsSpace(s[k])
    ensures i < |s| ==> !IsSpace(s[i])
    decreases |s|
  {
    if s == [] || !IsSpace(s[0]) then 0 else 1 + TrimStart(s[1..])
  }

  /** One past the index of the last non-space character, or 0 when there is none. */
  function TrimEnd(s: string): (j: nat)
    ensures j <= |s|
    ensures forall k :: j <= k < |s| ==> IsSpace(s[k])
    ensures j > 0 ==> !IsSpace(s[j - 1])
    decreases |s|
  {
    if s == [] || !IsSpace(s[|s| - 1]) then |s| else TrimEnd(s[..|s| - 1])
  }

  /** `s.strip()` */
  function Strip(s: string): (r: string)
    ensures |r| <= |s|
    ensures r == [] <==> Blank(s)
    ensures r != [] ==> !IsSpace(r[0]) && !IsSpace(r[|r| - 1])
    ensures r != [] ==> r == s[TrimStart(s)..TrimEnd(s)]
  {
    var i, j := TrimStart(s), TrimEnd(s);
    if i < j then s[i..j] else []
  }

  /** Stripping twice is stripping once. */
  lemma StripIdempotent(s: string)
    ensures Strip(Strip(s)) == Strip(s)
  {
    var r := Strip(s);
    if r != [] {
      assert TrimStart(r) == 0;
      assert TrimEnd(r) == |r|;
    }
  }

  /** White space after a string, such as a line's end, does not change its stripped value. */
  lemma StripTrailing(s: string, post: string)
    requires Blank(post)
    ensures Strip(s + post) == Strip(s)
  {
    if Blank(s) {
      BlankAppend(s, post);
    } else {
      StripTrailingWord(s, post);
    }
  }

  lemma StripTrailingWord(s: string, post: string)
    requires Blank(post) && !Blank(s)
    ensures Strip(s + post) == Strip(s)
  {
    TrimStartAppend(s, post);
    TrimEndAppend(s, post);
    TrimOrder(s);
    PrefixSlice(s, post, TrimStart(s), TrimEnd(s));
  }

  lemma TrimOrder(s: string)
    requires !Blank(s)
    ensures TrimStart(s) < TrimEnd(s)
  {
    assert !IsSpace(s[TrimStart(s)]);
  }

  lemma PrefixSlice(s: string, post: string, a: nat, b: nat)
    requires a <= b <= |s|
    ensures (s + post)[a..b] == s[a..b]
  {
  }

  lemma BlankAppend(s: string, t: string)
    requires Blank(s) && Blank(t)
    ensures Blank(s + t)
  {
    forall k | 0 <= k < |s + t| ensures IsSpace((s + t)[k]) {
      if k < |s| { assert (s + t)[k] == s[k]; }
      else { assert (s + t)[k] == t[k - |s|]; }
    }
  }

  lemma {:induction false} TrimStartAppend(s: string, post: string)
    requires !Blank(s)
    ensures TrimStart(s + post) == TrimStart(s)
    decreases |s|
  {
    if IsSpace(s[0]) {
      assert (s + post)[1..] == s[1..] + post;
      TrimStartAppend(s[1..], post);
    }
  }

  lemma {:induction false} TrimEndAppend(s: string, post: string)
    requires Blank(post) && !Blank(s)
    ensures TrimEnd(s + post) == TrimEnd(s)
    decreases |post|
  {
    if post == [] {
      assert s + post == s;
    } else {
      assert (s + post)[..|s + post| - 1] == s + post[..|post| - 1];
      TrimEndAppend(s, post[..|post| - 1]);
    }
  }
}
