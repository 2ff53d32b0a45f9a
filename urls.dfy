/**
 * The URL list read from a batch file (swallow.py:224-226): every line is stripped, blank
 * lines are dropped and duplicates are removed. Python's `list(set(...))` gives no order;
 * this model keeps the first occurrence of each URL, and a run does not depend on it
 * (`Extraction.FoldSameUrls`).
 */
module BatchUrls {
  import opened Text

  /** `[line.strip() for line in f if line.strip()]` */
  function StrippedLines(lines: seq<string>): (r: seq<string>)
    ensures |r| <= |lines|
    ensures forall u :: u in r <==> exists l :: l in lines && Strip(l) == u && u != []
  {
    if lines == [] then []
    else
      var rest := StrippedLines(lines[1..]);
      var u := Strip(lines[0]);
      assert forall l :: l in lines <==> l == lines[0] || l in lines[1..];
      if u == [] then rest else [u] + rest
  }

  predicate NoDuplicates(s: seq<string>) {
    forall i, j :: 0 <= i < j < |s| ==> s[i] != s[j]
  }

  /** Removes repeated entries, keeping the first of each. */
  function Dedup(s: seq<string>): (r: seq<string>)
    ensures NoDuplicates(r)
    ensures |r| <= |s|
    ensures forall u :: u in r <==> u in s
  {
    if s == [] then []
    else
      var init := Dedup(s[..|s| - 1]);
      var last := s[|s| - 1];
      assert forall u :: u in s <==> u in s[..|s| - 1] || u == last;
      if last in init then init else init + [last]
  }

  /** `list(set(raw_urls))` over the stripped non-blank lines. */
  function UrlList(lines: seq<string>): (r: seq<string>)
    ensures NoDuplicates(r)
    ensures |r| <= |lines|
    ensures forall u :: u in r ==> u != [] && Strip(u) == u
    ensures forall l :: l in lines && !Blank(l) ==> Strip(l) in r
    ensures forall u :: u in r ==> exists l :: l in lines && Strip(l) == u
  {
    var raw := StrippedLines(lines);
    forall u | u in raw ensures Strip(u) == u {
      var l :| l in lines && Strip(l) == u && u != [];
      StripIdempotent(l);
    }
    Dedup(raw)
  }

  /**
   * Repeated lines collapse and blank lines vanish: the lines a, a, a blank line and b give
   * exactly [a, b] for two different URLs without surrounding white space.
   */
  lemma {:induction false} RepeatedAndBlank(a: string, b: string, nl: string)
    requires a != [] && !IsSpace(a[0]) && !IsSpace(a[|a| - 1])
    requires b != [] && !IsSpace(b[0]) && !IsSpace(b[|b| - 1])
    requires a != b && Blank(nl)
    ensures UrlList([a + nl, a + nl, nl, b]) == [a, b]
  {
    StripOfWord(a);
    StripOfWord(b);
    StripTrailing(a, nl);
    assert [] + a + nl == a + nl;
    StrippedExample(a + nl, nl, b, a);
    DedupExample(a, b);
  }

  lemma StrippedExample(x: string, nl: string, b: string, a: string)
    requires Strip(x) == a && a != [] && Strip(b) == b && b != [] && Strip(nl) == []
    ensures StrippedLines([x, x, nl, b]) == [a, a, b]
  {
    assert [b][1..] == [];
    assert StrippedLines([b]) == [b];
    assert [nl, b][1..] == [b];
    assert StrippedLines([nl, b]) == [b];
    assert [x, nl, b][1..] == [nl, b];
    assert StrippedLines([x, nl, b]) == [a, b];
    assert [x, x, nl, b][1..] == [x, nl, b];
  }

  lemma DedupExample(a: string, b: string)
    requires a != b
    ensures Dedup([a, a, b]) == [a, b]
  {
    assert [a, a, b][..2] == [a, a];
    assert [a, a][..1] == [a];
    assert [a][..0] == [];
  }

  /** Example: "http://a.com", "http://a.com", "" and "http://b.com" give two URLs. */
  lemma ExampleTwoUrls(a: string, b: string)
    requires a == "http://a.com" && b == "http://b.com"
    ensures UrlList([a + "\n", a + "\n", "\n", b]) == [a, b]
  {
    assert a[7] != b[7];
    RepeatedAndBlank(a, b, "\n");
  }

  /** A string without white space at its ends is its own stripped form. */
  lemma StripOfWord(s: string)
    requires s != [] && !IsSpace(s[0]) && !IsSpace(s[|s| - 1])
    ensures Strip(s) == s
  {
    assert TrimStart(s) == 0;
    assert TrimEnd(s) == |s|;
  }
}
