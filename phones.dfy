/**
 * Cleaning of Chinese mobile numbers found by the phone pattern (swallow.py:455-463):
 * every character outside ASCII 0-9 is removed (`re.sub(r'[^0-9]', '', phone)`), an
 * 11-digit result is kept, a 13-digit result starting with "86" is kept without the "86",
 * and anything else is dropped.
 */
module Phones {
  import opened Wrappers

  predicate IsDigit(c: char) {
    '0' <= c <= '9'
  }

  predicate AllDigits(s: string) {
    forall k :: 0 <= k < |s| ==> IsDigit(s[k])
  }

  /** A normalised phone number: exactly eleven ASCII digits. */
  predicate IsPhone(p: string) {
    |p| == 11 && AllDigits(p)
  }

  /** `re.sub(r'[^0-9]', '', s)`: the digits of `s`, in order. */
  function DigitsOnly(s: string): (r: string)
    ensures |r| <= |s|
    ensures AllDigits(r)
  {
    if s == [] then []
    else if IsDigit(s[0]) then [s[0]] + DigitsOnly(s[1..])
    else DigitsOnly(s[1..])
  }

  /** A string of digits is left as it is. */
  lemma {:induction false} DigitsOnlyOfDigits(s: string)
    requires AllDigits(s)
    ensures DigitsOnly(s) == s
  {
    if s != [] {
      DigitsOnlyOfDigits(s[1..]);
    }
  }

  /** Removing non-digits distributes over concatenation. */
  lemma {:induction false} DigitsOnlyConcat(a: string, b: string)
    ensures DigitsOnly(a + b) == DigitsOnly(a) + DigitsOnly(b)
    decreases |a|
  {
    if a != [] {
      assert (a + b)[1..] == a[1..] + b;
      DigitsOnlyConcat(a[1..], b);
    } else {
      assert a + b == b;
    }
  }

  /** The cleaning step for one raw match; None means the match is discarded. */
  function Normalise(raw: string): (r: Option<string>)
    ensures r.Some? ==> IsPhone(r.value)
    ensures r.Some? ==> DigitsOnly(raw) in {r.value, "86" + r.value}
    ensures r.None? ==> |DigitsOnly(raw)| != 11
  {
    var d := DigitsOnly(raw);
    if |d| == 11 then Some(d)
    else if |d| == 13 && d[..2] == "86" then
      assert d == "86" + d[2..];
      Some(d[2..])
    else None
  }

  /** Exactly the raw matches whose digits are a phone, or "86" and a phone, are kept. */
  lemma NormaliseKeeps(raw: string)
    ensures Normalise(raw).Some? <==>
      IsPhone(DigitsOnly(raw)) || (exists p :: IsPhone(p) && DigitsOnly(raw) == "86" + p)
  {
    var d := DigitsOnly(raw);
    if |d| == 13 && d[..2] == "86" {
      assert IsPhone(d[2..]) && d == "86" + d[2..];
    }
  }

  /** A cleaned number cleans to itself. */
  lemma NormaliseIdempotent(p: string)
    requires IsPhone(p)
    ensures Normalise(p) == Some(p)
  {
    DigitsOnlyOfDigits(p);
  }

  /** No character of `s` is a digit (spaces, hyphens, "+"). */
  predicate NoDigitIn(s: string) {
    forall k :: 0 <= k < |s| ==> !IsDigit(s[k])
  }

  lemma {:induction false} NoDigits(s: string)
    requires NoDigitIn(s)
    ensures DigitsOnly(s) == []
  {
    if s != [] {
      NoDigits(s[1..]);
    }
  }

  /** Separators between digit groups vanish. */
  lemma Unseparated(a: string, sep: string, b: string)
    requires NoDigitIn(sep)
    ensures DigitsOnly(a + sep + b) == DigitsOnly(a) + DigitsOnly(b)
  {
    DigitsOnlyConcat(a, sep);
    DigitsOnlyConcat(a + sep, b);
    NoDigits(sep);
  }

  /**
   * The shapes the phone pattern matches (an eleven-digit number written in three groups
   * with separators between them) clean to the eleven digits.
   */
  lemma Grouped(g1: string, g2: string, g3: string, s1: string, s2: string)
    requires AllDigits(g1) && AllDigits(g2) && AllDigits(g3) && |g1| + |g2| + |g3| == 11
    requires NoDigitIn(s1) && NoDigitIn(s2)
    ensures DigitsOnly(g1 + s1 + (g2 + s2 + g3)) == g1 + g2 + g3
    ensures Normalise(g1 + s1 + (g2 + s2 + g3)) == Some(g1 + g2 + g3)
  {
    var tail := g2 + s2 + g3;
    assert DigitsOnly(tail) == g2 + g3 by {
      DigitsOnlyOfDigits(g2);
      DigitsOnlyOfDigits(g3);
      Unseparated(g2, s2, g3);
    }
    assert DigitsOnly(g1 + s1 + tail) == g1 + (g2 + g3) by {
      DigitsOnlyOfDigits(g1);
      Unseparated(g1, s1, tail);
    }
    assert g1 + (g2 + g3) == g1 + g2 + g3;
    KeptAsIs(g1 + s1 + tail, g1 + g2 + g3);
  }

  /** A match whose digits form a phone number is kept as those digits. */
  lemma KeptAsIs(raw: string, p: string)
    requires DigitsOnly(raw) == p && |p| == 11
    ensures Normalise(raw) == Some(p)
  {
  }

  /** A "+86" country code, followed by separators, is dropped from a matched number. */
  lemma {:induction false} CountryCode(s0: string, body: string, p: string)
    requires NoDigitIn(s0) && DigitsOnly(body) == p && IsPhone(p)
    ensures Normalise("+86" + s0 + body) == Some(p)
  {
    var raw := "+86" + s0 + body;
    assert raw[0] == '+';
    assert raw[1..] == "86" + s0 + body;
    assert DigitsOnly(raw) == DigitsOnly("86" + s0 + body);
    var t := "86" + s0 + body;
    assert t[0] == '8' && t[1..] == "6" + s0 + body;
    var u := "6" + s0 + body;
    assert u[0] == '6' && u[1..] == s0 + body;
    DigitsOnlyConcat(s0, body);
    NoDigits(s0);
    var d := DigitsOnly(raw);
    assert d == "86" + p;
    assert d[..2] == "86" && d[2..] == p;
  }

  /** Example: "+86 138 1234 5678" cleans to "13812345678". */
  lemma ExampleSpaced(raw: string)
    requires raw == "+86 138 1234 5678"
    ensures Normalise(raw) == Some("13812345678")
  {
    var g1, g2, g3, sp := "138", "1234", "5678", " ";
    assert raw == "+86" + sp + (g1 + sp + (g2 + sp + g3));
    assert AllDigits(g1) && AllDigits(g2) && AllDigits(g3);
    assert NoDigitIn(sp);
    Grouped(g1, g2, g3, sp, sp);
    CountryCode(sp, g1 + sp + (g2 + sp + g3), g1 + g2 + g3);
    assert g1 + g2 + g3 == "13812345678";
  }

  /** Example: "8613812345678" cleans to "13812345678". */
  lemma ExamplePrefixed(raw: string)
    requires raw == "8613812345678"
    ensures Normalise(raw) == Some("13812345678")
  {
    assert AllDigits(raw);
    DigitsOnlyOfDigits(raw);
    assert raw[..2] == "86" && raw[2..] == "13812345678";
  }

  /** Example: a ten-digit match is discarded. */
  lemma ExampleTooShort(raw: string)
    requires raw == "1381234567"
    ensures Normalise(raw) == None
  {
    assert AllDigits(raw);
    DigitsOnlyOfDigits(raw);
  }

  /** The set a page's raw matches clean to. */
  ghost function PhoneSet(raw: seq<string>): set<string> {
    set i | 0 <= i < |raw| && Normalise(raw[i]).Some? :: Normalise(raw[i]).value
  }

  /** A number is in the cleaned set exactly when some raw match cleans to it; all are phones. */
  lemma PhoneSetMeaning(raw: seq<string>, p: string)
    ensures p in PhoneSet(raw) <==> exists i :: 0 <= i < |raw| && Normalise(raw[i]) == Some(p)
    ensures p in PhoneSet(raw) ==> IsPhone(p)
  {
  }

  /** The cleaning loop of swallow.py:457-463, which adds each kept number to a fresh set. */
  method CleanPhones(raw: seq<string>) returns (cleaned: set<string>)
    ensures forall p :: p in cleaned ==> IsPhone(p)
    ensures cleaned == PhoneSet(raw)
  {
    cleaned := {};
    for i := 0 to |raw|
      invariant cleaned == PhoneSet(raw[..i])
    {
      assert raw[..i + 1][..i] == raw[..i];
      var d := DigitsOnly(raw[i]);
      if |d| == 11 {
        cleaned := cleaned + {d};
      } else if |d| == 13 && d[..2] == "86" {
        cleaned := cleaned + {d[2..]};
      }
      assert cleaned == PhoneSet(raw[..i + 1]) by {
        forall p ensures p in cleaned <==> p in PhoneSet(raw[..i + 1]) {
          PhoneSetMeaning(raw[..i], p);
          PhoneSetMeaning(raw[..i + 1], p);
          if p in PhoneSet(raw[..i + 1]) && p !in PhoneSet(raw[..i]) {
            var j :| 0 <= j < i + 1 && Normalise(raw[..i + 1][j]) == Some(p);
            assert j == i;
          }
        }
      }
    }
    assert raw[..|raw|] == raw;
  }
}
