/**
 * What one page contributes to the three result sets (swallow.py:432-503) and what a
 * sequence of URLs contributes (swallow.py:565-573), as functions of the foreign calls.
 */
module Extraction {
  import opened Wrappers
  import opened Text
  import Phones
  import Templates

  const EmailPattern: string := @"[A-Za-z0-9._%+-]+@[A-Za-z0-9.-]+\.[A-Z|a-z]{2,}"
  const PhonePattern: string := @"(?:\+86\s?)?1[3-9]\d{9}|(?:\+86\s?)?1[3-9]\d{1}\s?\d{4}\s?\d{4}|(?:\+86\s?)?1[3-9]\d{2}-\d{4}-\d{4}"

  /**
   * The foreign calls the program makes, as given functions: Python's regular-expression
   * engine, `urlparse`, the HTTP fetch and the connectivity probe.
   */
  datatype Env = Env(
    compiles: string -> bool,                            // re.compile(p) raises no re.error
    findAll: (string, string) -> seq<string>,           // re.findall(p, text)
    findAllIgnoreCase: (string, string) -> seq<string>, // re.findall(p, text, re.IGNORECASE)
    hasSchemeAndHost: string -> bool,                   // urlparse(u) has a scheme and a netloc
    fetch: string -> Option<string>,                    // _scrape_content: the page text, or None
    online: bool)                                       // _check_internet

  /** The three accumulators: unique emails, phone numbers and student IDs. */
  datatype Results = Results(emails: set<string>, phones: set<string>, studentIds: set<string>)

  /** The three check boxes. */
  datatype Categories = Categories(email: bool, phone: bool, studentId: bool)

  const Empty: Results := Results({}, {}, {})

  /** Every collected phone number is eleven digits. */
  predicate WellFormed(r: Results) {
    forall p :: p in r.phones ==> Phones.IsPhone(p)
  }

  function Join(a: Results, b: Results): Results {
    Results(a.emails + b.emails, a.phones + b.phones, a.studentIds + b.studentIds)
  }

  /** `set(xs)` */
  function Elements(xs: seq<string>): (s: set<string>)
    ensures forall x :: x in s <==> x in xs
  {
    set x | x in xs
  }

  /** `_validate_url` */
  predicate ValidUrl(env: Env, url: string) {
    url != [] && env.hasSchemeAndHost(url)
  }

  /** `custom.strip() or STUDENT_ID_PATTERN`: the student-ID pattern extraction uses. */
  function IdPattern(custom: string): (p: string)
    ensures Strip(custom) != [] ==> p == Strip(custom)
    ensures Strip(custom) == [] ==> p == Templates.Composite
  {
    var c := Strip(custom);
    if c != [] then c else Templates.Composite
  }

  /** The page-local sets of the three categories; None when the ID pattern does not compile. */
  function PageEmails(env: Env, text: string): set<string> {
    Elements(env.findAllIgnoreCase(EmailPattern, text))
  }

  ghost function PagePhones(env: Env, text: string): set<string> {
    Phones.PhoneSet(env.findAll(PhonePattern, text))
  }

  function PageIds(env: Env, custom: string, text: string): Option<set<string>> {
    var p := IdPattern(custom);
    if env.compiles(p) then Some(Elements(env.findAll(p, text))) else None
  }

  /** The page-local sets of the enabled categories that ran to completion. */
  ghost function Found(cats: Categories, custom: string, env: Env, text: string): Results {
    Results(
      if cats.email then PageEmails(env, text) else {},
      if cats.phone then PagePhones(env, text) else {},
      if cats.studentId && PageIds(env, custom, text).Some? then PageIds(env, custom, text).value else {})
  }

  /** The accumulators after `_extract_data` on one page. */
  ghost function Extract(r: Results, cats: Categories, custom: string, env: Env, text: string): Results {
    Join(r, Found(cats, custom, env, text))
  }

  /** The items `_extract_data` reports as new: page-local minus accumulator, per category. */
  ghost function Reported(r: Results, cats: Categories, custom: string, env: Env, text: string): Results {
    var f := Found(cats, custom, env, text);
    Results(f.emails - r.emails, f.phones - r.phones, f.studentIds - r.studentIds)
  }

  /** One URL of a run: skipped when invalid, when the fetch fails or when the page is empty. */
  ghost function Visit(r: Results, url: string, cats: Categories, custom: string, env: Env): Results {
    if !ValidUrl(env, url) then r
    else match env.fetch(url)
      case None => r
      case Some(text) => if text == [] then r else Extract(r, cats, custom, env, text)
  }

  /** A sequence of URLs visited in order. */
  ghost function Fold(r: Results, urls: seq<string>, cats: Categories, custom: string, env: Env): Results
    decreases |urls|
  {
    if urls == [] then r
    else Visit(Fold(r, urls[..|urls| - 1], cats, custom, env), urls[|urls| - 1], cats, custom, env)
  }

  /**
   * One extraction: the reported items are the page-local set minus the accumulator, they are
   * disjoint from it, the accumulator becomes old plus page-local, and nothing is removed.
   * A disabled category, and the student IDs when their pattern does not compile, are untouched.
   */
  lemma ExtractMeaning(r: Results, cats: Categories, custom: string, env: Env, text: string)
    ensures var x, n := Extract(r, cats, custom, env, text), Reported(r, cats, custom, env, text);
      && r.emails <= x.emails && r.phones <= x.phones && r.studentIds <= x.studentIds
      && n.emails !! r.emails && n.phones !! r.phones && n.studentIds !! r.studentIds
      && x == Join(r, n)
      && (cats.email ==> n.emails == PageEmails(env, text) - r.emails)
      && (cats.phone ==> n.phones == PagePhones(env, text) - r.phones)
      && (!cats.email ==> x.emails == r.emails && n.emails == {})
      && (!cats.phone ==> x.phones == r.phones && n.phones == {})
      && (!cats.studentId || !env.compiles(IdPattern(custom)) ==> x.studentIds == r.studentIds && n.studentIds == {})
      && (cats.studentId && env.compiles(IdPattern(custom)) ==>
            x.studentIds == r.studentIds + Elements(env.findAll(IdPattern(custom), text)))
  {
  }

  /** Found phones are always eleven digits, so extraction keeps the accumulators well formed. */
  lemma ExtractWellFormed(r: Results, cats: Categories, custom: string, env: Env, text: string)
    requires WellFormed(r)
    ensures WellFormed(Extract(r, cats, custom, env, text))
  {
    var raw := env.findAll(PhonePattern, text);
    forall p | p in Phones.PhoneSet(raw) ensures Phones.IsPhone(p) {
      var i :| 0 <= i < |raw| && Phones.Normalise(raw[i]).Some? && Phones.Normalise(raw[i]).value == p;
    }
  }

  /** Repeating an identical extraction reports nothing and changes nothing. */
  lemma ExtractTwice(r: Results, cats: Categories, custom: string, env: Env, text: string)
    ensures var x := Extract(r, cats, custom, env, text);
      && Reported(x, cats, custom, env, text) == Empty
      && Extract(x, cats, custom, env, text) == x
  {
  }

  /** A run adds the union of what its pages contain to whatever the accumulators held. */
  lemma {:induction false} FoldIsJoin(r: Results, urls: seq<string>, cats: Categories, custom: string, env: Env)
    ensures Fold(r, urls, cats, custom, env) == Join(r, Fold(Empty, urls, cats, custom, env))
    decreases |urls|
  {
    if urls != [] {
      var init, u := urls[..|urls| - 1], urls[|urls| - 1];
      FoldIsJoin(r, init, cats, custom, env);
    }
  }

  /** A run never removes anything. */
  lemma FoldGrows(r: Results, urls: seq<string>, cats: Categories, custom: string, env: Env)
    ensures var x := Fold(r, urls, cats, custom, env);
      r.emails <= x.emails && r.phones <= x.phones && r.studentIds <= x.studentIds
  {
    FoldIsJoin(r, urls, cats, custom, env);
  }

  /** Running the same URLs again on the same pages changes nothing. */
  lemma FoldTwice(r: Results, urls: seq<string>, cats: Categories, custom: string, env: Env)
    ensures var x := Fold(r, urls, cats, custom, env); Fold(x, urls, cats, custom, env) == x
  {
    var x := Fold(r, urls, cats, custom, env);
    FoldIsJoin(r, urls, cats, custom, env);
    FoldIsJoin(x, urls, cats, custom, env);
  }

  /** Every phone number a run collects is eleven digits. */
  lemma {:induction false} FoldWellFormed(r: Results, urls: seq<string>, cats: Categories, custom: string, env: Env)
    requires WellFormed(r)
    ensures WellFormed(Fold(r, urls, cats, custom, env))
    decreases |urls|
  {
    if urls != [] {
      var prev := Fold(r, urls[..|urls| - 1], cats, custom, env);
      FoldWellFormed(r, urls[..|urls| - 1], cats, custom, env);
      var u := urls[|urls| - 1];
      if ValidUrl(env, u) && env.fetch(u).Some? && env.fetch(u).value != [] {
        ExtractWellFormed(prev, cats, custom, env, env.fetch(u).value);
      }
    }
  }

  /** Disabled categories stay as they were for a whole run. */
  lemma {:induction false} FoldDisabled(r: Results, urls: seq<string>, cats: Categories, custom: string, env: Env)
    ensures var x := Fold(r, urls, cats, custom, env);
      && (!cats.email ==> x.emails == r.emails)
      && (!cats.phone ==> x.phones == r.phones)
      && (!cats.studentId ==> x.studentIds == r.studentIds)
    decreases |urls|
  {
    if urls != [] {
      FoldDisabled(r, urls[..|urls| - 1], cats, custom, env);
    }
  }

  /** What the URLs of `us` contribute, each visited from empty sets, in no particular order. */
  ghost function Contributed(us: set<string>, cats: Categories, custom: string, env: Env): Results {
    Results(
      set u, x | u in us && x in Visit(Empty, u, cats, custom, env).emails :: x,
      set u, x | u in us && x in Visit(Empty, u, cats, custom, env).phones :: x,
      set u, x | u in us && x in Visit(Empty, u, cats, custom, env).studentIds :: x)
  }

  /** One URL adds what it contributes on its own. */
  lemma VisitIsJoin(r: Results, url: string, cats: Categories, custom: string, env: Env)
    ensures Visit(r, url, cats, custom, env) == Join(r, Visit(Empty, url, cats, custom, env))
  {
    if ValidUrl(env, url) && env.fetch(url).Some? && env.fetch(url).value != [] {
      var f := Found(cats, custom, env, env.fetch(url).value);
      assert Join(Empty, f) == f;
    } else {
      assert Join(r, Empty) == r;
    }
  }

  lemma ContributedAdd(us: set<string>, v: string, cats: Categories, custom: string, env: Env)
    ensures Contributed(us + {v}, cats, custom, env)
      == Join(Contributed(us, cats, custom, env), Visit(Empty, v, cats, custom, env))
  {
  }

  /**
   * A run from empty sets collects the union of what its URLs contribute, so it depends only
   * on which URLs the list holds, not on their order or repetition.
   */
  lemma {:induction false} FoldOrderFree(urls: seq<string>, cats: Categories, custom: string, env: Env)
    ensures Fold(Empty, urls, cats, custom, env) == Contributed((set u | u in urls), cats, custom, env)
    decreases |urls|
  {
    if urls == [] {
      assert Contributed({}, cats, custom, env) == Empty;
    } else {
      var init, last := urls[..|urls| - 1], urls[|urls| - 1];
      FoldOrderFree(init, cats, custom, env);
      VisitIsJoin(Fold(Empty, init, cats, custom, env), last, cats, custom, env);
      assert (set u | u in urls) == (set u | u in init) + {last};
      ContributedAdd((set u | u in init), last, cats, custom, env);
    }
  }

  /** Two URL lists with the same members give the same run. */
  lemma FoldSameUrls(r: Results, urls: seq<string>, other: seq<string>, cats: Categories, custom: string, env: Env)
    requires forall u :: u in urls <==> u in other
    ensures Fold(r, urls, cats, custom, env) == Fold(r, other, cats, custom, env)
  {
    FoldOrderFree(urls, cats, custom, env);
    FoldOrderFree(other, cats, custom, env);
    assert (set u | u in urls) == (set u | u in other);
    FoldIsJoin(r, urls, cats, custom, env);
    FoldIsJoin(r, other, cats, custom, env);
  }
}
