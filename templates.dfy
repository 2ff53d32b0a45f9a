/**
 * The student-ID template store (swallow.py:26-44, 65-72, 374, 382-394): six built-in named
 * patterns, a reserved name for the alternation of all of them, the merge of a saved JSON
 * object over the built-ins, and the filter that decides what is written back.
 */
module Templates {

  const Ten: string := @"\b20\d{2}\d{6}\b"
  const Twelve: string := @"\b20\d{2}\d{8}\b"
  const Nine: string := @"\b\d{3}\d{6}\b|\b20\d{2}\d{5}\b"
  const WithLetter: string := @"\b[BMDY]20\d{2}\d{4,6}\b|\b20\d{2}[A-Z]\d{4,5}\b|\b20\d{2}\d{4,6}[A-Z]\b|\b[A-Z0-9]{8,12}\b"
  const Short: string := @"\b\d{6,8}\b"

  /** STUDENT_ID_PATTERN: the alternation of the five templates. */
  const Composite: string := Ten + "|" + Twelve + "|" + Nine + "|" + WithLetter + "|" + Short

  /** The name that always stands for the composite pattern and can never be removed. */
  const Reserved: string := "ALL模式"

  const TenName: string := "10位纯数字（综合类本科）"
  const TwelveName: string := "12位纯数字（规模较大院校）"
  const NineName: string := "9位纯数字（老牌院校）"
  const WithLetterName: string := "含字母学号（特色院校）"
  const ShortName: string := "6-8位纯数字（中小学/高职）"

  /** The predefined templates, both as the starting dictionary and as the persistence filter's reference. */
  const Builtins: map<string, string> := map[
    Reserved := Composite,
    TenName := Ten,
    TwelveName := Twelve,
    NineName := Nine,
    WithLetterName := WithLetter,
    ShortName := Short
  ]

  /**
   * The template file as start-up finds it: absent, present but not loadable (opening, JSON
   * parsing or `dict.update` raises), or holding the entries `dict.update` adds.
   */
  datatype TemplateFile = Missing | Broken | Saved(entries: map<string, string>) {
    /** What a successful load adds: nothing for a missing file. */
    function Added(): map<string, string> {
      if Saved? then entries else map[]
    }
  }

  /** `base.update(saved)`: the saved entries win over those already present. */
  function Merge(base: map<string, string>, saved: map<string, string>): (r: map<string, string>)
    ensures r.Keys == base.Keys + saved.Keys
    ensures forall n :: n in saved ==> r[n] == saved[n]
    ensures forall n :: n in base && n !in saved ==> r[n] == base[n]
  {
    base + saved
  }

  /** An entry is user-added or user-modified: its name is not built in, or its pattern differs. */
  predicate UserEntry(templates: map<string, string>, name: string)
    requires name in templates
  {
    name !in Builtins || Builtins[name] != templates[name]
  }

  /** The object the persistence step writes. */
  ghost function Persisted(templates: map<string, string>): map<string, string> {
    map n | n in templates && UserEntry(templates, n) :: templates[n]
  }

  /** The loop of swallow.py:391-394, visiting the entries in some order and copying the user ones. */
  method UserTemplates(templates: map<string, string>) returns (user: map<string, string>)
    ensures user.Keys <= templates.Keys
    ensures forall n :: n in user ==> user[n] == templates[n]
    ensures forall n :: n in templates ==> (n in user <==> UserEntry(templates, n))
    ensures user == Persisted(templates)
  {
    user := map[];
    var todo := templates.Keys;
    while todo != {}
      invariant todo <= templates.Keys
      invariant user.Keys == set n | n in templates.Keys - todo && UserEntry(templates, n)
      invariant forall n :: n in user ==> user[n] == templates[n]
      decreases todo
    {
      var name :| name in todo;
      if name !in Builtins || Builtins[name] != templates[name] {
        user := user[name := templates[name]];
      }
      todo := todo - {name};
    }
  }

  /** Only entries that differ from the built-ins are persisted: an untouched built-in never is. */
  lemma PersistedNeverHoldsBuiltin(templates: map<string, string>, name: string)
    requires name in Builtins && name in templates && templates[name] == Builtins[name]
    ensures name !in Persisted(templates)
  {
  }

  /**
   * Round trip: loading the persisted object over the built-ins gives back the in-memory map
   * whenever every built-in name is still present; otherwise the missing built-ins reappear.
   */
  lemma {:induction false} ReloadPersisted(templates: map<string, string>)
    ensures Merge(Builtins, Persisted(templates)) == Merge(Builtins, templates)
    ensures Builtins.Keys <= templates.Keys ==> Merge(Builtins, Persisted(templates)) == templates
  {
    var p := Persisted(templates);
    var r := Merge(Builtins, p);
    forall n | n in r
      ensures n in templates ==> r[n] == templates[n]
      ensures n !in templates ==> r[n] == Builtins[n]
    {
      if n in templates && n !in p {
        assert !UserEntry(templates, n);
      }
    }
    assert r.Keys == Builtins.Keys + templates.Keys by {
      forall n | n in templates ensures n in r {
        if !UserEntry(templates, n) {
          assert n in Builtins;
        }
      }
    }
  }

  /** Persisting is idempotent: what was written survives a reload-and-persist unchanged. */
  lemma {:induction false} PersistReloadPersist(templates: map<string, string>)
    ensures Persisted(Merge(Builtins, Persisted(templates))) == Persisted(templates)
  {
    ReloadPersisted(templates);
    var m := Merge(Builtins, templates);
    var a, b := Persisted(m), Persisted(templates);
    forall n | n in a ensures n in b && a[n] == b[n] {
    }
    forall n | n in b ensures n in a {
    }
  }

  /** Example: saving a built-in's own pattern under its own name persists nothing for it, a new name does. */
  lemma ExamplePersist(templates: map<string, string>, name: string, pattern: string)
    requires name !in Builtins
    ensures TenName !in Persisted(templates[TenName := Ten])
    ensures name in Persisted(templates[name := pattern])
  {
  }
}
