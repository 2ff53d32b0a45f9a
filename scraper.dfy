/**
 * The session state of `WebScraperGUI` (swallow.py:49-75) and the methods that change it:
 * extraction with de-duplication, the template store, the URL list and the scraping run.
 * Widgets, dialogs and log lines are not modelled; what the user typed or chose arrives as a
 * parameter or as a field the caller sets.
 */
module Scraper {
  import opened Wrappers
  import opened Text
  import opened Extraction
  import Phones
  import Templates
  import BatchUrls

  datatype Mode = Single | Batch

  class WebScraper {
    var emails: set<string>            // all_email_results
    var phones: set<string>            // all_phone_results
    var studentIds: set<string>        // all_student_id_results
    var currentUrls: seq<string>       // current_urls
    var batchFilePath: Option<string>  // batch_file_path, absent until a file is chosen
    var studentIdPattern: string       // student_id_pattern
    var customPattern: string          // the text of the custom-pattern entry
    var selectedName: string           // the template combo box's text
    var templates: map<string, string> // student_id_templates
    var emailEnabled: bool             // the three check boxes
    var phoneEnabled: bool
    var studentIdEnabled: bool

    ghost predicate Valid()
      reads this
    {
      WellFormed(Collected()) && Templates.Reserved in templates
    }

    ghost function Collected(): Results
      reads this
    {
      Results(emails, phones, studentIds)
    }

    function Enabled(): Categories
      reads this
    {
      Categories(emailEnabled, phoneEnabled, studentIdEnabled)
    }

    /** `__init__` up to the template file (swallow.py:50-72): empty results and the built-in templates. */
    constructor ()
      ensures Valid()
      ensures Collected() == Empty && currentUrls == [] && batchFilePath == None
      ensures studentIdPattern == Templates.Composite && customPattern == [] && selectedName == Templates.Reserved
      ensures emailEnabled && phoneEnabled && !studentIdEnabled
      ensures templates == Templates.Builtins
    {
      emails, phones, studentIds := {}, {}, {};
      currentUrls, batchFilePath := [], None;
      studentIdPattern, customPattern, selectedName := Templates.Composite, [], Templates.Reserved;
      templates := Templates.Builtins;
      emailEnabled, phoneEnabled, studentIdEnabled := true, true, false;
    }

    /**
     * `_load_templates_from_file`: the saved entries are merged over the current ones. Returns
     * whether the load failed, so that the handler's log call runs.
     */
    method LoadTemplatesFromFile(file: Templates.TemplateFile) returns (failed: bool)
      modifies this`templates
      ensures failed <==> file.Broken?
      ensures templates == if file.Saved? then Templates.Merge(old(templates), file.entries) else old(templates)
    {
      failed := false;
      match file
      case Missing =>
      case Broken =>
        failed := true;
      case Saved(entries) =>
        templates := templates + entries;
    }

    /** `_save_templates_to_file`: the object written to the template file. */
    method SaveTemplatesToFile() returns (written: map<string, string>)
      ensures written == Templates.Persisted(templates)
      ensures forall n :: n in templates ==> (n in written <==> Templates.UserEntry(templates, n))
    {
      written := Templates.UserTemplates(templates);
    }

    /** `_load_template`: the selected template becomes the custom and the active pattern. */
    method LoadTemplate()
      modifies this`customPattern, this`studentIdPattern
      ensures selectedName == Templates.Reserved ==>
        customPattern == [] && studentIdPattern == Templates.Composite
      ensures selectedName != Templates.Reserved && selectedName in templates ==>
        customPattern == templates[selectedName] && studentIdPattern == templates[selectedName]
      ensures selectedName != Templates.Reserved && selectedName !in templates ==>
        customPattern == old(customPattern) && studentIdPattern == old(studentIdPattern)
    {
      if selectedName == Templates.Reserved {
        customPattern := [];
        studentIdPattern := Templates.Composite;
      } else if selectedName in templates {
        var pattern := templates[selectedName];
        customPattern := pattern;
        studentIdPattern := pattern;
      }
    }

    /**
     * `_save_template`: `name` is what the name dialog returned (None when cancelled). Returns
     * the object written to the template file, or None when nothing was saved.
     */
    method SaveTemplate(name: Option<string>, env: Env) returns (written: Option<map<string, string>>)
      requires Valid()
      modifies this`templates
      ensures Valid()
      ensures var pattern := Strip(customPattern);
        if pattern == [] || !env.compiles(pattern) || name.None? || Strip(name.value) == [] then
          templates == old(templates) && written == None
        else
          && templates == old(templates)[Strip(name.value) := pattern]
          && written == Some(Templates.Persisted(templates))
    {
      var pattern := Strip(customPattern);
      if pattern == [] || !env.compiles(pattern) {
        return None;
      }
      if name.None? || name.value == [] {
        return None;
      }
      var templateName := Strip(name.value);
      if templateName == [] {
        return None;
      }
      templates := templates[templateName := pattern];
      var file := SaveTemplatesToFile();
      written := Some(file);
    }

    /**
     * `_clear_template`: removes the selected template unless it is the reserved one, and
     * returns the object written to the template file, or None when nothing was removed.
     */
    method ClearTemplate() returns (written: Option<map<string, string>>)
      requires Valid()
      modifies this`templates, this`selectedName, this`customPattern, this`studentIdPattern
      ensures Valid()
      ensures old(selectedName) == Templates.Reserved || old(selectedName) !in old(templates) ==>
        && templates == old(templates) && selectedName == old(selectedName)
        && customPattern == old(customPattern) && studentIdPattern == old(studentIdPattern)
        && written == None
      ensures old(selectedName) != Templates.Reserved && old(selectedName) in old(templates) ==>
        && templates == old(templates) - {old(selectedName)}
        && selectedName == Templates.Reserved && customPattern == [] && studentIdPattern == Templates.Composite
        && written == Some(Templates.Persisted(templates))
    {
      var name := selectedName;
      if name == Templates.Reserved {
        return None;
      }
      if name in templates {
        templates := templates - {name};
        selectedName := Templates.Reserved;
        customPattern := [];
        studentIdPattern := Templates.Composite;
        var file := SaveTemplatesToFile();
        written := Some(file);
      } else {
        written := None;
      }
    }

    /** `_validate_pattern_realtime`: the active pattern follows the entry only while it compiles. */
    method ValidatePatternRealtime(env: Env)
      modifies this`studentIdPattern
      ensures Strip(customPattern) == [] ==> studentIdPattern == Templates.Composite
      ensures Strip(customPattern) != [] && env.compiles(Strip(customPattern)) ==>
        studentIdPattern == Strip(customPattern)
      ensures Strip(customPattern) != [] && !env.compiles(Strip(customPattern)) ==>
        studentIdPattern == old(studentIdPattern)
    {
      var pattern := Strip(customPattern);
      if pattern == [] {
        studentIdPattern := Templates.Composite;
      } else if env.compiles(pattern) {
        studentIdPattern := pattern;
      }
    }

    /**
     * One category's step of `_extract_data`: the new items are the page-local set minus the
     * accumulator, and the accumulator is updated with them.
     */
    static method Absorb(acc: set<string>, local: set<string>) returns (newItems: set<string>, updated: set<string>)
      ensures newItems <= local && newItems !! acc
      ensures forall x :: x in local && x !in acc ==> x in newItems
      ensures updated == acc + local
    {
      newItems := local - acc;
      updated := acc;
      if newItems != {} {
        updated := updated + newItems;
      }
    }

    /** `_extract_data`: returns the items reported as new, per category. */
    method ExtractData(text: string, env: Env) returns (reported: Results)
      requires Valid()
      modifies this`emails, this`phones, this`studentIds
      ensures Valid()
      ensures Collected() == Extract(old(Collected()), Enabled(), customPattern, env, text)
      ensures reported == Reported(old(Collected()), Enabled(), customPattern, env, text)
    {
      ghost var f := Found(Enabled(), customPattern, env, text);
      var newEmails, newPhones, newIds: set<string> := {}, {}, {};
      if emailEnabled {
        var emailList := Elements(env.findAllIgnoreCase(EmailPattern, text));
        newEmails, emails := Absorb(emails, emailList);
      }
      if phoneEnabled {
        var rawPhones := env.findAll(PhonePattern, text);
        var cleanedPhones := Phones.CleanPhones(rawPhones);
        newPhones, phones := Absorb(phones, cleanedPhones);
      }
      if studentIdEnabled {
        var currentPattern := IdPattern(customPattern);
        if env.compiles(currentPattern) {
          var idList := Elements(env.findAll(currentPattern, text));
          assert idList == f.studentIds;
          newIds, studentIds := Absorb(studentIds, idList);
        }
      }
      reported := Results(newEmails, newPhones, newIds);
      assert emails == old(emails) + f.emails && newEmails == f.emails - old(emails);
      assert phones == old(phones) + f.phones && newPhones == f.phones - old(phones);
      assert studentIds == old(studentIds) + f.studentIds && newIds == f.studentIds - old(studentIds);
    }

    /** `manual_dedupe`: the counts it reports before and after, which are always equal. */
    method ManualDedupe() returns (before: (nat, nat, nat), after: (nat, nat, nat))
      ensures before == (|emails|, |phones|, |studentIds|)
      ensures after == before
    {
      before := (|emails|, |phones|, |studentIds|);
      var e := set x | x in emails;
      var p := set x | x in phones;
      var s := set x | x in studentIds;
      assert e == emails && p == phones && s == studentIds;
      after := (|e|, |p|, |s|);
    }

    /** `clear_results` */
    method ClearResults()
      modifies this`emails, this`phones, this`studentIds, this`currentUrls
      ensures Collected() == Empty && currentUrls == []
    {
      emails, phones, studentIds := {}, {}, {};
      currentUrls := [];
    }

    /**
     * `_select_batch_file`: `path` is the dialog's answer ("" when cancelled) and `lines` the
     * file's lines (None when it cannot be read).
     */
    method SelectBatchFile(path: string, lines: Option<seq<string>>)
      modifies this`batchFilePath, this`currentUrls
      ensures old(Valid()) ==> Valid()
      ensures path == [] ==> batchFilePath == old(batchFilePath) && currentUrls == old(currentUrls)
      ensures path != [] ==> batchFilePath == Some(path)
      ensures path != [] && lines.Some? ==> currentUrls == BatchUrls.UrlList(lines.value)
      ensures path != [] && lines.None? ==> currentUrls == old(currentUrls)
    {
      if path != [] {
        batchFilePath := Some(path);
        if lines.Some? {
          currentUrls := BatchUrls.UrlList(lines.value);
        }
      }
    }

    /** The loop of swallow.py:565-573 over a URL list. */
    method ProcessUrls(urls: seq<string>, env: Env)
      requires Valid()
      modifies this`emails, this`phones, this`studentIds
      ensures Valid()
      ensures Collected() == Fold(old(Collected()), urls, Enabled(), customPattern, env)
    {
      for i := 0 to |urls|
        invariant Valid()
        invariant Collected() == Fold(old(Collected()), urls[..i], Enabled(), customPattern, env)
      {
        var url := urls[i];
        assert urls[..i + 1][..i] == urls[..i];
        if !ValidUrl(env, url) {
          continue;
        }
        var content := env.fetch(url);
        if content.Some? && content.value != [] {
          var _ := ExtractData(content.value, env);
        }
      }
      assert urls[..|urls|] == urls;
    }

    /** The single-URL branch of `start_scraping` (swallow.py:544-556). */
    method RunSingle(urlEntry: string, env: Env)
      requires Valid()
      modifies this`emails, this`phones, this`studentIds
      ensures Valid()
      ensures Collected() == Visit(old(Collected()), Strip(urlEntry), Enabled(), customPattern, env)
    {
      var url := Strip(urlEntry);
      if !ValidUrl(env, url) {
        return;
      }
      var content := env.fetch(url);
      if content.Some? && content.value != [] {
        var _ := ExtractData(content.value, env);
      }
    }

    /**
     * `start_scraping` as written. It clears the results, and with them the URL list, before
     * the batch branch tests that list, so a batch run never fetches anything.
     */
    method StartScraping(mode: Mode, urlEntry: string, env: Env)
      requires Valid()
      modifies this`emails, this`phones, this`studentIds, this`currentUrls
      ensures Valid() && currentUrls == []
      ensures Collected() == Run(mode, urlEntry, env, Enabled(), customPattern, batchFilePath.Some?, [])
    {
      ClearResults();
      if !env.online {
        return;
      }
      if !emailEnabled && !phoneEnabled && !studentIdEnabled {
        return;
      }
      match mode
      case Single =>
        RunSingle(urlEntry, env);
      case Batch =>
        if batchFilePath.None? || currentUrls == [] {
          return;
        }
        // The loop of swallow.py:565-573 follows here in the source; the guard above always returns.
        assert false;
    }

    /** `start_scraping` as evidently intended: the URL list chosen beforehand survives the reset. */
    method StartScrapingIntended(mode: Mode, urlEntry: string, env: Env)
      requires Valid()
      modifies this`emails, this`phones, this`studentIds
      ensures Valid()
      ensures Collected() == Run(mode, urlEntry, env, Enabled(), customPattern, batchFilePath.Some?, currentUrls)
    {
      emails, phones, studentIds := {}, {}, {};
      if !env.online {
        return;
      }
      if !emailEnabled && !phoneEnabled && !studentIdEnabled {
        return;
      }
      match mode
      case Single =>
        RunSingle(urlEntry, env);
      case Batch =>
        if batchFilePath.None? || currentUrls == [] {
          return;
        }
        ProcessUrls(currentUrls, env);
    }
  }

  /**
   * What `start_scraping` collects from empty accumulators, given whether a batch file was
   * chosen and the URL list the batch branch finds.
   */
  ghost function Run(mode: Mode, urlEntry: string, env: Env, cats: Categories, custom: string,
                    fileChosen: bool, urls: seq<string>): Results
  {
    if !env.online || cats == Categories(false, false, false) then Empty
    else match mode
      case Single => Visit(Empty, Strip(urlEntry), cats, custom, env)
      case Batch => if fileChosen then Fold(Empty, urls, cats, custom, env) else Empty
  }

  /** The state `__init__` leaves: nothing collected, default options, built-ins merged with `saved`. */
  ghost predicate Initial(s: WebScraper, saved: map<string, string>)
    reads s
  {
    && s.Valid()
    && s.Collected() == Empty && s.currentUrls == [] && s.batchFilePath == None
    && s.studentIdPattern == Templates.Composite && s.customPattern == [] && s.selectedName == Templates.Reserved
    && s.Enabled() == Categories(true, true, false)
    && s.templates == Templates.Merge(Templates.Builtins, saved)
  }

  /**
   * `WebScraperGUI(root)` as written. The template file is loaded before `_create_widgets`
   * (swallow.py:75-78) creates `result_text`, so the failure handler's `_log` (swallow.py:376)
   * raises `AttributeError` at swallow.py:234 and no window comes up.
   */
  method Launch(file: Templates.TemplateFile) returns (app: Option<WebScraper>)
    ensures app.None? <==> file.Broken?
    ensures app.Some? ==> fresh(app.value) && Initial(app.value, file.Added())
  {
    var s := new WebScraper();
    var failed := s.LoadTemplatesFromFile(file);
    if failed {
      return None;
    }
    app := Some(s);
  }

  /** `WebScraperGUI(root)` as evidently intended: a file that cannot be loaded is logged and skipped. */
  method LaunchIntended(file: Templates.TemplateFile) returns (app: WebScraper)
    ensures fresh(app) && Initial(app, file.Added())
  {
    app := new WebScraper();
    var _ := app.LoadTemplatesFromFile(file);
  }

  /** A fresh scraper, started without a template file, after choosing a batch file whose one line is `url`. */
  method OneUrlScraper(path: string, url: string) returns (s: WebScraper)
    requires path != [] && url != [] && !IsSpace(url[0]) && !IsSpace(url[|url| - 1])
    ensures fresh(s) && s.Valid()
    ensures s.batchFilePath == Some(path) && s.currentUrls == [url]
    ensures s.Enabled() == Categories(true, true, false)
  {
    s := new WebScraper();
    OneUrlList(url);
    s.SelectBatchFile(path, Some([url]));
  }

  /**
   * A batch run as written, after a file whose one valid URL leads to a page with an email:
   * nothing is collected.
   */
  method BatchRunAsWritten(env: Env, path: string, url: string, text: string) returns (collected: Results)
    requires env.online && path != [] && url != [] && !IsSpace(url[0]) && !IsSpace(url[|url| - 1])
    requires ValidUrl(env, url) && env.fetch(url) == Some(text) && text != []
    requires env.findAllIgnoreCase(EmailPattern, text) != []
    ensures collected == Empty
  {
    var s := OneUrlScraper(path, url);
    s.StartScraping(Batch, [], env);
    collected := Results(s.emails, s.phones, s.studentIds);
  }

  /** The same batch run with the intended behaviour collects the page's emails. */
  method BatchRunIntended(env: Env, path: string, url: string, text: string) returns (collected: Results)
    requires env.online && path != [] && url != [] && !IsSpace(url[0]) && !IsSpace(url[|url| - 1])
    requires ValidUrl(env, url) && env.fetch(url) == Some(text) && text != []
    ensures collected.emails == PageEmails(env, text)
  {
    var s := OneUrlScraper(path, url);
    BatchOneUrl(env, url, text, s.Enabled(), s.customPattern);
    s.StartScrapingIntended(Batch, [], env);
    collected := Results(s.emails, s.phones, s.studentIds);
  }

  /** A batch run that finds one fetched URL collects that page's emails. */
  lemma BatchOneUrl(env: Env, url: string, text: string, cats: Categories, custom: string)
    requires env.online && cats.email
    requires ValidUrl(env, url) && env.fetch(url) == Some(text) && text != []
    ensures Run(Batch, [], env, cats, custom, true, [url]).emails == PageEmails(env, text)
  {
    OneUrlRun(env, url, text, cats, custom);
  }

  /** A run over one valid URL whose page was fetched collects what that page holds. */
  lemma OneUrlRun(env: Env, url: string, text: string, cats: Categories, custom: string)
    requires ValidUrl(env, url) && env.fetch(url) == Some(text) && text != []
    ensures Fold(Empty, [url], cats, custom, env) == Found(cats, custom, env, text)
  {
    assert [url][..0] == [];
  }

  /** A batch file of one URL without surrounding white space lists exactly that URL. */
  lemma OneUrlList(url: string)
    requires url != [] && !IsSpace(url[0]) && !IsSpace(url[|url| - 1])
    ensures BatchUrls.UrlList([url]) == [url]
  {
    BatchUrls.StripOfWord(url);
    assert BatchUrls.StrippedLines([url]) == [url] by {
      assert [url][1..] == [];
    }
    assert BatchUrls.Dedup([url]) == [url] by {
      assert [url][..0] == [];
    }
  }
}
