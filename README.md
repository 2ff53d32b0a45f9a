# Contact-harvesting session core of `swallow.py`, in Dafny

`swallow.py` is a desktop tool (`WebScraperGUI`). It fetches web pages, one URL or a batch
file of URLs. From each page it extracts email addresses, Chinese mobile numbers and
student-ID-like tokens with regular expressions. Three accumulator sets keep each of these
free of duplicates across a run. Student-ID patterns can be stored as named templates in a
JSON file. This project models the state that class keeps and the operations that change it.
Regular expressions, HTTP, URL parsing and files are treated as foreign calls.

Modules, one per component:

- `Wrappers` (`wrappers.dfy`): `Option`.
- `Text` (`text.dfy`): Python's `str.strip()`, over the characters `str.isspace()` accepts.
- `Phones` (`phones.dfy`): phone-number cleaning. Non-digits are removed. Eleven digits are kept. Thirteen digits starting with "86" are kept without the "86". Everything else is dropped. The cleaning loop is a method proved against the function `PhoneSet`.
- `Templates` (`templates.dfy`): the six built-in templates and the reserved name `ALL模式`. It holds the load-time merge (`dict.update`), the persistence filter (a loop proved against `Persisted`) and the save/reload round trip.
- `BatchUrls` (`urls.dfy`): the URL list built from a batch file's lines.
- `Extraction` (`extraction.dfy`): the foreign calls as an `Env` value. It defines what one page adds to the three sets (`Extract`) and reports as new (`Reported`), and what a sequence of URLs adds (`Fold`), with their lemmas.
- `Scraper` (`scraper.dfy`): class `WebScraper`, holding the fields of `WebScraperGUI`. Its methods change them in place and are proved against the functions above.

Behaviour of the code a reader may not expect:

- A non-empty custom student-ID pattern that does not compile does not fall back to the composite pattern. The `re.error` is caught, and no student IDs are collected for that page (swallow.py:480-503).
- The three sets are emptied at the start of every run (swallow.py:529). Their comments call them the unique items of all URLs (swallow.py:55-58), but they de-duplicate within one run, not across a whole session.
- Extraction reads the text of the custom-pattern entry (swallow.py:482). It never reads the field `student_id_pattern`. That field is still modelled (`studentIdPattern`), since four methods set it.
- A template may be saved under the reserved name. Selecting that name still uses the built-in composite pattern (swallow.py:284-286).

## Model

| member | source | states |
|---|---|---|
| `Text.Strip` | swallow.py:225 | the result is empty exactly when the input is all white space; otherwise it has no white space at either end and is the input's slice between the first and last non-space characters |
| `Text.StripIdempotent` | swallow.py:225 | stripping a stripped string changes nothing |
| `Text.StripTrailing` | swallow.py:225 | white space after a string, such as the line break a file line ends with, does not change its stripped form |
| `Phones.DigitsOnly` | swallow.py:459 | the result holds only ASCII digits and is no longer than the input |
| `Phones.DigitsOnlyOfDigits` | swallow.py:459 | a string of digits is left unchanged |
| `Phones.DigitsOnlyConcat` | swallow.py:459 | removing non-digits distributes over concatenation |
| `Phones.Unseparated` | swallow.py:459 | separator characters between two parts disappear |
| `Phones.Normalise` | swallow.py:459-463 | a kept value is exactly 11 ASCII digits; the match's digits are that value or "86" followed by it; a dropped match never has 11 digits |
| `Phones.NormaliseKeeps` | swallow.py:460-463 | a match is kept if and only if its digits are a phone number, or "86" followed by one |
| `Phones.NormaliseIdempotent` | swallow.py:459-461 | cleaning an already cleaned number gives it back |
| `Phones.Grouped` | swallow.py:13 | an 11-digit number written in three groups with any separators cleans to its 11 digits |
| `Phones.KeptAsIs` | swallow.py:458-459 | a match whose digits number 11 is kept as those digits |
| `Phones.CountryCode` | swallow.py:459-463 | a "+86" prefix followed by separators is dropped |
| `Phones.ExampleSpaced` | swallow.py:458-463 | "+86 138 1234 5678" cleans to "13812345678" |
| `Phones.ExamplePrefixed` | swallow.py:462-463 | "8613812345678" cleans to "13812345678" |
| `Phones.ExampleTooShort` | swallow.py:460-463 | a 10-digit match is dropped |
| `Phones.PhoneSetMeaning` | swallow.py:457-463 | a number is in a page's cleaned set exactly when some raw match cleans to it, and it is then 11 digits |
| `Phones.CleanPhones` | swallow.py:457-463 | the loop builds exactly the cleaned set of the raw matches, all of them 11-digit numbers |
| `Templates.Merge` | swallow.py:374 | the merged map has the keys of both maps; saved entries win; the others keep their values |
| `Templates.UserTemplates` | swallow.py:391-394 | the loop's output is a sub-map of the templates holding exactly the entries whose name is not built in or whose pattern differs from the built-in one |
| `Templates.PersistedNeverHoldsBuiltin` | swallow.py:382-394 | a built-in entry with its own pattern is never written |
| `Templates.ReloadPersisted` | swallow.py:367-394 | merging what was written over the built-ins gives the in-memory map when every built-in name is still present; a removed built-in reappears |
| `Templates.PersistReloadPersist` | swallow.py:367-394 | writing again after a reload writes the same object |
| `Templates.ExamplePersist` | swallow.py:391-394 | a built-in saved with its own pattern is not written; a new name is |
| `BatchUrls.StrippedLines` | swallow.py:225 | the output is no longer than the input and holds exactly the non-empty stripped lines |
| `BatchUrls.Dedup` | swallow.py:226 | the output has no repeats, is no longer than the input and has the same elements |
| `BatchUrls.UrlList` | swallow.py:224-226 | the URL list has no repeats; each entry is stripped, non-empty and comes from a line; every non-blank line's stripped form is in it |
| `BatchUrls.RepeatedAndBlank` | swallow.py:224-226 | lines a, a, a blank line and b give exactly [a, b] |
| `BatchUrls.ExampleTwoUrls` | swallow.py:224-226 | "http://a.com" twice, a blank line and "http://b.com" give the two URLs |
| `Extraction.ExtractMeaning` | swallow.py:435-503 | per category: the reported items are page-local minus accumulator and disjoint from it; the accumulator becomes old plus page-local; nothing is removed; a disabled category, or student IDs whose pattern does not compile, stay untouched; with student IDs chosen and a compiling pattern, the IDs added are the distinct matches of the stripped custom pattern, or of the composite pattern when that is empty (swallow.py:482-488) |
| `Extraction.ExtractWellFormed` | swallow.py:457-470 | extraction adds only 11-digit phone numbers |
| `Extraction.ExtractTwice` | swallow.py:438-494 | repeating an identical extraction reports nothing new and changes no set |
| `Extraction.FoldIsJoin` | swallow.py:565-573 | a run adds the union of what its pages contribute to the sets it starts from |
| `Extraction.FoldGrows` | swallow.py:565-573 | a run never removes an item |
| `Extraction.FoldTwice` | swallow.py:565-573 | running the same URLs on the same pages a second time changes nothing |
| `Extraction.FoldWellFormed` | swallow.py:565-573 | every phone number a run collects has 11 digits |
| `Extraction.FoldDisabled` | swallow.py:565-573 | a disabled category's set is the same after a whole run |
| `Extraction.VisitIsJoin` | swallow.py:566-573 | one URL adds to the sets what it contributes on its own, whatever they held before |
| `Extraction.FoldOrderFree` | swallow.py:565-573 | a run from empty sets collects the union of what each of its URLs contributes, so only the set of URLs matters, not their order or repeats |
| `Extraction.FoldSameUrls` | swallow.py:565-573 | two URL lists with the same members give the same run, so the unspecified order of `list(set(...))` (swallow.py:226) changes nothing |
| `Scraper.WebScraper.constructor` | swallow.py:50-72 | the sets and URL list start empty; the composite pattern is active; email and phone are on and student IDs off; the templates are the six built-ins |
| `Scraper.WebScraper.LoadTemplatesFromFile` | swallow.py:367-376 | the handler runs exactly when the file exists but cannot be loaded; a loaded file's entries are merged over the current templates; a missing or unloadable file changes nothing |
| `Scraper.Launch` | swallow.py:50-78 | construction fails exactly when the template file exists but cannot be loaded, since the handler's `_log` (swallow.py:376) reads `result_text` (swallow.py:234) before `_create_widgets` creates it; otherwise the scraper starts in its initial state with the saved entries merged over the built-ins |
| `Scraper.LaunchIntended` | swallow.py:50-78 | construction always succeeds: the scraper starts in its initial state, with the saved entries merged over the built-ins when the file loads and the built-ins alone otherwise |
| `Scraper.WebScraper.SaveTemplatesToFile` | swallow.py:378-399 | the object written is exactly the user-added or user-modified entries |
| `Scraper.WebScraper.LoadTemplate` | swallow.py:281-291 | the reserved name restores the composite pattern and an empty entry; a known name makes its pattern the entry text and the active pattern; an unknown name changes nothing |
| `Scraper.WebScraper.SaveTemplate` | swallow.py:293-326 | nothing changes when the stripped pattern is empty or does not compile, or the stripped name is empty or was not given; otherwise only that name is set to the pattern, and the persisted entries are written |
| `Scraper.WebScraper.ClearTemplate` | swallow.py:344-365 | the reserved name is never removed; removing a present name deletes only that key and resets the selection, the entry and the active pattern; an absent name changes nothing |
| `Scraper.WebScraper.ValidatePatternRealtime` | swallow.py:401-417 | the active pattern becomes the composite one for an empty entry and the entry's pattern when that compiles; otherwise it stays as it was |
| `Scraper.WebScraper.Absorb` | swallow.py:438-443 | the new items are those of the page not already held, and the set becomes the union of both |
| `Scraper.WebScraper.ExtractData` | swallow.py:432-503 | the sets become `Extract` of the old sets and the reported items are `Reported`; the phone set stays made of 11-digit numbers |
| `Scraper.WebScraper.ManualDedupe` | swallow.py:505-524 | the counts it reports before and after are those of the sets and are equal |
| `Scraper.WebScraper.ClearResults` | swallow.py:622-633 | the three sets and the URL list are empty |
| `Scraper.WebScraper.SelectBatchFile` | swallow.py:213-230 | a chosen, readable file replaces the URL list with the list built from its lines; a cancelled dialog changes nothing; an unreadable file keeps the old list |
| `Scraper.WebScraper.ProcessUrls` | swallow.py:565-573 | the sets become `Fold` of the old sets over the URLs; invalid URLs, failed fetches and empty pages are skipped |
| `Scraper.WebScraper.RunSingle` | swallow.py:544-556 | a single-URL run adds what the stripped URL's page contributes, or nothing when it is invalid or not fetched |
| `Scraper.WebScraper.StartScraping` | swallow.py:526-578 | the URL list ends empty and the sets end as `Run` over an empty list: empty when offline, with no category chosen, or in batch mode; in single mode what the stripped URL's page contributes |
| `Scraper.WebScraper.StartScrapingIntended` | swallow.py:526-578 | the sets end as `Run` over the URL list chosen beforehand: in batch mode with a chosen file, `Fold` from empty sets over that list |
| `Scraper.OneUrlScraper` | swallow.py:213-230 | a fresh scraper after choosing a file of one URL has that file and that one-URL list, with email and phone chosen |
| `Scraper.BatchRunAsWritten` | swallow.py:529-562 | with a file holding one valid URL whose page holds an email, a batch run collects nothing |
| `Scraper.BatchRunIntended` | swallow.py:559-573 | the same batch run, with the intended behaviour, collects the page's emails |
| `Scraper.BatchOneUrl` | swallow.py:559-573 | a batch run that finds one valid, fetched, non-empty page collects that page's emails when emails are chosen |
| `Scraper.OneUrlRun` | swallow.py:565-573 | the loop over a one-URL list whose page is fetched yields what `_extract_data` finds on that page |
| `Scraper.OneUrlList` | swallow.py:224-226 | a batch file of one URL with no surrounding white space lists exactly that URL |

## Left out

- The window, its widgets and their layout are not modelled: `_create_widgets`, `_switch_mode`, `_log`, message boxes, the combo box's value list and the pattern feedback label. They have no effect on the modelled state.
- `messagebox.warning` does not exist (swallow.py:538, 583), so those calls raise `AttributeError`. The model treats them as the early return they stand in for. The state is the same either way.
- `_check_internet` and `_scrape_content` (requests, time-outs, encoding detection) are not modelled. They appear as `Env.online` and `Env.fetch`.
- The regular-expression engine is not modelled: `re.findall`, `re.compile` and `re.fullmatch`. They appear as `Env.findAll`, `Env.findAllIgnoreCase` and `Env.compiles`. The patterns of swallow.py:11-44 are kept as constants, but what they accept is not encoded.
- `urlparse` in `_validate_url` is not modelled. It appears as `Env.hasSchemeAndHost`.
- `Env.fetch` is a function of the URL, so a page's text does not change within a model run. The network is not that stable.
- The JSON template file is passed in as a `TemplateFile`. `Missing` is a path for which `os.path.exists` is false. `Broken` is a file whose opening, JSON parsing or `dict.update` raises: bad JSON, a directory, a top-level number or string. `Saved(m)` holds the entries `dict.update` adds, from an object or a list of pairs. JSON parsing itself and non-string values are not modelled. The saved file is returned as a `map<string, string>`. Write failures are caught by the source and change no state, so they are not modelled either.
- The batch file's contents are passed in as its lines. A read failure is `None`.
- `save_results` is not modelled. It writes the sorted sets to three files, which is file output only.
- `_test_student_id_pattern` and `_validate_student_id` are not modelled. Their only result is a message box, and they rest on `re.fullmatch`.
- The generic `except Exception` around student-ID extraction (swallow.py:502) is not modelled. The only failure modelled is a pattern that does not compile.
- `BatchUrls.UrlList`: Python's `list(set(...))` has no defined order. The model keeps first occurrences in order. A run's result does not depend on it (`Extraction.FoldSameUrls`); the log messages, whose order it does set, are not modelled.

## Findings

| source | as written | input that shows it | evidently intended | confidence | as-written member | corrected member |
|---|---|---|---|---|---|---|
| swallow.py:529 | `start_scraping` first calls `clear_results`, which empties `current_urls`; the batch branch then refuses to run because `current_urls` is empty (swallow.py:560) | choose a batch file holding one valid URL whose page contains an email, select batch mode and start: nothing is fetched or collected | the URL list read from the chosen file is processed, and only the result sets are emptied | high; not executed | `Scraper.WebScraper.StartScraping`, `Scraper.BatchRunAsWritten` | `Scraper.WebScraper.StartScrapingIntended`, `Scraper.BatchRunIntended` |
| swallow.py:75 | `__init__` loads the template file before `_create_widgets` (swallow.py:78) creates `result_text` (swallow.py:192); when loading raises, the handler's `_log` (swallow.py:376) raises `AttributeError` at swallow.py:234, so `WebScraperGUI(root)` never returns | a template file holding `{` | the load error is logged and the tool starts with the built-in templates | high; not executed | `Scraper.Launch` | `Scraper.LaunchIntended` |
