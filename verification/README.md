# Web scraper: a Dafny model of the single-page extractor

`web_scraper.py` is a desktop tool. The user types an address and ticks up to
three check boxes: links, headings, text. The tool downloads the page,
collects a list of records `{type, text, url}` and shows them in a results
pane. The records can then be saved or exported; one of the export formats
is Markdown. This project models the logic of that tool that does not depend
on the window, the network or a library, in five parts, and proves
properties of each:

- **Address check** (`text.dfy`, `url.dfy`). `start_scraping` trims the
  entry with Python's `str.strip()`. The whitespace set is modelled
  character by character. An empty entry is refused. `https://` is put in
  front of anything that does not start with `http://` or `https://`.
- **Href rewriting** (`url.dfy`). An anchor's `href` is kept when it is
  absolute. Otherwise it is glued onto the page's `scheme://netloc`. The
  network location is what `urlparse` finds: the text after `://` up to the
  first `/`, `?` or `#`.
- **Extraction** (`extraction.dfy`). The parsed page is a sequence of
  elements `(tag, text, href?)` in document order. It stands for what
  BeautifulSoup's `find_all` returns. The three loops of `scrape_url` are
  methods. Each is proved equal to a specification function, and the
  lemmas are about those functions.
- **Renderers** (`render.dfy`). These are the lines `update_results` inserts
  into the pane and the text `export_markdown` writes. Each is one block
  per record, concatenated in record order. The per-record loop bodies are
  methods proved to append exactly one block.
- **Application state** (`app.dfy`). Class `Scraper` holds what the
  handlers read and write:
  - the check boxes and the export format menu;
  - `results_data` and the pane's text;
  - the progress label and the enabled state of the buttons;
  - the last error dialog.

  Its methods are `start_scraping`, `scrape_url`, `update_results`,
  `show_error`, and the guards of `save_results` and `export_results`. The
  background thread and `root.after` become direct calls. Downloading and
  parsing become a parameter `fetch` from an address to a parsed page or
  an error message.

Characters are counted with `Text.Occurrences`. Record texts may contain
`-`, `[`, `─` or line breaks themselves. So the count lemmas state the
number of characters the renderer adds, plus those already in the records'
texts and URLs. A corollary gives exact counts when the texts contain none.

## Model

| member | source | states |
|---|---|---|
| `Text.StripProperties` | web_scraper.py:256 | `strip()` never lengthens, leaves no whitespace at either end, and gives the empty string exactly when the input is all whitespace |
| `Text.StripUnique` | web_scraper.py:309 | whitespace, then a stripped infix, then whitespace: `strip()` returns that infix (an independent characterisation) |
| `Text.StripIdempotent` | web_scraper.py:256 | stripping twice is stripping once |
| `Url.NormalizeSeed` | web_scraper.py:256-262 | error with "Пожалуйста, введите URL" exactly when the entry is all whitespace; otherwise the result is stripped, starts with `http://` or `https://`, and is either the stripped entry (unchanged when it already had such a prefix) or `"https://"` followed by it |
| `Url.NormalizeSeedIdempotent` | web_scraper.py:256-262 | normalising a normalised address gives it back unchanged |
| `Url.NetlocLength` | web_scraper.py:288 | the network location runs up to the first `/`, `?` or `#`, or to the end |
| `Url.NetlocLengthUnique` | web_scraper.py:288 | that split point is the only one with no delimiter before it and a delimiter or the end after it |
| `Url.PageBase` | web_scraper.py:288 | `scheme://netloc` is a prefix of the page address, starts with `http://` or `https://`, holds no delimiter after `://`, and is followed in the address by a delimiter or the end |
| `Url.PageBaseOf` | web_scraper.py:288 | for an address written as prefix, netloc and a tail that starts with a delimiter, `scheme://netloc` is prefix plus netloc |
| `Url.Resolve` | web_scraper.py:286-289 | the rewritten href always starts with `http://` or `https://`; an absolute href is returned verbatim |
| `Url.ResolveRelative` | web_scraper.py:287-289 | a non-absolute href becomes the page's `scheme://netloc/`, then at most one added `/`, then the href itself, with the exact length |
| `Url.ResolveIdempotent` | web_scraper.py:287-289 | rewriting a rewritten href changes nothing |
| `Url.ResolveIgnoresPagePath` | web_scraper.py:287-289 | the result depends only on the page's scheme and netloc, never on its path, query or fragment; `//host`, `#frag`, `?q` and `mailto:` hrefs land under the page's host (unlike section 5.2 of RFC 3986) |
| `Extraction.ExtractItems` | web_scraper.py:280-315 | the record list built by the three toggled loops equals the specification `Extract`: links, then `h1`, `h2`, `h3`, then paragraphs |
| `Extraction.AppendLinks` | web_scraper.py:282-294 | the link loop appends one record per anchor with a non-empty `href`, in document order, with the rewritten href and the stripped text |
| `Extraction.AppendHeadings` | web_scraper.py:296-304 | the heading loops append all `h1`, then all `h2`, then all `h3` records with their stripped text and an empty URL |
| `Extraction.AppendParagraphs` | web_scraper.py:306-315 | the paragraph loop appends one record per `p` whose stripped text is non-empty |
| `Extraction.ExtractWellFormed` | web_scraper.py:284-315 | every record's text is stripped, paragraph texts are non-empty, and the URL is non-empty exactly for links |
| `Extraction.ExtractBlocks` | web_scraper.py:280-315 | the list is the concatenation of five per-kind blocks, each empty when its check box is off |
| `Extraction.ExtractOrdered` | web_scraper.py:280-315 | every link comes before every `h1`, every `h1` before every `h2`, and so on down to the paragraphs, whatever the document order |
| `Extraction.ExtractCount` | web_scraper.py:282-315 | with its check box on, the number of records of a kind is the number of anchors with a non-empty `href`, of `h1`/`h2`/`h3` elements, or of `p` elements with non-whitespace text; with it off, zero |
| `Render.ConcatAppend` | web_scraper.py:325 | rendering a list split in two renders the halves one after the other |
| `Render.UrlCountLinks` | web_scraper.py:290-313 | in a well-formed list, the records with a URL are exactly the link records |
| `Render.InsertRecord` | web_scraper.py:326-330 | the inserts for one record append exactly its pane block: type line, text line, URL line only when the URL is non-empty, rule |
| `Render.InsertRecords` | web_scraper.py:325-330 | the pane loop appends the records' blocks in record order |
| `Render.PaneBlockRules` | web_scraper.py:330 | one record's pane block adds exactly fifty `─` |
| `Render.PaneBlockLines` | web_scraper.py:326-330 | one record's pane block adds three line breaks, four with a URL |
| `Render.PaneRules` | web_scraper.py:325-330 | the pane holds fifty `─` per record besides those in the records' texts and URLs |
| `Render.PaneLines` | web_scraper.py:325-330 | the pane holds three line breaks per record plus one per record with a URL, besides those in the records' texts and URLs |
| `Render.WriteRecord` | web_scraper.py:444-448 | the writes for one record append exactly its Markdown block: `## type`, text, a `[Ссылка](url)` line only when the URL is non-empty, `---` |
| `Render.ExportMarkdown` | web_scraper.py:440-448 | the exported text is the header `# Web Scraper Results` followed by the records' blocks in record order |
| `Render.MarkdownShape` | web_scraper.py:442-448 | the file starts with the header, and record `i`'s block follows the header and the blocks of records `0..i-1` |
| `Render.MarkdownBlockRules` | web_scraper.py:448 | one record's Markdown block adds exactly three hyphens |
| `Render.MarkdownBlockLinks` | web_scraper.py:446-447 | one record's Markdown block adds one `[` when its URL is non-empty, none otherwise |
| `Render.MarkdownSeparators` | web_scraper.py:443-448 | the file holds three hyphens per record, the `---` rules, besides those in the records' texts and URLs |
| `Render.MarkdownSeparatorsExact` | web_scraper.py:443-448 | when no text or URL contains a hyphen, the file's hyphens are exactly three per record |
| `Render.MarkdownLinkLines` | web_scraper.py:446-447 | the file holds one `[` per record with a URL, the opening of its `[Ссылка](url)` line, besides the `[` in the records' texts and URLs |
| `Render.PageMarkdownLinks` | web_scraper.py:283-294 | for a scraped page, the Markdown holds one `[` per anchor with a non-empty `href` when links are on and none when off, besides the `[` in the records' texts and URLs |
| `App.Scraper.constructor` | web_scraper.py:129-248 | the window starts with all three check boxes ticked, Excel selected, no records, an empty pane, "Готов к работе", and only the scrape button enabled |
| `App.Scraper.SetToggles` | web_scraper.py:129-151 | ticking the check boxes changes only the toggles |
| `App.Scraper.SelectExportFormat` | web_scraper.py:191-204 | choosing a format changes only the format |
| `App.Scraper.ShowError` | web_scraper.py:344-355 | the label shows "Ошибка", the scrape button comes back, and the dialog shows the message; records, pane and other buttons are untouched |
| `App.Scraper.UpdateResults` | web_scraper.py:323-342 | with records, their pane blocks are appended, "Извлечение завершено" is shown and saving and export are enabled; without, "Данные не найдены" and both disabled |
| `App.Scraper.ScrapeUrl` | web_scraper.py:274-321 | as written: a failed fetch changes nothing (label, buttons, dialog, records and pane stay as they were); a parsed page replaces the records by its extraction under the current toggles, shows them and enables the scrape button |
| `App.Scraper.ScrapeUrlIntended` | web_scraper.py:320-321 | as intended: a failed fetch shows "Ошибка" and the message's dialog and keeps the old records and pane; a parsed page is handled as by `ScrapeUrl`; the scrape button is enabled afterwards either way |
| `App.Scraper.StartScraping` | web_scraper.py:255-272 | an all-whitespace entry shows the empty-address error and starts nothing; otherwise the pane is cleared, saving disabled, and the normalised address scraped; a failed fetch leaves "Извлечение данных...", the pane empty, the scrape and save buttons disabled, no new dialog, the old records kept and the export button as it was |
| `App.FailedFetchLocksScrapeButton` | web_scraper.py:255-272 | a fresh window whose fetch fails ends with the scrape button disabled, the label "Извлечение данных..." and no dialog |
| `App.FailedFetchReported` | web_scraper.py:320-321 | with the intended handler, the same failure ends with the scrape button enabled, "Ошибка" and the message's dialog |
| `App.Scraper.SaveResults` | web_scraper.py:357-360 | without records, the error "Нет данных для сохранения"; with records, exactly those records are handed to the writer |
| `App.Scraper.ExportResults` | web_scraper.py:389-421 | without records, the error "Нет данных для экспорта"; with the Markdown format, the text of `ExportMarkdown`; with any other format, the records handed to that format's writer |

## Left out

- The window layout, the theme switch, the progress bar and the success dialogs. These are UI only. The progress label, the button states and the error dialog's text are modelled.
- The background thread and `root.after`. They are modelled as direct calls, so nothing can interleave with a scrape. The source does not disable the export button while a scrape runs, so an export could then see the old records. The model cannot express that interleaving.
- `requests.get`, `raise_for_status` and BeautifulSoup parsing. They are replaced by `fetch` and by the element sequence. An element's `text` stands for BeautifulSoup's `.text`.
- The catch-all `except Exception` of `scrape_url` covers only a failed fetch here. `urlparse` also raises `ValueError` on an unbalanced `[` in the network location, which fails the whole scrape. The model does not raise it.
- The `urlsplit` clean-up that removes tab, CR and LF characters is not modelled. Its other clean-up, dropping leading C0 control characters, cannot apply: the address always starts with `http://` or `https://` by then.
- The pandas DataFrame. It becomes `Option<seq<Item>>`; `.empty` is the empty sequence.
- The Excel, CSV, JSON, HTML (Jinja2) and plain-text (`tabulate`) writers. `SaveResults` and `ExportResults` return the records those writers receive.
- File dialogs, file writes and their error dialogs. A cancelled file dialog is not modelled. `ExportMarkdown` returns the text that would be written.
- `App.Scraper.ScrapeUrl`: requires an address starting with `http://` or `https://`. Its only caller, `start_scraping`, always passes one, so the model never uses the `urlparse` result of a scheme-less address.
- `Render.MarkdownSeparators`: counts hyphen characters, not `---` lines. A record's text may itself contain `---` on a line of its own, so a line count would not be exact.
- `Render.PaneLines`: counts line breaks, not pane lines, for the same reason.
- `Render.MarkdownLinkLines`: counts `[` characters, not `[Ссылка](url)` lines. A record's text or URL may itself contain `[`.
- `Render.PageMarkdownLinks`: counts `[` characters for the same reason; with links off the count is that of the texts, not zero.

## Findings

| source | as written | input that shows it | evidently intended | confidence | as-written member | corrected member |
|---|---|---|---|---|---|---|
| web_scraper.py:320-321 | the handler defers `show_error(str(e))` in a lambda; Python 3 unbinds `e` when the `except` clause ends, so the deferred call raises `NameError` and `show_error` never runs | any address whose download fails, e.g. `fetch(url) == Err("404")`: the label stays "Извлечение данных...", the scrape button stays disabled, no dialog | the error dialog, "Ошибка", and the scrape button enabled again | high (Python 3 language rule; not executed) | `App.Scraper.ScrapeUrl`, `App.FailedFetchLocksScrapeButton` | `App.Scraper.ScrapeUrlIntended`, `App.FailedFetchReported` |
