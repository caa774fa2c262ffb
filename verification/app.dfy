/** The application object: the state the scraper window keeps between
    button presses, and the handlers that change it. Widgets are reduced to
    what the handlers read and write: the three check boxes, the export
    format menu, the results pane's text, the progress label's text, the
    enabled state of the three buttons, and the text of the last error
    dialog. */
module App {
  import opened Outcomes
  import opened Text
  import opened Url
  import opened Extraction
  import opened Render

  /** Texts of the progress label. */
  const ReadyStatus: string := "Готов к работе"
  const WorkingStatus: string := "Извлечение данных..."
  const DoneStatus: string := "Извлечение завершено"
  const EmptyStatus: string := "Данные не найдены"
  const ErrorStatus: string := "Ошибка"

  /** Messages of the error dialogs of the two file actions. */
  const NothingToSaveMessage: string := "Нет данных для сохранения"
  const NothingToExportMessage: string := "Нет данных для экспорта"

  /** What the error dialog shows for a message. */
  function ErrorDialogText(message: string): string {
    "Произошла ошибка при извлечении данных:\n" + message
  }

  /** The entries of the export format menu. */
  datatype ExportFormat = Excel | Csv | Json | Html | MarkdownFormat | PlainText

  /** What an export hands over: the Markdown text, or the records passed
      to a library writer for any other format. */
  datatype Export = MarkdownText(text: string) | LibraryExport(format: ExportFormat, rows: seq<Item>)

  class Scraper {
    var extractLinks: bool
    var extractHeaders: bool
    var extractText: bool
    var exportFormat: ExportFormat
    /** `results_data`: no list before the first scrape. */
    var resultsData: Option<seq<Item>>
    var resultsText: string
    var status: string
    var scrapeEnabled: bool
    var saveEnabled: bool
    var exportEnabled: bool
    var errorDialog: Option<string>

    /** The window as built: every check box ticked, Excel selected,
        nothing scraped, only the scrape button enabled. */
    constructor ()
      ensures extractLinks && extractHeaders && extractText
      ensures exportFormat == Excel
      ensures resultsData == None && resultsText == "" && status == ReadyStatus
      ensures scrapeEnabled && !saveEnabled && !exportEnabled
      ensures errorDialog == None
    {
      extractLinks, extractHeaders, extractText := true, true, true;
      exportFormat := Excel;
      resultsData := None;
      resultsText := "";
      status := ReadyStatus;
      scrapeEnabled, saveEnabled, exportEnabled := true, false, false;
      errorDialog := None;
    }

    /** The three check boxes as the extraction reads them. */
    function CurrentToggles(): Toggles
      reads this
    {
      Toggles(extractLinks, extractHeaders, extractText)
    }

    /** `results_data is not None and not results_data.empty`. */
    predicate HasData()
      reads this
    {
      resultsData.Some? && resultsData.value != []
    }

    /** Ticking or clearing the check boxes. */
    method SetToggles(links: bool, headers: bool, text: bool)
      modifies this
      ensures CurrentToggles() == Toggles(links, headers, text)
      ensures exportFormat == old(exportFormat) && resultsData == old(resultsData)
      ensures resultsText == old(resultsText) && status == old(status)
      ensures scrapeEnabled == old(scrapeEnabled) && saveEnabled == old(saveEnabled)
      ensures exportEnabled == old(exportEnabled) && errorDialog == old(errorDialog)
    {
      extractLinks, extractHeaders, extractText := links, headers, text;
    }

    /** Choosing an entry of the export format menu. */
    method SelectExportFormat(format: ExportFormat)
      modifies this
      ensures exportFormat == format
      ensures CurrentToggles() == old(CurrentToggles()) && resultsData == old(resultsData)
      ensures resultsText == old(resultsText) && status == old(status)
      ensures scrapeEnabled == old(scrapeEnabled) && saveEnabled == old(saveEnabled)
      ensures exportEnabled == old(exportEnabled) && errorDialog == old(errorDialog)
    {
      exportFormat := format;
    }

    /** `show_error`: the label says so, the scrape button comes back, and
        the dialog shows the message; nothing else changes. */
    method ShowError(message: string)
      modifies this
      ensures status == ErrorStatus && scrapeEnabled
      ensures errorDialog == Some(ErrorDialogText(message))
      ensures CurrentToggles() == old(CurrentToggles()) && exportFormat == old(exportFormat)
      ensures resultsData == old(resultsData) && resultsText == old(resultsText)
      ensures saveEnabled == old(saveEnabled) && exportEnabled == old(exportEnabled)
    {
      status := ErrorStatus;
      scrapeEnabled := true;
      errorDialog := Some(ErrorDialogText(message));
    }

    /** `update_results`: with records, append each one's lines to the pane
        and enable saving and export; without, say that nothing was found
        and disable them. The scrape button comes back either way. */
    method UpdateResults()
      modifies this
      ensures resultsText == old(resultsText) + (if old(HasData()) then Pane(old(resultsData).value) else "")
      ensures status == (if old(HasData()) then DoneStatus else EmptyStatus)
      ensures saveEnabled == old(HasData()) && exportEnabled == old(HasData()) && scrapeEnabled
      ensures CurrentToggles() == old(CurrentToggles()) && exportFormat == old(exportFormat)
      ensures resultsData == old(resultsData) && errorDialog == old(errorDialog)
    {
      if resultsData.Some? && resultsData.value != [] {
        resultsText := InsertRecords(resultsText, resultsData.value);
        status := DoneStatus;
        saveEnabled, exportEnabled := true, true;
      } else {
        status := EmptyStatus;
        saveEnabled, exportEnabled := false, false;
      }
      scrapeEnabled := true;
    }

    /** `scrape_url` for the page `page` that fetching and parsing `url`
        produced, as written: a parsed page replaces the records by its
        extraction under the current check boxes, which `update_results`
        then shows. A failure changes nothing: the handler defers
        `show_error(str(e))` in a lambda, and Python 3 unbinds `e` when the
        `except` clause ends, so the deferred call fails with a `NameError`
        before `show_error` runs. */
    method ScrapeUrl(url: string, page: Result<seq<Element>>)
      requires IsHttpUrl(url)
      modifies this
      ensures page.Err? ==>
        resultsData == old(resultsData) && resultsText == old(resultsText) &&
        status == old(status) && errorDialog == old(errorDialog) &&
        scrapeEnabled == old(scrapeEnabled) &&
        saveEnabled == old(saveEnabled) && exportEnabled == old(exportEnabled)
      ensures page.Ok? ==>
        var rows := Extract(page.value, url, old(CurrentToggles()));
        resultsData == Some(rows) &&
        resultsText == old(resultsText) + (if rows != [] then Pane(rows) else "") &&
        status == (if rows != [] then DoneStatus else EmptyStatus) &&
        saveEnabled == (rows != []) && exportEnabled == (rows != []) &&
        errorDialog == old(errorDialog) && scrapeEnabled
      ensures CurrentToggles() == old(CurrentToggles()) && exportFormat == old(exportFormat)
    {
      match page
      case Err(_) =>
      case Ok(doc) =>
        var rows := ExtractItems(doc, url, CurrentToggles());
        resultsData := Some(rows);
        UpdateResults();
    }

    /** `scrape_url` as evidently intended: a failure shows its message
        through `show_error`, so the scrape button comes back whatever the
        outcome. */
    method ScrapeUrlIntended(url: string, page: Result<seq<Element>>)
      requires IsHttpUrl(url)
      modifies this
      ensures page.Err? ==>
        resultsData == old(resultsData) && resultsText == old(resultsText) &&
        status == ErrorStatus && errorDialog == Some(ErrorDialogText(page.message)) &&
        saveEnabled == old(saveEnabled) && exportEnabled == old(exportEnabled)
      ensures page.Ok? ==>
        var rows := Extract(page.value, url, old(CurrentToggles()));
        resultsData == Some(rows) &&
        resultsText == old(resultsText) + (if rows != [] then Pane(rows) else "") &&
        status == (if rows != [] then DoneStatus else EmptyStatus) &&
        saveEnabled == (rows != []) && exportEnabled == (rows != []) &&
        errorDialog == old(errorDialog)
      ensures scrapeEnabled
      ensures CurrentToggles() == old(CurrentToggles()) && exportFormat == old(exportFormat)
    {
      match page
      case Err(message) =>
        ShowError(message);
      case Ok(_) =>
        ScrapeUrl(url, page);
    }

    /** `start_scraping` with the address field holding `entry`; `fetch`
        stands for downloading and parsing a page. An empty address shows
        an error and starts nothing. Otherwise the pane is cleared, saving
        is disabled, and the normalised address is scraped. A failed fetch
        leaves the window as `start_scraping` set it: still working, the
        scrape button disabled, no dialog. */
    method StartScraping(entry: string, fetch: string -> Result<seq<Element>>)
      modifies this
      ensures NormalizeSeed(entry).Err? ==>
        resultsData == old(resultsData) && resultsText == old(resultsText) &&
        status == ErrorStatus && errorDialog == Some(ErrorDialogText(EmptyUrlMessage)) &&
        saveEnabled == old(saveEnabled) && exportEnabled == old(exportEnabled)
      ensures NormalizeSeed(entry).Ok? && fetch(NormalizeSeed(entry).value).Err? ==>
        resultsData == old(resultsData) && resultsText == "" && status == WorkingStatus &&
        errorDialog == old(errorDialog) && !scrapeEnabled &&
        !saveEnabled && exportEnabled == old(exportEnabled)
      ensures NormalizeSeed(entry).Ok? && fetch(NormalizeSeed(entry).value).Ok? ==>
        var url := NormalizeSeed(entry).value;
        var rows := Extract(fetch(url).value, url, old(CurrentToggles()));
        resultsData == Some(rows) &&
        resultsText == (if rows != [] then Pane(rows) else "") &&
        status == (if rows != [] then DoneStatus else EmptyStatus) &&
        saveEnabled == (rows != []) && exportEnabled == (rows != []) &&
        errorDialog == old(errorDialog)
      ensures NormalizeSeed(entry).Err? || fetch(NormalizeSeed(entry).value).Ok? ==> scrapeEnabled
      ensures CurrentToggles() == old(CurrentToggles()) && exportFormat == old(exportFormat)
    {
      var seed := NormalizeSeed(entry);
      if seed.Err? {
        ShowError(seed.message);
        return;
      }
      var url := seed.value;
      status := WorkingStatus;
      scrapeEnabled, saveEnabled := false, false;
      resultsText := "";
      ScrapeUrl(url, fetch(url));
    }

    /** The guard of `save_results`: without records, an error and nothing
        to save; otherwise the records that go to the Excel or CSV writer. */
    method SaveResults() returns (r: Result<seq<Item>>)
      modifies this
      ensures r.Err? <==> !old(HasData())
      ensures r.Err? ==>
        r.message == NothingToSaveMessage && status == ErrorStatus &&
        errorDialog == Some(ErrorDialogText(NothingToSaveMessage)) && scrapeEnabled
      ensures r.Ok? ==>
        r.value == old(resultsData).value && status == old(status) &&
        errorDialog == old(errorDialog) && scrapeEnabled == old(scrapeEnabled)
      ensures CurrentToggles() == old(CurrentToggles()) && exportFormat == old(exportFormat)
      ensures resultsData == old(resultsData) && resultsText == old(resultsText)
      ensures saveEnabled == old(saveEnabled) && exportEnabled == old(exportEnabled)
    {
      if resultsData.None? || resultsData.value == [] {
        ShowError(NothingToSaveMessage);
        return Err(NothingToSaveMessage);
      }
      r := Ok(resultsData.value);
    }

    /** The guard and dispatch of `export_results`: without records, an
        error; with the Markdown format, the text `export_markdown` writes;
        with any other format, the records that go to its library writer. */
    method ExportResults() returns (r: Result<Export>)
      modifies this
      ensures r.Err? <==> !old(HasData())
      ensures r.Err? ==>
        r.message == NothingToExportMessage && status == ErrorStatus &&
        errorDialog == Some(ErrorDialogText(NothingToExportMessage)) && scrapeEnabled
      ensures r.Ok? && old(exportFormat) == MarkdownFormat ==>
        r.value == MarkdownText(Markdown(old(resultsData).value))
      ensures r.Ok? && old(exportFormat) != MarkdownFormat ==>
        r.value == LibraryExport(old(exportFormat), old(resultsData).value)
      ensures r.Ok? ==>
        status == old(status) && errorDialog == old(errorDialog) && scrapeEnabled == old(scrapeEnabled)
      ensures CurrentToggles() == old(CurrentToggles()) && exportFormat == old(exportFormat)
      ensures resultsData == old(resultsData) && resultsText == old(resultsText)
      ensures saveEnabled == old(saveEnabled) && exportEnabled == old(exportEnabled)
    {
      if resultsData.None? || resultsData.value == [] {
        ShowError(NothingToExportMessage);
        return Err(NothingToExportMessage);
      }
      if exportFormat == MarkdownFormat {
        var doc := ExportMarkdown(resultsData.value);
        r := Ok(MarkdownText(doc));
      } else {
        r := Ok(LibraryExport(exportFormat, resultsData.value));
      }
    }
  }

  /** A fresh window given an address whose fetch fails: as written, the
      scrape button stays disabled and the label keeps saying that the
      extraction is running, with no dialog, so the user cannot start
      another scrape. */
  method FailedFetchLocksScrapeButton(entry: string, fetch: string -> Result<seq<Element>>)
    returns (scrapeEnabled: bool, status: string, dialog: Option<string>)
    requires NormalizeSeed(entry).Ok? && fetch(NormalizeSeed(entry).value).Err?
    ensures !scrapeEnabled && status == WorkingStatus && dialog == None
  {
    var window := new Scraper();
    window.StartScraping(entry, fetch);
    scrapeEnabled, status, dialog := window.scrapeEnabled, window.status, window.errorDialog;
  }

  /** The same failure through the intended `scrape_url`: the button comes
      back, the label says "Ошибка" and the dialog shows the message. */
  method FailedFetchReported(url: string, message: string)
    returns (scrapeEnabled: bool, status: string, dialog: Option<string>)
    requires IsHttpUrl(url)
    ensures scrapeEnabled && status == ErrorStatus && dialog == Some(ErrorDialogText(message))
  {
    var window := new Scraper();
    window.status, window.scrapeEnabled := WorkingStatus, false;
    window.ScrapeUrlIntended(url, Err(message));
    scrapeEnabled, status, dialog := window.scrapeEnabled, window.status, window.errorDialog;
  }
}
