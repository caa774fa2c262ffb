/** The two text renderings of a record list: the lines `update_results`
    inserts into the results pane, and the file `export_markdown` writes.
    Both are one fixed block per record, concatenated in record order. */
module Render {
  import opened Text
  import opened Url
  import opened Extraction

  /** The records, each turned into its block, one after the other. */
  function Concat(rows: seq<Item>, block: Item -> string): string
    decreases |rows|
  {
    if rows == [] then "" else Concat(rows[..|rows| - 1], block) + block(rows[|rows| - 1])
  }

  /** Rendering a list split in two renders the halves one after the other. */
  lemma {:induction false} ConcatAppend(a: seq<Item>, b: seq<Item>, block: Item -> string)
    ensures Concat(a + b, block) == Concat(a, block) + Concat(b, block)
    decreases |b|
  {
    if b == [] {
      assert a + b == a;
    } else {
      var b' := b[..|b| - 1];
      assert (a + b)[..|a + b| - 1] == a + b';
      ConcatAppend(a, b', block);
    }
  }

  /** Record `i` has its block between the rendering of the records before
      it and that of the records after it. */
  lemma ConcatAt(rows: seq<Item>, i: nat, block: Item -> string)
    requires i < |rows|
    ensures Concat(rows, block) ==
            Concat(rows[..i], block) + block(rows[i]) + Concat(rows[i + 1..], block)
  {
    var upto := rows[..i + 1];
    assert rows == upto + rows[i + 1..];
    ConcatAppend(upto, rows[i + 1..], block);
    assert upto[..i] == rows[..i];
  }

  /** Occurrences of `c` in the texts and URLs of the records. */
  function FieldCount(c: char, rows: seq<Item>): nat
    decreases |rows|
  {
    if rows == [] then 0
    else
      var row := rows[|rows| - 1];
      FieldCount(c, rows[..|rows| - 1]) + Occurrences(c, row.text) + Occurrences(c, row.url)
  }

  /** Number of records with a non-empty URL. */
  function UrlCount(rows: seq<Item>): nat
    decreases |rows|
  {
    if rows == [] then 0
    else UrlCount(rows[..|rows| - 1]) + (if rows[|rows| - 1].url != "" then 1 else 0)
  }

  /** In a list produced by the extraction, the records with a URL are
      exactly the links. */
  lemma {:induction false} UrlCountLinks(items: seq<Item>)
    requires AllWellFormed(items)
    ensures UrlCount(items) == CountKind(items, Link)
    decreases |items|
  {
    if items != [] {
      var init := items[..|items| - 1];
      assert AllWellFormed(init) by {
        forall k | 0 <= k < |init| ensures WellFormed(init[k]) {
          assert init[k] == items[k];
        }
      }
      UrlCountLinks(init);
      assert WellFormed(items[|items| - 1]);
    }
  }

  /** A character that occurs in no text and no URL has no field count. */
  lemma {:induction false} FieldCountAbsent(c: char, rows: seq<Item>)
    requires forall i :: 0 <= i < |rows| ==> c !in rows[i].text && c !in rows[i].url
    ensures FieldCount(c, rows) == 0
    decreases |rows|
  {
    if rows != [] {
      var init := rows[..|rows| - 1];
      assert forall i :: 0 <= i < |init| ==> init[i] == rows[i];
      FieldCountAbsent(c, init);
      var row := rows[|rows| - 1];
      OccurrencesAbsent(c, row.text);
      OccurrencesAbsent(c, row.url);
    }
  }

  // ---------------------------------------------------------------------
  // The results pane

  /** `"─" * 50`, the rule under each record in the results pane. */
  const Rule: string := Repeat('─', 50)

  /** The lines `update_results` inserts for one record: its type, its text,
      its URL when it has one, and a rule. */
  function PaneBlock(row: Item): string {
    "Тип: " + TypeLabel(row.kind) + "\n" +
    "Текст: " + row.text + "\n" +
    (if row.url != "" then "URL: " + row.url + "\n" else "") +
    Rule + "\n"
  }

  /** Everything `update_results` inserts for a list of records. */
  function Pane(rows: seq<Item>): string {
    Concat(rows, PaneBlock)
  }

  /** The type labels hold none of the characters counted below. */
  lemma LabelWithout(c: char, kind: Kind)
    requires c == '\n' || c == '─' || c == '-' || c == '['
    ensures c !in TypeLabel(kind)
  {
  }

  /** Occurrences of `c` in one record's pane lines, piece by piece. */
  lemma PaneBlockOccurrences(c: char, row: Item)
    ensures var url := if row.url != "" then "URL: " + row.url + "\n" else "";
      Occurrences(c, PaneBlock(row)) ==
        Occurrences(c, "Тип: ") + Occurrences(c, TypeLabel(row.kind)) + Occurrences(c, "\n") +
        Occurrences(c, "Текст: ") + Occurrences(c, row.text) + Occurrences(c, "\n") +
        Occurrences(c, url) + Occurrences(c, Rule) + Occurrences(c, "\n")
  {
    var url := if row.url != "" then "URL: " + row.url + "\n" else "";
    var s1 := "Тип: " + TypeLabel(row.kind);
    OccurrencesAppend(c, "Тип: ", TypeLabel(row.kind));
    var s2 := s1 + "\n";
    OccurrencesAppend(c, s1, "\n");
    var s3 := s2 + "Текст: ";
    OccurrencesAppend(c, s2, "Текст: ");
    var s4 := s3 + row.text;
    OccurrencesAppend(c, s3, row.text);
    var s5 := s4 + "\n";
    OccurrencesAppend(c, s4, "\n");
    var s6 := s5 + url;
    OccurrencesAppend(c, s5, url);
    var s7 := s6 + Rule;
    OccurrencesAppend(c, s6, Rule);
    OccurrencesAppend(c, s7, "\n");
    assert PaneBlock(row) == s7 + "\n";
  }

  /** One record's pane lines hold one rule of fifty box-drawing
      characters besides those of the record's own text and URL. */
  lemma PaneBlockRules(row: Item)
    ensures Occurrences('─', PaneBlock(row)) ==
            50 + Occurrences('─', row.text) + Occurrences('─', row.url)
  {
    LabelWithout('─', row.kind);
    PaneBlockOccurrences('─', row);
    OccurrencesRepeat('─', 50, '─');
    OccurrencesAbsent('─', "Тип: ");
    OccurrencesAbsent('─', "Текст: ");
    OccurrencesAbsent('─', TypeLabel(row.kind));
    OccurrencesAbsent('─', "\n");
    if row.url != "" {
      OccurrencesAppend('─', "URL: " + row.url, "\n");
      OccurrencesAppend('─', "URL: ", row.url);
      OccurrencesAbsent('─', "URL: ");
    }
  }

  /** One record's pane lines are three lines, four when the record has a
      URL, besides the line breaks of the record's own text and URL. */
  lemma PaneBlockLines(row: Item)
    ensures Occurrences('\n', PaneBlock(row)) ==
            3 + (if row.url != "" then 1 else 0) + Occurrences('\n', row.text) + Occurrences('\n', row.url)
  {
    LabelWithout('\n', row.kind);
    PaneBlockOccurrences('\n', row);
    OccurrencesRepeat('─', 50, '\n');
    OccurrencesAbsent('\n', "Тип: ");
    OccurrencesAbsent('\n', "Текст: ");
    OccurrencesAbsent('\n', TypeLabel(row.kind));
    assert "\n"[..0] == [];
    if row.url != "" {
      OccurrencesAppend('\n', "URL: " + row.url, "\n");
      OccurrencesAppend('\n', "URL: ", row.url);
      OccurrencesAbsent('\n', "URL: ");
    }
  }

  /** Every record contributes one rule of fifty box-drawing characters;
      any further ones come from the records' own texts and URLs. */
  lemma {:induction false} PaneRules(rows: seq<Item>)
    ensures Occurrences('─', Pane(rows)) == 50 * |rows| + FieldCount('─', rows)
    decreases |rows|
  {
    if rows != [] {
      var init := rows[..|rows| - 1];
      PaneRules(init);
      OccurrencesAppend('─', Pane(init), PaneBlock(rows[|rows| - 1]));
      PaneBlockRules(rows[|rows| - 1]);
    }
  }

  /** Every record takes three lines, four when it has a URL, plus the line
      breaks inside its own text and URL. */
  lemma {:induction false} PaneLines(rows: seq<Item>)
    ensures Occurrences('\n', Pane(rows)) == 3 * |rows| + UrlCount(rows) + FieldCount('\n', rows)
    decreases |rows|
  {
    if rows != [] {
      var init := rows[..|rows| - 1];
      PaneLines(init);
      OccurrencesAppend('\n', Pane(init), PaneBlock(rows[|rows| - 1]));
      PaneBlockLines(rows[|rows| - 1]);
    }
  }

  lemma Reassociate9(b: string, p1: string, p2: string, p3: string, p4: string, p5: string,
                     p6: string, p7: string, p8: string, p9: string)
    ensures b + (p1 + p2 + p3 + p4 + p5 + p6 + p7 + p8 + p9) ==
            b + p1 + p2 + p3 + p4 + p5 + p6 + p7 + p8 + p9
  {
  }

  /** The inserts `update_results` makes for one record, appended to what
      the pane already shows, add up to that record's block. */
  lemma InsertsMakeBlock(before: string, row: Item)
    ensures row.url != "" ==>
      before + "Тип: " + TypeLabel(row.kind) + "\n" + "Текст: " + row.text + "\n" +
      "URL: " + row.url + "\n" + Rule + "\n" == before + PaneBlock(row)
    ensures row.url == "" ==>
      before + "Тип: " + TypeLabel(row.kind) + "\n" + "Текст: " + row.text + "\n" +
      Rule + "\n" == before + PaneBlock(row)
  {
    var url := if row.url != "" then "URL: " + row.url + "\n" else "";
    Reassociate9(before, "Тип: ", TypeLabel(row.kind), "\n", "Текст: ", row.text, "\n", url, Rule, "\n");
    var head := before + "Тип: " + TypeLabel(row.kind) + "\n" + "Текст: " + row.text + "\n";
    if row.url != "" {
      Reassociate3(head, "URL: ", row.url, "\n");
    } else {
      assert head + url == head;
    }
  }

  /** The body of `update_results`'s loop: the inserts for one record at the
      end of the pane. */
  method InsertRecord(before: string, row: Item) returns (text: string)
    ensures text == before + PaneBlock(row)
  {
    text := before + "Тип: " + TypeLabel(row.kind) + "\n";
    text := text + "Текст: " + row.text + "\n";
    if row.url != "" {
      text := text + "URL: " + row.url + "\n";
    }
    text := text + Rule + "\n";
    InsertsMakeBlock(before, row);
  }

  /** The loop of `update_results`: each record's lines, in order, at the
      end of the pane. */
  method InsertRecords(before: string, rows: seq<Item>) returns (text: string)
    ensures text == before + Pane(rows)
  {
    text := before;
    var i := 0;
    while i < |rows|
      invariant i <= |rows|
      invariant text == before + Pane(rows[..i])
    {
      ghost var done := Pane(rows[..i]);
      text := InsertRecord(text, rows[i]);
      assert rows[..i + 1][..i] == rows[..i];
      assert Pane(rows[..i + 1]) == done + PaneBlock(rows[i]);
      Reassociate2(before, done, PaneBlock(rows[i]));
      i := i + 1;
    }
    assert rows[..|rows|] == rows;
  }

  // ---------------------------------------------------------------------
  // The Markdown export

  /** First line of the exported file, followed by a blank line. */
  const MarkdownHeader: string := "# Web Scraper Results\n\n"

  /** What `export_markdown` writes for one record: a second-level heading
      with its type, its text, a link line when it has a URL, and a
      horizontal rule. */
  function MarkdownBlock(row: Item): string {
    "## " + TypeLabel(row.kind) + "\n\n" +
    row.text + "\n\n" +
    (if row.url != "" then "[Ссылка](" + row.url + ")\n\n" else "") +
    "---\n\n"
  }

  /** The whole exported file. */
  function Markdown(rows: seq<Item>): string {
    MarkdownHeader + Concat(rows, MarkdownBlock)
  }

  /** The file starts with the header, and record `i`'s block sits right
      after the header and the blocks of the records before it. */
  lemma MarkdownShape(rows: seq<Item>, i: nat)
    requires i < |rows|
    ensures StartsWith(Markdown(rows), MarkdownHeader)
    ensures Markdown(rows) ==
            Markdown(rows[..i]) + MarkdownBlock(rows[i]) + Concat(rows[i + 1..], MarkdownBlock)
  {
    var before, rest := Concat(rows[..i], MarkdownBlock), Concat(rows[i + 1..], MarkdownBlock);
    ConcatAt(rows, i, MarkdownBlock);
    PrefixStartsWith(MarkdownHeader, Concat(rows, MarkdownBlock));
    Reassociate3(MarkdownHeader, before, MarkdownBlock(rows[i]), rest);
  }
  /** Occurrences of `c` in one record's Markdown lines, piece by piece. */
  lemma MarkdownBlockOccurrences(c: char, row: Item)
    ensures var link := if row.url != "" then "[Ссылка](" + row.url + ")\n\n" else "";
      Occurrences(c, MarkdownBlock(row)) ==
        Occurrences(c, "## ") + Occurrences(c, TypeLabel(row.kind)) + Occurrences(c, "\n\n") +
        Occurrences(c, row.text) + Occurrences(c, "\n\n") + Occurrences(c, link) +
        Occurrences(c, "---\n\n")
  {
    var link := if row.url != "" then "[Ссылка](" + row.url + ")\n\n" else "";
    var s1 := "## " + TypeLabel(row.kind);
    OccurrencesAppend(c, "## ", TypeLabel(row.kind));
    var s2 := s1 + "\n\n";
    OccurrencesAppend(c, s1, "\n\n");
    var s3 := s2 + row.text;
    OccurrencesAppend(c, s2, row.text);
    var s4 := s3 + "\n\n";
    OccurrencesAppend(c, s3, "\n\n");
    var s5 := s4 + link;
    OccurrencesAppend(c, s4, link);
    OccurrencesAppend(c, s5, "---\n\n");
    assert MarkdownBlock(row) == s5 + "---\n\n";
  }

  /** One record's Markdown lines hold three hyphens, the rule, besides
      those of the record's own text and URL. */
  lemma MarkdownBlockRules(row: Item)
    ensures Occurrences('-', MarkdownBlock(row)) ==
            3 + Occurrences('-', row.text) + Occurrences('-', row.url)
  {
    LabelWithout('-', row.kind);
    MarkdownBlockOccurrences('-', row);
    OccurrencesAbsent('-', "## ");
    OccurrencesAbsent('-', "\n\n");
    OccurrencesAbsent('-', TypeLabel(row.kind));
    assert "---\n\n" == Repeat('-', 3) + "\n\n";
    OccurrencesAppend('-', Repeat('-', 3), "\n\n");
    OccurrencesRepeat('-', 3, '-');
    if row.url != "" {
      var open := "[Ссылка](";
      OccurrencesAbsent('-', open);
      OccurrencesAppend('-', open + row.url, ")\n\n");
      OccurrencesAppend('-', open, row.url);
      OccurrencesAbsent('-', ")\n\n");
    }
  }

  /** One record's Markdown lines hold one `[`, opening the link line, when
      the record has a URL, besides those of the record's own text and URL. */
  lemma MarkdownBlockLinks(row: Item)
    ensures Occurrences('[', MarkdownBlock(row)) ==
            (if row.url != "" then 1 else 0) + Occurrences('[', row.text) + Occurrences('[', row.url)
  {
    LabelWithout('[', row.kind);
    MarkdownBlockOccurrences('[', row);
    OccurrencesAbsent('[', "## ");
    OccurrencesAbsent('[', "\n\n");
    OccurrencesAbsent('[', TypeLabel(row.kind));
    OccurrencesAbsent('[', "---\n\n");
    if row.url != "" {
      var open := "[Ссылка](";
      assert open == Repeat('[', 1) + "Ссылка](";
      OccurrencesAppend('[', Repeat('[', 1), "Ссылка](");
      OccurrencesRepeat('[', 1, '[');
      OccurrencesAbsent('[', "Ссылка](");
      OccurrencesAppend('[', open + row.url, ")\n\n");
      OccurrencesAppend('[', open, row.url);
      OccurrencesAbsent('[', ")\n\n");
    }
  }

  /** Every record ends with one `---` rule: the file holds three hyphens
      per record, plus those of the records' own texts and URLs. */
  lemma {:induction false} MarkdownSeparators(rows: seq<Item>)
    ensures Occurrences('-', Markdown(rows)) == 3 * |rows| + FieldCount('-', rows)
    decreases |rows|
  {
    if rows == [] {
      OccurrencesAppend('-', MarkdownHeader, "");
      OccurrencesAbsent('-', MarkdownHeader);
    } else {
      var init := rows[..|rows| - 1];
      MarkdownSeparators(init);
      var body := Concat(init, MarkdownBlock);
      OccurrencesAppend('-', MarkdownHeader, body + MarkdownBlock(rows[|rows| - 1]));
      OccurrencesAppend('-', body, MarkdownBlock(rows[|rows| - 1]));
      OccurrencesAppend('-', MarkdownHeader, body);
      MarkdownBlockRules(rows[|rows| - 1]);
    }
  }

  /** When no text or URL contains a hyphen, the hyphens of the file are
      exactly the `---` rules, three per record. */
  lemma MarkdownSeparatorsExact(rows: seq<Item>)
    requires forall i :: 0 <= i < |rows| ==> '-' !in rows[i].text && '-' !in rows[i].url
    ensures Occurrences('-', Markdown(rows)) == 3 * |rows|
  {
    MarkdownSeparators(rows);
    FieldCountAbsent('-', rows);
  }

  /** Exactly the records with a URL get a `[Ссылка](…)` link line. */
  lemma {:induction false} MarkdownLinkLines(rows: seq<Item>)
    ensures Occurrences('[', Markdown(rows)) == UrlCount(rows) + FieldCount('[', rows)
    decreases |rows|
  {
    if rows == [] {
      OccurrencesAppend('[', MarkdownHeader, "");
      OccurrencesAbsent('[', MarkdownHeader);
    } else {
      var init := rows[..|rows| - 1];
      MarkdownLinkLines(init);
      var body := Concat(init, MarkdownBlock);
      OccurrencesAppend('[', MarkdownHeader, body + MarkdownBlock(rows[|rows| - 1]));
      OccurrencesAppend('[', body, MarkdownBlock(rows[|rows| - 1]));
      OccurrencesAppend('[', MarkdownHeader, body);
      MarkdownBlockLinks(rows[|rows| - 1]);
    }
  }

  /** For a scraped page, the Markdown file has one link line per anchor
      with a non-empty `href` when links are extracted, and none when they
      are not; other `[` characters come from the records' own texts and
      URLs. */
  lemma PageMarkdownLinks(doc: seq<Element>, pageUrl: string, toggles: Toggles)
    requires IsHttpUrl(pageUrl)
    ensures var rows := Extract(doc, pageUrl, toggles);
      Occurrences('[', Markdown(rows)) ==
        (if toggles.links then AnchorCount(doc, |doc|) else 0) + FieldCount('[', rows)
  {
    var rows := Extract(doc, pageUrl, toggles);
    MarkdownLinkLines(rows);
    ExtractWellFormed(doc, pageUrl, toggles);
    UrlCountLinks(rows);
    ExtractCount(doc, pageUrl, toggles, Link);
  }

  /** Regrouping a record's pieces written one after the other. */
  lemma Reassociate7(b: string, h: string, l: string, n1: string, t: string, n2: string, k: string, r: string)
    ensures b + (h + l + n1 + t + n2 + k + r) == b + h + l + n1 + t + n2 + k + r
  {
  }

  lemma Reassociate2(a: string, b: string, c: string)
    ensures a + (b + c) == a + b + c
  {
  }

  lemma Reassociate3(b: string, o: string, u: string, c: string)
    ensures b + (o + u + c) == b + o + u + c
  {
  }

  /** The writes `export_markdown` makes for one record, appended to what
      was written before, add up to that record's block. */
  lemma WritesMakeBlock(before: string, row: Item)
    ensures row.url != "" ==>
      before + "## " + TypeLabel(row.kind) + "\n\n" + row.text + "\n\n" +
      "[Ссылка](" + row.url + ")\n\n" + "---\n\n" == before + MarkdownBlock(row)
    ensures row.url == "" ==>
      before + "## " + TypeLabel(row.kind) + "\n\n" + row.text + "\n\n" + "---\n\n" ==
      before + MarkdownBlock(row)
  {
    var link := if row.url != "" then "[Ссылка](" + row.url + ")\n\n" else "";
    Reassociate7(before, "## ", TypeLabel(row.kind), "\n\n", row.text, "\n\n", link, "---\n\n");
    var head := before + "## " + TypeLabel(row.kind) + "\n\n" + row.text + "\n\n";
    if row.url != "" {
      Reassociate3(head, "[Ссылка](", row.url, ")\n\n");
    } else {
      assert head + link == head;
    }
  }

  /** The body of `export_markdown`'s loop: the writes for one record,
      appended to what the file already holds. */
  method WriteRecord(before: string, row: Item) returns (doc: string)
    ensures doc == before + MarkdownBlock(row)
  {
    doc := before + "## " + TypeLabel(row.kind) + "\n\n";
    doc := doc + row.text + "\n\n";
    if row.url != "" {
      doc := doc + "[Ссылка](" + row.url + ")\n\n";
    }
    doc := doc + "---\n\n";
    WritesMakeBlock(before, row);
  }

  /** `export_markdown`: write the header, then each record's lines in
      order; the returned string is what ends up in the file. */
  method ExportMarkdown(rows: seq<Item>) returns (doc: string)
    ensures doc == Markdown(rows)
  {
    doc := MarkdownHeader;
    var i := 0;
    while i < |rows|
      invariant i <= |rows|
      invariant doc == MarkdownHeader + Concat(rows[..i], MarkdownBlock)
    {
      ghost var done := Concat(rows[..i], MarkdownBlock);
      doc := WriteRecord(doc, rows[i]);
      assert rows[..i + 1][..i] == rows[..i];
      assert Concat(rows[..i + 1], MarkdownBlock) == done + MarkdownBlock(rows[i]);
      Reassociate2(MarkdownHeader, done, MarkdownBlock(rows[i]));
      i := i + 1;
    }
    assert rows[..|rows|] == rows;
  }
}
