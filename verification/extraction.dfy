/** The item list built by `scrape_url` from one parsed page. */
module Extraction {
  import opened Outcomes
  import opened Text
  import opened Url

  /** One element of the parsed page, as `soup.find_all` yields it: its tag
      name, its `.text` (the text of all its descendants) and its `href`
      attribute when it has one. A page is the sequence of its elements in
      document order. */
  datatype Element = Element(tag: string, text: string, href: Option<string>)

  /** The heading levels the scraper looks for, in the order it visits them. */
  datatype Level = H1 | H2 | H3

  const HeadingLevels: seq<Level> := [H1, H2, H3]

  function TagName(level: Level): string {
    match level
    case H1 => "h1"
    case H2 => "h2"
    case H3 => "h3"
  }

  datatype Kind = Link | Heading(level: Level) | Paragraph

  /** The `type` field the scraper writes into each record. */
  function TypeLabel(kind: Kind): string {
    match kind
    case Link => "Ссылка"
    case Heading(level) => "Заголовок (" + TagName(level) + ")"
    case Paragraph => "Текст"
  }

  /** One `{type, text, url}` record; `url` is `''` for headings and
      paragraphs. */
  datatype Item = Item(kind: Kind, text: string, url: string)

  /** The three check boxes read at the start of the extraction. */
  datatype Toggles = Toggles(links: bool, headers: bool, text: bool)

  /** An `a` element whose `href` is present and not empty. */
  predicate IsLinkAnchor(e: Element) {
    e.tag == "a" && e.href.Some? && e.href.value != ""
  }

  /** The link records of the first `n` elements: one per anchor with a
      non-empty `href`, its URL the href rewritten against the page. */
  function LinkItems(doc: seq<Element>, pageUrl: string, n: nat): seq<Item>
    requires IsHttpUrl(pageUrl) && n <= |doc|
  {
    if n == 0 then []
    else
      var e := doc[n - 1];
      LinkItems(doc, pageUrl, n - 1) +
      (if IsLinkAnchor(e) then [Item(Link, Strip(e.text), Resolve(pageUrl, e.href.value))] else [])
  }

  /** The heading records of one level among the first `n` elements. */
  function LevelItems(doc: seq<Element>, level: Level, n: nat): seq<Item>
    requires n <= |doc|
  {
    if n == 0 then []
    else
      var e := doc[n - 1];
      LevelItems(doc, level, n - 1) +
      (if e.tag == TagName(level) then [Item(Heading(level), Strip(e.text), "")] else [])
  }

  /** The headings of the first `t` levels of `HeadingLevels`, one level
      after the other. */
  function HeadingItems(doc: seq<Element>, t: nat): seq<Item>
    requires t <= |HeadingLevels|
  {
    if t == 0 then []
    else HeadingItems(doc, t - 1) + LevelItems(doc, HeadingLevels[t - 1], |doc|)
  }

  /** The paragraph records of the first `n` elements: one per `p` element
      whose stripped text is not empty. */
  function ParagraphItems(doc: seq<Element>, n: nat): seq<Item>
    requires n <= |doc|
  {
    if n == 0 then []
    else
      var e := doc[n - 1];
      ParagraphItems(doc, n - 1) +
      (if e.tag == "p" && Strip(e.text) != "" then [Item(Paragraph, Strip(e.text), "")] else [])
  }

  /** The records `scrape_url` collects for a page fetched from `pageUrl`. */
  function Extract(doc: seq<Element>, pageUrl: string, toggles: Toggles): seq<Item>
    requires IsHttpUrl(pageUrl)
  {
    (if toggles.links then LinkItems(doc, pageUrl, |doc|) else []) +
    (if toggles.headers then HeadingItems(doc, |HeadingLevels|) else []) +
    (if toggles.text then ParagraphItems(doc, |doc|) else [])
  }

  /** The record list of `scrape_url`: links, then headings, then
      paragraphs, each appended by its own loop when its check box is on. */
  method ExtractItems(doc: seq<Element>, pageUrl: string, toggles: Toggles)
    returns (results: seq<Item>)
    requires IsHttpUrl(pageUrl)
    ensures results == Extract(doc, pageUrl, toggles)
  {
    ghost var links := if toggles.links then LinkItems(doc, pageUrl, |doc|) else [];
    ghost var heads := if toggles.headers then HeadingItems(doc, |HeadingLevels|) else [];
    results := [];
    if toggles.links {
      results := AppendLinks(results, doc, pageUrl);
    }
    assert results == links;
    if toggles.headers {
      results := AppendHeadings(results, doc);
    }
    assert results == links + heads;
    if toggles.text {
      results := AppendParagraphs(results, doc);
    }
  }

  /** The link loop: one record per anchor with a non-empty `href`, whose
      URL is the href rewritten against the page address. */
  method AppendLinks(before: seq<Item>, doc: seq<Element>, pageUrl: string)
    returns (results: seq<Item>)
    requires IsHttpUrl(pageUrl)
    ensures results == before + LinkItems(doc, pageUrl, |doc|)
  {
    results := before;
    var i := 0;
    while i < |doc|
      invariant 0 <= i <= |doc|
      invariant results == before + LinkItems(doc, pageUrl, i)
    {
      var link := doc[i];
      if link.tag == "a" && link.href.Some? && link.href.value != "" {
        var href := link.href.value;
        if !IsHttpUrl(href) {
          var baseUrl := PageBase(pageUrl);
          href := if StartsWith(href, "/") then baseUrl + href else baseUrl + "/" + href;
        }
        results := results + [Item(Link, Strip(link.text), href)];
      }
      i := i + 1;
    }
  }

  /** The heading loops: for `h1`, `h2` and `h3` in turn, one record per
      element with that tag. */
  method AppendHeadings(before: seq<Item>, doc: seq<Element>) returns (results: seq<Item>)
    ensures results == before + HeadingItems(doc, |HeadingLevels|)
  {
    results := before;
    var t := 0;
    while t < |HeadingLevels|
      invariant 0 <= t <= |HeadingLevels|
      invariant results == before + HeadingItems(doc, t)
    {
      var level := HeadingLevels[t];
      ghost var done := results;
      var i := 0;
      while i < |doc|
        invariant 0 <= i <= |doc|
        invariant results == done + LevelItems(doc, level, i)
      {
        var header := doc[i];
        if header.tag == TagName(level) {
          results := results + [Item(Heading(level), Strip(header.text), "")];
        }
        i := i + 1;
      }
      t := t + 1;
    }
  }

  /** The paragraph loop: one record per `p` element whose stripped text is
      not empty. */
  method AppendParagraphs(before: seq<Item>, doc: seq<Element>) returns (results: seq<Item>)
    ensures results == before + ParagraphItems(doc, |doc|)
  {
    results := before;
    var i := 0;
    while i < |doc|
      invariant 0 <= i <= |doc|
      invariant results == before + ParagraphItems(doc, i)
    {
      var text := Strip(doc[i].text);
      if doc[i].tag == "p" && text != "" {
        results := results + [Item(Paragraph, text, "")];
      }
      i := i + 1;
    }
  }

  // ---------------------------------------------------------------------
  // What every record satisfies

  /** A record as the scraper emits it: a URL exactly on links, text
      stripped of surrounding whitespace, and no empty paragraph. */
  predicate WellFormed(item: Item) {
    (item.url != "" <==> item.kind.Link?) &&
    IsStripped(item.text) &&
    (item.kind.Paragraph? ==> item.text != "")
  }

  predicate AllWellFormed(items: seq<Item>) {
    forall k :: 0 <= k < |items| ==> WellFormed(items[k])
  }

  lemma AllWellFormedAppend(a: seq<Item>, b: seq<Item>)
    requires AllWellFormed(a) && AllWellFormed(b)
    ensures AllWellFormed(a + b)
  {
    forall k | 0 <= k < |a + b| ensures WellFormed((a + b)[k]) {
      if k >= |a| { assert (a + b)[k] == b[k - |a|]; }
    }
  }

  lemma {:induction false} LinkItemsWellFormed(doc: seq<Element>, pageUrl: string, n: nat)
    requires IsHttpUrl(pageUrl) && n <= |doc|
    ensures AllWellFormed(LinkItems(doc, pageUrl, n))
  {
    if n > 0 {
      var e := doc[n - 1];
      LinkItemsWellFormed(doc, pageUrl, n - 1);
      StripProperties(e.text);
      AllWellFormedAppend(LinkItems(doc, pageUrl, n - 1),
        if IsLinkAnchor(e) then [Item(Link, Strip(e.text), Resolve(pageUrl, e.href.value))] else []);
    }
  }

  lemma {:induction false} LevelItemsWellFormed(doc: seq<Element>, level: Level, n: nat)
    requires n <= |doc|
    ensures AllWellFormed(LevelItems(doc, level, n))
  {
    if n > 0 {
      var e := doc[n - 1];
      LevelItemsWellFormed(doc, level, n - 1);
      StripProperties(e.text);
      AllWellFormedAppend(LevelItems(doc, level, n - 1),
        if e.tag == TagName(level) then [Item(Heading(level), Strip(e.text), "")] else []);
    }
  }

  lemma {:induction false} HeadingItemsWellFormed(doc: seq<Element>, t: nat)
    requires t <= |HeadingLevels|
    ensures AllWellFormed(HeadingItems(doc, t))
  {
    if t > 0 {
      HeadingItemsWellFormed(doc, t - 1);
      LevelItemsWellFormed(doc, HeadingLevels[t - 1], |doc|);
      AllWellFormedAppend(HeadingItems(doc, t - 1), LevelItems(doc, HeadingLevels[t - 1], |doc|));
    }
  }

  lemma {:induction false} ParagraphItemsWellFormed(doc: seq<Element>, n: nat)
    requires n <= |doc|
    ensures AllWellFormed(ParagraphItems(doc, n))
  {
    if n > 0 {
      var e := doc[n - 1];
      ParagraphItemsWellFormed(doc, n - 1);
      StripProperties(e.text);
      AllWellFormedAppend(ParagraphItems(doc, n - 1),
        if e.tag == "p" && Strip(e.text) != "" then [Item(Paragraph, Strip(e.text), "")] else []);
    }
  }

  /** Every record of a page is well formed: it carries a URL exactly when
      it is a link, its text is stripped, and a paragraph's text is never
      empty (a heading's or a link's may be). */
  lemma ExtractWellFormed(doc: seq<Element>, pageUrl: string, toggles: Toggles)
    requires IsHttpUrl(pageUrl)
    ensures AllWellFormed(Extract(doc, pageUrl, toggles))
  {
    var links := if toggles.links then LinkItems(doc, pageUrl, |doc|) else [];
    var heads := if toggles.headers then HeadingItems(doc, |HeadingLevels|) else [];
    var paras := if toggles.text then ParagraphItems(doc, |doc|) else [];
    LinkItemsWellFormed(doc, pageUrl, |doc|);
    HeadingItemsWellFormed(doc, |HeadingLevels|);
    ParagraphItemsWellFormed(doc, |doc|);
    AllWellFormedAppend(links, heads);
    AllWellFormedAppend(links + heads, paras);
  }

  // ---------------------------------------------------------------------
  // Order of the records

  /** Position of a kind in the output: links, then h1, h2, h3, then
      paragraphs. */
  function Rank(kind: Kind): nat {
    match kind
    case Link => 0
    case Heading(H1) => 1
    case Heading(H2) => 2
    case Heading(H3) => 3
    case Paragraph => 4
  }

  predicate AllOfKind(items: seq<Item>, kind: Kind) {
    forall k :: 0 <= k < |items| ==> items[k].kind == kind
  }

  predicate SortedByRank(items: seq<Item>) {
    forall i, j :: 0 <= i < j < |items| ==> Rank(items[i].kind) <= Rank(items[j].kind)
  }

  lemma AllOfKindAppend(a: seq<Item>, b: seq<Item>, kind: Kind)
    requires AllOfKind(a, kind) && AllOfKind(b, kind)
    ensures AllOfKind(a + b, kind)
  {
    forall k | 0 <= k < |a + b| ensures (a + b)[k].kind == kind {
      if k >= |a| { assert (a + b)[k] == b[k - |a|]; }
    }
  }

  lemma {:induction false} LinkItemsKind(doc: seq<Element>, pageUrl: string, n: nat)
    requires IsHttpUrl(pageUrl) && n <= |doc|
    ensures AllOfKind(LinkItems(doc, pageUrl, n), Link)
  {
    if n > 0 {
      var e := doc[n - 1];
      LinkItemsKind(doc, pageUrl, n - 1);
      AllOfKindAppend(LinkItems(doc, pageUrl, n - 1),
        if IsLinkAnchor(e) then [Item(Link, Strip(e.text), Resolve(pageUrl, e.href.value))] else [], Link);
    }
  }

  lemma {:induction false} LevelItemsKind(doc: seq<Element>, level: Level, n: nat)
    requires n <= |doc|
    ensures AllOfKind(LevelItems(doc, level, n), Heading(level))
  {
    if n > 0 {
      var e := doc[n - 1];
      LevelItemsKind(doc, level, n - 1);
      AllOfKindAppend(LevelItems(doc, level, n - 1),
        if e.tag == TagName(level) then [Item(Heading(level), Strip(e.text), "")] else [], Heading(level));
    }
  }

  lemma {:induction false} ParagraphItemsKind(doc: seq<Element>, n: nat)
    requires n <= |doc|
    ensures AllOfKind(ParagraphItems(doc, n), Paragraph)
  {
    if n > 0 {
      var e := doc[n - 1];
      ParagraphItemsKind(doc, n - 1);
      AllOfKindAppend(ParagraphItems(doc, n - 1),
        if e.tag == "p" && Strip(e.text) != "" then [Item(Paragraph, Strip(e.text), "")] else [], Paragraph);
    }
  }

  /** Putting a block of one kind in front of a sorted list whose ranks are
      all at least that kind's keeps it sorted. */
  lemma PrependBlock(block: seq<Item>, kind: Kind, rest: seq<Item>)
    requires AllOfKind(block, kind) && SortedByRank(rest)
    requires forall k :: 0 <= k < |rest| ==> Rank(kind) <= Rank(rest[k].kind)
    ensures SortedByRank(block + rest)
    ensures forall k :: 0 <= k < |block + rest| ==> Rank(kind) <= Rank((block + rest)[k].kind)
  {
    var s := block + rest;
    forall k | 0 <= k < |s| ensures Rank(kind) <= Rank(s[k].kind) {
      if k < |block| { assert s[k] == block[k]; } else { assert s[k] == rest[k - |block|]; }
    }
    forall i, j | 0 <= i < j < |s| ensures Rank(s[i].kind) <= Rank(s[j].kind) {
      if j < |block| {
        assert s[i] == block[i] && s[j] == block[j];
      } else if i < |block| {
        assert s[i] == block[i];
      } else {
        assert s[i] == rest[i - |block|] && s[j] == rest[j - |block|];
      }
    }
  }

  lemma Regroup<T>(l: seq<T>, a: seq<T>, b: seq<T>, c: seq<T>, p: seq<T>)
    ensures l + ((a + b) + c) + p == l + (a + (b + (c + p)))
    ensures l + [] + p == l + ([] + ([] + ([] + p)))
  {
  }

  /** The list of a page as five blocks, each empty when its check box is
      off; the heading loop visits `h1`, `h2` and `h3` in this order. */
  lemma ExtractBlocks(doc: seq<Element>, pageUrl: string, toggles: Toggles)
    requires IsHttpUrl(pageUrl)
    ensures Extract(doc, pageUrl, toggles) ==
      (if toggles.links then LinkItems(doc, pageUrl, |doc|) else []) +
      ((if toggles.headers then LevelItems(doc, H1, |doc|) else []) +
      ((if toggles.headers then LevelItems(doc, H2, |doc|) else []) +
      ((if toggles.headers then LevelItems(doc, H3, |doc|) else []) +
      (if toggles.text then ParagraphItems(doc, |doc|) else []))))
  {
    var a, b, c := LevelItems(doc, H1, |doc|), LevelItems(doc, H2, |doc|), LevelItems(doc, H3, |doc|);
    assert HeadingItems(doc, 1) == a;
    assert HeadingItems(doc, 2) == a + b;
    assert HeadingItems(doc, 3) == (a + b) + c;
    var l := if toggles.links then LinkItems(doc, pageUrl, |doc|) else [];
    var p := if toggles.text then ParagraphItems(doc, |doc|) else [];
    if toggles.headers {
      assert Extract(doc, pageUrl, toggles) == l + ((a + b) + c) + p;
      Regroup(l, a, b, c, p);
    } else {
      assert Extract(doc, pageUrl, toggles) == l + [] + p;
      Regroup(l, [], [], [], p);
    }
  }

  /** Five uniform blocks of increasing rank, one after the other, are
      sorted by rank. */
  lemma SortedBlocks(l: seq<Item>, a: seq<Item>, b: seq<Item>, c: seq<Item>, p: seq<Item>)
    requires AllOfKind(l, Link) && AllOfKind(a, Heading(H1)) && AllOfKind(b, Heading(H2))
    requires AllOfKind(c, Heading(H3)) && AllOfKind(p, Paragraph)
    ensures SortedByRank(l + (a + (b + (c + p))))
  {
    PrependBlock(p, Paragraph, []);
    assert p + [] == p;
    PrependBlock(c, Heading(H3), p);
    PrependBlock(b, Heading(H2), c + p);
    PrependBlock(a, Heading(H1), b + (c + p));
    PrependBlock(l, Link, a + (b + (c + p)));
  }

  /** The records come grouped by kind: every link before every `h1`, every
      `h1` before every `h2`, and so on down to the paragraphs, whatever the
      order of these elements in the page. */
  lemma ExtractOrdered(doc: seq<Element>, pageUrl: string, toggles: Toggles)
    requires IsHttpUrl(pageUrl)
    ensures SortedByRank(Extract(doc, pageUrl, toggles))
  {
    LinkItemsKind(doc, pageUrl, |doc|);
    LevelItemsKind(doc, H1, |doc|);
    LevelItemsKind(doc, H2, |doc|);
    LevelItemsKind(doc, H3, |doc|);
    ParagraphItemsKind(doc, |doc|);
    ExtractBlocks(doc, pageUrl, toggles);
    SortedBlocks(
      if toggles.links then LinkItems(doc, pageUrl, |doc|) else [],
      if toggles.headers then LevelItems(doc, H1, |doc|) else [],
      if toggles.headers then LevelItems(doc, H2, |doc|) else [],
      if toggles.headers then LevelItems(doc, H3, |doc|) else [],
      if toggles.text then ParagraphItems(doc, |doc|) else []);
  }

  // ---------------------------------------------------------------------
  // How many records of each kind

  /** Anchors with a non-empty `href` among the first `n` elements. */
  function AnchorCount(doc: seq<Element>, n: nat): nat
    requires n <= |doc|
  {
    if n == 0 then 0
    else AnchorCount(doc, n - 1) + (if IsLinkAnchor(doc[n - 1]) then 1 else 0)
  }

  /** Elements with the given tag name among the first `n`. */
  function TagCount(doc: seq<Element>, tag: string, n: nat): nat
    requires n <= |doc|
  {
    if n == 0 then 0
    else TagCount(doc, tag, n - 1) + (if doc[n - 1].tag == tag then 1 else 0)
  }

  /** `p` elements with some non-whitespace text among the first `n`. */
  function TextParagraphCount(doc: seq<Element>, n: nat): nat
    requires n <= |doc|
  {
    if n == 0 then 0
    else
      var e := doc[n - 1];
      TextParagraphCount(doc, n - 1) + (if e.tag == "p" && !AllSpace(e.text) then 1 else 0)
  }

  /** Records of the given kind. */
  function CountKind(items: seq<Item>, kind: Kind): nat
    decreases |items|
  {
    if items == [] then 0
    else CountKind(items[..|items| - 1], kind) + (if items[|items| - 1].kind == kind then 1 else 0)
  }

  lemma {:induction false} CountKindAppend(a: seq<Item>, b: seq<Item>, kind: Kind)
    ensures CountKind(a + b, kind) == CountKind(a, kind) + CountKind(b, kind)
    decreases |b|
  {
    if b == [] {
      assert a + b == a;
    } else {
      assert (a + b)[..|a + b| - 1] == a + b[..|b| - 1];
      CountKindAppend(a, b[..|b| - 1], kind);
    }
  }

  lemma {:induction false} CountKindUniform(items: seq<Item>, kind: Kind, other: Kind)
    requires AllOfKind(items, kind)
    ensures CountKind(items, other) == if other == kind then |items| else 0
    decreases |items|
  {
    if items != [] {
      CountKindUniform(items[..|items| - 1], kind, other);
    }
  }

  lemma {:induction false} LinkItemsLength(doc: seq<Element>, pageUrl: string, n: nat)
    requires IsHttpUrl(pageUrl) && n <= |doc|
    ensures |LinkItems(doc, pageUrl, n)| == AnchorCount(doc, n)
  {
    if n > 0 { LinkItemsLength(doc, pageUrl, n - 1); }
  }

  lemma {:induction false} LevelItemsLength(doc: seq<Element>, level: Level, n: nat)
    requires n <= |doc|
    ensures |LevelItems(doc, level, n)| == TagCount(doc, TagName(level), n)
  {
    if n > 0 { LevelItemsLength(doc, level, n - 1); }
  }

  lemma {:induction false} ParagraphItemsLength(doc: seq<Element>, n: nat)
    requires n <= |doc|
    ensures |ParagraphItems(doc, n)| == TextParagraphCount(doc, n)
  {
    if n > 0 {
      ParagraphItemsLength(doc, n - 1);
      StripProperties(doc[n - 1].text);
    }
  }

  /** Records of one kind in five uniform blocks of links, `h1`, `h2`,
      `h3` and paragraphs: the length of the block of that kind. */
  lemma CountBlocks(l: seq<Item>, a: seq<Item>, b: seq<Item>, c: seq<Item>, p: seq<Item>, kind: Kind)
    requires AllOfKind(l, Link) && AllOfKind(a, Heading(H1)) && AllOfKind(b, Heading(H2))
    requires AllOfKind(c, Heading(H3)) && AllOfKind(p, Paragraph)
    ensures CountKind(l + (a + (b + (c + p))), kind) ==
      match kind
      case Link => |l|
      case Heading(H1) => |a|
      case Heading(H2) => |b|
      case Heading(H3) => |c|
      case Paragraph => |p|
  {
    CountKindAppend(c, p, kind);
    CountKindAppend(b, c + p, kind);
    CountKindAppend(a, b + (c + p), kind);
    CountKindAppend(l, a + (b + (c + p)), kind);
    CountKindUniform(l, Link, kind);
    CountKindUniform(a, Heading(H1), kind);
    CountKindUniform(b, Heading(H2), kind);
    CountKindUniform(c, Heading(H3), kind);
    CountKindUniform(p, Paragraph, kind);
  }

  /** Records of one kind in a page's list: as many as the page has
      anchors with a non-empty `href`, `h1`, `h2` or `h3` elements, or `p`
      elements with some non-whitespace text, when that kind's check box is
      on, and none when it is off. */
  lemma ExtractCount(doc: seq<Element>, pageUrl: string, toggles: Toggles, kind: Kind)
    requires IsHttpUrl(pageUrl)
    ensures CountKind(Extract(doc, pageUrl, toggles), kind) ==
      match kind
      case Link => if toggles.links then AnchorCount(doc, |doc|) else 0
      case Heading(level) => if toggles.headers then TagCount(doc, TagName(level), |doc|) else 0
      case Paragraph => if toggles.text then TextParagraphCount(doc, |doc|) else 0
  {
    LinkItemsKind(doc, pageUrl, |doc|);
    LevelItemsKind(doc, H1, |doc|);
    LevelItemsKind(doc, H2, |doc|);
    LevelItemsKind(doc, H3, |doc|);
    ParagraphItemsKind(doc, |doc|);
    LinkItemsLength(doc, pageUrl, |doc|);
    LevelItemsLength(doc, H1, |doc|);
    LevelItemsLength(doc, H2, |doc|);
    LevelItemsLength(doc, H3, |doc|);
    ParagraphItemsLength(doc, |doc|);
    ExtractBlocks(doc, pageUrl, toggles);
    CountBlocks(
      if toggles.links then LinkItems(doc, pageUrl, |doc|) else [],
      if toggles.headers then LevelItems(doc, H1, |doc|) else [],
      if toggles.headers then LevelItems(doc, H2, |doc|) else [],
      if toggles.headers then LevelItems(doc, H3, |doc|) else [],
      if toggles.text then ParagraphItems(doc, |doc|) else [],
      kind);
  }
}
