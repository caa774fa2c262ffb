/** The two pieces of URL handling in the scraper: checking and prefixing
    the address typed by the user, and turning an anchor's `href` into the
    address stored with a link item. */
module Url {
  import opened Outcomes
  import opened Text

  /** Message of the error dialog shown for an empty address. */
  const EmptyUrlMessage: string := "Пожалуйста, введите URL"

  /** Case-sensitive `startswith(('http://', 'https://'))`. */
  predicate IsHttpUrl(s: string) {
    StartsWith(s, "http://") || StartsWith(s, "https://")
  }

  /** The address check of `start_scraping`: trim the entry, refuse an
      empty one, and put `https://` in front of anything that does not
      already start with an http or https prefix. */
  function NormalizeSeed(entry: string): (r: Result<string>)
    ensures r.Err? <==> AllSpace(entry)
    ensures r.Err? ==> r.message == EmptyUrlMessage
    ensures r.Ok? ==> IsHttpUrl(r.value) && IsStripped(r.value)
    ensures r.Ok? ==> r.value == Strip(entry) || r.value == "https://" + Strip(entry)
    ensures r.Ok? && IsHttpUrl(Strip(entry)) ==> r.value == Strip(entry)
  {
    var url := Strip(entry);
    StripProperties(entry);
    if url == [] then Err(EmptyUrlMessage)
    else if IsHttpUrl(url) then Ok(url)
    else Ok("https://" + url)
  }

  /** A normalised address passes through normalisation unchanged. */
  lemma NormalizeSeedIdempotent(entry: string)
    requires NormalizeSeed(entry).Ok?
    ensures NormalizeSeed(NormalizeSeed(entry).value) == NormalizeSeed(entry)
  {
    var u := NormalizeSeed(entry).value;
    assert u[..0] == [] && u[|u|..] == [] && u[0..|u|] == u;
    StripProperties(NormalizeSeed(entry).value);
    StripUnique(u, 0, |u|);
  }

  /** The characters at which `urlparse` ends the network location. */
  predicate IsAuthorityEnd(c: char) {
    c == '/' || c == '?' || c == '#'
  }

  /** Length of the network location at the start of `rest`: everything up
      to the first `/`, `?` or `#`. */
  function NetlocLength(rest: string): (n: nat)
    ensures n <= |rest|
    ensures forall k :: 0 <= k < n ==> !IsAuthorityEnd(rest[k])
    ensures n == |rest| || IsAuthorityEnd(rest[n])
  {
    if rest == [] || IsAuthorityEnd(rest[0]) then 0
    else 1 + NetlocLength(rest[1..])
  }

  /** Length of the scheme of an http or https address. */
  function SchemeLength(url: string): (n: nat)
    requires IsHttpUrl(url)
  {
    if StartsWith(url, "https://") then 5 else 4
  }

  /** `"{0.scheme}://{0.netloc}".format(urlparse(url))` for an address that
      starts with `http://` or `https://`. */
  function PageBase(url: string): (b: string)
    requires IsHttpUrl(url)
    ensures IsHttpUrl(b) && StartsWith(url, b)
    ensures |b| == |url| || IsAuthorityEnd(url[|b|])
    ensures forall k :: SchemeLength(url) + 3 <= k < |b| ==> !IsAuthorityEnd(b[k])
  {
    var scheme := url[..SchemeLength(url)];
    var rest := url[SchemeLength(url) + 3..];
    var b := scheme + "://" + rest[..NetlocLength(rest)];
    assert b == url[..|b|];
    b
  }

  /** The href rewriting of `scrape_url`: an href with an http or https
      prefix is kept, any other one is glued onto the page's
      `scheme://netloc`, with a `/` in between unless it starts with one. */
  function Resolve(pageUrl: string, href: string): (r: string)
    requires IsHttpUrl(pageUrl)
    ensures IsHttpUrl(r)
    ensures IsHttpUrl(href) ==> r == href
  {
    if IsHttpUrl(href) then href
    else
      var base := PageBase(pageUrl);
      if StartsWith(href, "/") then base + href else base + "/" + href
  }

  /** A rewritten href starts with the page's `scheme://netloc/` and ends
      with the href itself; at most one character is added in between. */
  lemma ResolveRelative(pageUrl: string, href: string)
    requires IsHttpUrl(pageUrl) && !IsHttpUrl(href)
    ensures var r := Resolve(pageUrl, href); var base := PageBase(pageUrl);
      StartsWith(r, base + "/") &&
      |r| == |base| + |href| + (if StartsWith(href, "/") then 0 else 1) &&
      r[|r| - |href|..] == href
  {
    var base := PageBase(pageUrl);
    if StartsWith(href, "/") {
      assert href == "/" + href[1..];
      assert base + href == (base + "/") + href[1..];
    } else {
      assert base + "/" + href == (base + "/") + href;
    }
  }

  /** Resolving an already resolved link changes nothing. */
  lemma ResolveIdempotent(pageUrl: string, href: string)
    requires IsHttpUrl(pageUrl)
    ensures Resolve(pageUrl, Resolve(pageUrl, href)) == Resolve(pageUrl, href)
  {
  }

  /** The network-location length is the unique split point with no
      delimiter before it and a delimiter (or the end) right after. */
  lemma {:induction false} NetlocLengthUnique(rest: string, n: nat)
    requires n <= |rest|
    requires forall k :: 0 <= k < n ==> !IsAuthorityEnd(rest[k])
    requires n == |rest| || IsAuthorityEnd(rest[n])
    ensures NetlocLength(rest) == n
  {
  }

  /** `scheme://netloc` of an address written as its prefix, its network
      location and whatever path, query or fragment follows. */
  lemma PageBaseOf(prefix: string, netloc: string, tail: string)
    requires prefix == "http://" || prefix == "https://"
    requires forall k :: 0 <= k < |netloc| ==> !IsAuthorityEnd(netloc[k])
    requires tail == [] || IsAuthorityEnd(tail[0])
    ensures IsHttpUrl(prefix + netloc + tail)
    ensures PageBase(prefix + netloc + tail) == prefix + netloc
  {
    var url := prefix + netloc + tail;
    assert url[..|prefix|] == prefix;
    assert url[|prefix| - 3..|prefix|] == "://";
    assert prefix == "http://" ==> url[4] == ':' && !StartsWith(url, "https://");
    var rest := url[SchemeLength(url) + 3..];
    assert rest == netloc + tail;
    NetlocLengthUnique(rest, |netloc|);
    assert rest[..|netloc|] == netloc;
  }

  /** The rewriting is not reference resolution in the sense of section 5.2
      of RFC 3986: it depends only on the page's scheme and network
      location, never on its path, query or fragment, so every non-absolute
      href (a relative path, `//host/x`, `#frag`, `?q`, `mailto:x`) lands
      directly under the page's host. */
  lemma ResolveIgnoresPagePath(prefix: string, netloc: string, tail: string, href: string)
    requires prefix == "http://" || prefix == "https://"
    requires forall k :: 0 <= k < |netloc| ==> !IsAuthorityEnd(netloc[k])
    requires tail == [] || IsAuthorityEnd(tail[0])
    requires !IsHttpUrl(href)
    ensures IsHttpUrl(prefix + netloc + tail)
    ensures Resolve(prefix + netloc + tail, href) ==
            prefix + netloc + (if StartsWith(href, "/") then href else "/" + href)
  {
    PageBaseOf(prefix, netloc, tail);
  }
}
