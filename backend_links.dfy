/** The link statistics of backend/app.py's `scrape_website`: the domain is cut
    out of the URL with two `split`s, and every `href` of the page is skipped,
    counted as internal or counted as external. */
module ScrapeLinks {
  import opened Wrappers
  import opened Text

  /** The exception `url.split('//')[1]` raises for a URL without `//`. */
  datatype ScrapeError = IndexOutOfRange

  /** Python's `s.startswith(p)`. */
  predicate StartsWith(s: string, p: string) {
    |p| <= |s| && s[..|p|] == p
  }

  /** `url.split('//')[1].split('/')[0]` */
  function Domain(url: string): Result<string, ScrapeError> {
    var parts := Split(url, "//");
    if |parts| < 2 then Failure(IndexOutOfRange)
    else Success(Split(parts[1], "/")[0])
  }

  /** d is the text at the start of rest up to, and not including, its first '/'. */
  predicate FirstSegment(rest: string, d: string) {
    && |d| <= |rest|
    && d == rest[..|d|]
    && (forall k | 0 <= k < |d| :: d[k] != '/')
    && (|d| == |rest| || rest[|d|] == '/')
  }

  /** Only one text is the first segment of rest. */
  lemma FirstSegmentUnique(rest: string, d: string, e: string)
    requires FirstSegment(rest, d) && FirstSegment(rest, e)
    ensures d == e
  {
  }

  /** The first piece of a split is a prefix without the separator, followed by
      the separator unless it is the whole text. */
  lemma SplitFirst(s: string, sep: string)
    requires |sep| > 0
    ensures var p := Split(s, sep)[0];
      && |p| <= |s| && p == s[..|p|] && !Contains(p, sep)
      && (p == s || OccursAt(s, sep, |p|))
  {
    SplitPiecesAvoidSeparator(s, sep);
  }

  /** A text without the one-character separator "/" has no '/' at all. */
  lemma NoSlash(d: string)
    requires !Contains(d, "/")
    ensures forall k | 0 <= k < |d| :: d[k] != '/'
  {
    forall k | 0 <= k < |d| ensures d[k] != '/' {
      if d[k] == '/' {
        assert d[k..k + 1] == "/";
        assert OccursAt(d, "/", k);
      }
    }
  }

  /** A separator starting with '/' puts a '/' where it occurs. */
  lemma SlashAt(s: string, sep: string, k: nat)
    requires |sep| > 0 && sep[0] == '/' && OccursAt(s, sep, k)
    ensures k < |s| && s[k] == '/'
  {
    assert s[k..k + |sep|][0] == s[k];
  }

  /** A prefix of a prefix is a prefix. */
  lemma PrefixOfPrefix(s: string, p: string, d: string)
    requires |p| <= |s| && p == s[..|p|] && |d| <= |p| && d == p[..|d|]
    ensures d == s[..|d|]
  {
    assert s[..|p|][..|d|] == s[..|d|];
  }

  /** Carving the domain out of the text after the first `//`. */
  lemma DomainOfRest(rest: string)
    ensures FirstSegment(rest, Split(Split(rest, "//")[0], "/")[0])
  {
    var p1 := Split(rest, "//")[0];
    var d := Split(p1, "/")[0];
    SplitFirst(rest, "//");
    SplitFirst(p1, "/");
    NoSlash(d);
    PrefixOfPrefix(rest, p1, d);
    if d != p1 {
      SlashAt(p1, "/", |d|);
      assert rest[|d|] == p1[|d|];
    } else if p1 != rest {
      SlashAt(rest, "//", |p1|);
    }
  }

  /** The domain exists exactly when the URL contains `//`, and it is then the
      text after the first `//` up to the next '/'. */
  lemma DomainSpec(url: string)
    ensures Domain(url).Success? <==> Contains(url, "//")
    ensures Domain(url).Success? ==>
      FirstSegment(url[Find(url, "//").value + 2..], Domain(url).value)
  {
    match Find(url, "//")
    case None =>
    case Some(i) =>
      var rest := url[i + 2..];
      SplitAt(url, "//", i);
      assert Split(url, "//")[1] == Split(rest, "//")[0];
      DomainOfRest(rest);
  }

  /** What the link loop does with one href. */
  datatype LinkClass = Skipped | InternalLink | ExternalLink

  function Classify(href: string, domain: string): LinkClass {
    if StartsWith(href, "#") || href == [] then Skipped
    else if StartsWith(href, "/") || Contains(href, domain) then InternalLink
    else ExternalLink
  }

  /** Empty hrefs and fragment links are skipped; of the rest, links starting
      with '/' or containing the domain anywhere are internal. */
  lemma ClassifySpec(href: string, domain: string)
    ensures Classify(href, domain) == Skipped <==> href == [] || href[0] == '#'
    ensures Classify(href, domain) == InternalLink <==>
      href != [] && href[0] != '#' &&
      (href[0] == '/' || exists i :: OccursAt(href, domain, i))
    ensures Classify(href, domain) == ExternalLink <==>
      href != [] && href[0] != '#' && href[0] != '/' &&
      forall i :: !OccursAt(href, domain, i)
  {
    ContainsIff(href, domain);
    if href != [] {
      assert StartsWith(href, "#") <==> href[0] == '#';
      assert StartsWith(href, "/") <==> href[0] == '/';
    }
  }

  /** With an empty domain (a URL like "http:///x"), every link that is not
      skipped is internal, since the empty text occurs in every text. */
  lemma EmptyDomainAllInternal(href: string)
    ensures Classify(href, "") != ExternalLink
  {
    assert OccursAt(href, "", 0);
  }

  /** Number of hrefs of the given class. */
  function CountOf(hrefs: seq<string>, domain: string, c: LinkClass): (n: nat)
    ensures n <= |hrefs|
  {
    if hrefs == [] then 0
    else
      CountOf(hrefs[..|hrefs| - 1], domain, c)
      + (if Classify(hrefs[|hrefs| - 1], domain) == c then 1 else 0)
  }

  /** Every href is counted in exactly one class. */
  lemma {:induction false} CountPartition(hrefs: seq<string>, domain: string)
    ensures CountOf(hrefs, domain, Skipped) + CountOf(hrefs, domain, InternalLink)
      + CountOf(hrefs, domain, ExternalLink) == |hrefs|
  {
    if hrefs != [] {
      CountPartition(hrefs[..|hrefs| - 1], domain);
    }
  }

  /** The `for link in all_links` loop. */
  method CountLinks(hrefs: seq<string>, domain: string) returns (internal: nat, external: nat)
    ensures internal == CountOf(hrefs, domain, InternalLink)
    ensures external == CountOf(hrefs, domain, ExternalLink)
    ensures internal + external == |hrefs| - CountOf(hrefs, domain, Skipped)
  {
    internal, external := 0, 0;
    var k := 0;
    while k < |hrefs|
      invariant 0 <= k <= |hrefs|
      invariant internal == CountOf(hrefs[..k], domain, InternalLink)
      invariant external == CountOf(hrefs[..k], domain, ExternalLink)
    {
      assert hrefs[..k + 1][..k] == hrefs[..k];
      var href := hrefs[k];
      if StartsWith(href, "#") || href == [] {
      } else if StartsWith(href, "/") || Contains(href, domain) {
        internal := internal + 1;
      } else {
        external := external + 1;
      }
      k := k + 1;
    }
    assert hrefs[..k] == hrefs;
    CountPartition(hrefs, domain);
  }
}
