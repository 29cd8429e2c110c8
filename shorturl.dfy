/**
 * The URL-shortening service: an insert-only table from 8-character ids to
 * full URLs, the id generator, and the three handlers (shorten, redirect,
 * stats). The random source is made explicit: every draw is the index of
 * the chosen alphabet symbol.
 */
module ShortUrl {
  import opened Common

  const SHORT_ID_LENGTH: nat := 8

  const ASCII_LOWERCASE: string := "abcdefghijklmnopqrstuvwxyz"
  const ASCII_UPPERCASE: string := "ABCDEFGHIJKLMNOPQRSTUVWXYZ"
  const DIGITS: string := "0123456789"

  /** The symbols an id is drawn from: the ASCII letters, then the digits. */
  const ALPHABET: string := ASCII_LOWERCASE + ASCII_UPPERCASE + DIGITS

  const INVALID_URL: string := "URL must start with http:// or https://"
  const SHORT_URL_NOT_FOUND: string := "Short URL not found"

  /** The status code of the redirect response. */
  const FOUND: int := 302

  datatype URLRequest = URLRequest(url: string)
  datatype ShortURLResponse = ShortURLResponse(shortId: string, shortUrl: string)
  datatype URLStats = URLStats(shortId: string, fullUrl: string)
  datatype RedirectResponse = RedirectResponse(statusCode: int, url: string)

  predicate IsAlphanumeric(c: char) {
    'a' <= c <= 'z' || 'A' <= c <= 'Z' || '0' <= c <= '9'
  }

  /** A well-formed short id: exactly SHORT_ID_LENGTH letters and digits. */
  predicate IsShortId(s: string) {
    |s| == SHORT_ID_LENGTH && forall i :: 0 <= i < |s| ==> IsAlphanumeric(s[i])
  }

  lemma LowercaseAt(i: int)
    requires 0 <= i < |ASCII_LOWERCASE|
    ensures ASCII_LOWERCASE[i] as int == 'a' as int + i
  {
  }

  lemma UppercaseAt(i: int)
    requires 0 <= i < |ASCII_UPPERCASE|
    ensures ASCII_UPPERCASE[i] as int == 'A' as int + i
  {
  }

  lemma DigitAt(i: int)
    requires 0 <= i < |DIGITS|
    ensures DIGITS[i] as int == '0' as int + i
  {
  }

  /** Where each symbol sits in ALPHABET: the alphabet holds 62 symbols, all letters or digits. */
  lemma AlphabetAt(k: int)
    requires 0 <= k < |ALPHABET|
    ensures |ALPHABET| == 62
    ensures k < 26 ==> ALPHABET[k] as int == 'a' as int + k
    ensures 26 <= k < 52 ==> ALPHABET[k] as int == 'A' as int + (k - 26)
    ensures 52 <= k ==> ALPHABET[k] as int == '0' as int + (k - 52)
    ensures IsAlphanumeric(ALPHABET[k])
  {
    if k < 26 {
      LowercaseAt(k);
    } else if k < 52 {
      UppercaseAt(k - 26);
    } else {
      DigitAt(k - 52);
    }
  }

  /** The position of a letter or digit in ALPHABET. */
  function AlphabetIndex(c: char): (k: nat)
    requires IsAlphanumeric(c)
    ensures k < |ALPHABET| && ALPHABET[k] == c
  {
    var k := if 'a' <= c <= 'z' then c as int - 'a' as int
             else if 'A' <= c <= 'Z' then 26 + (c as int - 'A' as int)
             else 52 + (c as int - '0' as int);
    AlphabetAt(k);
    k
  }

  /** No symbol occurs twice in ALPHABET, so each draw picks a different symbol. */
  lemma AlphabetDistinct(k: int, m: int)
    requires 0 <= k < |ALPHABET| && 0 <= m < |ALPHABET|
    requires ALPHABET[k] == ALPHABET[m]
    ensures k == m
  {
    AlphabetAt(k);
    AlphabetAt(m);
  }

  /** The draws of one call of the generator: SHORT_ID_LENGTH indices into ALPHABET. */
  predicate IsDrawing(draws: seq<nat>) {
    |draws| == SHORT_ID_LENGTH && forall k :: 0 <= k < |draws| ==> draws[k] < |ALPHABET|
  }

  /** The generator: symbol k of the id is the alphabet symbol chosen by draw k. */
  function GenerateShortId(draws: seq<nat>): (id: string)
    requires IsDrawing(draws)
    ensures IsShortId(id)
    ensures |id| == |draws| && forall k :: 0 <= k < |id| ==> id[k] == ALPHABET[draws[k]]
  {
    var id := seq(SHORT_ID_LENGTH, k requires 0 <= k < SHORT_ID_LENGTH => ALPHABET[draws[k]]);
    assert forall k :: 0 <= k < |id| ==> IsAlphanumeric(id[k]) by {
      forall k | 0 <= k < |id| ensures IsAlphanumeric(id[k]) {
        AlphabetAt(draws[k]);
      }
    }
    id
  }

  /** Different draws give different ids: each of the 62^8 ids has exactly one drawing. */
  lemma GenerateShortIdInjective(d1: seq<nat>, d2: seq<nat>)
    requires IsDrawing(d1) && IsDrawing(d2)
    requires GenerateShortId(d1) == GenerateShortId(d2)
    ensures d1 == d2
  {
    forall k | 0 <= k < SHORT_ID_LENGTH ensures d1[k] == d2[k] {
      assert GenerateShortId(d1)[k] == GenerateShortId(d2)[k];
      AlphabetDistinct(d1[k], d2[k]);
    }
  }

  /** Every well-formed short id is the output of some drawing. */
  lemma EveryShortIdGenerated(id: string)
    requires IsShortId(id)
    ensures exists draws :: IsDrawing(draws) && GenerateShortId(draws) == id
  {
    var draws := seq(SHORT_ID_LENGTH, k requires 0 <= k < SHORT_ID_LENGTH => AlphabetIndex(id[k]));
    assert IsDrawing(draws);
    assert GenerateShortId(draws) == id;
  }

  predicate StartsWith(s: string, prefix: string) {
    |prefix| <= |s| && s[..|prefix|] == prefix
  }

  /** The scheme check of the shorten handler. */
  predicate HasAllowedScheme(url: string)
    ensures HasAllowedScheme(url) ==> |url| >= 7 && url[..4] == "http"
    ensures HasAllowedScheme(url) <==> (7 <= |url| && url[..7] == "http://") || (8 <= |url| && url[..8] == "https://")
  {
    StartsWith(url, "http://") || StartsWith(url, "https://")
  }

  /** The check is a plain, case-sensitive prefix test. */
  lemma SchemeExamples()
    ensures !HasAllowedScheme("ftp://example.com")
    ensures !HasAllowedScheme("HTTP://example.com")
    ensures !HasAllowedScheme("http:/example.com")
    ensures HasAllowedScheme("http://example.com")
    ensures HasAllowedScheme("https://example.com")
    ensures HasAllowedScheme("http://")
  {
    assert "ftp://example.com"[..7][0] != "http://"[0];
    assert "ftp://example.com"[..8] != "https://";
    assert "HTTP://example.com"[..7][0] != "http://"[0];
    assert "HTTP://example.com"[..8] != "https://";
    assert "http:/example.com"[..7][6] != "http://"[6];
    assert "http:/example.com"[..8] != "https://";
    assert "http://example.com"[..7] == "http://";
    assert "https://example.com"[..8] == "https://";
    assert "http://"[..7] == "http://";
  }

  /** `after` keeps every entry of `before`, unchanged. */
  predicate IsExtension(before: map<string, string>, after: map<string, string>) {
    forall id :: id in before ==> id in after && after[id] == before[id]
  }

  /** The store only grows: a chain of extensions is an extension. */
  lemma ExtensionTransitive(a: map<string, string>, b: map<string, string>, c: map<string, string>)
    requires IsExtension(a, b) && IsExtension(b, c)
    ensures IsExtension(a, c)
  {
  }

  /** The lookup behind the redirect and stats handlers. */
  function Lookup(urls: map<string, string>, shortId: string): (r: Result<string>)
    ensures r.Ok? <==> shortId in urls
    ensures r.Ok? ==> r.value == urls[shortId]
    ensures r.Err? ==> r.error == NotFound(SHORT_URL_NOT_FOUND)
  {
    if shortId in urls then Ok(urls[shortId]) else Err(NotFound(SHORT_URL_NOT_FOUND))
  }

  /** A short id that resolves keeps resolving to the same URL in every later store. */
  lemma LookupStable(before: map<string, string>, after: map<string, string>, shortId: string)
    requires IsExtension(before, after)
    requires Lookup(before, shortId).Ok?
    ensures Lookup(after, shortId) == Lookup(before, shortId)
  {
  }

  /** The retry loop stops at draw k: the first candidate not already a key. */
  ghost predicate IsFirstUnused(urls: map<string, string>, draws: seq<seq<nat>>, k: int)
    requires forall j :: 0 <= j < |draws| ==> IsDrawing(draws[j])
  {
    && 0 <= k < |draws|
    && GenerateShortId(draws[k]) !in urls
    && forall j :: 0 <= j < k ==> GenerateShortId(draws[j]) in urls
  }

  /** The short_urls table. */
  class ShortUrlStore {
    /** The full URL stored under each short id. */
    var urls: map<string, string>

    ghost predicate Valid()
      reads this
    {
      forall id :: id in urls ==> IsShortId(id) && HasAllowedScheme(urls[id])
    }

    /** The table as created on first start: empty. */
    constructor ()
      ensures Valid() && urls == map[]
    {
      urls := map[];
    }

    /**
     * Shorten: reject a URL without an http:// or https:// prefix; otherwise
     * draw candidate ids until one is not in use, and store the URL under it.
     * `draws` stands for the random source, one drawing per candidate.
     */
    method ShortenUrl(request: URLRequest, draws: seq<seq<nat>>) returns (r: Result<ShortURLResponse>)
      requires Valid()
      requires forall j :: 0 <= j < |draws| ==> IsDrawing(draws[j])
      requires HasAllowedScheme(request.url) ==>
        exists j :: 0 <= j < |draws| && GenerateShortId(draws[j]) !in urls
      modifies this
      ensures Valid()
      ensures IsExtension(old(urls), urls)
      ensures !HasAllowedScheme(request.url) ==> r == Err(InvalidInput(INVALID_URL)) && urls == old(urls)
      ensures HasAllowedScheme(request.url) ==>
        && r.Ok?
        && (exists k :: IsFirstUnused(old(urls), draws, k) && r.value.shortId == GenerateShortId(draws[k]))
        && IsShortId(r.value.shortId)
        && r.value.shortId !in old(urls)
        && urls == old(urls)[r.value.shortId := request.url]
        && r.value.shortUrl == "/" + r.value.shortId
      ensures r.Ok? ==>
        && GetUrlStats(r.value.shortId) == Ok(URLStats(r.value.shortId, request.url))
        && RedirectToUrl(r.value.shortId) == Ok(RedirectResponse(FOUND, request.url))
    {
      if !HasAllowedScheme(request.url) {
        return Err(InvalidInput(INVALID_URL));
      }
      var k := 0;
      var shortId := "";
      while true
        invariant 0 <= k < |draws|
        invariant forall j :: 0 <= j < k ==> GenerateShortId(draws[j]) in urls
        invariant exists j :: k <= j < |draws| && GenerateShortId(draws[j]) !in urls
        decreases |draws| - k
      {
        shortId := GenerateShortId(draws[k]);
        if shortId !in urls {
          break;
        }
        k := k + 1;
      }
      assert IsFirstUnused(urls, draws, k);
      urls := urls[shortId := request.url];
      r := Ok(ShortURLResponse(shortId, "/" + shortId));
    }

    /** Redirect: the stored URL as the target of a 302, or NotFound. */
    function RedirectToUrl(shortId: string): (r: Result<RedirectResponse>)
      reads this
      ensures r.Ok? <==> shortId in urls
      ensures r.Ok? ==> r.value == RedirectResponse(FOUND, urls[shortId])
      ensures r.Err? ==> r.error == NotFound(SHORT_URL_NOT_FOUND)
    {
      match Lookup(urls, shortId)
      case Ok(fullUrl) => Ok(RedirectResponse(FOUND, fullUrl))
      case Err(e) => Err(e)
    }

    /** Stats: the short id with its stored URL, or NotFound. */
    function GetUrlStats(shortId: string): (r: Result<URLStats>)
      reads this
      ensures r.Ok? <==> shortId in urls
      ensures r.Ok? ==> r.value == URLStats(shortId, urls[shortId])
      ensures r.Err? ==> r.error == NotFound(SHORT_URL_NOT_FOUND)
    {
      match Lookup(urls, shortId)
      case Ok(fullUrl) => Ok(URLStats(shortId, fullUrl))
      case Err(e) => Err(e)
    }
  }

  /** Worked examples of the service, as a client sees them. */
  method ScenarioRejectFtp() {
    var store := new ShortUrlStore();
    SchemeExamples();
    var rejected := store.ShortenUrl(URLRequest("ftp://example.com"), []);
    assert rejected == Err(InvalidInput(INVALID_URL)) && store.urls == map[];
  }

  method ScenarioShortenThenLookUp() {
    var store := new ShortUrlStore();
    var d: seq<nat> := [0, 1, 2, 3, 4, 5, 6, 7];
    assert IsDrawing(d) && [d][0] == d;
    SchemeExamples();
    var shortened := store.ShortenUrl(URLRequest("https://example.com"), [d]);
    var id := shortened.value.shortId;
    assert id == GenerateShortId(d);
    var stats := store.GetUrlStats(id);
    assert stats == Ok(URLStats(id, "https://example.com"));
    var unknown := store.RedirectToUrl("zzzzzzzz");
    assert "zzzzzzzz" != id by {
      assert id[0] == ALPHABET[0] == 'a';
    }
    assert unknown == Err(NotFound(SHORT_URL_NOT_FOUND));
  }
}
