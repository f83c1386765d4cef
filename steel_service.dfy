/**
 * The profile lookup (`services/steelService.ts`, `searchLinkedIn`): the
 * browser session and the scrape are inputs; what is modelled is how the
 * photo, profile link and headline are read out of the serialised result.
 */
module SteelService {
  import opened Wrappers
  import opened Text

  const ImagePrefix := "https://media.licdn.com/dms/image/"
  const ProfilePrefix := "https://www.linkedin.com/in/"
  const HeadlineKey := "\"headline\":\""

  /** The profile returned to the caller; the three lookups may each be absent. */
  datatype LinkedInProfile = LinkedInProfile(
    name: string,
    photoUrl: Option<string>,
    headline: Option<string>,
    linkedInUrl: Option<string>)

  /** What the scrape produced: an object, with its `JSON.stringify` text, or any other value. */
  datatype ScrapeValue = NonObject | Object(serialized: string)

  /** The session and scrape calls: either one of them threw, or the scrape returned. */
  datatype ScrapeOutcome = ScrapeFailed | Scraped(value: ScrapeValue)

  /** The URL pattern for `prefix` matches at `p`: the prefix and at least one URL character. */
  predicate UrlMatchesAt(s: string, prefix: string, p: nat) {
    StartsAt(s, prefix, p) && p + |prefix| < |s| && InClass(s[p + |prefix|], UrlChar)
  }

  /** The leftmost index at or after `from` where the URL pattern matches. */
  function FirstUrlMatch(s: string, prefix: string, from: nat): (r: Option<nat>)
    decreases |s| - from
    ensures r.Some? ==> from <= r.value && UrlMatchesAt(s, prefix, r.value)
    ensures r.Some? ==> forall q: nat :: from <= q < r.value ==> !UrlMatchesAt(s, prefix, q)
    ensures r.None? ==> forall q: nat :: from <= q ==> !UrlMatchesAt(s, prefix, q)
  {
    if from >= |s| then None
    else if UrlMatchesAt(s, prefix, from) then Some(from)
    else FirstUrlMatch(s, prefix, from + 1)
  }

  /**
   * The first match of `prefix[^"'\s]+`: the prefix and the longest run of URL
   * characters after it.
   */
  function ExtractUrl(s: string, prefix: string): (r: Option<string>)
    ensures r.None? <==> forall p: nat :: !UrlMatchesAt(s, prefix, p)
    ensures r.Some? ==> StartsAt(r.value, prefix, 0) && |r.value| > |prefix|
    ensures r.Some? ==> forall k :: |prefix| <= k < |r.value| ==> InClass(r.value[k], UrlChar)
  {
    match FirstUrlMatch(s, prefix, 0)
    case None => None
    case Some(p) =>
      var e := Span(s, p + |prefix|, UrlChar);
      SpanRun(s, p + |prefix|, UrlChar);
      assert s[p..e][..|prefix|] == s[p..p + |prefix|];
      Some(s[p..e])
  }

  /**
   * The URL is taken at the leftmost match and runs up to the first quote,
   * apostrophe or white space (or the end of the text).
   */
  lemma ExtractUrlAtFirstMatch(s: string, prefix: string, p: nat, e: nat)
    requires UrlMatchesAt(s, prefix, p)
    requires forall q: nat :: q < p ==> !UrlMatchesAt(s, prefix, q)
    requires p + |prefix| < e <= |s|
    requires forall k :: p + |prefix| <= k < e ==> InClass(s[k], UrlChar)
    requires e == |s| || !InClass(s[e], UrlChar)
    ensures ExtractUrl(s, prefix) == Some(s[p..e])
  {
    SpanStopsAt(s, p + |prefix|, e, UrlChar);
  }

  /** The headline pattern matches at `p`: the key, a non-empty run without quotes, then a quote. */
  predicate HeadlineMatchesAt(s: string, p: nat) {
    StartsAt(s, HeadlineKey, p)
    && var q := p + |HeadlineKey|;
       q < Span(s, q, NotQuote) < |s|
  }

  function FirstHeadlineMatch(s: string, from: nat): (r: Option<nat>)
    decreases |s| - from
    ensures r.Some? ==> from <= r.value && HeadlineMatchesAt(s, r.value)
    ensures r.Some? ==> forall q: nat :: from <= q < r.value ==> !HeadlineMatchesAt(s, q)
    ensures r.None? ==> forall q: nat :: from <= q ==> !HeadlineMatchesAt(s, q)
  {
    if from >= |s| then None
    else if HeadlineMatchesAt(s, from) then Some(from)
    else FirstHeadlineMatch(s, from + 1)
  }

  /** The first match of `"headline":"([^"]+)"`, captured group only. */
  function ExtractHeadline(s: string): (r: Option<string>)
    ensures r.None? <==> forall p: nat :: !HeadlineMatchesAt(s, p)
    ensures r.Some? ==> r.value != "" && forall k :: 0 <= k < |r.value| ==> r.value[k] != '"'
  {
    match FirstHeadlineMatch(s, 0)
    case None => None
    case Some(p) =>
      var q := p + |HeadlineKey|;
      SpanRun(s, q, NotQuote);
      Some(s[q..Span(s, q, NotQuote)])
  }

  /** The headline is the text between the first matching key and the next quote. */
  lemma ExtractHeadlineAtFirstMatch(s: string, p: nat, e: nat)
    requires StartsAt(s, HeadlineKey, p)
    requires p + |HeadlineKey| < e < |s| && s[e] == '"'
    requires forall k :: p + |HeadlineKey| <= k < e ==> s[k] != '"'
    requires forall q: nat :: q < p ==> !HeadlineMatchesAt(s, q)
    ensures ExtractHeadline(s) == Some(s[p + |HeadlineKey|..e])
  {
    SpanStopsAt(s, p + |HeadlineKey|, e, NotQuote);
    assert HeadlineMatchesAt(s, p);
    var f := FirstHeadlineMatch(s, 0);
    assert f.Some? && f.value == p;
  }

  /** A key with nothing before the closing quote is no headline: `[^"]+` needs a character. */
  lemma EmptyHeadlineIgnored()
    ensures ExtractHeadline("{\"headline\":\"\"}").None?
  {
    var s := "{\"headline\":\"\"}";
    forall p: nat ensures !HeadlineMatchesAt(s, p) {
      if p == 1 {
        SpanStopsAt(s, 13, 13, NotQuote);
      } else if p + |HeadlineKey| <= |s| {
        assert s[p..p + |HeadlineKey|][0] == s[p];
      }
    }
  }

  /**
   * `searchLinkedIn`: the three fields start absent and are filled in turn from
   * the serialised result when the scrape returned an object; any thrown error,
   * including from the session release, makes the whole lookup `None`.
   */
  method SearchLinkedIn(name: string, outcome: ScrapeOutcome, releaseOk: bool) returns (r: Option<LinkedInProfile>)
    ensures r.Some? <==> outcome.Scraped? && releaseOk
    ensures r.Some? ==> r.value.name == name
    ensures r.Some? && outcome.value.NonObject? ==>
      r.value.photoUrl.None? && r.value.headline.None? && r.value.linkedInUrl.None?
    ensures r.Some? && outcome.value.Object? ==>
      && r.value.photoUrl == ExtractUrl(outcome.value.serialized, ImagePrefix)
      && r.value.linkedInUrl == ExtractUrl(outcome.value.serialized, ProfilePrefix)
      && r.value.headline == ExtractHeadline(outcome.value.serialized)
  {
    if outcome.ScrapeFailed? {
      return None;
    }
    var photoUrl: Option<string> := None;
    var headline: Option<string> := None;
    var linkedInUrl: Option<string> := None;
    if outcome.value.Object? {
      var resultStr := outcome.value.serialized;
      var imageMatch := ExtractUrl(resultStr, ImagePrefix);
      if imageMatch.Some? {
        photoUrl := imageMatch;
      }
      var profileMatch := ExtractUrl(resultStr, ProfilePrefix);
      if profileMatch.Some? {
        linkedInUrl := profileMatch;
      }
      var headlineMatch := ExtractHeadline(resultStr);
      if headlineMatch.Some? {
        headline := headlineMatch;
      }
    }
    if !releaseOk {
      return None;
    }
    return Some(LinkedInProfile(name, photoUrl, headline, linkedInUrl));
  }
}
