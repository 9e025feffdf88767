/** The `/health` endpoint: it reports whether a database URL is configured
    and shows it with the credentials masked. The environment lookup is a
    parameter (`None` when `DATABASE_URL` is not set). */
module Health {
  import opened Wrappers
  import opened Strings

  const NotSet := "NOT_SET"
  const PreviewLimit := 50

  datatype HealthReport = HealthReport(status: string, databaseUrlSet: bool, databaseUrlPreview: string)

  /** Whether the URL gets masked: it is set and holds an `@`. */
  predicate HasCredentials(url: string) {
    url != NotSet && '@' in url
  }

  /** The URL with everything between the scheme's `:` and the first `@`
      replaced by `****`, keeping only the text up to a second `@`. */
  function Mask(url: string): (m: string)
    ensures !HasCredentials(url) ==> m == url
  {
    if HasCredentials(url) then
      var parts := Split(url, '@');
      Split(parts[0], ':')[0] + ":****@" + parts[1]
    else url
  }

  /** A masked URL is the text before the first `:` (which is a prefix of the
      URL and holds neither `:` nor `@`), then `:****@`, then the part between
      the first and the second `@`: the user name and password never show. */
  lemma MaskShape(url: string)
    requires HasCredentials(url)
    ensures var scheme := Before(Before(url, '@'), ':');
            var host := Before(After(url, '@'), '@');
            Mask(url) == scheme + ":****@" + host
            && StartsWith(url, scheme) && ':' !in scheme && '@' !in scheme && '@' !in host
  {
    var front := Before(url, '@');
    SplitParts(url, '@');
    SplitParts(front, ':');
    var scheme := Before(front, ':');
    assert StartsWith(front, scheme);
    assert url[..|scheme|] == front[..|scheme|];
    assert '@' !in scheme by {
      assert forall k :: 0 <= k < |scheme| ==> scheme[k] == front[k];
    }
  }

  /** At most fifty characters of the masked URL, with `...` when cut. */
  function Preview(m: string): (p: string)
    ensures |p| <= PreviewLimit + 3
    ensures |m| <= PreviewLimit ==> p == m
    ensures |m| > PreviewLimit ==> |p| == PreviewLimit + 3 && EndsWith(p, "...") && StartsWith(m, p[..PreviewLimit])
  {
    if |m| > PreviewLimit then m[..PreviewLimit] + "..." else m
  }

  /** The `/health` response for the value of `DATABASE_URL`. */
  function HealthCheck(env: Option<string>): (r: HealthReport)
    ensures r.status == "ok"
    ensures r.databaseUrlSet <==> env.Some? && env.value != NotSet
    ensures env.None? ==> r.databaseUrlPreview == NotSet
  {
    var url := env.GetOr(NotSet);
    HealthReport("ok", url != NotSet, Preview(Mask(url)))
  }

  /** A short URL with credentials is reported as scheme, `:****@`, host. */
  lemma HealthMasksCredentials(url: string)
    requires HasCredentials(url) && |Mask(url)| <= PreviewLimit
    ensures HealthCheck(Some(url)).databaseUrlSet
    ensures HealthCheck(Some(url)).databaseUrlPreview
            == Before(Before(url, '@'), ':') + ":****@" + Before(After(url, '@'), '@')
  {
    MaskShape(url);
  }
}
