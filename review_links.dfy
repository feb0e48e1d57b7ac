/**
 * The links `callback_message` (plugins/gerritbot/gerritbot.py) builds for
 * each review mentioned in a chat message: the review page, and the REST
 * resource it fetches for the change. A match of the review pattern yields
 * the optional `s` of "https" (empty when absent) and the change number.
 */
module ReviewLinks {
  import opened Values

  datatype Links = Links(review: string, json: string)

  /** `"https://"` when the `s` group matched, else `"http://"`. */
  function Scheme(sGroup: string): string {
    if sGroup != "" then "https://" else "http://"
  }

  /** The review URL and the JSON URL for one `(is_https, review_id)` match. */
  function LinksFor(sGroup: string, reviewId: string): Links {
    var link := Scheme(sGroup);
    Links(link + "review.openstack.org/#/c/" + reviewId, link + "review.openstack.org/changes/" + reviewId)
  }

  /** The text after `prefix`, if `s` starts with it. */
  function After(prefix: string, s: string): Option<string> {
    if prefix <= s then Some(s[|prefix|..]) else None
  }

  /** Whether a URL is over https, and the rest of it after the scheme. */
  function SplitScheme(url: string): Option<(bool, string)> {
    match After("https://", url)
    case Some(rest) => Some((true, rest))
    case None =>
      match After("http://", url)
      case Some(rest) => Some((false, rest))
      case None => None
  }

  /** The scheme and the change number read back from a URL with the given path. */
  function ParseUrl(path: string, url: string): Option<(bool, string)> {
    match SplitScheme(url)
    case None => None
    case Some((https, rest)) =>
      match After("review.openstack.org" + path, rest)
      case None => None
      case Some(id) => Some((https, id))
  }

  lemma AfterPrefix(prefix: string, rest: string)
    ensures After(prefix, prefix + rest) == Some(rest)
  {
    assert prefix <= prefix + rest;
    assert (prefix + rest)[|prefix|..] == rest;
  }

  lemma {:induction false} SchemeRoundTrip(sGroup: string, rest: string)
    ensures SplitScheme(Scheme(sGroup) + rest) == Some((sGroup != "", rest))
  {
    var url := Scheme(sGroup) + rest;
    if sGroup != "" {
      AfterPrefix("https://", rest);
    } else {
      assert url[4] == ':';
      AfterPrefix("http://", rest);
    }
  }

  /** The review URL gives back the scheme chosen and the change number. */
  lemma {:induction false} ReviewUrlRoundTrip(sGroup: string, reviewId: string)
    ensures ParseUrl("/#/c/", LinksFor(sGroup, reviewId).review) == Some((sGroup != "", reviewId))
  {
    var path := "review.openstack.org" + "/#/c/";
    assert LinksFor(sGroup, reviewId).review == Scheme(sGroup) + (path + reviewId);
    SchemeRoundTrip(sGroup, path + reviewId);
    AfterPrefix(path, reviewId);
  }

  /** The JSON URL gives back the scheme chosen and the change number. */
  lemma {:induction false} JsonUrlRoundTrip(sGroup: string, reviewId: string)
    ensures ParseUrl("/changes/", LinksFor(sGroup, reviewId).json) == Some((sGroup != "", reviewId))
  {
    var path := "review.openstack.org" + "/changes/";
    assert LinksFor(sGroup, reviewId).json == Scheme(sGroup) + (path + reviewId);
    SchemeRoundTrip(sGroup, path + reviewId);
    AfterPrefix(path, reviewId);
  }
}
