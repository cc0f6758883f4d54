/** Choosing the next video to publish: canonical URLs of the trending videos, minus the
    ones the ledger already holds, one of them picked at random. */
module Selection {
  import opened Wrappers
  import opened PyText
  import opened Database

  /** A trending video as the feed reports it: the author's handle and the video id. */
  datatype TrendingVideo = TrendingVideo(username: string, id: string)

  const UrlPrefix := "https://www.tiktok.com/@"

  /** The canonical URL of a trending video, the ledger's key for it: the fixed prefix,
      then the handle, then `/video/` and the id. */
  function CanonicalUrl(v: TrendingVideo): (url: string)
    ensures |url| == |UrlPrefix| + |v.username| + 7 + |v.id|
    ensures url[..|UrlPrefix|] == UrlPrefix
    ensures url[|UrlPrefix|..|UrlPrefix| + |v.username|] == v.username
    ensures forall k :: 0 <= k < |v.username| ==> url[|UrlPrefix| + k] == v.username[k]
    ensures url[|UrlPrefix| + |v.username|] == '/'
    ensures url[|UrlPrefix| + |v.username| + 7..] == v.id
  {
    UrlPrefix + v.username + "/video/" + v.id
  }

  /** `potential_videos`: the canonical URL of each trending video, in feed order. */
  function Candidates(videos: seq<TrendingVideo>): (urls: seq<string>)
    ensures |urls| == |videos|
    ensures forall k :: 0 <= k < |videos| ==> urls[k] == CanonicalUrl(videos[k])
  {
    seq(|videos|, k requires 0 <= k < |videos| => CanonicalUrl(videos[k]))
  }

  /** `new_videos`: the candidates that are not yet posted, in order and with repeats;
      each unposted URL occurs as often as among the candidates, a posted one never. */
  function NewVideos(candidates: seq<string>, posted: set<string>): (r: seq<string>)
    ensures forall u :: u in r <==> u in candidates && u !in posted
    ensures forall u :: multiset(r)[u] == if u in posted then 0 else multiset(candidates)[u]
  {
    if candidates == [] then []
    else
      var rest := NewVideos(candidates[1..], posted);
      assert candidates == [candidates[0]] + candidates[1..];
      if candidates[0] in posted then rest else [candidates[0]] + rest
  }

  /** The platform's domain, which the admin's add handler looks for. */
  const TikTokDomain := "tiktok.com"

  lemma DomainIsLowercase()
    ensures Lower(TikTokDomain) == TikTokDomain
  {
    var d := TikTokDomain;
    assert forall k :: 0 <= k < |d| ==> 'a' <= d[k] <= 'z' || d[k] == '.';
    LowerOfLowercase(d);
  }

  /** `"tiktok.com" in url.lower()`: the only check the add handler makes on a URL. Any
      URL holding the domain as typed, in lower case, passes. */
  predicate IsTikTokUrl(url: string)
    ensures Contains(url, TikTokDomain) ==> IsTikTokUrl(url)
  {
    DomainIsLowercase();
    ContainsLowercaseInfix(url, TikTokDomain);
    Contains(Lower(url), TikTokDomain)
  }

  /** Every canonical URL passes the add handler's check, so whatever the pipeline posts
      could also have been added by hand. */
  lemma CanonicalUrlIsTikTok(v: TrendingVideo)
    ensures IsTikTokUrl(CanonicalUrl(v))
  {
    var scheme, rest := "https://www.", "/@" + v.username + "/video/" + v.id;
    assert UrlPrefix == scheme + TikTokDomain + "/@";
    assert CanonicalUrl(v) == scheme + TikTokDomain + rest;
    LowerAppend(scheme + TikTokDomain, rest);
    LowerAppend(scheme, TikTokDomain);
    DomainIsLowercase();
    ContainsInfix(Lower(scheme), TikTokDomain, Lower(rest));
  }

  /** Handles never contain `/`; then two videos with the same canonical URL are the same
      video, so deduplicating by URL is deduplicating by video. */
  lemma CanonicalUrlInjective(a: TrendingVideo, b: TrendingVideo)
    requires '/' !in a.username && '/' !in b.username
    requires CanonicalUrl(a) == CanonicalUrl(b)
    ensures a == b
  {
    if |a.username| < |b.username| {
      assert false;
    } else if |b.username| < |a.username| {
      assert false;
    }
  }

  /** `get_random_tiktok_url`. `trending` is what the feed produced for this cycle, `None`
      when the feed raised (the exception is logged and the cycle yields nothing). The
      random choice is any element of the unposted candidates. */
  method GetRandomTiktokUrl(db: DatabaseManager, trending: Option<seq<TrendingVideo>>)
    returns (r: Option<string>)
    ensures r.None? <==> trending.None? || NewVideos(Candidates(trending.value), db.urls) == []
    ensures r.Some? ==> trending.Some? && r.value in NewVideos(Candidates(trending.value), db.urls)
    ensures r.Some? ==> r.value !in db.urls
    ensures r.Some? ==> exists k :: 0 <= k < |trending.value| && r.value == CanonicalUrl(trending.value[k])
    ensures r.Some? ==> r.value != ""
  {
    var posted := db.GetAllPostedUrls();
    if trending.None? {
      return None;
    }
    var videos := trending.value;
    if |videos| == 0 {
      return None;
    }
    var potential := Candidates(videos);
    var newVideos := NewVideos(potential, posted);
    assert newVideos == NewVideos(potential, db.urls);
    if |newVideos| > 0 {
      var k :| 0 <= k < |newVideos|;
      r := Some(newVideos[k]);
      assert r.value in potential;
      var j :| 0 <= j < |potential| && potential[j] == r.value;
      assert r.value == CanonicalUrl(videos[j]);
    } else {
      r := None;
    }
  }

  /** A feed of three distinct videos A, B, C against a ledger holding A and B leaves C
      as the only candidate, so the random choice must pick C. */
  lemma OnlyUnpostedRemains(a: TrendingVideo, b: TrendingVideo, c: TrendingVideo)
    requires CanonicalUrl(c) != CanonicalUrl(a) && CanonicalUrl(c) != CanonicalUrl(b)
    ensures NewVideos(Candidates([a, b, c]), {CanonicalUrl(a), CanonicalUrl(b)}) == [CanonicalUrl(c)]
  {
    var cs := Candidates([a, b, c]);
    assert cs == [CanonicalUrl(a), CanonicalUrl(b), CanonicalUrl(c)];
    assert cs[1..] == [CanonicalUrl(b), CanonicalUrl(c)];
    assert cs[1..][1..] == [CanonicalUrl(c)];
    var posted := {CanonicalUrl(a), CanonicalUrl(b)};
    assert NewVideos(cs[1..][1..], posted) == [CanonicalUrl(c)];
    assert NewVideos(cs[1..], posted) == [CanonicalUrl(c)];
  }
}
