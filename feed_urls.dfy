/**
 * The request builder of the feed: `buildApiUrl` derives the
 * `ajaxgetusernews` endpoint from the page path and a timestamp, and
 * `getEarlierUrl` rewinds the first `start=<digits>` parameter of a URL.
 */
module FeedUrls {
  import opened Wrappers
  import opened Text

  const Origin := "https://steamcommunity.com/"
  const ApiPath := "/ajaxgetusernews/?"
  const StartKey := "start="
  const MyActivityFlag := "&myactivity=1"
  const MyActivityMarker := "myactivity"

  /** `hoursBack * 3600`, written with the literal so that the arithmetic stays linear. */
  function HoursToSeconds(hours: int): int { 3600 * hours }

  /** The two actor types of the path regex `/(id|profiles)/([^/]+)`. */
  datatype Kind = Id | Profiles

  function KindName(k: Kind): string
  {
    match k
    case Id => "id"
    case Profiles => "profiles"
  }

  /** The alternative of the path regex for one actor type. */
  function PathPattern(k: Kind): Pattern
  {
    match k
    case Id => Pattern("/id/", NotSlash, None)
    case Profiles => Pattern("/profiles/", NotSlash, None)
  }

  predicate NoProfileBefore(pathname: string, at: nat)
  {
    forall q :: 0 <= q < at ==> !MatchesAt(PathPattern(Id), pathname, q) && !MatchesAt(PathPattern(Profiles), pathname, q)
  }

  /** A match of the path regex: actor type, identifier, and where it starts. */
  datatype Profile = Profile(kind: Kind, identifier: string, at: nat)

  /** The leftmost match of `/(id|profiles)/([^/]+)` in the page path. */
  function ProfileMatch(pathname: string): (r: Option<Profile>)
    ensures r.None? <==> NoProfileBefore(pathname, |pathname|)
    ensures r.Some? ==> var m := r.value;
      && MatchesAt(PathPattern(m.kind), pathname, m.at)
      && NoProfileBefore(pathname, m.at)
      && m.identifier == Captured(PathPattern(m.kind), pathname, m.at)
    ensures r.Some? ==> 0 < |r.value.identifier| && '/' !in r.value.identifier
  {
    var a := FindFirst(PathPattern(Id), pathname, 0);
    var b := FindFirst(PathPattern(Profiles), pathname, 0);
    if a.Some? && (b.None? || a.value < b.value) then
      Some(Profile(Id, Captured(PathPattern(Id), pathname, a.value), a.value))
    else if b.Some? then
      Some(Profile(Profiles, Captured(PathPattern(Profiles), pathname, b.value), b.value))
    else
      None
  }

  /** The endpoint up to its query string: `https://steamcommunity.com/<kind>/<identifier>/ajaxgetusernews/?`. */
  function QueryBase(kind: Kind, identifier: string): string
  {
    Origin + KindName(kind) + "/" + identifier + ApiPath
  }

  /** What follows the timestamp: the `myactivity` flag or nothing. */
  function ActivitySuffix(myActivity: bool): string
  {
    if myActivity then MyActivityFlag else ""
  }

  /** The endpoint template of `buildApiUrl`. */
  function ApiUrl(kind: Kind, identifier: string, timestamp: string, myActivity: bool): string
  {
    QueryBase(kind, identifier) + StartKey + timestamp + ActivitySuffix(myActivity)
  }

  /** `buildApiUrl(timestamp)` with `location.pathname` passed in. */
  function BuildApiUrl(pathname: string, timestamp: string): (r: Option<string>)
    ensures r.None? <==> NoProfileBefore(pathname, |pathname|)
    ensures r.Some? ==> var m := ProfileMatch(pathname).value;
      r.value == ApiUrl(m.kind, m.identifier, timestamp, Contains(pathname, MyActivityMarker))
  {
    match ProfileMatch(pathname)
    case None => None
    case Some(m) => Some(ApiUrl(m.kind, m.identifier, timestamp, Contains(pathname, MyActivityMarker)))
  }

  /** The regex `start=(\d+)` of `getEarlierUrl`. */
  const StartParam := Pattern(StartKey, Digit, None)

  /** The value of the first `start=<digits>` parameter of a URL, if it has one. */
  function StartValue(url: string): (r: Option<nat>)
    ensures r.None? <==> forall q :: 0 <= q < |url| ==> !MatchesAt(StartParam, url, q)
  {
    FirstMatchValue(StartParam, url)
  }

  /** `getEarlierUrl(url, hoursBack)`: the first `start=<digits>` moved back by `hoursBack` hours. */
  function GetEarlierUrl(url: string, hoursBack: int := 24): Option<string>
  {
    match FindFirst(StartParam, url, 0)
    case None => None
    case Some(p) =>
      var digits := p + |StartKey|;
      var end := digits + Run(url, digits, Digit);
      Some(url[..p] + StartKey + Shifted(url[digits..end], hoursBack) + url[end..])
  }

  /** The decimal text of the timestamp `digits` moved `hoursBack` hours earlier. */
  function Shifted(digits: string, hoursBack: int): string
    requires AllDigits(digits)
  {
    IntToString(DecimalValue(digits) - HoursToSeconds(hoursBack))
  }

  /** `getEarlierUrl` gives null exactly when the URL has no `start=` followed by a digit. */
  lemma GetEarlierUrlFails(url: string, h: int)
    ensures GetEarlierUrl(url, h).None? <==> forall q :: 0 <= q < |url| ==> !MatchesAt(StartParam, url, q)
  {
  }

  /** A rewritten URL still holds `start=` at the position of the original match, so it is never empty. */
  lemma GetEarlierUrlKeepsKey(url: string, h: int)
    ensures GetEarlierUrl(url, h).Some? ==>
      && FindFirst(StartParam, url, 0).Some?
      && OccursAt(GetEarlierUrl(url, h).value, StartKey, FindFirst(StartParam, url, 0).value)
    ensures GetEarlierUrl(url, h).Some? ==> Contains(GetEarlierUrl(url, h).value, StartKey)
    ensures GetEarlierUrl(url, h).Some? ==> |GetEarlierUrl(url, h).value| >= |StartKey|
  {
    var f := FindFirst(StartParam, url, 0);
    if f.Some? {
      var p := f.value;
      var d := p + |StartKey|;
      var e := d + Run(url, d, Digit);
      var r := url[..p] + StartKey + Shifted(url[d..e], h) + url[e..];
      assert GetEarlierUrl(url, h) == Some(r);
      assert r[p..p + |StartKey|] == StartKey;
      assert OccursAt(r, StartKey, p);
    }
  }

  /** What a `start=` match looks like, character by character. */
  lemma StartMatchShape(s: string, q: nat)
    ensures MatchesAt(StartParam, s, q) ==>
      (forall j :: 0 <= j < |StartKey| ==> s[q + j] == StartKey[j]) && IsDigit(s[q + |StartKey|])
  {
    if MatchesAt(StartParam, s, q) {
      forall j | 0 <= j < |StartKey| ensures s[q + j] == StartKey[j] {
        assert s[q..q + |StartKey|][j] == s[q + j];
      }
    }
  }

  /** Where the first `start=` match of `pre + "start=" + w + tail` is, and how far its digits run. */
  lemma FirstStartAt(url: string, pre: string, w: string, tail: string)
    requires url == pre + StartKey + w + tail
    requires 0 < |w| && AllDigits(w)
    requires tail == [] || !IsDigit(tail[0])
    requires forall q :: 0 <= q < |pre| ==> !MatchesAt(StartParam, url, q)
    ensures FindFirst(StartParam, url, 0) == Some(|pre|)
    ensures Run(url, |pre| + |StartKey|, Digit) == |w|
  {
    var p := |pre|;
    var d := p + |StartKey|;
    assert url[p..d] == StartKey;
    RunIs(url, d, Digit, |w|);
    assert MatchesAt(StartParam, url, p);
    FindFirstIs(StartParam, url, p);
  }

  /** The three slices of `pre + "start=" + w + tail` around its digits. */
  lemma SlicesAroundDigits(url: string, pre: string, w: string, tail: string)
    requires url == pre + StartKey + w + tail
    ensures url[..|pre|] == pre
    ensures url[|pre| + |StartKey|..|pre| + |StartKey| + |w|] == w
    ensures url[|pre| + |StartKey| + |w|..] == tail
  {
    var s := pre + StartKey;
    assert url == s + w + tail;
    assert url[..|pre|] == s[..|pre|];
  }

  /**
   * Only the first `start=<digits>` is replaced and every other character is
   * kept: a URL that splits as `pre + "start=" + w + tail`, with no earlier
   * match, the digits `w` and a `tail` that does not continue them, is rewritten
   * to `pre + "start=" + (w − 3600·h) + tail`.
   */
  lemma RewriteOfFirstStart(url: string, pre: string, w: string, tail: string, h: int)
    requires url == pre + StartKey + w + tail
    requires 0 < |w| && AllDigits(w)
    requires tail == [] || !IsDigit(tail[0])
    requires forall q :: 0 <= q < |pre| ==> !MatchesAt(StartParam, url, q)
    ensures StartValue(url) == Some(DecimalValue(w))
    ensures GetEarlierUrl(url, h) == Some(pre + StartKey + Shifted(w, h) + tail)
  {
    FirstStartAt(url, pre, w, tail);
    SlicesAroundDigits(url, pre, w, tail);
    assert FindFirst(StartParam, url, 0) == Some(|pre|);
  }

  /** A `start=` match that ends before the first character after `x` cannot tell
      `x + y` from `x + z` when `y` and `z` both begin with a digit. */
  lemma SamePrefixSameStartMatch(x: string, y: string, z: string, q: nat)
    requires q + |StartKey| <= |x|
    requires 0 < |y| && 0 < |z| && IsDigit(y[0]) && IsDigit(z[0])
    ensures MatchesAt(StartParam, x + y, q) <==> MatchesAt(StartParam, x + z, q)
  {
    assert (x + y)[q..q + |StartKey|] == x[q..q + |StartKey|] == (x + z)[q..q + |StartKey|];
  }

  /** A URL with a `start=<digits>` parameter, cut around its first one. */
  lemma SplitAtStart(url: string) returns (pre: string, w: string, tail: string)
    requires StartValue(url).Some?
    ensures url == pre + StartKey + w + tail
    ensures 0 < |w| && AllDigits(w) && (tail == [] || !IsDigit(tail[0]))
    ensures forall q :: 0 <= q < |pre| ==> !MatchesAt(StartParam, url, q)
    ensures DecimalValue(w) == StartValue(url).value
  {
    var p := FindFirst(StartParam, url, 0).value;
    var d := p + |StartKey|;
    var e := d + Run(url, d, Digit);
    pre, w, tail := url[..p], url[d..e], url[e..];
    SplitFour(url, p, d, e);
    assert url[p..d] == StartKey;
    assert FindFirst(StartParam, url, 0) == Some(p);
  }

  /** Replacing the digits after the first `start=` by other digits keeps that match the first. */
  lemma SamePrefixNoStart(pre: string, w: string, w': string, tail: string)
    requires 0 < |w| && 0 < |w'| && IsDigit(w[0]) && IsDigit(w'[0])
    requires forall q :: 0 <= q < |pre| ==> !MatchesAt(StartParam, pre + StartKey + w + tail, q)
    ensures forall q :: 0 <= q < |pre| ==> !MatchesAt(StartParam, pre + StartKey + w' + tail, q)
  {
    var x := pre + StartKey;
    ConcatAssoc(x, w, tail);
    ConcatAssoc(x, w', tail);
    forall q | 0 <= q < |pre|
      ensures !MatchesAt(StartParam, x + (w' + tail), q)
    {
      SamePrefixSameStartMatch(x, w + tail, w' + tail, q);
    }
  }

  /** A rewind that stays non-negative yields decimal digits that read back as the new timestamp. */
  lemma ShiftedDecodes(w: string, h: int)
    requires AllDigits(w) && DecimalValue(w) >= HoursToSeconds(h)
    ensures var s := Shifted(w, h); 0 < |s| && AllDigits(s) && DecimalValue(s) == DecimalValue(w) - HoursToSeconds(h)
  {
    IntToStringOfNat(DecimalValue(w) - HoursToSeconds(h));
    NatToStringDecodes(DecimalValue(w) - HoursToSeconds(h));
  }

  /** Two rewinds by `a` and `b` hours shift the timestamp as one rewind by `a + b`. */
  lemma ShiftTwice(w: string, w': string, a: int, b: int)
    requires AllDigits(w) && AllDigits(w')
    requires DecimalValue(w') == DecimalValue(w) - HoursToSeconds(a)
    ensures Shifted(w', b) == Shifted(w, a + b)
  {
  }

  /** A rewind that stays non-negative leaves a URL whose first `start=` holds the rewound value. */
  lemma RewindValue(url: string, h: int)
    requires StartValue(url).Some? && StartValue(url).value >= HoursToSeconds(h)
    ensures GetEarlierUrl(url, h).Some?
    ensures StartValue(GetEarlierUrl(url, h).value) == Some(StartValue(url).value - HoursToSeconds(h))
  {
    var pre, w, tail := SplitAtStart(url);
    var w' := Shifted(w, h);
    RewriteOfFirstStart(url, pre, w, tail, h);
    ShiftedDecodes(w, h);
    SamePrefixNoStart(pre, w, w', tail);
    RewriteOfFirstStart(pre + StartKey + w' + tail, pre, w', tail, 0);
  }

  /** Rewinds accumulate: rewinding by `a` hours and then by `b` hours is one rewind by `a + b`,
      as long as the first rewind does not go below zero. */
  lemma RewindsCompose(url: string, a: int, b: int)
    requires StartValue(url).Some? && StartValue(url).value >= HoursToSeconds(a)
    ensures GetEarlierUrl(url, a).Some?
    ensures GetEarlierUrl(GetEarlierUrl(url, a).value, b) == GetEarlierUrl(url, a + b)
  {
    var pre, w, tail := SplitAtStart(url);
    var w' := Shifted(w, a);
    RewriteOfFirstStart(url, pre, w, tail, a);
    RewriteOfFirstStart(url, pre, w, tail, a + b);
    ShiftedDecodes(w, a);
    ShiftTwice(w, w', a, b);
    SamePrefixNoStart(pre, w, w', tail);
    RewriteOfFirstStart(pre + StartKey + w' + tail, pre, w', tail, b);
  }

  /**
   * No `start=` match begins before index `n` of `u` when the only '=' before
   * `n + 5` lies in a window `[lo, hi)` that follows a slash and does not hold
   * `start=` itself: a match needs its '=' in the window and no slash before it.
   */
  lemma NoStartInSlashWindow(u: string, lo: nat, hi: nat, n: nat)
    requires 0 < lo <= |u| && lo <= hi && u[lo - 1] == '/'
    requires forall k :: 0 <= k < n + 5 && k < |u| && !(lo <= k < hi) ==> u[k] != '='
    requires forall q: nat :: lo <= q && q + |StartKey| <= hi ==> !OccursAt(u, StartKey, q)
    ensures forall q :: 0 <= q < n ==> !MatchesAt(StartParam, u, q)
  {
    forall q | 0 <= q < n
      ensures !MatchesAt(StartParam, u, q)
    {
      StartMatchShape(u, q);
      if q + 5 >= |u| || !(lo <= q + 5 < hi) {
        assert q + 5 >= |u| || u[q + 5] != StartKey[5];
      } else if q < lo {
        assert u[q + (lo - 1 - q)] != StartKey[lo - 1 - q];
      } else {
        assert !OccursAt(u, StartKey, q);
      }
    }
  }

  /**
   * `a + identifier + b + "start=" + rest` has no `start=` match before `b` ends
   * when `a` ends with a slash, neither `a` nor `b` holds '=' and the identifier
   * does not hold `start=`.
   */
  lemma NoStartAroundIdentifier(a: string, identifier: string, b: string, rest: string, u: string)
    requires u == a + identifier + b + StartKey + rest
    requires 0 < |a| && a[|a| - 1] == '/' && '=' !in a
    requires '=' !in b
    requires !Contains(identifier, StartKey)
    ensures forall q :: 0 <= q < |a + identifier + b| ==> !MatchesAt(StartParam, u, q)
  {
    var lo := |a|;
    var hi := lo + |identifier|;
    var n := hi + |b|;
    assert u[lo - 1] == a[lo - 1];
    forall k | 0 <= k < n + 5 && k < |u| && !(lo <= k < hi)
      ensures u[k] != '='
    {
      if k < lo {
        assert u[k] == a[k];
      } else if k < n {
        assert u[k] == b[k - hi];
      } else {
        assert u[k] == StartKey[k - n];
      }
    }
    forall q: nat | lo <= q && q + |StartKey| <= hi
      ensures !OccursAt(u, StartKey, q)
    {
      assert !OccursAt(identifier, StartKey, q - lo);
      var ai := a + identifier;
      assert u[..hi] == ai;
      assert u[q..q + |StartKey|] == ai[q..q + |StartKey|];
      assert ai[q..q + |StartKey|] == identifier[q - lo..q - lo + |StartKey|];
    }
    NoStartInSlashWindow(u, lo, hi, n);
  }

  lemma OriginHasNoEquals()
    ensures '=' !in Origin
  {
  }

  /** An identifier without `start=` keeps its endpoint free of matches before the query. */
  lemma NoStartBeforeQuery(kind: Kind, identifier: string, rest: string, u: string)
    requires u == QueryBase(kind, identifier) + StartKey + rest
    requires !Contains(identifier, StartKey)
    ensures forall q :: 0 <= q < |QueryBase(kind, identifier)| ==> !MatchesAt(StartParam, u, q)
  {
    var a := Origin + KindName(kind) + "/";
    OriginHasNoEquals();
    assert '=' !in KindName(kind);
    assert '=' !in a;
    NoStartAroundIdentifier(a, identifier, ApiPath, rest, u);
  }

  /** Rewinding the canonical decimal text of `t` gives the canonical text of `t − 3600·h`. */
  lemma ShiftedCanonical(t: nat, h: int)
    requires t >= HoursToSeconds(h)
    ensures AllDigits(NatToString(t)) && Shifted(NatToString(t), h) == NatToString(t - HoursToSeconds(h))
  {
    NatToStringDecodes(t);
    IntToStringOfNat(t - HoursToSeconds(h));
  }

  /** The round trip on the endpoint template. */
  lemma ApiUrlRewindFor(kind: Kind, identifier: string, t: nat, h: int, myActivity: bool)
    requires !Contains(identifier, StartKey)
    requires t >= HoursToSeconds(h)
    ensures GetEarlierUrl(ApiUrl(kind, identifier, NatToString(t), myActivity), h)
         == Some(ApiUrl(kind, identifier, NatToString(t - HoursToSeconds(h)), myActivity))
  {
    var pre := QueryBase(kind, identifier);
    var w := NatToString(t);
    var tail := ActivitySuffix(myActivity);
    var u := ApiUrl(kind, identifier, w, myActivity);
    NatToStringDecodes(t);
    ConcatAssoc(pre + StartKey, w, tail);
    NoStartBeforeQuery(kind, identifier, w + tail, u);
    RewriteOfFirstStart(u, pre, w, tail, h);
    ShiftedCanonical(t, h);
  }

  /**
   * Round trip of the two helpers: rewinding a built URL by `h` hours gives the
   * URL built for a timestamp `3600·h` seconds earlier, for a canonical decimal
   * timestamp that stays non-negative and an identifier without `start=`.
   */
  lemma ApiUrlRewind(pathname: string, t: nat, h: int)
    requires ProfileMatch(pathname).Some?
    requires !Contains(ProfileMatch(pathname).value.identifier, StartKey)
    requires t >= HoursToSeconds(h)
    ensures BuildApiUrl(pathname, NatToString(t)).Some?
    ensures GetEarlierUrl(BuildApiUrl(pathname, NatToString(t)).value, h)
         == BuildApiUrl(pathname, NatToString(t - HoursToSeconds(h)))
  {
    var m := ProfileMatch(pathname).value;
    ApiUrlRewindFor(m.kind, m.identifier, t, h, Contains(pathname, MyActivityMarker));
  }
}
