/**
 * The request builder's boundary cases.
 */
module UrlCases {
  import opened Wrappers
  import opened Text
  import opened FeedUrls

  /** A path with neither an `/id/` nor a `/profiles/` segment builds no URL. */
  lemma NoActorSegmentBuildsNothing(pathname: string, ts: string)
    requires !Contains(pathname, "/id/") && !Contains(pathname, "/profiles/")
    ensures BuildApiUrl(pathname, ts).None?
  {
  }

  /** The `/my/...` pages the script also runs on name no actor, so no URL is built. */
  lemma MyHomeBuildsNothing(ts: string)
    ensures BuildApiUrl("/my/home", ts).None?
  {
    MissingCharExcludes("/my/home", "/id/", 'd');
    MissingCharExcludes("/my/home", "/profiles/", 'p');
    NoActorSegmentBuildsNothing("/my/home", ts);
  }

  lemma MyActivityBuildsNothing(ts: string)
    ensures BuildApiUrl("/my/myactivity", ts).None?
  {
    MissingCharExcludes("/my/myactivity", "/id/", 'd');
    MissingCharExcludes("/my/myactivity", "/profiles/", 'p');
    NoActorSegmentBuildsNothing("/my/myactivity", ts);
  }

  /** A path that starts with an actor segment matches it there. */
  lemma ProfileAtStart(path: string, kind: Kind, n: nat)
    requires OccursAt(path, PathPattern(kind).lit, 0)
    requires var d := |PathPattern(kind).lit|;
      && 0 < n && d + n <= |path|
      && (forall k :: d <= k < d + n ==> path[k] != '/')
      && (d + n == |path| || path[d + n] == '/')
    ensures ProfileMatch(path) == Some(Profile(kind, path[|PathPattern(kind).lit|..|PathPattern(kind).lit| + n], 0))
  {
    var d := |PathPattern(kind).lit|;
    var other := if kind == Id then Profiles else Id;
    assert path[1] == path[0..d][1] == PathPattern(kind).lit[1];
    assert path[1] != PathPattern(other).lit[1];
    assert !MatchesAt(PathPattern(other), path, 0);
    RunIs(path, d, NotSlash, n);
    assert MatchesAt(PathPattern(kind), path, 0);
    FindFirstIs(PathPattern(kind), path, 0);
  }

  const AlicePath := "/id/alice/myactivity"
  const NumericPath := "/profiles/12345/home"

  lemma AlicePathLiteral()
    ensures OccursAt(AlicePath, "/id/", 0) && AlicePath[4..9] == "alice"
  {
    assert AlicePath[0..4] == "/id/";
  }

  lemma AlicePathSegment()
    ensures (forall k :: 4 <= k < 9 ==> AlicePath[k] != '/') && AlicePath[9] == '/'
  {
  }

  /** The path regex on `/id/alice/myactivity`: the `id` alternative, identifier `alice`. */
  lemma AliceProfile()
    ensures ProfileMatch(AlicePath) == Some(Profile(Id, "alice", 0))
  {
    AlicePathLiteral();
    AlicePathSegment();
    ProfileAtStart(AlicePath, Id, 5);
  }

  lemma AlicePathActivity()
    ensures Contains(AlicePath, MyActivityMarker)
  {
    assert AlicePath[10..20] == MyActivityMarker;
    assert OccursAt(AlicePath, MyActivityMarker, 10);
  }

  /** A personal-activity page adds the `myactivity` flag to the endpoint. */
  lemma AliceActivityUrl(ts: string)
    ensures BuildApiUrl(AlicePath, ts) == Some(ApiUrl(Id, "alice", ts, true))
  {
    AliceProfile();
    AlicePathActivity();
  }

  lemma NumericPathLiteral()
    ensures OccursAt(NumericPath, "/profiles/", 0) && NumericPath[10..15] == "12345"
  {
    assert NumericPath[0..10] == "/profiles/";
  }

  lemma NumericPathSegment()
    ensures (forall k :: 10 <= k < 15 ==> NumericPath[k] != '/') && NumericPath[15] == '/'
  {
  }

  lemma NumericPathNoActivity()
    ensures !Contains(NumericPath, MyActivityMarker)
  {
    assert 'y' in MyActivityMarker && 'y' !in NumericPath;
    MissingCharExcludes(NumericPath, MyActivityMarker, 'y');
  }

  /** The path regex on `/profiles/12345/home`: the `profiles` alternative, identifier `12345`. */
  lemma NumericProfile()
    ensures ProfileMatch(NumericPath) == Some(Profile(Profiles, "12345", 0))
  {
    NumericPathLiteral();
    NumericPathSegment();
    ProfileAtStart(NumericPath, Profiles, 5);
  }

  /** Any other page of a numeric profile gets no `myactivity` flag. */
  lemma NumericHomeUrl(ts: string)
    ensures BuildApiUrl(NumericPath, ts) == Some(ApiUrl(Profiles, "12345", ts, false))
  {
    NumericProfile();
    NumericPathNoActivity();
  }

  /** A URL without '=' has no `start` parameter and cannot be rewound. */
  lemma NoEqualsCannotRewind(url: string, h: int)
    requires '=' !in url
    ensures GetEarlierUrl(url, h).None?
  {
    MissingCharExcludes(url, StartKey, '=');
    GetEarlierUrlFails(url, h);
  }

  /** `start=1000` moved back 24 hours is `start=-85400`: the rewind may go below zero. */
  lemma ShiftOfThousand()
    ensures Shifted("1000", 24) == "-85400"
  {
    assert "10"[..1] == "1" && "100"[..2] == "10" && "1000"[..3] == "100";
    assert DecimalValue("1000") == 1000;
    assert NatToString(8) == "8";
    assert NatToString(85) == "85";
    assert NatToString(854) == "854";
    assert NatToString(8540) == "8540";
    assert NatToString(85400) == "85400";
  }

  /** Without '=' before it, no match begins before a `start=`; it is the first match when a digit follows it. */
  lemma NoEqualsNoEarlierStart(pre: string, rest: string)
    requires '=' !in pre
    ensures forall q :: 0 <= q < |pre| ==> !MatchesAt(StartParam, pre + StartKey + rest, q)
    ensures 0 < |rest| && IsDigit(rest[0]) ==> FindFirst(StartParam, pre + StartKey + rest, 0) == Some(|pre|)
  {
    var u := pre + StartKey + rest;
    forall q | 0 <= q < |pre|
      ensures !MatchesAt(StartParam, u, q)
    {
      StartMatchShape(u, q);
      if q + 5 < |pre| {
        assert u[q + 5] == pre[q + 5];
      } else {
        assert u[q + 5] == StartKey[q + 5 - |pre|];
      }
    }
    if 0 < |rest| && IsDigit(rest[0]) {
      assert u[|pre|..|pre| + |StartKey|] == StartKey;
      assert u[|pre| + |StartKey|] == rest[0];
      FindFirstIs(StartParam, u, |pre|);
    }
  }

  /** `getEarlierUrl("…start=1000…", 24)` is `"…start=-85400…"`. */
  lemma RewindOfSmallStart(pre: string, tail: string)
    requires '=' !in pre
    requires tail == [] || !IsDigit(tail[0])
    ensures GetEarlierUrl(pre + "start=1000" + tail, 24) == Some(pre + "start=-85400" + tail)
  {
    var url := pre + StartKey + "1000" + tail;
    assert StartKey + "1000" == "start=1000" && StartKey + "-85400" == "start=-85400";
    ConcatAssoc(pre, StartKey, "1000");
    ConcatAssoc(pre, StartKey, "-85400");
    ConcatAssoc(pre + StartKey, "1000", tail);
    NoEqualsNoEarlierStart(pre, "1000" + tail);
    RewriteOfFirstStart(url, pre, "1000", tail, 24);
    ShiftOfThousand();
  }
}
