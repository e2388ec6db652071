/**
 * The decision rules of the subscription endpoints, without the web framework,
 * authentication, events and background scheduling: how an update adjusts the
 * missing-episode count, the allowed states, the reset, the media-id prefixes,
 * the Overseerr/Jellyseerr webhook, following sharers and the popularity filter.
 *
 * Database lookups are parameters (`find`, `listByTmdb`) whose results the
 * rules consume; the tasks a webhook would schedule are returned as a list.
 */
module SubscribeEndpoints {
  import opened Wrappers
  import opened Text

  /** "subscription does not exist" */
  const NotFound: string := "订阅不存在"
  /** "invalid subscription state" */
  const InvalidState: string := "无效的订阅状态"
  /** "authorization failed" */
  const AuthFailed: string := "授权失败"
  /** "the message body is empty" */
  const EmptyBody: string := "报文内容为空"
  /** "unsupported notification type" */
  const UnsupportedType: string := "不支持的通知类型"
  /** "request parameters are incorrect" */
  const BadParameters: string := "请求参数不正确"

  const ValidStates: seq<string> := ["R", "P", "S"]
  const AcceptedNotifications: seq<string> := ["MEDIA_APPROVED", "MEDIA_AUTO_APPROVED"]
  const RequestedSeasons: string := "Requested Seasons"

  /** What an endpoint answers: a response body, or an exception turned into an HTTP error. */
  datatype Outcome =
    | Responded(success: bool, message: string)
    | Raised(status: nat, detail: string)

  predicate Succeeded(out: Outcome)
  {
    out.Responded? && out.success
  }

  /** The subscription columns these rules read or write. */
  datatype Subscribe = Subscribe(
    id: int, name: Option<string>, tmdbid: Option<int>, doubanid: Option<string>,
    bangumiid: Option<int>, mediaid: Option<string>, season: Option<int>,
    totalEpisode: Option<int>, lackEpisode: Option<int>, manualTotalEpisode: Option<int>,
    state: Option<string>, note: seq<string>)

  // ---------------------------------------------------------------------------
  // Updating a subscription

  /** The growth branch: a missing count and a total are given, and the total exceeds the stored one. */
  predicate TotalGrows(stored: Subscribe, incoming: Subscribe)
  {
    IntTruthy(incoming.lackEpisode) && IntTruthy(incoming.totalEpisode) &&
    incoming.totalEpisode.value > OrZero(stored.totalEpisode)
  }

  /** The stored subscription after an update, or the failure of adding to a missing count that is null. */
  datatype Update = Saved(record: Subscribe) | AdditionFails

  /**
   * The subscription an update stores. The incoming fields replace the stored
   * ones, except that a missing count of zero or none keeps the stored count,
   * a growing total raises the stored count by the growth, and a changed total
   * marks the total as edited by hand.
   */
  function UpdatedSubscribe(stored: Subscribe, incoming: Subscribe): (u: Update)
    ensures u.AdditionFails? <==> TotalGrows(stored, incoming) && stored.lackEpisode.None?
    ensures u.Saved? ==>
              && (!IntTruthy(incoming.lackEpisode) ==> u.record.lackEpisode == stored.lackEpisode)
              && (TotalGrows(stored, incoming) ==>
                    u.record.lackEpisode == Some(stored.lackEpisode.value +
                                                 (incoming.totalEpisode.value - OrZero(stored.totalEpisode))))
              && (IntTruthy(incoming.lackEpisode) && !TotalGrows(stored, incoming) ==>
                    u.record.lackEpisode == incoming.lackEpisode)
              && (incoming.totalEpisode != stored.totalEpisode ==> u.record.manualTotalEpisode == Some(1))
              && (incoming.totalEpisode == stored.totalEpisode ==>
                    u.record.manualTotalEpisode == incoming.manualTotalEpisode)
              && u.record.(lackEpisode := incoming.lackEpisode,
                           manualTotalEpisode := incoming.manualTotalEpisode) == incoming
  {
    if TotalGrows(stored, incoming) && stored.lackEpisode.None? then AdditionFails
    else
      var lack :=
        if !IntTruthy(incoming.lackEpisode) then stored.lackEpisode
        else if TotalGrows(stored, incoming) then
          Some(stored.lackEpisode.value + (incoming.totalEpisode.value - OrZero(stored.totalEpisode)))
        else incoming.lackEpisode;
      var manual := if incoming.totalEpisode != stored.totalEpisode then Some(1) else incoming.manualTotalEpisode;
      Saved(incoming.(lackEpisode := lack, manualTotalEpisode := manual))
  }

  /**
   * When the total grows, the number of episodes already obtained (total minus
   * missing) stays what it was, whatever missing count the caller sent.
   */
  lemma UpdateKeepsObtainedEpisodes(stored: Subscribe, incoming: Subscribe)
    requires TotalGrows(stored, incoming) && stored.lackEpisode.Some?
    ensures UpdatedSubscribe(stored, incoming).Saved?
    ensures var r := UpdatedSubscribe(stored, incoming).record;
            r.totalEpisode.value - r.lackEpisode.value == OrZero(stored.totalEpisode) - stored.lackEpisode.value
  {
  }

  /**
   * `update_subscribe`: look the subscription up, build the update dictionary
   * from the incoming fields (dropping or adjusting `lack_episode`, flagging a
   * changed total), and store it.
   */
  method UpdateSubscribe(stored: Option<Subscribe>, incoming: Subscribe) returns (out: Outcome, saved: Option<Subscribe>)
    ensures stored.None? ==> out == Responded(false, NotFound) && saved == None
    ensures stored.Some? && UpdatedSubscribe(stored.value, incoming).AdditionFails? ==> out.Raised? && saved == None
    ensures stored.Some? && UpdatedSubscribe(stored.value, incoming).Saved? ==>
              out == Responded(true, "") && saved == Some(UpdatedSubscribe(stored.value, incoming).record)
  {
    if stored.None? {
      return Responded(false, NotFound), None;
    }
    var subscribe := stored.value;
    // the update dictionary: every incoming field, `lack_episode` while `hasLack` holds
    var subscribeDict := incoming;
    var hasLack := true;
    if !IntTruthy(incoming.lackEpisode) {
      hasLack := false;
    } else if IntTruthy(incoming.totalEpisode) {
      if incoming.totalEpisode.value > OrZero(subscribe.totalEpisode) {
        if subscribe.lackEpisode.None? {
          return Raised(500, "TypeError"), None;
        }
        subscribeDict := subscribeDict.(lackEpisode := Some(subscribe.lackEpisode.value +
                                          (incoming.totalEpisode.value - OrZero(subscribe.totalEpisode))));
      }
    }
    if incoming.totalEpisode != subscribe.totalEpisode {
      subscribeDict := subscribeDict.(manualTotalEpisode := Some(1));
    }
    // storing assigns every key of the dictionary
    var updated := if hasLack then subscribeDict else subscribeDict.(lackEpisode := subscribe.lackEpisode);
    out, saved := Responded(true, ""), Some(updated);
  }

  /**
   * `update_subscribe_status`: a missing subscription is rejected first, then a
   * state outside R, P, S; a valid state replaces the state and nothing else.
   */
  function UpdateSubscribeStatus(stored: Option<Subscribe>, state: string): (r: (Outcome, Option<Subscribe>))
    ensures stored.None? ==> r == (Responded(false, NotFound), None)
    ensures stored.Some? && state !in ValidStates ==> r == (Responded(false, InvalidState), stored)
    ensures Succeeded(r.0) <==> stored.Some? && state in ValidStates
    ensures Succeeded(r.0) ==>
              r.1.Some? && r.1.value.state == Some(state) && r.1.value.(state := stored.value.state) == stored.value
    ensures !Succeeded(r.0) ==> r.1 == stored
  {
    if stored.None? then (Responded(false, NotFound), None)
    else if state !in ValidStates then (Responded(false, InvalidState), stored)
    else (Responded(true, ""), Some(stored.value.(state := Some(state))))
  }

  /** After any status update the stored state is one of R, P, S if it was one before. */
  lemma StatusStaysValid(stored: Subscribe, state: string)
    requires stored.state.Some? && stored.state.value in ValidStates
    ensures var r := UpdateSubscribeStatus(Some(stored), state).1;
            r.Some? && r.value.state.Some? && r.value.state.value in ValidStates
  {
  }

  /** `reset_subscribes`: clear the note, make every episode missing again and set the state to R. */
  function ResetSubscribe(stored: Option<Subscribe>): (r: (Outcome, Option<Subscribe>))
    ensures stored.None? ==> r == (Responded(false, NotFound), None)
    ensures stored.Some? ==>
              && r.0 == Responded(true, "")
              && r.1.Some?
              && r.1.value.note == []
              && r.1.value.lackEpisode == stored.value.totalEpisode
              && r.1.value.state == Some("R")
              && r.1.value.(note := stored.value.note, lackEpisode := stored.value.lackEpisode,
                            state := stored.value.state) == stored.value
  {
    match stored
    case None => (Responded(false, NotFound), None)
    case Some(subscribe) =>
      (Responded(true, ""), Some(subscribe.(note := [], lackEpisode := subscribe.totalEpisode, state := Some("R"))))
  }

  /** Resetting twice stores the same subscription as resetting once. */
  lemma ResetIdempotent(stored: Subscribe)
    ensures ResetSubscribe(ResetSubscribe(Some(stored)).1) == ResetSubscribe(Some(stored))
  {
  }

  // ---------------------------------------------------------------------------
  // Media ids

  const TmdbPrefix: string := "tmdb:"
  const DoubanPrefix: string := "douban:"
  const BangumiPrefix: string := "bangumi:"

  predicate StartsWith(s: string, prefix: string)
  {
    |prefix| <= |s| && s[..|prefix|] == prefix
  }

  /** What a media id names once its prefix is read. */
  datatype MediaKey =
    | Tmdb(tmdbid: nat)
    | Douban(doubanid: string)
    | Bangumi(bangumiid: nat)
    | Other(mediaid: string)
    | Malformed

  /**
   * The prefix dispatch: `tmdb:` and `bangumi:` need a digit suffix, `douban:`
   * a non-empty one; anything else is a raw media id. The deletion endpoint
   * has no `bangumi:` branch, which `bangumi` = false stands for.
   */
  function ParseMediaId(mediaid: string, bangumi: bool): (k: MediaKey)
    ensures k.Tmdb? ==> StartsWith(mediaid, TmdbPrefix) && IsDigits(mediaid[5..]) &&
                        k.tmdbid == DecimalValue(mediaid[5..])
    ensures k.Douban? ==> mediaid == DoubanPrefix + k.doubanid && k.doubanid != ""
    ensures k.Bangumi? ==> bangumi && StartsWith(mediaid, BangumiPrefix) && IsDigits(mediaid[8..]) &&
                           k.bangumiid == DecimalValue(mediaid[8..])
    ensures k.Other? ==> k.mediaid == mediaid && !StartsWith(mediaid, TmdbPrefix) &&
                         !StartsWith(mediaid, DoubanPrefix) && (bangumi ==> !StartsWith(mediaid, BangumiPrefix))
    ensures k.Malformed? <==>
              || (StartsWith(mediaid, TmdbPrefix) && !IsDigits(mediaid[5..]))
              || (StartsWith(mediaid, DoubanPrefix) && |mediaid| == 7)
              || (bangumi && StartsWith(mediaid, BangumiPrefix) && !IsDigits(mediaid[8..]))
  {
    if StartsWith(mediaid, TmdbPrefix) then
      var tmdbid := mediaid[5..];
      if IsDigits(tmdbid) then Tmdb(DecimalValue(tmdbid)) else Malformed
    else if StartsWith(mediaid, DoubanPrefix) then
      var doubanid := mediaid[7..];
      assert mediaid == DoubanPrefix + doubanid;
      if doubanid == "" then Malformed else Douban(doubanid)
    else if bangumi && StartsWith(mediaid, BangumiPrefix) then
      var bangumiid := mediaid[8..];
      if IsDigits(bangumiid) then Bangumi(DecimalValue(bangumiid)) else Malformed
    else Other(mediaid)
  }

  /** The media id that names a key. */
  function MediaIdString(k: MediaKey): string
    requires !k.Malformed?
  {
    match k
    case Tmdb(n) => TmdbPrefix + DecimalString(n)
    case Douban(d) => DoubanPrefix + d
    case Bangumi(n) => BangumiPrefix + DecimalString(n)
    case Other(m) => m
  }

  /** Every well-formed key is read back from its media id. */
  lemma MediaIdRoundTrip(k: MediaKey, bangumi: bool)
    requires !k.Malformed?
    requires k.Douban? ==> k.doubanid != ""
    requires k.Bangumi? ==> bangumi
    requires k.Other? ==> !StartsWith(k.mediaid, TmdbPrefix) && !StartsWith(k.mediaid, DoubanPrefix) &&
                          (bangumi ==> !StartsWith(k.mediaid, BangumiPrefix))
    ensures ParseMediaId(MediaIdString(k), bangumi) == k
  {
    var s := MediaIdString(k);
    match k
    case Tmdb(n) =>
      assert s[..5] == TmdbPrefix && s[5..] == DecimalString(n);
      DecimalRoundTrip(n);
    case Douban(d) =>
      assert s[..7] == DoubanPrefix && s[0] != TmdbPrefix[0];
    case Bangumi(n) =>
      assert s[..8] == BangumiPrefix && s[8..] == DecimalString(n);
      assert s[0] != TmdbPrefix[0] && s[0] != DoubanPrefix[0];
      DecimalRoundTrip(n);
    case Other(m) =>
  }

  /** The database lookups the endpoints use. */
  datatype Lookup =
    | ByTmdb(tmdbid: nat, season: Option<int>)
    | ByDouban(doubanid: string)
    | ByBangumi(bangumiid: nat)
    | ByMediaId(mediaid: string)
    | ByTitle(title: string, season: Option<int>)

  /** The lookup by title: the title is parsed, and a given season replaces the parsed one. */
  function TitleLookup(title: string, season: Option<int>): Lookup
  {
    ByTitle(title, if IntTruthy(season) then season else None)
  }

  /** The lookup a well-formed key asks for first. */
  function PrimaryLookup(k: MediaKey, season: Option<int>): Lookup
    requires !k.Malformed?
  {
    match k
    case Tmdb(n) => ByTmdb(n, season)
    case Douban(d) => ByDouban(d)
    case Bangumi(n) => ByBangumi(n)
    case Other(m) => ByMediaId(m)
  }

  /**
   * `subscribe_mediaid`: the subscription a media id names (`None` for the empty
   * subscription). A malformed id finds nothing; a TMDB id is looked up with the
   * season; a Douban, Bangumi or raw id that finds nothing falls back to the title.
   */
  function SubscribeByMediaId(mediaid: string, season: Option<int>, title: Option<string>,
                              find: Lookup -> Option<Subscribe>): (r: Option<Subscribe>)
    ensures ParseMediaId(mediaid, true).Malformed? ==> r.None?
    ensures ParseMediaId(mediaid, true).Tmdb? ==> r == find(ByTmdb(ParseMediaId(mediaid, true).tmdbid, season))
    ensures var k := ParseMediaId(mediaid, true);
            !k.Malformed? && !k.Tmdb? ==>
              && (find(PrimaryLookup(k, season)).Some? ==> r == find(PrimaryLookup(k, season)))
              && (find(PrimaryLookup(k, season)).None? && Truthy(title) ==> r == find(TitleLookup(title.value, season)))
              && (find(PrimaryLookup(k, season)).None? && !Truthy(title) ==> r.None?)
  {
    var k := ParseMediaId(mediaid, true);
    if k.Malformed? then None
    else
      var result := find(PrimaryLookup(k, season));
      var titleCheck := !k.Tmdb? && result.None? && Truthy(title);
      if titleCheck then find(TitleLookup(title.value, season)) else result
  }

  /** The TMDB branch never consults the title. */
  lemma TmdbIgnoresTitle(mediaid: string, season: Option<int>, t1: Option<string>, t2: Option<string>,
                         find: Lookup -> Option<Subscribe>)
    requires StartsWith(mediaid, TmdbPrefix)
    ensures SubscribeByMediaId(mediaid, season, t1, find) == SubscribeByMediaId(mediaid, season, t2, find)
  {
    var k := ParseMediaId(mediaid, true);
    assert k.Tmdb? || k.Malformed? by {
      assert mediaid[0] == 't';
    }
  }

  /**
   * `delete_subscribe_by_mediaid`: the subscriptions to delete. A TMDB id
   * selects every subscription with that id (and season); a Douban or raw id at
   * most one; a malformed TMDB or Douban id is refused.
   */
  function DeleteByMediaId(mediaid: string, season: Option<int>,
                           listByTmdb: (nat, Option<int>) -> seq<Subscribe>,
                           find: Lookup -> Option<Subscribe>): (r: (Outcome, seq<Subscribe>))
    ensures Succeeded(r.0) <==> !ParseMediaId(mediaid, false).Malformed?
    ensures !Succeeded(r.0) ==> r == (Responded(false, ""), [])
    ensures var k := ParseMediaId(mediaid, false);
            k.Tmdb? ==> r.1 == listByTmdb(k.tmdbid, season)
    ensures var k := ParseMediaId(mediaid, false);
            (k.Douban? || k.Other?) ==>
              r.1 == (if find(PrimaryLookup(k, season)).Some? then [find(PrimaryLookup(k, season)).value] else [])
  {
    var k := ParseMediaId(mediaid, false);
    if k.Malformed? then (Responded(false, ""), [])
    else if k.Tmdb? then (Responded(true, ""), listByTmdb(k.tmdbid, season))
    else
      var subscribe := find(if k.Douban? then ByDouban(k.doubanid) else ByMediaId(mediaid));
      (Responded(true, ""), if subscribe.Some? then [subscribe.value] else [])
  }

  /** Deletion has no Bangumi branch: a `bangumi:` id is deleted as a raw media id. */
  lemma DeleteTreatsBangumiAsMediaId(mediaid: string, season: Option<int>,
                                     listByTmdb: (nat, Option<int>) -> seq<Subscribe>,
                                     find: Lookup -> Option<Subscribe>)
    requires StartsWith(mediaid, BangumiPrefix)
    ensures ParseMediaId(mediaid, false) == Other(mediaid)
    ensures DeleteByMediaId(mediaid, season, listByTmdb, find).1 ==
            (if find(ByMediaId(mediaid)).Some? then [find(ByMediaId(mediaid)).value] else [])
  {
    assert mediaid[0] == 'b';
  }

  // ---------------------------------------------------------------------------
  // The Overseerr/Jellyseerr webhook

  datatype MediaType = Movie | Tv

  /** One entry of the notification's `extra` list. */
  datatype Extra = Extra(name: Option<string>, value: string)

  /** The fields of a webhook notification these rules read. */
  datatype SeerrNotification = SeerrNotification(
    notificationType: Option<string>, subject: Option<string>, mediaType: Option<string>,
    tmdbId: Option<int>, requestedBy: Option<string>, extras: seq<Extra>)

  /** A subscription the webhook would add in the background. */
  datatype SubscribeTask = SubscribeTask(mtype: MediaType, tmdbid: int, title: string, year: string,
                                         season: nat, username: Option<string>)

  /** The season numbers among the tokens, in order: the all-digit tokens read as numbers. */
  function DigitTokens(tokens: seq<string>): (seasons: seq<nat>)
    ensures |seasons| <= |tokens|
    ensures (forall i :: 0 <= i < |tokens| ==> IsDigits(tokens[i])) ==>
              |seasons| == |tokens| && forall i :: 0 <= i < |tokens| ==> seasons[i] == DecimalValue(tokens[i])
    ensures (forall i :: 0 <= i < |tokens| ==> !IsDigits(tokens[i])) ==> seasons == []
  {
    if tokens == [] then []
    else (if IsDigits(tokens[0]) then [DecimalValue(tokens[0])] else []) + DigitTokens(tokens[1..])
  }

  /** A number is among the seasons exactly when some all-digit token reads as it. */
  lemma {:induction false} DigitTokensMembers(tokens: seq<string>)
    ensures forall n :: n in DigitTokens(tokens) <==>
              exists i :: 0 <= i < |tokens| && IsDigits(tokens[i]) && DecimalValue(tokens[i]) == n
  {
    if tokens != [] {
      var rest := tokens[1..];
      var head := if IsDigits(tokens[0]) then [DecimalValue(tokens[0])] else [];
      assert DigitTokens(tokens) == head + DigitTokens(rest);
      DigitTokensMembers(rest);
      forall n | n in DigitTokens(tokens)
        ensures exists i :: 0 <= i < |tokens| && IsDigits(tokens[i]) && DecimalValue(tokens[i]) == n
      {
        if n !in head {
          var i :| 0 <= i < |rest| && IsDigits(rest[i]) && DecimalValue(rest[i]) == n;
          assert tokens[i + 1] == rest[i];
        }
      }
      forall n | exists i :: 0 <= i < |tokens| && IsDigits(tokens[i]) && DecimalValue(tokens[i]) == n
        ensures n in DigitTokens(tokens)
      {
        var i :| 0 <= i < |tokens| && IsDigits(tokens[i]) && DecimalValue(tokens[i]) == n;
        if i > 0 {
          assert rest[i - 1] == tokens[i];
        }
      }
    }
  }

  /** Tokens are read one by one: the seasons of two runs of tokens are the seasons of each, in order. */
  lemma {:induction false} DigitTokensAppend(a: seq<string>, b: seq<string>)
    ensures DigitTokens(a + b) == DigitTokens(a) + DigitTokens(b)
  {
    if a == [] {
      assert a + b == b;
    } else {
      var head := if IsDigits(a[0]) then [DecimalValue(a[0])] else [];
      assert (a + b)[0] == a[0];
      assert (a + b)[1..] == a[1..] + b;
      assert DigitTokens(a + b) == head + DigitTokens(a[1..] + b);
      assert DigitTokens(a) == head + DigitTokens(a[1..]);
      DigitTokensAppend(a[1..], b);
    }
  }

  /** The seasons in a "Requested Seasons" value such as "1, 2, 3". */
  function ParseSeasons(value: string): seq<nat>
  {
    DigitTokens(Split(value))
  }

  /** The "Requested Seasons" value that lists the given seasons. */
  function SeasonsText(seasons: seq<nat>): string
  {
    if seasons == [] then "" else Join(seq(|seasons|, i requires 0 <= i < |seasons| => DecimalString(seasons[i])))
  }

  /** Reading a season list written the way the webhook writes it gives the seasons back. */
  lemma ParseSeasonsRoundTrip(seasons: seq<nat>)
    ensures ParseSeasons(SeasonsText(seasons)) == seasons
  {
    if seasons == [] {
      assert Split("") == [""];
    } else {
      var parts := seq(|seasons|, i requires 0 <= i < |seasons| => DecimalString(seasons[i]));
      forall i | 0 <= i < |parts| ensures NoComma(parts[i]) && IsDigits(parts[i]) {
        assert IsDigits(DecimalString(seasons[i]));
      }
      JoinSplit(parts);
      forall i | 0 <= i < |parts| ensures DecimalValue(parts[i]) == seasons[i] {
        DecimalRoundTrip(seasons[i]);
      }
    }
  }

  /** The seasons of the first "Requested Seasons" extra, or none without one. */
  function RequestedSeasonsOf(extras: seq<Extra>): seq<nat>
  {
    if extras == [] then []
    else if extras[0].name == Some(RequestedSeasons) then ParseSeasons(extras[0].value)
    else RequestedSeasonsOf(extras[1..])
  }

  /** The seasons are those of the first extra named "Requested Seasons", whatever follows it. */
  lemma {:induction false} RequestedSeasonsAt(extras: seq<Extra>, k: nat)
    requires k < |extras| && extras[k].name == Some(RequestedSeasons)
    requires forall i :: 0 <= i < k ==> extras[i].name != Some(RequestedSeasons)
    ensures RequestedSeasonsOf(extras) == ParseSeasons(extras[k].value)
  {
    if k > 0 {
      assert extras[1..][k - 1] == extras[k];
      RequestedSeasonsAt(extras[1..], k - 1);
    }
  }

  /** Without an extra named "Requested Seasons" there are no seasons. */
  lemma {:induction false} NoRequestedSeasons(extras: seq<Extra>)
    requires forall i :: 0 <= i < |extras| ==> extras[i].name != Some(RequestedSeasons)
    ensures RequestedSeasonsOf(extras) == []
  {
    if extras != [] {
      assert extras[0].name != Some(RequestedSeasons);
      NoRequestedSeasons(extras[1..]);
    }
  }

  predicate Authorized(authorization: Option<string>, apiToken: string)
  {
    Truthy(authorization) && authorization.value == apiToken
  }

  predicate AcceptedType(notificationType: Option<string>)
  {
    notificationType.Some? && notificationType.value in AcceptedNotifications
  }

  function MediaTypeOf(n: SeerrNotification): MediaType
  {
    if n.mediaType == Some("movie") then Movie else Tv
  }

  /** The notification passes every check and schedules subscriptions. */
  predicate Schedules(authorization: Option<string>, apiToken: string, body: Option<SeerrNotification>)
  {
    Authorized(authorization, apiToken) && body.Some? && AcceptedType(body.value.notificationType) &&
    IntTruthy(body.value.tmdbId) && Truthy(body.value.subject)
  }

  /**
   * `seerr_subscribe`: check the token, the body, the notification type and the
   * parameters; then one task with season 0 for a movie, or one task per
   * requested season for a series.
   */
  method SeerrSubscribe(authorization: Option<string>, apiToken: string, body: Option<SeerrNotification>)
    returns (out: Outcome, tasks: seq<SubscribeTask>)
    ensures !Schedules(authorization, apiToken, body) ==> tasks == [] && !Succeeded(out)
    ensures !Authorized(authorization, apiToken) ==> out == Raised(400, AuthFailed)
    ensures Authorized(authorization, apiToken) && body.None? ==> out == Raised(500, EmptyBody)
    ensures Authorized(authorization, apiToken) && body.Some? && !AcceptedType(body.value.notificationType) ==>
              out == Responded(false, UnsupportedType)
    ensures Authorized(authorization, apiToken) && body.Some? && AcceptedType(body.value.notificationType) &&
            !(IntTruthy(body.value.tmdbId) && Truthy(body.value.subject)) ==>
              out == Responded(false, BadParameters)
    ensures Schedules(authorization, apiToken, body) ==>
              var n := body.value;
              && out == Responded(true, "")
              && (MediaTypeOf(n) == Movie ==>
                    tasks == [SubscribeTask(Movie, n.tmdbId.value, n.subject.value, "", 0, n.requestedBy)])
              && (MediaTypeOf(n) == Tv ==>
                    && |tasks| == |RequestedSeasonsOf(n.extras)|
                    && forall i :: 0 <= i < |tasks| ==>
                         tasks[i] == SubscribeTask(Tv, n.tmdbId.value, n.subject.value, "",
                                                   RequestedSeasonsOf(n.extras)[i], n.requestedBy))
  {
    tasks := [];
    if !Authorized(authorization, apiToken) {
      return Raised(400, AuthFailed), [];
    }
    if body.None? {
      return Raised(500, EmptyBody), [];
    }
    var req := body.value;
    if !AcceptedType(req.notificationType) {
      return Responded(false, UnsupportedType), [];
    }
    var mediaType := if req.mediaType == Some("movie") then Movie else Tv;
    if !IntTruthy(req.tmdbId) || !Truthy(req.subject) {
      return Responded(false, BadParameters), [];
    }
    if mediaType == Movie {
      tasks := [SubscribeTask(Movie, req.tmdbId.value, req.subject.value, "", 0, req.requestedBy)];
    } else {
      var seasons: seq<nat> := [];
      var i := 0;
      while i < |req.extras|
        invariant 0 <= i <= |req.extras|
        invariant seasons == []
        invariant RequestedSeasonsOf(req.extras[i..]) == RequestedSeasonsOf(req.extras)
      {
        if req.extras[i].name == Some(RequestedSeasons) {
          seasons := ParseSeasons(req.extras[i].value);
          break;
        }
        assert req.extras[i..][1..] == req.extras[i + 1..];
        i := i + 1;
      }
      assert seasons == RequestedSeasonsOf(req.extras);
      var j := 0;
      while j < |seasons|
        invariant 0 <= j <= |seasons|
        invariant |tasks| == j
        invariant forall m :: 0 <= m < j ==>
                    tasks[m] == SubscribeTask(Tv, req.tmdbId.value, req.subject.value, "", seasons[m], req.requestedBy)
      {
        tasks := tasks + [SubscribeTask(Tv, req.tmdbId.value, req.subject.value, "", seasons[j], req.requestedBy)];
        j := j + 1;
      }
    }
    out := Responded(true, "");
  }

  // ---------------------------------------------------------------------------
  // Popular subscriptions

  /** One entry of the shared subscription statistics. */
  datatype SharedSubscribe = SharedSubscribe(count: int, mediaType: string, tmdbid: Option<int>,
                                             name: Option<string>, season: Option<int>, year: Option<string>)

  /** `min_sub` given and the entry has fewer subscribers. */
  predicate BelowMinimum(sub: SharedSubscribe, minSub: Option<int>)
  {
    IntTruthy(minSub) && sub.count < minSub.value
  }

  /** The entries kept, in order. */
  function Popular(subs: seq<SharedSubscribe>, minSub: Option<int>): (kept: seq<SharedSubscribe>)
    ensures |kept| <= |subs|
    ensures forall i :: 0 <= i < |kept| ==> !BelowMinimum(kept[i], minSub)
    ensures !IntTruthy(minSub) ==> kept == subs
  {
    if subs == [] then []
    else
      var init := subs[..|subs| - 1];
      var last := subs[|subs| - 1];
      assert subs == init + [last];
      Popular(init, minSub) + (if BelowMinimum(last, minSub) then [] else [last])
  }

  /** Duplicates are kept: each entry meeting `min_sub` is kept as often as it occurs, the others never. */
  lemma {:induction false} PopularCounts(subs: seq<SharedSubscribe>, minSub: Option<int>)
    ensures forall x :: multiset(Popular(subs, minSub))[x] == if BelowMinimum(x, minSub) then 0 else multiset(subs)[x]
  {
    if subs != [] {
      var init := subs[..|subs| - 1];
      var last := subs[|subs| - 1];
      assert subs == init + [last];
      assert multiset(subs) == multiset(init) + multiset{last};
      PopularCounts(init, minSub);
    }
  }

  /** An entry is kept exactly when it is in the input and meets `min_sub`. */
  lemma PopularMembers(subs: seq<SharedSubscribe>, minSub: Option<int>)
    ensures forall x :: x in Popular(subs, minSub) <==> x in subs && !BelowMinimum(x, minSub)
  {
    PopularCounts(subs, minSub);
  }

  /** The filter looks at each entry alone: filtering a concatenation concatenates the filtered parts. */
  lemma {:induction false} PopularAppend(a: seq<SharedSubscribe>, b: seq<SharedSubscribe>, minSub: Option<int>)
    ensures Popular(a + b, minSub) == Popular(a, minSub) + Popular(b, minSub)
    decreases |b|
  {
    if b == [] {
      assert a + b == a;
    } else {
      var init := b[..|b| - 1];
      var last := b[|b| - 1];
      assert (a + b)[..|a + b| - 1] == a + init;
      assert (a + b)[|a + b| - 1] == last;
      PopularAppend(a, init, minSub);
    }
  }

  lemma PopularStep(subs: seq<SharedSubscribe>, i: nat, minSub: Option<int>)
    requires i < |subs|
    ensures Popular(subs[..i + 1], minSub) ==
            Popular(subs[..i], minSub) + (if BelowMinimum(subs[i], minSub) then [] else [subs[i]])
  {
    assert subs[..i + 1][..i] == subs[..i];
  }

  /** `popular_subscribes`: skip the entries below `min_sub`, keep the rest in order. */
  method PopularSubscribes(subs: seq<SharedSubscribe>, minSub: Option<int>) returns (medias: seq<SharedSubscribe>)
    ensures medias == Popular(subs, minSub)
  {
    medias := [];
    var i := 0;
    while i < |subs|
      invariant 0 <= i <= |subs|
      invariant medias == Popular(subs[..i], minSub)
    {
      var sub := subs[i];
      PopularStep(subs, i, minSub);
      if BelowMinimum(sub, minSub) {
        i := i + 1;
        continue;
      }
      medias := medias + [sub];
      i := i + 1;
    }
    assert subs[..i] == subs;
  }

  // ---------------------------------------------------------------------------
  // Following sharers

  predicate Distinct(uids: seq<string>)
  {
    forall i, j :: 0 <= i < j < |uids| ==> uids[i] != uids[j]
  }

  /** The followed list after following `shareUid`: appended when given and not yet followed. */
  function Followed(uids: seq<string>, shareUid: Option<string>): (r: seq<string>)
    ensures Truthy(shareUid) ==> shareUid.value in r
    ensures forall u :: u in uids ==> u in r
    ensures forall u :: u in r ==> u in uids || Some(u) == shareUid
    ensures Distinct(uids) ==> Distinct(r)
    ensures !Truthy(shareUid) ==> r == uids
    ensures Truthy(shareUid) && shareUid.value in uids ==> r == uids
    ensures |uids| <= |r| <= |uids| + 1 && r[..|uids|] == uids
  {
    if Truthy(shareUid) && shareUid.value !in uids then uids + [shareUid.value] else uids
  }

  /** `list.index(u)`: the position of the first occurrence. */
  function IndexOf(uids: seq<string>, u: string): (k: nat)
    requires u in uids
    ensures k < |uids| && uids[k] == u && u !in uids[..k]
  {
    if uids[0] == u then 0
    else
      var k := IndexOf(uids[1..], u);
      assert uids[..k + 1] == [uids[0]] + uids[1..][..k];
      k + 1
  }

  /** `list.remove(u)`: drop the first occurrence, keeping the others in order. */
  function RemoveFirst(uids: seq<string>, u: string): (r: seq<string>)
    requires u in uids
    ensures r == uids[..IndexOf(uids, u)] + uids[IndexOf(uids, u) + 1..]
    ensures |r| == |uids| - 1
    ensures multiset(r) == multiset(uids) - multiset{u}
  {
    SliceAroundMultiset(uids, IndexOf(uids, u));
    if uids[0] == u then uids[1..]
    else
      var rest := RemoveFirst(uids[1..], u);
      ConsAroundSlice(uids, IndexOf(uids[1..], u));
      [uids[0]] + rest
  }

  lemma ConsAroundSlice(uids: seq<string>, j: nat)
    requires j + 1 < |uids|
    ensures [uids[0]] + (uids[1..][..j] + uids[1..][j + 1..]) == uids[..j + 1] + uids[j + 2..]
  {
    assert uids[..j + 1] == [uids[0]] + uids[1..][..j];
    assert uids[j + 2..] == uids[1..][j + 1..];
  }

  /** Taking out position `k` takes one copy of its element out of the multiset. */
  lemma SliceAroundMultiset(uids: seq<string>, k: nat)
    requires k < |uids|
    ensures multiset(uids[..k] + uids[k + 1..]) == multiset(uids) - multiset{uids[k]}
  {
    assert uids == uids[..k] + [uids[k]] + uids[k + 1..];
  }

  /** The followed list after unfollowing `shareUid`: its first occurrence removed when present. */
  function Unfollowed(uids: seq<string>, shareUid: Option<string>): (r: seq<string>)
    ensures Truthy(shareUid) && Distinct(uids) ==> shareUid.value !in r
    ensures forall u :: u in uids && Some(u) != shareUid ==> u in r
    ensures forall u :: u in r ==> u in uids
    ensures !(Truthy(shareUid) && shareUid.value in uids) ==> r == uids
    ensures Truthy(shareUid) && shareUid.value in uids ==> r == RemoveFirst(uids, shareUid.value)
  {
    if Truthy(shareUid) && shareUid.value in uids then
      var r := RemoveFirst(uids, shareUid.value);
      assert forall u :: u in r <==> multiset(r)[u] > 0;
      assert Distinct(uids) ==> multiset(uids)[shareUid.value] == 1 by {
        if Distinct(uids) {
          DistinctOnce(uids, shareUid.value);
        }
      }
      r
    else uids
  }

  lemma {:induction false} DistinctOnce(uids: seq<string>, u: string)
    requires Distinct(uids) && u in uids
    ensures multiset(uids)[u] == 1
  {
    assert uids == [uids[0]] + uids[1..];
    if uids[0] == u {
      assert u !in uids[1..];
    } else {
      DistinctOnce(uids[1..], u);
    }
  }

  /** Following is idempotent. */
  lemma FollowIdempotent(uids: seq<string>, shareUid: Option<string>)
    ensures Followed(Followed(uids, shareUid), shareUid) == Followed(uids, shareUid)
  {
  }

  lemma {:induction false} RemoveAppended(uids: seq<string>, u: string)
    requires u !in uids
    ensures RemoveFirst(uids + [u], u) == uids
  {
    if uids != [] {
      assert (uids + [u])[1..] == uids[1..] + [u];
      RemoveAppended(uids[1..], u);
    }
  }

  /** Unfollowing a sharer just followed restores the list. */
  lemma UnfollowUndoesFollow(uids: seq<string>, shareUid: Option<string>)
    requires Truthy(shareUid) && shareUid.value !in uids
    ensures Unfollowed(Followed(uids, shareUid), shareUid) == uids
  {
    RemoveAppended(uids, shareUid.value);
  }

  /** The followed sharers, as kept in the system configuration. */
  class FollowedSubscribers {
    var uids: seq<string>

    constructor ()
      ensures uids == []
    {
      uids := [];
    }

    /** `follow_subscriber`. */
    method Follow(shareUid: Option<string>) returns (out: Outcome)
      modifies this
      ensures uids == Followed(old(uids), shareUid)
      ensures out == Responded(true, "")
    {
      var subscribers := uids;
      if Truthy(shareUid) && shareUid.value !in subscribers {
        subscribers := subscribers + [shareUid.value];
        uids := subscribers;
      }
      out := Responded(true, "");
    }

    /** `unfollow_subscriber`. */
    method Unfollow(shareUid: Option<string>) returns (out: Outcome)
      modifies this
      ensures uids == Unfollowed(old(uids), shareUid)
      ensures out == Responded(true, "")
    {
      var subscribers := uids;
      if Truthy(shareUid) && shareUid.value in subscribers {
        subscribers := RemoveFirst(subscribers, shareUid.value);
        uids := subscribers;
      }
      out := Responded(true, "");
    }
  }
}
