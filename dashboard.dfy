/**
 * The dashboard's overview page: the total-time and pace labels, the streak
 * fallback when loading each goal's streaks, the Strava authorisation link
 * and the banner chosen after a Strava sync.
 */
module Dashboard {
  import opened Base
  import opened JsText
  import opened JsValue
  import Api
  import Goals
  import History

  // ---------------------------------------------------------------------
  // Total time
  // ---------------------------------------------------------------------

  /**
   * `formatTime`: "<h>h <m>m" from one hour on, else "<m> min" (so 0 gives
   * "0 min"); the seconds within the last minute are dropped.
   */
  function FormatTime(seconds: nat): (r: string)
    ensures |r| > 0 && IsDigit(r[0])
    ensures seconds < 3600 ==> r == NatToString(seconds / 60) + " min"
    ensures seconds >= 3600 ==> r == NatToString(seconds / 3600) + "h " + NatToString(seconds % 3600 / 60) + "m"
  {
    var h, m := seconds / 3600, (seconds % 3600) / 60;
    if h > 0 then NatToString(h) + "h " + NatToString(m) + "m" else NatToString(m) + " min"
  }

  /** Reads a total-time label back to (hours, minutes); `None` for any other text. */
  function ReadTime(t: string): Option<(nat, nat)> {
    var (a, rest) := ReadNumber(t);
    if LeadingDigits(t) == 0 then None
    else if rest == " min" then Some((0, a))
    else if IsPrefix("h ", rest) && LeadingDigits(rest[2..]) > 0 && ReadNumber(rest[2..]).1 == "m" then
      Some((a, ReadNumber(rest[2..]).0))
    else None
  }

  /** The label reads back to the whole hours and the minutes left over, the minutes below 60. */
  lemma TimeReadsBack(seconds: nat)
    ensures ReadTime(FormatTime(seconds)) == Some((seconds / 3600, (seconds % 3600) / 60))
    ensures (seconds % 3600) / 60 < 60
  {
    var h, m := seconds / 3600, (seconds % 3600) / 60;
    var t := FormatTime(seconds);
    ReadPrinted(m, " min");
    if h > 0 {
      var rest := "h " + NatToString(m) + "m";
      assert t == NatToString(h) + rest;
      ReadPrinted(h, rest);
      assert rest[2..] == NatToString(m) + "m";
      ReadPrinted(m, "m");
    }
  }

  /** Two totals get the same label exactly when they have the same number of whole minutes. */
  lemma FormatTimeSameMinute(s1: nat, s2: nat)
    ensures FormatTime(s1) == FormatTime(s2) <==> s1 / 60 == s2 / 60
  {
    History.MinutesSplit(s1);
    History.MinutesSplit(s2);
    if FormatTime(s1) == FormatTime(s2) {
      TimeReadsBack(s1);
      TimeReadsBack(s2);
      assert s1 / 60 == 60 * (s1 / 3600) + (s1 % 3600) / 60;
    }
  }

  // ---------------------------------------------------------------------
  // Pace
  // ---------------------------------------------------------------------

  /** JavaScript's `r % 60`: the remainder takes the sign of the dividend. */
  function JsRem60(a: int): (r: int)
    ensures a >= 0 ==> 0 <= r < 60
    ensures a < 0 ==> -60 < r <= 0
    ensures (a - r) % 60 == 0
  {
    if a >= 0 then a % 60 else -((-a) % 60)
  }

  /**
   * The average pace cell: "--" when `ritmo_medio` is missing or 0,
   * otherwise `Math.floor(r / 60)`, a `'`, `r % 60` unpadded and a `"`.
   */
  function Pace(ritmo: Option<int>): (r: string)
    ensures r == "--" <==> ritmo.None? || ritmo.value == 0
  {
    if ritmo.None? || ritmo.value == 0 then "--"
    else
      var p := ritmo.value;
      IntToString(p / 60) + ("'" + (IntToString(JsRem60(p)) + "\""))
  }

  /** Reads a pace label back to its number of seconds; `None` for any other text. */
  function ReadPace(t: string): Option<nat> {
    var first := ReadNumber(t);
    var rest := first.1;
    if LeadingDigits(t) == 0 || !IsPrefix("'", rest) then None
    else
      var second := ReadNumber(rest[1..]);
      if LeadingDigits(rest[1..]) > 0 && second.1 == "\"" && second.0 < 60 then Some(60 * first.0 + second.0)
      else None
  }

  /** The label of a positive pace: whole minutes, a `'`, the seconds left over, a `"`. */
  lemma PositivePace(p: nat)
    requires p > 0
    ensures Pace(Some(p)) == NatToString(p / 60) + ("'" + (NatToString(p % 60) + "\""))
  {
    assert JsRem60(p) == p % 60;
  }

  /** Minutes and seconds below 60, written as a pace, read back to their total. */
  lemma ReadPaceOf(a: nat, b: nat)
    requires b < 60
    ensures ReadPace(NatToString(a) + ("'" + (NatToString(b) + "\""))) == Some(60 * a + b)
  {
    var tail := NatToString(b) + "\"";
    var rest := "'" + tail;
    var t := NatToString(a) + rest;
    ReadPrinted(a, rest);
    assert ReadNumber(t) == (a, rest) && LeadingDigits(t) > 0;
    assert IsPrefix("'", rest) && rest[1..] == tail;
    ReadPrinted(b, "\"");
    assert ReadNumber(tail) == (b, "\"") && LeadingDigits(tail) > 0;
  }

  /** A positive pace reads back from its label: minutes and the unpadded seconds lose nothing. */
  lemma PaceReadsBack(p: nat)
    requires p > 0
    ensures ReadPace(Pace(Some(p))) == Some(p)
  {
    PositivePace(p);
    ReadPaceOf(p / 60, p % 60);
  }

  // ---------------------------------------------------------------------
  // Streaks
  // ---------------------------------------------------------------------

  /** The body of a streaks response. */
  datatype Streak = Streak(atual: int, maximo: int)

  /** A goal card: the goal with its current and longest streak. */
  datatype HabitoComStreak = HabitoComStreak(meta: Goals.Meta, streakAtual: int, streakMaximo: int)

  /** One goal's card: its streaks when the fetch succeeds (`Some`), zeros when it fails. */
  function CardFor(meta: Goals.Meta, streak: Option<Streak>): (c: HabitoComStreak)
    ensures c.meta == meta
    ensures streak.None? ==> c.streakAtual == 0 && c.streakMaximo == 0
    ensures streak.Some? ==> c.streakAtual == streak.value.atual && c.streakMaximo == streak.value.maximo
  {
    match streak
    case Some(s) => HabitoComStreak(meta, s.atual, s.maximo)
    case None => HabitoComStreak(meta, 0, 0)
  }

  /**
   * The cards `loadAllData` builds from the active goals; `fetch` gives the
   * streaks request's result per goal id, `None` when it throws.
   */
  function WithStreaks(metas: seq<Goals.Meta>, fetch: int -> Option<Streak>): (r: seq<HabitoComStreak>)
    ensures |r| == |metas|
    ensures forall i :: 0 <= i < |metas| ==> r[i] == CardFor(metas[i], fetch(metas[i].id))
  {
    seq(|metas|, i requires 0 <= i < |metas| => CardFor(metas[i], fetch(metas[i].id)))
  }

  /**
   * A failed streaks request touches only its own goal's card: whatever
   * another goal's request returns, this card is the same.
   */
  lemma StreakFailureIsolated(metas: seq<Goals.Meta>, f1: int -> Option<Streak>, f2: int -> Option<Streak>, j: nat)
    requires j < |metas| && f1(metas[j].id) == f2(metas[j].id)
    ensures WithStreaks(metas, f1)[j] == WithStreaks(metas, f2)[j]
    ensures f1(metas[j].id).None? ==> WithStreaks(metas, f1)[j] == HabitoComStreak(metas[j], 0, 0)
  {
    var c := WithStreaks(metas, f1)[j];
    assert c == CardFor(metas[j], f1(metas[j].id));
  }

  // ---------------------------------------------------------------------
  // Strava
  // ---------------------------------------------------------------------

  const AuthorizeEndpoint := "https://www.strava.com/oauth/authorize"

  /** A configured environment value: present and not empty. */
  predicate Configured(v: Option<string>) {
    v.Some? && v.value != ""
  }

  /** The query parameters of the authorisation link, as written. */
  function AuthParams(clientId: string, redirectUri: string): seq<string> {
    ["client_id=" + clientId, "response_type=code", "redirect_uri=" + Encode(UriComponent, redirectUri),
     "approval_prompt=auto", "scope=read,activity:read_all"]
  }

  /**
   * `STRAVA_AUTH_URL`: the authorisation link when both the client id and
   * the redirect URI are configured, `null` otherwise; the redirect URI is
   * percent-encoded with `encodeURIComponent`.
   */
  function StravaAuthUrl(clientId: Option<string>, redirectUri: Option<string>): (r: Option<string>)
    ensures r.Some? <==> Configured(clientId) && Configured(redirectUri)
  {
    if Configured(clientId) && Configured(redirectUri) then
      Some(AuthorizeEndpoint + "?" + Join(AuthParams(clientId.value, redirectUri.value), "&"))
    else None
  }

  /**
   * The link's query splits back into exactly its five parameters, the
   * redirect URI encoded, whatever the URI holds; only a client id with an
   * `&` could break it up.
   */
  lemma AuthUrlParams(clientId: string, redirectUri: string)
    requires clientId != "" && redirectUri != "" && '&' !in clientId
    ensures var url := StravaAuthUrl(Some(clientId), Some(redirectUri)).value;
      && IsPrefix(AuthorizeEndpoint + "?", url)
      && Split(url[|AuthorizeEndpoint| + 1..], '&') == AuthParams(clientId, redirectUri)
  {
    var ps := AuthParams(clientId, redirectUri);
    var url := StravaAuthUrl(Some(clientId), Some(redirectUri)).value;
    var q := Join(ps, "&");
    assert url == AuthorizeEndpoint + "?" + q;
    assert url[|AuthorizeEndpoint| + 1..] == q;
    EncodedIsQuerySafe(UriComponent, redirectUri);
    NoAmpersandIn(clientId, Encode(UriComponent, redirectUri));
    SplitJoin(ps, '&');
  }

  /** No parameter of the link holds an `&` when neither the client id nor the encoded URI does. */
  lemma NoAmpersandIn(clientId: string, encoded: string)
    requires '&' !in clientId && '&' !in encoded
    ensures forall i :: 0 <= i < 5 ==>
      ('&' !in ["client_id=" + clientId, "response_type=code", "redirect_uri=" + encoded,
                "approval_prompt=auto", "scope=read,activity:read_all"][i])
  {
  }

  const NotLoggedIn := "Você precisa estar logado para sincronizar com o Strava."
  const SyncFailed := "Erro ao sincronizar com o Strava. Verifique se sua conta já está conectada."
  const SyncDone := "Atividades do Strava sincronizadas com sucesso!"
  const SyncUnreachable := "Erro de conexão com o servidor ao sincronizar com o Strava."

  /** What the Strava card shows after a sync: an error, a message, or (before any sync) neither. */
  datatype Banner = Banner(error: Option<Json>, message: Option<Json>)

  /**
   * `handleSyncStrava`'s choice: without a token, the login error; when the
   * request fails, the connection error; otherwise the response's `detail`
   * when it is truthy, else the fixed failure or success text picked by
   * `resp.ok`.
   */
  function SyncStrava(token: Option<string>, reply: Api.Reply): (b: Banner)
    ensures b.error.Some? != b.message.Some?
    ensures b.message.Some? <==> Configured(token) && reply.Response? && Api.IsOkStatus(reply.status)
    ensures !Configured(token) ==> b.error == Some(JStr(NotLoggedIn))
    ensures Configured(token) && reply.NetworkError? ==> b.error == Some(JStr(SyncUnreachable))
    ensures Configured(token) && reply.Response? && Present(Prop(Api.BodyValue(reply.body), "detail")) ==>
      (if Api.IsOkStatus(reply.status) then b.message else b.error) == Prop(Api.BodyValue(reply.body), "detail")
  {
    if !Configured(token) then Banner(Some(JStr(NotLoggedIn)), None)
    else
      match reply
      case NetworkError(_) => Banner(Some(JStr(SyncUnreachable)), None)
      case Response(status, body) =>
        var detail := Prop(Api.BodyValue(body), "detail");
        if !Api.IsOkStatus(status) then Banner(Some(Or(detail, Some(JStr(SyncFailed))).value), None)
        else Banner(None, Some(Or(detail, Some(JStr(SyncDone))).value))
  }

  /** A body without a truthy `detail`, an unparsable one included, gets the fixed text. */
  lemma SyncFallbackText(token: string, status: int, body: Api.Body)
    requires token != "" && !Present(Prop(Api.BodyValue(body), "detail"))
    ensures var b := SyncStrava(Some(token), Api.Response(status, body));
      if Api.IsOkStatus(status) then b.message == Some(JStr(SyncDone)) else b.error == Some(JStr(SyncFailed))
  {
  }
}
