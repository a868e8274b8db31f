/** Writing a session's page, with the ownership protocol (src/routes/set_page.rs). */
module SetPage {
  import opened Common
  import opened Errors
  import opened SessionIds
  import opened AccessTokens
  import opened Store
  import opened Config
  import GetPage

  /** The marker the injection goes in front of. */
  const HeadClose: Bytes := Ascii("</head>")

  /**
   * Stands for the text of static/polli_live_injection.html, which is not part of this
   * model; no proof depends on its content.
   */
  const InjectionHtml: Bytes := Ascii("<!-- polli_live_injection.html -->")

  /**
   * `page.insert_str(idx, injection)` at the first `</head>`, if there is one.
   */
  function InjectBeforeHead(page: Bytes): (r: Bytes)
    ensures (forall j: nat :: !OccursAt(page, HeadClose, j)) ==> r == page
    ensures (exists j: nat :: OccursAt(page, HeadClose, j)) ==>
      exists k: nat :: k <= |page| && r == page[..k] + InjectionHtml + page[k..]
        && OccursAt(page, HeadClose, k)
        && forall j: nat :: j < k ==> !OccursAt(page, HeadClose, j)
  {
    match Find(page, HeadClose)
    case None => page
    case Some(idx) => page[..idx] + InjectionHtml + page[idx..]
  }

  /**
   * The checks made before the store is locked, in the order `set_page_route` makes them:
   * the bearer token, then the session name, then the size of the page as sent
   * (`max_page_size` itself is accepted).
   */
  function CheckRequest(token: Bytes, session: Bytes, page: Bytes, maxPageSize: nat)
    : (r: Result<(AccessToken, SessionID)>)
    ensures r.Ok? <==> AccessTokens.FromString(token).Ok? && SessionIds.FromString(session).Ok?
                       && |page| <= maxPageSize
    ensures r.Ok? ==> r.value == (AccessToken(token), SessionID(session))
    ensures AccessTokens.FromString(token).Err? ==> r == Err(BadAccessToken)
    ensures AccessTokens.FromString(token).Ok? && SessionIds.FromString(session).Err? ==>
              r == Err(BadSessionID)
    ensures (AccessTokens.FromString(token).Ok? && SessionIds.FromString(session).Ok?
             && |page| > maxPageSize) ==> r == Err(PageTooLarge)
  {
    match AccessTokens.FromString(token)
    case Err(e) => Err(e)
    case Ok(t) =>
      match SessionIds.FromString(session)
      case Err(e) => Err(e)
      case Ok(id) => if |page| > maxPageSize then Err(PageTooLarge) else Ok((t, id))
  }

  /**
   * `set_page_route`, one critical section. `notified` tells whether the session's page
   * notifier fired.
   */
  method SetPageRoute(st: State, settings: Settings, token: Bytes, session: Bytes, page: Bytes,
                      notify: Option<bool>, now: int)
    returns (r: Result<()>, notified: bool)
    requires st.Valid()
    modifies st
    ensures st.Valid()
    // Rejected requests leave the store as it was and wake no one.
    ensures r.Err? ==> st.sessions == old(st.sessions) && st.capacity == old(st.capacity) && !notified
    ensures CheckRequest(token, session, page, settings.maxPageSize).Err? ==>
              r == Err(CheckRequest(token, session, page, settings.maxPageSize).error)
    ensures CheckRequest(token, session, page, settings.maxPageSize).Ok? ==>
      var id, t := SessionID(session), AccessToken(token);
      var stored := InjectBeforeHead(page);
      if id !in old(st.sessions) then
        // A new session: created, never notified.
        && r == Ok(())
        && st.sessions == old(st.sessions)[id := NewSession(t, stored, now)]
        && st.capacity == GrowTo(old(st.capacity), |st.sessions|)
        && !notified
      else
        var s := old(st.sessions)[id];
        if s.accessToken == t then
          // The owner: updated in place.
          && r == Ok(())
          && st.sessions == old(st.sessions)[id := Update(s, stored, now)]
          && st.capacity == old(st.capacity)
          && notified == notify.UnwrapOr(true)
        else if s.lastRequest + settings.tokenTimeout > now then
          // Another token while the owner's window is open.
          r == Err(BadAccessToken)
        else
          // Another token after the window: the whole record is replaced.
          && r == Ok(())
          && st.sessions == old(st.sessions)[id := NewSession(t, stored, now)]
          && st.capacity == old(st.capacity)
          && notified == notify.UnwrapOr(true)
    // Reading the page back returns what was stored.
    ensures r.Ok? ==> GetPage.GetPageRoute(st.sessions, session) == Ok(GetPage.Found(InjectBeforeHead(page)))
    // No other session is affected.
    ensures forall other :: other in old(st.sessions) && other != SessionID(session) ==>
              other in st.sessions && st.sessions[other] == old(st.sessions)[other]
    ensures st.sessions.Keys <= old(st.sessions).Keys + {SessionID(session)}
  {
    notified := false;
    var request := CheckRequest(token, session, page, settings.maxPageSize);
    if request.Err? {
      return Err(request.error), false;
    }
    var accessToken, sessionId := request.value.0, request.value.1;

    var stored := InjectBeforeHead(page);

    if sessionId !in st.sessions {
      st.sessions := st.sessions[sessionId := NewSession(accessToken, stored, now)];
      st.capacity := GrowTo(st.capacity, |st.sessions|);
      return Ok(()), false;
    }

    var s := st.sessions[sessionId];
    if s.accessToken != accessToken {
      if s.lastRequest + settings.tokenTimeout > now {
        return Err(BadAccessToken), false;
      }
      s := NewSession(accessToken, stored, now);
    } else {
      s := Update(s, stored, now);
    }
    st.sessions := st.sessions[sessionId := s];
    if notify.UnwrapOr(true) {
      notified := true;
    }
    r := Ok(());
  }

  /** A page without `</head>` is stored exactly as sent. */
  lemma NoHeadStoredVerbatim(page: Bytes)
    requires forall i :: 0 <= i < |page| ==> page[i] != HeadClose[0]
    ensures InjectBeforeHead(page) == page
  {
  }
}
