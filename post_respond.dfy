/** Submitting a user's response to a session (src/routes/post_respond.rs). */
module PostRespond {
  import opened Common
  import opened Errors
  import opened SessionIds
  import opened UserIds
  import opened Store
  import opened Config

  /** The checks made before the store is locked: session name, user name, then size. */
  function CheckRequest(session: Bytes, user: Bytes, data: Bytes, maxResponseSize: nat)
    : (r: Result<(SessionID, UserID)>)
    ensures r.Ok? <==> SessionIds.FromString(session).Ok? && UserIds.FromString(user).Ok?
                       && |data| <= maxResponseSize
    ensures r.Ok? ==> r.value == (SessionID(session), UserID(user))
    ensures SessionIds.FromString(session).Err? ==> r == Err(BadSessionID)
    ensures SessionIds.FromString(session).Ok? && UserIds.FromString(user).Err? ==>
              r == Err(BadUserID)
    ensures (SessionIds.FromString(session).Ok? && UserIds.FromString(user).Ok?
             && |data| > maxResponseSize) ==> r == Err(ResponseTooLarge)
  {
    match SessionIds.FromString(session)
    case Err(e) => Err(e)
    case Ok(id) =>
      match UserIds.FromString(user)
      case Err(e) => Err(e)
      case Ok(u) => if |data| > maxResponseSize then Err(ResponseTooLarge) else Ok((id, u))
  }

  /**
   * The record after a successful submission: the user's entry is overwritten with the data,
   * numbered with the counter's value, unread, at `now`; the counter advances; the session is
   * marked used. The map may grow to hold the entry.
   */
  function Submit(s: SessionState, u: UserID, data: Bytes, now: int): (t: SessionState)
    ensures t.responses.Keys == s.responses.Keys + {u}
    ensures t.responses[u] == UserResponse(data, s.nextResponseID, false, now)
    ensures forall v :: v in s.responses && v != u ==> t.responses[v] == s.responses[v]
    ensures t.nextResponseID == s.nextResponseID + 1
    ensures t.lastRequest == now
    ensures t.page == s.page && t.accessToken == s.accessToken
    ensures t.responsesCapacity >= s.responsesCapacity
  {
    var responses := s.responses[u := UserResponse(data, s.nextResponseID, false, now)];
    SessionUsed(s.(responses := responses,
                   responsesCapacity := GrowTo(s.responsesCapacity, |responses|),
                   nextResponseID := s.nextResponseID + 1), now)
  }

  /**
   * `post_respond_route`, one critical section. On success the session's response
   * notifier fires.
   */
  method PostRespondRoute(st: State, settings: Settings, session: Bytes, user: Bytes, data: Bytes,
                          now: int)
    returns (r: Result<()>)
    requires st.Valid()
    modifies st
    ensures st.Valid()
    ensures st.capacity == old(st.capacity)
    ensures r.Err? ==> st.sessions == old(st.sessions)
    ensures CheckRequest(session, user, data, settings.maxResponseSize).Err? ==>
              r == Err(CheckRequest(session, user, data, settings.maxResponseSize).error)
    ensures CheckRequest(session, user, data, settings.maxResponseSize).Ok? ==>
      var id := SessionID(session);
      if id !in old(st.sessions) then
        r == Err(SessionIDDoesNotExist)
      else
        && r == Ok(())
        && st.sessions == old(st.sessions)[id := Submit(old(st.sessions)[id], UserID(user), data, now)]
  {
    var request := CheckRequest(session, user, data, settings.maxResponseSize);
    if request.Err? {
      return Err(request.error);
    }
    var sessionId, userId := request.value.0, request.value.1;

    if sessionId !in st.sessions {
      return Err(SessionIDDoesNotExist);
    }
    var s := st.sessions[sessionId];
    SubmitKeepsValid(s, userId, data, now);
    st.sessions := st.sessions[sessionId := Submit(s, userId, data, now)];
    r := Ok(());
  }

  /**
   * Numbering a response with the counter's current value and then advancing the counter
   * keeps every number below the counter and no two entries numbered alike.
   */
  lemma SubmitKeepsValid(s: SessionState, u: UserID, data: Bytes, now: int)
    requires s.Valid()
    ensures Submit(s, u, data, now).Valid()
  {
    var t := Submit(s, u, data, now);
    forall v, w | v in t.responses && w in t.responses && v != w
      ensures t.responses[v].id != t.responses[w].id
    {
      if v != u && w != u {
        assert t.responses[v] == s.responses[v] && t.responses[w] == s.responses[w];
      }
    }
  }

  /** A second submission by the same user replaces the first: one entry per user. */
  lemma ResubmitReplaces(s: SessionState, u: UserID, first: Bytes, second: Bytes, now: int, later: int)
    ensures Submit(Submit(s, u, first, now), u, second, later).responses.Keys == s.responses.Keys + {u}
    ensures Submit(Submit(s, u, first, now), u, second, later).responses[u]
              == UserResponse(second, s.nextResponseID + 1, false, later)
  {
  }
}
