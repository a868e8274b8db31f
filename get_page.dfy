/** Reading a session's page (src/routes/get_page.rs). */
module GetPage {
  import opened Common
  import opened Errors
  import opened SessionIds
  import opened Store

  /** 200 with the stored page, or 404 with the empty-session placeholder page. */
  datatype PageReply = Found(page: Bytes) | EmptySessionPage

  /**
   * `get_page_route`: validates the name, then looks the session up without touching it
   * (no `session_used`; the store is only read).
   */
  function GetPageRoute(sessions: map<SessionID, SessionState>, session: Bytes): (r: Result<PageReply>)
    ensures !(1 <= |session| <= SessionIds.MaxLength) <==> r == Err(BadSessionID)
    ensures r.Ok? ==> (r.value.Found? <==> SessionID(session) in sessions)
    ensures r.Ok? && r.value.Found? ==> r.value.page == sessions[SessionID(session)].page
  {
    match SessionIds.FromString(session)
    case Err(e) => Err(e)
    case Ok(id) =>
      if id !in sessions then Ok(EmptySessionPage) else Ok(Found(sessions[id].page))
  }
}
