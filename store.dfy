/** The in-memory session store and the session record lifecycle (src/state.rs). */
module Store {
  import opened Common
  import opened SessionIds
  import opened UserIds
  import opened AccessTokens

  /** One user's latest response; `id` is the session counter's value when it was accepted. */
  datatype UserResponse = UserResponse(data: Bytes, id: nat, wasReceived: bool, time: int)

  /**
   * The record of one session. `responsesCapacity` is the allocated capacity of the
   * `responses` hash map, which the memory estimate counts. The two notifiers are not
   * part of this record (see the routes that fire them).
   */
  datatype SessionState = SessionState(
    page: Bytes,
    responses: map<UserID, UserResponse>,
    responsesCapacity: nat,
    accessToken: AccessToken,
    nextResponseID: nat,
    lastRequest: int)
  {
    /**
     * A hash map never holds more entries than its capacity; every stored response was
     * numbered before the counter moved past it, and no two stored responses share a number.
     */
    ghost predicate Valid() {
      && |responses| <= responsesCapacity
      && (forall u :: u in responses ==> responses[u].id < nextResponseID)
      && (forall u, v :: u in responses && v in responses && u != v ==> responses[u].id != responses[v].id)
    }
  }

  /** `SessionState::new`: a fresh record owned by `token`, stamped with the current time. */
  function NewSession(token: AccessToken, page: Bytes, now: int): (s: SessionState)
    ensures s.Valid()
    ensures s.page == page && s.accessToken == token
    ensures s.responses == map[] && s.nextResponseID == 0
    ensures s.lastRequest == now
  {
    SessionState(page, map[], 0, token, 0, now)
  }

  /** `SessionState::session_used`: refreshes the activity time and nothing else. */
  function SessionUsed(s: SessionState, now: int): (r: SessionState)
    ensures r.lastRequest == now
    ensures r.(lastRequest := s.lastRequest) == s
    ensures r.Valid() <==> s.Valid()
  {
    s.(lastRequest := now)
  }

  /**
   * `SessionState::update`: replaces the page and forgets every response, keeping the
   * owner, the response counter and the allocated capacity (`clear` keeps it).
   */
  function Update(s: SessionState, page: Bytes, now: int): (r: SessionState)
    ensures r.page == page && r.responses == map[] && r.lastRequest == now
    ensures r.accessToken == s.accessToken && r.nextResponseID == s.nextResponseID
    ensures r.responsesCapacity == s.responsesCapacity
    ensures r.Valid()
  {
    SessionUsed(s.(page := page, responses := map[]), now)
  }

  /** The capacity of a hash map after an insertion that leaves it with `len` entries. */
  function GrowTo(capacity: nat, len: nat): (c: nat)
    ensures c >= capacity && c >= len
    ensures len <= capacity ==> c == capacity
  {
    if len <= capacity then capacity else len
  }

  /** `State`: every session, by name, and the allocated capacity of that hash map. */
  class State {
    var sessions: map<SessionID, SessionState>
    var capacity: nat

    ghost predicate Valid()
      reads this
    {
      |sessions| <= capacity && forall id :: id in sessions ==> sessions[id].Valid()
    }

    /** `State::default()`: no sessions and nothing allocated. */
    constructor ()
      ensures Valid()
      ensures sessions == map[] && capacity == 0
    {
      sessions := map[];
      capacity := 0;
    }
  }
}
