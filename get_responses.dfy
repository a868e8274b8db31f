/** Polling a session's responses with a cursor (src/routes/get_responses.rs). */
module GetResponses {
  import opened Common
  import opened Errors
  import opened SessionIds
  import opened UserIds
  import opened Store
  import opened Config

  /** `RetrievedResponses`: the cursor to resume from and the data of every newer response. */
  datatype RetrievedResponses = RetrievedResponses(nextStart: nat, responsesByUser: map<UserID, Bytes>)

  /** The poll long-waits only when nothing at or after `start` exists yet and waiting is enabled. */
  function ShouldWait(nextResponseID: nat, start: nat, pollDuration: nat): bool {
    nextResponseID <= start && pollDuration != 0
  }

  /** The data of every response numbered at or after the cursor, by user. */
  function Delivered(responses: map<UserID, UserResponse>, start: nat): (r: map<UserID, Bytes>)
    ensures forall u :: u in r <==> u in responses && responses[u].id >= start
    ensures forall u :: u in r ==> r[u] == responses[u].data
  {
    map u | u in responses && responses[u].id >= start :: responses[u].data
  }

  /** One entry after the scan: skipped entries (numbered below the cursor) are marked received. */
  function Mark(r: UserResponse, start: nat): UserResponse {
    if r.id < start then r.(wasReceived := true) else r
  }

  /** The responses after the scan: the same users, numbers and data; only the flag may change. */
  function MarkSkipped(responses: map<UserID, UserResponse>, start: nat): (r: map<UserID, UserResponse>)
    ensures r.Keys == responses.Keys
    ensures forall u :: u in r ==> r[u].(wasReceived := responses[u].wasReceived) == responses[u]
    ensures forall u :: u in r ==> (r[u].wasReceived <==> responses[u].wasReceived || responses[u].id < start)
  {
    map u | u in responses :: Mark(responses[u], start)
  }

  /** Marking again with the same cursor changes nothing. */
  lemma MarkSkippedIdempotent(responses: map<UserID, UserResponse>, start: nat)
    ensures MarkSkipped(MarkSkipped(responses, start), start) == MarkSkipped(responses, start)
  {
  }

  /** Marking does not change what a later poll with the same or a higher cursor returns. */
  lemma MarkingKeepsDelivered(responses: map<UserID, UserResponse>, start: nat, later: nat)
    requires start <= later
    ensures Delivered(MarkSkipped(responses, start), later) == Delivered(responses, later)
  {
  }

  /** A higher cursor never returns more. */
  lemma DeliveredShrinks(responses: map<UserID, UserResponse>, start: nat, later: nat)
    requires start <= later
    ensures Delivered(responses, later).Keys <= Delivered(responses, start).Keys
  {
  }

  /** The scan keeps the session's invariant. */
  lemma MarkSkippedKeepsValid(s: SessionState, start: nat, now: int)
    requires s.Valid()
    ensures s.(responses := MarkSkipped(s.responses, start), lastRequest := now).Valid()
  {
    var t := s.(responses := MarkSkipped(s.responses, start), lastRequest := now);
    forall u, v | u in t.responses && v in t.responses && u != v
      ensures t.responses[u].id != t.responses[v].id
    {
      assert t.responses[u].id == s.responses[u].id && t.responses[v].id == s.responses[v].id;
    }
  }

  /**
   * The first critical section: validate, look the session up, and decide whether to wait.
   * The store is only read.
   */
  method PollBegin(st: State, settings: Settings, session: Bytes, start: nat)
    returns (r: Result<bool>)
    ensures SessionIds.FromString(session).Err? <==> r == Err(BadSessionID)
    ensures SessionIds.FromString(session).Ok? ==>
      if SessionID(session) in st.sessions then
        r == Ok(ShouldWait(st.sessions[SessionID(session)].nextResponseID, start,
                           settings.responseLongPollDuration))
      else r == Err(SessionIDDoesNotExist)
  {
    var id := SessionIds.FromString(session);
    if id.Err? {
      return Err(id.error);
    }
    if id.value !in st.sessions {
      return Err(SessionIDDoesNotExist);
    }
    var nextResponseId := st.sessions[id.value].nextResponseID;
    r := Ok(ShouldWait(nextResponseId, start, settings.responseLongPollDuration));
  }

  /**
   * The second critical section, after the wait: re-find the session, refresh its activity
   * time, and scan its responses once.
   */
  method PollScan(st: State, id: SessionID, start: nat, now: int) returns (r: Result<RetrievedResponses>)
    requires st.Valid()
    modifies st
    ensures st.Valid() && st.capacity == old(st.capacity)
    ensures id !in old(st.sessions) ==> r == Err(SessionIDDoesNotExist) && st.sessions == old(st.sessions)
    ensures id in old(st.sessions) ==>
      var s := old(st.sessions)[id];
      && r == Ok(RetrievedResponses(s.nextResponseID, Delivered(s.responses, start)))
      && st.sessions == old(st.sessions)[id := s.(responses := MarkSkipped(s.responses, start),
                                                  lastRequest := now)]
  {
    if id !in st.sessions {
      return Err(SessionIDDoesNotExist);
    }
    var s := SessionUsed(st.sessions[id], now);
    var marked, delivered := ScanResponses(s.responses, start);
    MarkSkippedKeepsValid(st.sessions[id], start, now);
    st.sessions := st.sessions[id := s.(responses := marked)];
    r := Ok(RetrievedResponses(s.nextResponseID, delivered));
  }

  /**
   * The `iter_mut` loop: every entry numbered below the cursor is marked received, every
   * other entry's data is copied into the result. Nothing else changes.
   */
  method ScanResponses(responses: map<UserID, UserResponse>, start: nat)
    returns (marked: map<UserID, UserResponse>, delivered: map<UserID, Bytes>)
    ensures marked == MarkSkipped(responses, start)
    ensures delivered == Delivered(responses, start)
  {
    marked := responses;
    delivered := map[];
    var todo := responses.Keys;
    while todo != {}
      invariant todo <= responses.Keys
      invariant marked.Keys == responses.Keys
      invariant forall u :: u in todo ==> marked[u] == responses[u]
      invariant forall u :: u in responses && u !in todo ==> marked[u] == Mark(responses[u], start)
      invariant forall u :: u in delivered <==> u in responses && u !in todo && responses[u].id >= start
      invariant forall u :: u in delivered ==> delivered[u] == responses[u].data
      decreases todo
    {
      var userId :| userId in todo;
      var userResponse := marked[userId];
      todo := todo - {userId};
      if userResponse.id < start {
        marked := marked[userId := userResponse.(wasReceived := true)];
        continue;
      }
      delivered := delivered[userId := userResponse.data];
    }
  }

  /**
   * Whatever other requests and the cleanup task do to the store while this request holds
   * no lock. Callers may rely only on this contract: the store is still well formed.
   */
  method OtherRequests(st: State)
    requires st.Valid()
    modifies st
    ensures st.Valid()
  {
  }

  /**
   * `get_responses_route`. `waited` tells whether the request long-polled; `observed` and
   * `observedCapacity` are the store as the second critical section found it, after any
   * other activity in between.
   */
  method GetResponsesRoute(st: State, settings: Settings, session: Bytes, start: nat, now: int)
    returns (r: Result<RetrievedResponses>, waited: bool, ghost observed: map<SessionID, SessionState>,
             ghost observedCapacity: nat)
    requires st.Valid()
    modifies st
    ensures st.Valid()
    ensures SessionIds.FromString(session).Err? ==>
              && r == Err(BadSessionID) && !waited
              && st.sessions == old(st.sessions) && st.capacity == old(st.capacity)
    ensures SessionIds.FromString(session).Ok? && SessionID(session) !in old(st.sessions) ==>
              && r == Err(SessionIDDoesNotExist) && !waited
              && st.sessions == old(st.sessions) && st.capacity == old(st.capacity)
    ensures SessionIds.FromString(session).Ok? && SessionID(session) in old(st.sessions) ==>
      var id := SessionID(session);
      && waited == ShouldWait(old(st.sessions)[id].nextResponseID, start, settings.responseLongPollDuration)
      && st.capacity == observedCapacity
      && (id !in observed ==> r == Err(SessionIDDoesNotExist) && st.sessions == observed)
      && (id in observed ==>
            var s := observed[id];
            && r == Ok(RetrievedResponses(s.nextResponseID, Delivered(s.responses, start)))
            && st.sessions == observed[id := s.(responses := MarkSkipped(s.responses, start),
                                                lastRequest := now)])
  {
    observed, observedCapacity := st.sessions, st.capacity;
    var decision := PollBegin(st, settings, session, start);
    if decision.Err? {
      return Err(decision.error), false, observed, observedCapacity;
    }
    waited := decision.value;
    // The lock is released here; the wait, if any, and other requests may change the store.
    OtherRequests(st);
    observed, observedCapacity := st.sessions, st.capacity;
    r := PollScan(st, SessionID(session), start, now);
  }
}
