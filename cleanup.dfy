/** The periodic cleanup task and its memory estimate (src/cleanup.rs). */
module Cleanup {
  import opened Common
  import opened SessionIds
  import opened UserIds
  import opened AccessTokens
  import opened Store
  import opened Config
  import opened Sums

  /** Tier 1 keeps a received response for 30 s (milliseconds). */
  const ReceivedGrace: nat := 30_000
  /** Tier 2 keeps only sessions used within the last 5 s (milliseconds). */
  const PressureWindow: nat := 5_000

  /** `size_of::<UserResponse>()` and `size_of::<SessionState>()` of the compiled program. */
  datatype Layout = Layout(userResponseSize: nat, sessionStateSize: nat)

  // ---------------------------------------------------------------- the estimate

  /** The bytes one response is charged: its user's name and its data. */
  function ResponseBytes(u: UserID, r: UserResponse): nat {
    |u.value| + |r.data|
  }

  /** The bytes one session is charged, its response map's allocated slots included. */
  ghost function SessionBytes(layout: Layout, id: SessionID, s: SessionState): nat {
    |id.value| + |s.page| + |s.accessToken.value|
    + SumMap(s.responses, ResponseBytes)
    + layout.userResponseSize * s.responsesCapacity
  }

  ghost function SessionCost(layout: Layout): (SessionID, SessionState) -> nat {
    (id, s) => SessionBytes(layout, id, s)
  }

  /** What `count_user_memory_usage` adds up, as a sum over the store. */
  ghost function UsedBytes(layout: Layout, sessions: map<SessionID, SessionState>, capacity: nat): nat {
    SumMap(sessions, SessionCost(layout)) + layout.sessionStateSize * capacity
  }

  /** `get_memory_usage_with_safety_buffer`: twice the counted bytes. */
  ghost function MemoryEstimate(layout: Layout, sessions: map<SessionID, SessionState>, capacity: nat): nat {
    2 * UsedBytes(layout, sessions, capacity)
  }

  /**
   * `count_user_memory_usage`: the nested loop over sessions and their responses. The store
   * is only read.
   */
  method CountUserMemoryUsage(st: State, layout: Layout) returns (used: nat)
    ensures used == UsedBytes(layout, st.sessions, st.capacity)
  {
    used := 0;
    var rest := st.sessions;
    while rest != map[]
      invariant used + SumMap(rest, SessionCost(layout)) == SumMap(st.sessions, SessionCost(layout))
      decreases |rest|
    {
      var sessionId :| sessionId in rest;
      var session := rest[sessionId];
      SumMapRemove(rest, sessionId, SessionCost(layout));
      rest := rest - {sessionId};

      var responseBytes := CountResponses(session.responses);
      assert SessionCost(layout)(sessionId, session) == SessionBytes(layout, sessionId, session);
      used := used + |sessionId.value| + |session.page| + |session.accessToken.value| + responseBytes;
      used := used + layout.userResponseSize * session.responsesCapacity;
    }
    var mapOverhead: nat := layout.sessionStateSize * st.capacity;
    used := used + mapOverhead;
  }

  /** The inner loop of `count_user_memory_usage`, over one session's responses. */
  method CountResponses(responses: map<UserID, UserResponse>) returns (used: nat)
    ensures used == SumMap(responses, ResponseBytes)
  {
    used := 0;
    var rest := responses;
    while rest != map[]
      invariant used + SumMap(rest, ResponseBytes) == SumMap(responses, ResponseBytes)
      decreases |rest|
    {
      var userId :| userId in rest;
      SumMapRemove(rest, userId, ResponseBytes);
      used := used + |userId.value| + |rest[userId].data|;
      rest := rest - {userId};
    }
  }

  /** `get_memory_usage_with_safety_buffer`. */
  method GetMemoryUsageWithSafetyBuffer(st: State, layout: Layout) returns (bytes: nat)
    ensures bytes == MemoryEstimate(layout, st.sessions, st.capacity)
  {
    var used := CountUserMemoryUsage(st, layout);
    bytes := used * 2;
  }

  // ---------------------------------------------------------------- the tiers

  /** `sessions.retain(|_, s| s.last_request + window > now)`. */
  function RetainRecent(sessions: map<SessionID, SessionState>, window: nat, now: int)
    : (r: map<SessionID, SessionState>)
    ensures forall id :: id in r <==> id in sessions && sessions[id].lastRequest + window > now
    ensures forall id :: id in r ==> r[id] == sessions[id]
  {
    map id | id in sessions && sessions[id].lastRequest + window > now :: sessions[id]
  }

  /**
   * The Tier-1 `retain` on one response map: only responses that are received AND younger
   * than 30 s stay, so an unreceived response is dropped as well.
   */
  function KeepReceivedRecent(responses: map<UserID, UserResponse>, now: int)
    : (r: map<UserID, UserResponse>)
    ensures forall u :: u in r <==> u in responses && responses[u].wasReceived
                                    && responses[u].time + ReceivedGrace > now
    ensures forall u :: u in r ==> r[u] == responses[u]
  {
    map u | u in responses && responses[u].wasReceived && responses[u].time + ReceivedGrace > now
      :: responses[u]
  }

  /** Tier 1 over the whole store: every session kept, its responses filtered. */
  function FreeResponses(sessions: map<SessionID, SessionState>, now: int)
    : (r: map<SessionID, SessionState>)
    ensures r.Keys == sessions.Keys
    ensures forall id :: id in r ==>
              r[id] == sessions[id].(responses := KeepReceivedRecent(sessions[id].responses, now))
  {
    map id | id in sessions :: sessions[id].(responses := KeepReceivedRecent(sessions[id].responses, now))
  }

  /** Every response map shrunk to its live size. */
  function ShrinkResponses(sessions: map<SessionID, SessionState>): (r: map<SessionID, SessionState>)
    ensures r.Keys == sessions.Keys
    ensures forall id :: id in r ==>
              r[id] == sessions[id].(responsesCapacity := |sessions[id].responses|)
  {
    map id | id in sessions :: sessions[id].(responsesCapacity := |sessions[id].responses|)
  }

  /** The Tier-1 loop `for session in values_mut() { session.responses.retain(..) }`. */
  method FreeReceivedResponses(st: State, now: int)
    requires st.Valid()
    modifies st
    ensures st.sessions == FreeResponses(old(st.sessions), now)
    ensures st.capacity == old(st.capacity)
    ensures st.Valid()
  {
    var sessions := FilterEachSession(st.sessions, now);
    FreeKeepsValid(st.sessions, st.capacity, now);
    st.sessions := sessions;
  }

  /** The body of the Tier-1 loop, applied to each session in turn. */
  method FilterEachSession(original: map<SessionID, SessionState>, now: int)
    returns (sessions: map<SessionID, SessionState>)
    ensures sessions == FreeResponses(original, now)
  {
    sessions := original;
    var todo := sessions.Keys;
    while todo != {}
      invariant sessions.Keys == original.Keys && todo <= original.Keys
      invariant forall id :: id in todo ==> sessions[id] == original[id]
      invariant forall id :: id in original && id !in todo ==>
                  sessions[id] == original[id].(responses := KeepReceivedRecent(original[id].responses, now))
      decreases todo
    {
      var sessionId :| sessionId in todo;
      todo := todo - {sessionId};
      var session := sessions[sessionId];
      sessions := sessions[sessionId := session.(responses := KeepReceivedRecent(session.responses, now))];
    }
  }

  /** The Tier-2 `shrink_to_fit` of the session map and of every response map. */
  method ShrinkToFit(st: State)
    requires st.Valid()
    modifies st
    ensures st.sessions == ShrinkResponses(old(st.sessions))
    ensures st.capacity == |st.sessions|
    ensures st.Valid()
  {
    var sessions := ShrinkEachSession(st.sessions);
    ShrinkKeepsValid(st.sessions);
    st.sessions := sessions;
    st.capacity := |st.sessions|;
  }

  /** The loop `for session in values_mut() { session.responses.shrink_to_fit() }`. */
  method ShrinkEachSession(original: map<SessionID, SessionState>)
    returns (sessions: map<SessionID, SessionState>)
    ensures sessions == ShrinkResponses(original)
  {
    sessions := original;
    var todo := sessions.Keys;
    while todo != {}
      invariant sessions.Keys == original.Keys && todo <= original.Keys
      invariant forall id :: id in todo ==> sessions[id] == original[id]
      invariant forall id :: id in original && id !in todo ==>
                  sessions[id] == original[id].(responsesCapacity := |original[id].responses|)
      decreases todo
    {
      var sessionId :| sessionId in todo;
      todo := todo - {sessionId};
      var session := sessions[sessionId];
      sessions := sessions[sessionId := session.(responsesCapacity := |session.responses|)];
    }
  }

  /** One iteration of `do_periodic_cleanup`, under the lock, at time `now`. */
  method CleanupTick(st: State, settings: Settings, layout: Layout, now: int)
    requires st.Valid()
    modifies st
    ensures st.Valid()
    ensures
      var tier0 := RetainRecent(old(st.sessions), settings.sessionKeepAlive, now);
      var tier1 := FreeResponses(tier0, now);
      var tier2 := RetainRecent(tier1, PressureWindow, now);
      if MemoryEstimate(layout, tier0, old(st.capacity)) < settings.maxMemoryUsage then
        st.sessions == tier0 && st.capacity == old(st.capacity)
      else if MemoryEstimate(layout, tier1, old(st.capacity)) < settings.maxMemoryUsage then
        st.sessions == tier1 && st.capacity == old(st.capacity)
      else
        st.sessions == ShrinkResponses(tier2) && st.capacity == |tier2|
    ensures forall id :: id in st.sessions ==> st.sessions[id].lastRequest + settings.sessionKeepAlive > now
    // No session appears and no allocation grows.
    ensures st.capacity <= old(st.capacity)
    ensures forall id :: id in st.sessions ==>
              id in old(st.sessions) && st.sessions[id].responsesCapacity <= old(st.sessions)[id].responsesCapacity
    ensures MemoryEstimate(layout, st.sessions, st.capacity)
         <= MemoryEstimate(layout, old(st.sessions), old(st.capacity))
  {
    ghost var original, capacity := st.sessions, st.capacity;

    // Tier 0: forget sessions idle for longer than the keep-alive.
    RetainKeepsValid(st.sessions, st.capacity, settings.sessionKeepAlive, now);
    st.sessions := RetainRecent(st.sessions, settings.sessionKeepAlive, now);
    RetainEstimate(layout, original, capacity, settings.sessionKeepAlive, now);

    var usedBytes := GetMemoryUsageWithSafetyBuffer(st, layout);
    if usedBytes < settings.maxMemoryUsage {
      return;
    }

    // Tier 1: free responses.
    ghost var tier0 := st.sessions;
    FreeReceivedResponses(st, now);
    FreeEstimate(layout, tier0, capacity, now);

    usedBytes := GetMemoryUsageWithSafetyBuffer(st, layout);
    if usedBytes < settings.maxMemoryUsage {
      return;
    }

    // Tier 2: keep only what was used in the last few seconds, and give memory back.
    ghost var tier1 := st.sessions;
    RetainKeepsValid(st.sessions, st.capacity, PressureWindow, now);
    st.sessions := RetainRecent(st.sessions, PressureWindow, now);
    RetainEstimate(layout, tier1, capacity, PressureWindow, now);
    ghost var tier2 := st.sessions;
    ShrinkToFit(st);
    ShrinkEstimate(layout, tier2, capacity);
  }

  // ---------------------------------------------------------------- lemmas

  /** Expiry is idempotent: a second sweep at the same time removes nothing. */
  lemma RetainRecentIdempotent(sessions: map<SessionID, SessionState>, window: nat, now: int)
    ensures RetainRecent(RetainRecent(sessions, window, now), window, now) == RetainRecent(sessions, window, now)
  {
  }

  /** Tier 1 is idempotent at a fixed time. */
  lemma FreeResponsesIdempotent(sessions: map<SessionID, SessionState>, now: int)
    ensures FreeResponses(FreeResponses(sessions, now), now) == FreeResponses(sessions, now)
  {
    var once := FreeResponses(sessions, now);
    forall id | id in once
      ensures FreeResponses(once, now)[id] == once[id]
    {
      assert KeepReceivedRecent(once[id].responses, now) == once[id].responses;
    }
  }

  /** A map keeps its invariant when sessions are dropped, its capacity left as it was. */
  lemma RetainKeepsValid(sessions: map<SessionID, SessionState>, capacity: nat, window: nat, now: int)
    requires |sessions| <= capacity
    ensures |RetainRecent(sessions, window, now)| <= capacity
  {
    var r := RetainRecent(sessions, window, now);
    assert r.Keys <= sessions.Keys;
    SubsetCard(r.Keys, sessions.Keys);
  }

  lemma {:induction false} SubsetCard<T>(a: set<T>, b: set<T>)
    requires a <= b
    ensures |a| <= |b|
    decreases |b|
  {
    if b != {} {
      var x :| x in b;
      SubsetCard(a - {x}, b - {x});
    }
  }

  /** Filtering a session's responses keeps its invariant. */
  lemma FilterKeepsValid(s: SessionState, now: int)
    requires s.Valid()
    ensures s.(responses := KeepReceivedRecent(s.responses, now)).Valid()
  {
    var r := KeepReceivedRecent(s.responses, now);
    SubsetCard(r.Keys, s.responses.Keys);
  }

  /** Tier 1 keeps the store's invariant. */
  lemma FreeKeepsValid(sessions: map<SessionID, SessionState>, capacity: nat, now: int)
    requires |sessions| <= capacity && forall id :: id in sessions ==> sessions[id].Valid()
    ensures |FreeResponses(sessions, now)| <= capacity
    ensures forall id :: id in FreeResponses(sessions, now) ==> FreeResponses(sessions, now)[id].Valid()
  {
    var r := FreeResponses(sessions, now);
    assert r.Keys == sessions.Keys;
    forall id | id in r
      ensures r[id].Valid()
    {
      FilterKeepsValid(sessions[id], now);
    }
  }

  /** Shrinking keeps every session's invariant. */
  lemma ShrinkKeepsValid(sessions: map<SessionID, SessionState>)
    requires forall id :: id in sessions ==> sessions[id].Valid()
    ensures forall id :: id in ShrinkResponses(sessions) ==> ShrinkResponses(sessions)[id].Valid()
  {
  }

  /** Dropping sessions never increases the estimate. */
  lemma RetainEstimate(layout: Layout, sessions: map<SessionID, SessionState>, capacity: nat, window: nat, now: int)
    ensures UsedBytes(layout, RetainRecent(sessions, window, now), capacity) <= UsedBytes(layout, sessions, capacity)
  {
    var r := RetainRecent(sessions, window, now);
    SumMapMono(r, SessionCost(layout), sessions, SessionCost(layout));
  }

  /** Dropping responses never increases the estimate. */
  lemma FreeEstimate(layout: Layout, sessions: map<SessionID, SessionState>, capacity: nat, now: int)
    ensures UsedBytes(layout, FreeResponses(sessions, now), capacity) <= UsedBytes(layout, sessions, capacity)
  {
    var r := FreeResponses(sessions, now);
    forall id | id in r
      ensures SessionCost(layout)(id, r[id]) <= SessionCost(layout)(id, sessions[id])
    {
      var responses := sessions[id].responses;
      SumMapMono(KeepReceivedRecent(responses, now), ResponseBytes, responses, ResponseBytes);
    }
    SumMapMono(r, SessionCost(layout), sessions, SessionCost(layout));
  }

  /** Shrinking every capacity to the live size never increases the estimate. */
  lemma ShrinkEstimate(layout: Layout, sessions: map<SessionID, SessionState>, capacity: nat)
    requires |sessions| <= capacity
    requires forall id :: id in sessions ==> sessions[id].Valid()
    ensures UsedBytes(layout, ShrinkResponses(sessions), |sessions|) <= UsedBytes(layout, sessions, capacity)
  {
    var r := ShrinkResponses(sessions);
    forall id | id in r
      ensures SessionCost(layout)(id, r[id]) <= SessionCost(layout)(id, sessions[id])
    {
      ShrinkSessionEstimate(layout, id, sessions[id]);
    }
    SumMapMono(r, SessionCost(layout), sessions, SessionCost(layout));
    MulMono(layout.sessionStateSize, |sessions|, capacity);
  }

  /** Shrinking one session's response map to its live size never increases its cost. */
  lemma ShrinkSessionEstimate(layout: Layout, id: SessionID, s: SessionState)
    requires s.Valid()
    ensures SessionBytes(layout, id, s.(responsesCapacity := |s.responses|)) <= SessionBytes(layout, id, s)
  {
    MulMono(layout.userResponseSize, |s.responses|, s.responsesCapacity);
  }

  lemma MulMono(a: nat, b: nat, c: nat)
    requires b <= c
    ensures a * b <= a * c
  {
  }
}
