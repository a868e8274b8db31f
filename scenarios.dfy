/**
 * The request sequences of src/tests.rs, replayed against the route models. Each
 * method verifies only if the routes' contracts determine the outcome the tests expect.
 */
module Scenarios {
  import opened Common
  import opened Errors
  import opened Store
  import opened Config
  import SessionIds
  import UserIds
  import SetPage
  import GetPage
  import PostRespond
  import GetResponses

  // The test inputs, spelled as their UTF-8 bytes.
  const MyTestToken: Bytes := [109, 121, 45, 116, 101, 115, 116, 45, 116, 111, 107, 101, 110]  // "my-test-token"
  const MyFirstToken: Bytes := [109, 121, 45, 102, 105, 114, 115, 116, 45, 116, 111, 107, 101, 110]  // "my-first-token"
  const MySecondToken: Bytes := [109, 121, 45, 115, 101, 99, 111, 110, 100, 45, 116, 111, 107, 101, 110]  // "my-second-token"
  const Session1: Bytes := [49]  // "1"
  const SessionA: Bytes := [97]  // "a"
  const SessionB: Bytes := [98]  // "b"
  const SessionC: Bytes := [99]  // "c"
  const Me: Bytes := [109, 101]  // "me"
  const Answer42: Bytes := [52, 50]  // "42"

  /**
   * A page of acceptable size without `<`, like every page the tests send ("my test page",
   * "page one", "page 1", ...). The scenarios hold for every such page.
   */
  predicate PlainPage(page: Bytes) {
    |page| <= DefaultSettings.maxPageSize && forall i :: 0 <= i < |page| ==> page[i] != '<' as int
  }

  /** `set_page_and_request`: a page written to a new session reads back unchanged. */
  method CreateThenRead(page: Bytes, now: int)
    requires PlainPage(page)
  {
    var st := new State();
    SetPage.NoHeadStoredVerbatim(page);
    var r, notified := SetPage.SetPageRoute(st, DefaultSettings, MyTestToken, Session1, page, None, now);
    assert r == Ok(()) && !notified;
    assert GetPage.GetPageRoute(st.sessions, Session1) == Ok(GetPage.Found(page));
  }

  /** `not_found_session_page`: an unknown session is answered with the placeholder (404). */
  method UnknownSession() {
    var st := new State();
    assert GetPage.GetPageRoute(st.sessions, Session1) == Ok(GetPage.EmptySessionPage);
  }

  /** `set_page_twice_with_same_token`: the owner replaces its page and waiting viewers are woken. */
  method SameTokenTwice(pageOne: Bytes, pageTwo: Bytes, now: int)
    requires PlainPage(pageOne) && PlainPage(pageTwo)
  {
    var st := new State();
    SetPage.NoHeadStoredVerbatim(pageOne);
    SetPage.NoHeadStoredVerbatim(pageTwo);
    var r, notified := SetPage.SetPageRoute(st, DefaultSettings, MyTestToken, SessionA, pageOne, None, now);
    assert r == Ok(());
    assert GetPage.GetPageRoute(st.sessions, SessionA) == Ok(GetPage.Found(pageOne));
    r, notified := SetPage.SetPageRoute(st, DefaultSettings, MyTestToken, SessionA, pageTwo, None, now);
    assert r == Ok(()) && notified;
    assert GetPage.GetPageRoute(st.sessions, SessionA) == Ok(GetPage.Found(pageTwo));
  }

  /**
   * `try_update_page_with_other_token`: a second token is refused with 401 while the first
   * owner is active, and the first page is still served.
   */
  method OtherTokenRefused(page1: Bytes, page2: Bytes, now: int)
    requires PlainPage(page1) && PlainPage(page2)
  {
    var st := new State();
    SetPage.NoHeadStoredVerbatim(page1);
    var r, notified := SetPage.SetPageRoute(st, DefaultSettings, MyFirstToken, SessionB, page1, None, now);
    assert r == Ok(());
    r, notified := SetPage.SetPageRoute(st, DefaultSettings, MySecondToken, SessionB, page2, None, now);
    assert r == Err(BadAccessToken) && StatusCode(r.error) == 401;
    assert GetPage.GetPageRoute(st.sessions, SessionB) == Ok(GetPage.Found(page1));
  }

  /** Once the owner has been silent for the token timeout, another token takes the session over. */
  method TakeoverAfterTimeout(page1: Bytes, page2: Bytes, now: int)
    requires PlainPage(page1) && PlainPage(page2)
  {
    var st := new State();
    SetPage.NoHeadStoredVerbatim(page2);
    var r, notified := SetPage.SetPageRoute(st, DefaultSettings, MyFirstToken, SessionB, page1, None, now);
    r, notified := SetPage.SetPageRoute(st, DefaultSettings, MySecondToken, SessionB, page2, None,
                                        now + DefaultSettings.tokenTimeout);
    assert r == Ok(()) && notified;
    assert GetPage.GetPageRoute(st.sessions, SessionB) == Ok(GetPage.Found(page2));
  }

  /** `single_response`: after user `me` sends `42`, a poll from 0 returns it and cursor 1. */
  method SingleResponse(page: Bytes, now: int)
    requires PlainPage(page)
  {
    var st := new State();
    var r, notified := SetPage.SetPageRoute(st, DefaultSettings, MyTestToken, SessionC, page, None, now);
    assert r == Ok(());
    var id, me := SessionIds.SessionID(SessionC), UserIds.UserID(Me);
    r := PostRespond.PostRespondRoute(st, DefaultSettings, SessionC, Me, Answer42, now);
    assert r == Ok(());
    var responses := st.sessions[id].responses;
    assert responses == map[me := UserResponse(Answer42, 0, false, now)];
    // No other request runs between the two critical sections in this test.
    var wait := GetResponses.PollBegin(st, DefaultSettings, SessionC, 0);
    assert wait == Ok(false);
    var poll := GetResponses.PollScan(st, id, 0, now);
    assert poll.Ok? && poll.value.nextStart == 1;
    OnlyResponseDelivered(responses, me, Answer42, now);
    assert poll.value.responsesByUser == map[me := Answer42];
  }

  /** A session holding one unread response numbered 0 delivers exactly that response from cursor 0. */
  lemma OnlyResponseDelivered(responses: map<UserIds.UserID, UserResponse>, u: UserIds.UserID,
                              data: Bytes, now: int)
    requires responses == map[u := UserResponse(data, 0, false, now)]
    ensures GetResponses.Delivered(responses, 0) == map[u := data]
  {
  }
}
