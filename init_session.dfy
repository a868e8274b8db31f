/** Allocating a fresh session name and owner token (src/routes/post_init_session.rs). */
module InitSession {
  import opened Common
  import opened Errors
  import SessionIds
  import AccessTokens

  /** `{session, token}`: the JSON body of the request and of the reply. */
  datatype DesiredSession = DesiredSession(session: Bytes, token: Bytes)

  /** What the priming `POST /page?session=..&notify=false` self-request came back with. */
  datatype ClaimReply = TransportError | Status(code: nat)

  /** A decimal digit, as `random_range(0..10)` draws it. */
  type Digit = d: nat | d < 10

  /** The digit drawn for position `i` of the session name generated for attempt `k`. */
  type DigitSource = (nat, nat) -> Digit
  /** The byte `getrandom` puts at position `i` of the token buffer generated for attempt `k`. */
  type ByteSource = (nat, nat) -> byte
  /** The answer the server gives to the `k`-th claim of a name and token. */
  type ClaimOracle = (nat, DesiredSession) -> ClaimReply

  const Retries: nat := 5
  const InitialIDLength: nat := 6
  const TokenBufferLength: nat := 32
  const HttpOk: nat := 200

  // ---------------------------------------------------------------- hex encoding

  /** ASCII codes of `0`-`9` and `a`-`f`. */
  predicate IsLowerHexDigit(c: byte) {
    48 <= c <= 57 || 97 <= c <= 102
  }

  function HexDigit(n: nat): (c: byte)
    requires n < 16
    ensures IsLowerHexDigit(c)
  {
    if n < 10 then 48 + n else 87 + n
  }

  function HexValue(c: byte): (n: nat)
    requires IsLowerHexDigit(c)
    ensures n < 16 && HexDigit(n) == c
  {
    if c <= 57 then c - 48 else c - 87
  }

  /** `hex::encode`: two lowercase hex digits per byte, the high nibble first. */
  function HexEncode(b: Bytes): (s: Bytes)
    ensures |s| == 2 * |b|
    ensures forall i :: 0 <= i < |s| ==> IsLowerHexDigit(s[i])
    decreases |b|
  {
    if b == [] then [] else [HexDigit(b[0] / 16), HexDigit(b[0] % 16)] + HexEncode(b[1..])
  }

  /** The inverse of `HexEncode`: `None` for odd lengths and non-digits. */
  function HexDecode(s: Bytes): (r: Option<Bytes>)
    ensures r.Some? ==> 2 * |r.value| == |s|
    decreases |s|
  {
    if s == [] then Some([])
    else if |s| == 1 || !IsLowerHexDigit(s[0]) || !IsLowerHexDigit(s[1]) then None
    else
      match HexDecode(s[2..])
      case None => None
      case Some(rest) => Some([HexValue(s[0]) * 16 + HexValue(s[1])] + rest)
  }

  /** Decoding an encoding gives the bytes back. */
  lemma {:induction false} HexRoundTrip(b: Bytes)
    ensures HexDecode(HexEncode(b)) == Some(b)
    decreases |b|
  {
    if b != [] {
      HexRoundTrip(b[1..]);
      var s := HexEncode(b);
      assert s[2..] == HexEncode(b[1..]);
      assert HexValue(s[0]) * 16 + HexValue(s[1]) == b[0];
      assert [b[0]] + b[1..] == b;
    }
  }

  /** Byte `i` of the input is encoded at positions `2i` and `2i+1`. */
  lemma {:induction false} HexEncodeAt(b: Bytes, i: nat)
    requires i < |b|
    ensures HexEncode(b)[2 * i] == HexDigit(b[i] / 16)
    ensures HexEncode(b)[2 * i + 1] == HexDigit(b[i] % 16)
    decreases i
  {
    if i > 0 {
      HexEncodeAt(b[1..], i - 1);
    }
  }

  // ---------------------------------------------------------------- random values

  /** `make_random_session_id(length)`: `length` decimal digits, drawn for attempt `k`. */
  function MakeRandomSessionID(length: nat, k: nat, digits: DigitSource): (s: Bytes)
    ensures |s| == length
    ensures forall i :: 0 <= i < length ==> 48 <= s[i] <= 57 && s[i] - 48 == digits(k, i)
  {
    seq(length, i requires 0 <= i < length => 48 + digits(k, i))
  }

  /** The 32 bytes `getrandom` fills the token buffer with for attempt `k`. */
  function RandomBytes(k: nat, bytes: ByteSource): (b: Bytes)
    ensures |b| == TokenBufferLength
  {
    seq(TokenBufferLength, i requires 0 <= i < TokenBufferLength => bytes(k, i))
  }

  /**
   * `make_random_access_token`: fill a 32-byte buffer, then hex-encode it. The result
   * is 64 lowercase hex digits, which `AccessToken::from_string` accepts.
   */
  method MakeRandomAccessToken(k: nat, bytes: ByteSource) returns (token: Bytes)
    ensures token == HexEncode(RandomBytes(k, bytes))
    ensures |token| == 2 * TokenBufferLength
    ensures HexDecode(token) == Some(RandomBytes(k, bytes))
    ensures AccessTokens.FromString(token).Ok?
  {
    var buf := new byte[TokenBufferLength](_ => 0);
    for i := 0 to TokenBufferLength
      invariant forall j :: 0 <= j < i ==> buf[j] == bytes(k, j)
    {
      buf[i] := bytes(k, i);
    }
    assert buf[..] == RandomBytes(k, bytes);
    token := HexEncode(buf[..]);
    HexRoundTrip(buf[..]);
  }

  // ---------------------------------------------------------------- the retry loop

  /**
   * The session-name length of attempt `k` (from 0): six digits, one more for every failed
   * attempt after the third.
   */
  function IdLength(k: nat): nat {
    InitialIDLength + (if k > 3 then k - 3 else 0)
  }

  /** The name and token claimed by attempt `k`: the request body's for the first, if given. */
  function Candidate(k: nat, desired: Option<DesiredSession>, digits: DigitSource, bytes: ByteSource)
    : DesiredSession
  {
    if k == 0 && desired.Some? then desired.value
    else DesiredSession(MakeRandomSessionID(IdLength(k), k, digits), HexEncode(RandomBytes(k, bytes)))
  }

  /** Attempt `k` was answered, but not with 200. */
  predicate Rejected(k: nat, desired: Option<DesiredSession>, digits: DigitSource, bytes: ByteSource,
                     claim: ClaimOracle)
  {
    var c := claim(k, Candidate(k, desired, digits, bytes));
    c.Status? && c.code != HttpOk
  }

  /** `DesiredSession { session: make_random_session_id(length), token: make_random_access_token() }`. */
  method MakeCandidate(k: nat, length: nat, digits: DigitSource, bytes: ByteSource) returns (c: DesiredSession)
    ensures c == DesiredSession(MakeRandomSessionID(length, k, digits), HexEncode(RandomBytes(k, bytes)))
  {
    var token := MakeRandomAccessToken(k, bytes);
    c := DesiredSession(MakeRandomSessionID(length, k, digits), token);
  }

  /**
   * `post_init_session_route`. `desired` is the request body if it parses as
   * `{session, token}`. `attempts` counts the claims made.
   */
  method PostInitSessionRoute(desired: Option<DesiredSession>, digits: DigitSource, bytes: ByteSource,
                              claim: ClaimOracle)
    returns (r: Result<DesiredSession>, ghost attempts: nat)
    ensures 1 <= attempts <= Retries
    ensures forall j :: 0 <= j < attempts - 1 ==> Rejected(j, desired, digits, bytes, claim)
    ensures var last := Candidate(attempts - 1, desired, digits, bytes);
      && (r.Ok? <==> claim(attempts - 1, last) == Status(HttpOk))
      && (r.Ok? ==> r.value == last)
      && (r.Err? ==> r.error == ServerError
                     && (claim(attempts - 1, last) == TransportError || attempts == Retries))
    // The same facts about the reply alone.
    ensures claim(0, Candidate(0, desired, digits, bytes)) == Status(HttpOk) ==>
              r == Ok(Candidate(0, desired, digits, bytes))
    ensures claim(0, Candidate(0, desired, digits, bytes)) == TransportError ==> r == Err(ServerError)
    ensures (forall k :: 0 <= k < Retries ==> Rejected(k, desired, digits, bytes, claim)) ==>
              r == Err(ServerError)
    ensures r.Ok? ==> exists k :: 0 <= k < Retries && r.value == Candidate(k, desired, digits, bytes)
                                   && claim(k, r.value) == Status(HttpOk)
  {
    var sessionIdLength := InitialIDLength;
    var next: DesiredSession;
    if desired.Some? {
      next := desired.value;
    } else {
      next := MakeCandidate(0, sessionIdLength, digits, bytes);
    }
    attempts := 0;

    for retryI := 0 to Retries
      invariant attempts == retryI
      invariant sessionIdLength == IdLength(retryI)
      invariant next == Candidate(retryI, desired, digits, bytes)
      invariant forall j :: 0 <= j < retryI ==> Rejected(j, desired, digits, bytes, claim)
      invariant retryI > 0 ==> Rejected(0, desired, digits, bytes, claim)
    {
      attempts := attempts + 1;
      match claim(retryI, next)
      case TransportError =>
        return Err(ServerError), attempts;
      case Status(code) =>
        if code == HttpOk {
          assert !Rejected(retryI, desired, digits, bytes, claim);
          return Ok(next), attempts;
        }

      if retryI > 2 {
        // Longer names make a free one likelier.
        sessionIdLength := sessionIdLength + 1;
      }
      next := MakeCandidate(retryI + 1, sessionIdLength, digits, bytes);
    }
    assert Rejected(Retries - 1, desired, digits, bytes, claim);
    r := Err(ServerError);
  }

  /** Names are six digits for the first four attempts and seven for the fifth. */
  lemma IdLengthSchedule()
    ensures forall k :: 0 <= k < 4 ==> IdLength(k) == 6
    ensures IdLength(4) == 7
  {
  }

  /**
   * A generated candidate is a valid session name of `IdLength(k)` decimal digits with a
   * valid token of 64 hex digits.
   */
  lemma GeneratedCandidateShape(k: nat, desired: Option<DesiredSession>, digits: DigitSource, bytes: ByteSource)
    requires k > 0 || desired.None?
    ensures var c := Candidate(k, desired, digits, bytes);
      && |c.session| == IdLength(k)
      && (forall i :: 0 <= i < |c.session| ==> 48 <= c.session[i] <= 57)
      && (k < Retries ==> SessionIds.FromString(c.session).Ok?)
      && |c.token| == 2 * TokenBufferLength
      && AccessTokens.FromString(c.token).Ok?
      && HexDecode(c.token) == Some(RandomBytes(k, bytes))
  {
    HexRoundTrip(RandomBytes(k, bytes));
  }
}
