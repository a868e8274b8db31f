/** Session identifiers (src/session_id.rs). */
module SessionIds {
  import opened Common
  import opened Errors

  /** A validated session name; compared by exact value and used as a map key. */
  datatype SessionID = SessionID(value: Bytes)

  const MaxLength: nat := 100

  /** `SessionID::from_string`: accepts 1 to 100 bytes, kept verbatim. */
  function FromString(s: Bytes): (r: Result<SessionID>)
    ensures r.Ok? <==> 1 <= |s| <= MaxLength
    ensures r.Ok? ==> r.value == SessionID(s)
    ensures r.Err? ==> r.error == BadSessionID
  {
    if |s| == 0 || |s| > MaxLength then Err(BadSessionID) else Ok(SessionID(s))
  }

  /** Validating the text of a validated identifier gives the same identifier back. */
  lemma Revalidate(s: Bytes)
    requires FromString(s).Ok?
    ensures FromString(FromString(s).value.value) == FromString(s)
  {
  }
}
