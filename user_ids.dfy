/** Identifiers of responding users (src/user_id.rs). */
module UserIds {
  import opened Common
  import opened Errors

  /** A validated user name; one response slot per user. */
  datatype UserID = UserID(value: Bytes)

  const MaxLength: nat := 100

  /** `UserID::from_string`: accepts 1 to 100 bytes, kept verbatim. */
  function FromString(s: Bytes): (r: Result<UserID>)
    ensures r.Ok? <==> 1 <= |s| <= MaxLength
    ensures r.Ok? ==> r.value == UserID(s)
    ensures r.Err? ==> r.error == BadUserID
  {
    if |s| == 0 || |s| > MaxLength then Err(BadUserID) else Ok(UserID(s))
  }

  /** Validating the text of a validated identifier gives the same identifier back. */
  lemma Revalidate(s: Bytes)
    requires FromString(s).Ok?
    ensures FromString(FromString(s).value.value) == FromString(s)
  {
  }
}
