/** Byte strings, an option type and first-occurrence search, shared by every module. */
module Common {

  /** One byte of a UTF-8 encoded Rust `String`. */
  type byte = x: int | 0 <= x < 256

  /** A Rust `String` seen as its UTF-8 bytes, so that `|s|` is Rust's `s.len()`. */
  type Bytes = seq<byte>

  datatype Option<+T> = None | Some(value: T) {
    /** Rust's `Option::unwrap_or`. */
    function UnwrapOr(default: T): T {
      match this
      case Some(v) => v
      case None => default
    }
  }

  /** The bytes of an ASCII literal, for writing constants and scenarios. */
  function Ascii(s: string): (b: Bytes)
    requires forall i :: 0 <= i < |s| ==> s[i] as int < 128
    ensures |b| == |s|
  {
    seq(|s|, i requires 0 <= i < |s| => s[i] as int)
  }

  /** `pat` occurs in `s` starting at index `j`. */
  predicate OccursAt(s: Bytes, pat: Bytes, j: nat) {
    j + |pat| <= |s| && s[j..j + |pat|] == pat
  }

  /** The first index at or after `i` where `pat` occurs in `s`. */
  function FindFrom(s: Bytes, pat: Bytes, i: nat): (r: Option<nat>)
    requires i <= |s|
    ensures r.Some? ==> i <= r.value && OccursAt(s, pat, r.value)
    ensures r.Some? ==> forall j: nat :: i <= j < r.value ==> !OccursAt(s, pat, j)
    ensures r.None? ==> forall j: nat :: i <= j ==> !OccursAt(s, pat, j)
    decreases |s| - i
  {
    if i + |pat| > |s| then None
    else if s[i..i + |pat|] == pat then Some(i)
    else FindFrom(s, pat, i + 1)
  }

  /** Rust's `str::find`: the index of the first occurrence of `pat` in `s`. */
  function Find(s: Bytes, pat: Bytes): (r: Option<nat>)
    ensures r.Some? <==> exists j: nat :: OccursAt(s, pat, j)
    ensures r.Some? ==> OccursAt(s, pat, r.value) && forall j: nat :: j < r.value ==> !OccursAt(s, pat, j)
  {
    FindFrom(s, pat, 0)
  }
}
