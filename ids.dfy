/**
 * Request-id helpers: `generate_uuid` (utils/string_utils.py) and
 * `random_string` (helpers/helper.py). The random UUID text is a parameter.
 */
module Ids {

  /** Python's `s[:n]`, including a negative n, which counts from the end. */
  function PrefixSlice(s: string, n: int): (r: string)
    ensures |r| <= |s| && r == s[..|r|]
    ensures n >= 0 ==> |r| == if n <= |s| then n else |s|
    ensures n < 0 ==> |r| == if -n <= |s| then |s| + n else 0
  {
    if n >= 0 then (if n <= |s| then s[..n] else s)
    else if -n <= |s| then s[..|s| + n] else ""
  }

  /** `generate_uuid(short)`: the first 8 characters, or the whole text. */
  function GenerateUuid(uuid: string, short: bool): (r: string)
    ensures short ==> r == PrefixSlice(uuid, 8)
    ensures !short ==> r == uuid
  {
    if short then PrefixSlice(uuid, 8) else uuid
  }

  /** The canonical text form of a UUID has 36 characters. */
  predicate Canonical(uuid: string) {
    |uuid| == 36
  }

  lemma ShortIsPrefixOfLong(uuid: string)
    ensures GenerateUuid(uuid, true) <= GenerateUuid(uuid, false)
  {
  }

  lemma CanonicalUuidLengths(uuid: string, short: bool)
    requires Canonical(uuid)
    ensures |GenerateUuid(uuid, short)| == if short then 8 else 36
  {
  }

  /**
   * `random_string(length, extra)`: the first `length` characters of the
   * UUID text, followed by "_" and `extra` when `extra` is non-empty.
   */
  function RandomString(uuid: string, length: int, extra: string): (r: string)
    ensures extra == "" ==> r == PrefixSlice(uuid, length)
    ensures extra != "" ==> r == PrefixSlice(uuid, length) + "_" + extra
  {
    if extra != "" then PrefixSlice(uuid, length) + "_" + extra
    else PrefixSlice(uuid, length)
  }

  const DefaultLength: int := 32

  /** With the default arguments the id is 32 characters long, a prefix of the UUID text. */
  lemma DefaultRandomStringLength(uuid: string)
    requires Canonical(uuid)
    ensures |RandomString(uuid, DefaultLength, "")| == 32
    ensures RandomString(uuid, DefaultLength, "") <= uuid
  {
  }
}
