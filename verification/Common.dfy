/** Types shared by every module: optional values, replies that may carry an error,
    and the identifiers of the artifact store. */
module Common {

  datatype Option<+T> = None | Some(value: T)

  datatype Result<+T, +E> = Ok(value: T) | Err(error: E)

  type Byte = b: nat | b < 256
  type Bytes = seq<Byte>

  // Content addresses are 64 lowercase hexadecimal characters; nodes, sessions and runs have
  // textual IDs of their own.
  type ChunkId = string
  type ObjectId = string
  type LayoutId = string
  type VersionId = string
  type ManifestId = string
  type NodeId = string
  type ArtifactId = string
  type SessionId = string
  type RunId = string
  type PolicyId = string

  /** The largest value of the unsigned 64-bit integers that carry sizes and offsets. */
  const UINT64_MAX := 0xFFFF_FFFF_FFFF_FFFF

  predicate IsLowerHex(c: char) {
    '0' <= c <= '9' || 'a' <= c <= 'f'
  }

  predicate AllHex(s: string) {
    forall i | 0 <= i < |s| :: IsLowerHex(s[i])
  }

  function HexDigit(c: char): (d: nat)
    requires IsLowerHex(c)
    ensures d < 16
  {
    if c <= '9' then c as int - '0' as int else 10 + (c as int - 'a' as int)
  }

  predicate IsContentId(id: string) {
    |id| == 64 && AllHex(id)
  }

  /** Two different byte strings with one hash. Every hash of fixed width has some, so results that
      rest on content addressing end in "or here are two colliding strings". */
  predicate Collide(hash: Bytes -> string, x: Bytes, y: Bytes) {
    x != y && hash(x) == hash(y)
  }

  /** The distinct elements of a sequence, in order of first appearance. */
  function Distinct<T(==,!new)>(s: seq<T>): (d: seq<T>)
    ensures forall x :: x in d <==> x in s
    ensures forall i, j | 0 <= i < j < |d| :: d[i] != d[j]
  {
    if s == [] then []
    else
      var d := Distinct(s[..|s| - 1]);
      if s[|s| - 1] in d then d else d + [s[|s| - 1]]
  }
}
