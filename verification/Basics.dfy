/** Shared vocabulary: optional values, and Go strings as byte sequences. */
module Basics {

  datatype Option<+T> = None | Some(value: T)

  /** A Go string is a sequence of bytes; a byte is written here as a character below 256. */
  type Byte = c: char | c as int < 256

  type Str = seq<Byte>

  /** `keys` lists every element of `s` exactly once: one possible order of a map iteration. */
  ghost predicate Enumerates<T(!new)>(keys: seq<T>, s: set<T>) {
    && (forall k :: k in keys <==> k in s)
    && (forall i, j :: 0 <= i < j < |keys| ==> keys[i] != keys[j])
  }

  lemma {:induction false} EnumerationExists<T(!new)>(s: set<T>) returns (keys: seq<T>)
    ensures Enumerates(keys, s)
    decreases |s|
  {
    if s == {} {
      keys := [];
    } else {
      var k :| k in s;
      var rest := EnumerationExists(s - {k});
      keys := [k] + rest;
    }
  }

  lemma Regroup<T>(x: seq<T>, y: seq<T>, z: seq<T>)
    ensures x + (y + z) == x + y + z
  {
  }
}
