/** Datatypes and sequence functions shared by all components. */
module Basics {

  datatype Option<+T> = None | Some(value: T)

  datatype Result<+T, +E> = Ok(value: T) | Err(error: E)

  /** The largest integer a double holds with all its neighbours. */
  const MAX_SAFE_INTEGER: nat := 0x1F_FFFF_FFFF_FFFF

  /** The pieces of a stream put together again. */
  function Concat<T>(chunks: seq<seq<T>>): seq<T> {
    if chunks == [] then [] else chunks[0] + Concat(chunks[1..])
  }

  lemma ConcatTwo<T>(stream: seq<T>, cut: nat)
    requires cut <= |stream|
    ensures Concat([stream[..cut], stream[cut..]]) == stream
    ensures cut == |stream| ==> [stream[..cut], stream[cut..]] == [stream, []]
  {
    assert [stream[..cut], stream[cut..]][1..] == [stream[cut..]];
    assert [stream[cut..]][1..] == [];
    assert Concat([stream[cut..]]) == stream[cut..];
    assert stream[..|stream|] == stream;
  }
}
