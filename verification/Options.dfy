module Options {

  datatype Option<+T> = None | Some(value: T)

  datatype Result<+T, +E> = Ok(value: T) | Err(error: E)

  // Every value with the same key.
  function Paired<K, V>(key: K, values: seq<V>): (out: seq<(K, V)>)
    ensures |out| == |values| && forall i :: 0 <= i < |values| ==> out[i] == (key, values[i])
  {
    seq(|values|, i requires 0 <= i < |values| => (key, values[i]))
  }
}
