/** Types shared by every component of the model. */
module Common {

  datatype Option<+T> = None | Some(value: T)

  /** One octet. */
  type Byte = x: int | 0 <= x < 256

  lemma {:induction false} SubsetSize<K>(a: set<K>, b: set<K>)
    requires a <= b
    ensures |a| <= |b|
  {
    if a != {} {
      var x :| x in a;
      SubsetSize(a - {x}, b - {x});
    }
  }
}
