/** Facts about bytes shared by the two chip drivers. */
module Bytes {

  /** An integer in 0..255 survives the conversion to a byte and back. */
  lemma ByteOfInt(v: int)
    requires 0 <= v < 256
    ensures (v as bv8) as int == v
  {
    if v < 128 {
      if v < 64 { } else { }
    } else {
      if v < 192 { } else { }
    }
  }
}
