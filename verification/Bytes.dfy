/** Numbers below 256 as octets. */
module Bytes {
  lemma OctetValue(n: nat)
    requires n < 256
    ensures (n as bv8) as nat == n
  {
  }

  function Octet(n: nat): (b: bv8)
    requires n < 256
    ensures b as nat == n
  {
    OctetValue(n);
    n as bv8
  }
}
