/** Powers of two. */
module Powers {
  function Power(e: nat): nat {
    if e == 0 then 1 else 2 * Power(e - 1)
  }

  lemma {:induction false} PowersMultiply(e: nat, f: nat)
    ensures Power(e + f) == Power(e) * Power(f)
  {
    if e > 0 { PowersMultiply(e - 1, f); }
  }

  lemma {:induction false} PowersAreHuge(e: nat)
    ensures Power(e) > e
  {
    if e > 0 { PowersAreHuge(e - 1); }
  }

  lemma Power8()
    ensures Power(8) == 256
  {
    assert Power(4) == 16;
    PowersMultiply(4, 4);
  }

  lemma Power58()
    ensures Power(58) == 0x400_0000_0000_0000
  {
    Power8();
    PowersMultiply(8, 8);
    PowersMultiply(16, 16);
    PowersMultiply(32, 16);
    PowersMultiply(48, 8);
    assert Power(2) == 4;
    PowersMultiply(56, 2);
  }

  lemma Power64()
    ensures Power(64) == 0x1_0000_0000_0000_0000
  {
    Power8();
    PowersMultiply(8, 8);
    PowersMultiply(16, 16);
    PowersMultiply(32, 32);
  }
}
