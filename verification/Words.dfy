// The machine words of the kernel.

module Words {

  const WORD: nat := 0x1_0000_0000 // ULONG arithmetic is modulo this

  // ULONG addition.
  function AddWord(a: nat, b: nat): (r: nat)
    ensures a + b < WORD ==> r == a + b
  {
    (a + b) % WORD
  }

  lemma {:induction false} AddWordWraps(a: nat, b: nat)
    requires a < 0x1_0000_0000 && b < 0x1_0000_0000
    ensures AddWord(a, b) == if a + b < 0x1_0000_0000 then a + b else a + b - 0x1_0000_0000
  {
  }
}
