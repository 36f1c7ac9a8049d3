/** Bytes, memcpy, and where the equal slots of a buffer begin. */
module Memory {

  type Byte = bv8

  /** memcpy into dest at the given offset. */
  method Copy(dest: array<Byte>, at: nat, src: seq<Byte>)
    requires at + |src| <= dest.Length
    modifies dest
    ensures dest[..] == old(dest[..])[..at] + src + old(dest[..])[at + |src|..]
  {
    var i := 0;
    while i < |src|
      invariant 0 <= i <= |src|
      invariant forall j :: 0 <= j < i ==> dest[at + j] == src[j]
      invariant forall j :: 0 <= j < dest.Length && !(at <= j < at + i) ==> dest[j] == old(dest[j])
    {
      dest[at + i] := src[i];
      i := i + 1;
    }
  }

  /** Where slot j begins. */
  function At(j: nat, size: nat): nat { j * size }

  lemma Product(size: nat, j: nat)
    ensures At(j + 1, size) == At(j, size) + size && At(0, size) == 0
  {
  }

  lemma {:induction false} Below(size: nat, i: nat, j: nat)
    requires i <= j
    ensures At(i, size) <= At(j, size)
    decreases j - i
  {
    if i < j {
      Below(size, i, j - 1);
      Product(size, j - 1);
    }
  }

  lemma InBuffer(size: nat, j: nat, max: nat)
    requires j < max
    ensures At(j, size) + size <= At(max, size)
  {
    hide At;
    Product(size, j);
    Below(size, j + 1, max);
  }
}
