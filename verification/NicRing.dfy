/** The rings the RTL8168 driver shares with the NIC: positions count without
    wrap-around, and a slot is a position's remainder. */
module NicRing {
  const SIZE: nat := 64

  function Slot(p: nat): (i: nat)
    ensures i < SIZE
  {
    p % SIZE
  }

  lemma SlotsDiffer(from: nat, p: nat, q: nat)
    requires from <= p < from + SIZE && from <= q < from + SIZE && p != q
    ensures Slot(p) != Slot(q)
  {
  }
}
