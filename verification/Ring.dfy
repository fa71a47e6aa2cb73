/** Bit masks on naturals, as the ring indices use them. */
module Bits {

  function Pow2(k: nat): (p: nat)
    ensures p > 0
  {
    if k == 0 then 1 else 2 * Pow2(k - 1)
  }

  /** Bit `j` of `x`. */
  function Bit(x: nat, j: nat): bool {
    if j == 0 then x % 2 == 1 else Bit(x / 2, j - 1)
  }

  /** The operator `&`, one bit at a time. */
  function And(x: nat, y: nat): nat {
    if x == 0 || y == 0 then 0
    else (if x % 2 == 1 && y % 2 == 1 then 1 else 0) + 2 * And(x / 2, y / 2)
  }

  lemma {:induction false} ZeroHasNoBits(j: nat)
    ensures !Bit(0, j)
  {
    if j > 0 {
      ZeroHasNoBits(j - 1);
    }
  }

  /** `And` is the bitwise conjunction. */
  lemma {:induction false} AndIsBitwise(x: nat, y: nat, j: nat)
    ensures Bit(And(x, y), j) == (Bit(x, j) && Bit(y, j))
  {
    if x == 0 || y == 0 {
      ZeroHasNoBits(j);
    } else if j > 0 {
      assert And(x, y) / 2 == And(x / 2, y / 2);
      AndIsBitwise(x / 2, y / 2, j - 1);
    }
  }

  /** The mask of a power of two keeps every smaller number. */
  lemma {:induction false} MaskKeeps(x: nat, k: nat)
    requires x < Pow2(k)
    ensures And(x, Pow2(k) - 1) == x
  {
    if k > 0 && x > 0 {
      assert (2 * Pow2(k - 1) - 1) / 2 == Pow2(k - 1) - 1;
      MaskKeeps(x / 2, k - 1);
    }
  }

  /** The mask of a power of two clears the power itself. */
  lemma {:induction false} MaskClears(k: nat)
    ensures And(Pow2(k), Pow2(k) - 1) == 0
  {
    if k > 0 {
      assert (2 * Pow2(k - 1) - 1) / 2 == Pow2(k - 1) - 1;
      MaskClears(k - 1);
    }
  }

  lemma SmallRemainder(x: nat, d: nat)
    requires x <= d && d > 0
    ensures x % d == if x == d then 0 else x
  {
  }

  /** One step of a masked index is the step modulo the capacity, which wraps exactly there. */
  lemma MaskedStep(i: nat, k: nat)
    requires i < Pow2(k)
    ensures And(i + 1, Pow2(k) - 1) == (i + 1) % Pow2(k)
    ensures And(i + 1, Pow2(k) - 1) == if i + 1 == Pow2(k) then 0 else i + 1
  {
    SmallRemainder(i + 1, Pow2(k));
    if i + 1 == Pow2(k) {
      MaskClears(k);
    } else {
      MaskKeeps(i + 1, k);
    }
  }
}

/** Owned byte messages and the masked-index rings that hold them. */
module Rings {
  import opened Bits

  newtype Byte = x: int | 0 <= x < 256

  /** A heap buffer of bytes; `id` stands for its address. */
  datatype Message = Message(id: nat, bytes: seq<Byte>)

  /** A ring of messages with one slot kept free, so that `head == tail` means empty. */
  class Ring {
    const slots: array<Message>
    ghost const bits: nat
    var head: nat // The producer pushes here
    var tail: nat // The consumer shifts from here

    ghost predicate Valid()
      reads this
    {
      && slots.Length == Pow2(bits)
      && head < slots.Length
      && tail < slots.Length
    }

    /** The messages in the ring, oldest first. */
    ghost function Contents(): (s: seq<Message>)
      requires Valid()
      reads this, slots
      ensures |s| < slots.Length
    {
      if tail <= head then slots[tail..head] else slots[tail..] + slots[..head]
    }

    constructor (k: nat)
      ensures Valid() && fresh(slots) && slots.Length == Pow2(k) && Contents() == []
    {
      slots := new Message[Pow2(k)](_ => Message(0, []));
      bits := k;
      head, tail := 0, 0;
    }

    predicate Empty()
      requires Valid()
      reads this, slots
      ensures Empty() == (Contents() == [])
    {
      head == tail
    }

    /** The index after `i`, wrapping at the capacity. */
    function After(i: nat): (j: nat)
      requires Valid() && i < slots.Length
      reads this
      ensures j == if i + 1 == slots.Length then 0 else i + 1
    {
      MaskedStep(i, bits);
      And(i + 1, slots.Length - 1)
    }

    predicate Full()
      requires Valid()
      reads this, slots
      ensures Full() == (|Contents()| == slots.Length - 1)
    {
      After(head) == tail
    }

    method Push(message: Message) returns (ok: bool)
      requires Valid()
      modifies this`head, slots
      ensures Valid()
      ensures ok == (|old(Contents())| < slots.Length - 1)
      ensures Contents() == if ok then old(Contents()) + [message] else old(Contents())
    {
      if Full() {
        return false;
      }
      slots[head] := message;
      head := After(head);
      return true;
    }

    method Shift() returns (ok: bool, message: Message)
      requires Valid()
      modifies this`tail
      ensures Valid()
      ensures ok == (old(Contents()) != [])
      ensures ok ==> old(Contents()) == [message] + Contents()
      ensures !ok ==> Contents() == []
    {
      message := slots[tail];
      if Empty() {
        return false, message;
      }
      tail := After(tail);
      return true, message;
    }
  }
}
