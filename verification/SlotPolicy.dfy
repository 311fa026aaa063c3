/** `slotsForPolicy`: memory turned into concurrency slots when no broker keeps them apart. */
module SlotPolicy {

  /** The memory a slot stands for. */
  function PerSlot(slotBudget: int, budgetMB: int): int
    requires slotBudget > 0
  {
    budgetMB / slotBudget
  }

  function SlotsForPolicy(slots: int, memoryMB: int, slotBudget: int, budgetMB: int, brokered: bool): int {
    if brokered || memoryMB <= 0 || slotBudget <= 0 || budgetMB <= 0 then slots
    else
      var perSlotMB := PerSlot(slotBudget, budgetMB);
      if perSlotMB <= 0 then slots
      else
        var need := (memoryMB + perSlotMB - 1) / perSlotMB;
        if need > slots then need else slots
  }

  /** A slot stands for as much memory as it can: all slots together for no more than there is, and one
      megabyte more a slot would be too much. */
  lemma PerSlotIsGreatest(slotBudget: int, budgetMB: int)
    requires slotBudget > 0
    ensures var per := PerSlot(slotBudget, budgetMB); slotBudget * per <= budgetMB < slotBudget * (per + 1)
    ensures PerSlot(slotBudget, budgetMB) > 0 <==> slotBudget <= budgetMB
  {
    var q, r := budgetMB / slotBudget, budgetMB % slotBudget;
    assert budgetMB == q * slotBudget + r && 0 <= r < slotBudget;
    assert slotBudget * (q + 1) == q * slotBudget + slotBudget;
    if q <= 0 {
      Monotone(q, 0, slotBudget);
    } else {
      Monotone(1, q, slotBudget);
    }
  }

  /**
   * Unbrokered, with memory declared and as many megabytes as slots or more, the least count not below
   * `slots` whose share of the budget, in whole megabytes a slot, covers the memory; unchanged otherwise.
   */
  lemma LeastThatCovers(slots: int, memoryMB: int, slotBudget: int, budgetMB: int, brokered: bool)
    ensures var r := SlotsForPolicy(slots, memoryMB, slotBudget, budgetMB, brokered);
            if !brokered && memoryMB > 0 && 0 < slotBudget <= budgetMB then
              && r >= slots && r * (budgetMB / slotBudget) >= memoryMB
              && forall n :: n >= slots && n * (budgetMB / slotBudget) >= memoryMB ==> r <= n
            else r == slots
  {
    if slotBudget > 0 {
      PerSlotIsGreatest(slotBudget, budgetMB);
    }
    if !brokered && memoryMB > 0 && 0 < slotBudget <= budgetMB {
      SamePerSlot(slotBudget, budgetMB, PerSlot(slotBudget, budgetMB));
      CoversByNeed(slots, memoryMB, slotBudget, budgetMB);
    }
  }

  /** There is one such share. */
  lemma SamePerSlot(slotBudget: int, budgetMB: int, per: int)
    requires slotBudget > 0 && slotBudget * per <= budgetMB < slotBudget * (per + 1)
    ensures per == budgetMB / slotBudget
  {
    var q, r := budgetMB / slotBudget, budgetMB % slotBudget;
    assert budgetMB == q * slotBudget + r && 0 <= r < slotBudget;
    assert slotBudget * (q + 1) == q * slotBudget + slotBudget;
    if per < q {
      Monotone(per + 1, q, slotBudget);
    } else if per > q {
      Monotone(q + 1, per, slotBudget);
    }
  }

  lemma CoversByNeed(slots: int, memoryMB: int, slotBudget: int, budgetMB: int)
    requires memoryMB > 0 && slotBudget > 0 && budgetMB > 0 && PerSlot(slotBudget, budgetMB) > 0
    ensures var r, per := SlotsForPolicy(slots, memoryMB, slotBudget, budgetMB, false), PerSlot(slotBudget, budgetMB);
            r >= slots && r * per >= memoryMB && forall n :: n >= slots && n * per >= memoryMB ==> r <= n
  {
    var per := PerSlot(slotBudget, budgetMB);
    var need := (memoryMB + per - 1) / per;
    RoundsUp(memoryMB, per);
    forall n | n >= slots && n * per >= memoryMB ensures need <= n {
      Covers(memoryMB, per, n);
    }
    Monotone(need, SlotsForPolicy(slots, memoryMB, slotBudget, budgetMB, false), per);
  }

  lemma RoundsUp(m: int, per: int)
    requires per > 0
    ensures ((m + per - 1) / per) * per >= m && ((m + per - 1) / per) * per <= m + per - 1
  {
    var q, r := (m + per - 1) / per, (m + per - 1) % per;
    assert m + per - 1 == q * per + r && 0 <= r < per;
  }

  lemma Monotone(a: int, b: int, per: int)
    requires a <= b && per >= 0
    ensures a * per <= b * per
  {
  }

  lemma Covers(m: int, per: int, n: int)
    requires per > 0 && n * per >= m
    ensures (m + per - 1) / per <= n
  {
    RoundsUp(m, per);
    var q := (m + per - 1) / per;
    assert (n + 1) * per == n * per + per;
    if q > n {
      Monotone(n + 1, q, per);
    }
  }

  // ----- admission -----

  /** What a target asks for: its declared slots, never negative, and its memory, not positive when undeclared. */
  datatype Claim = Claim(slots: nat, memoryMB: int)

  function SlotSum(cs: seq<Claim>, slotBudget: int, budgetMB: int): int {
    if cs == [] then 0
    else SlotsForPolicy(cs[0].slots, cs[0].memoryMB, slotBudget, budgetMB, false)
         + SlotSum(cs[1..], slotBudget, budgetMB)
  }

  function MemorySum(cs: seq<Claim>): int {
    if cs == [] then 0 else (if cs[0].memoryMB > 0 then cs[0].memoryMB else 0) + MemorySum(cs[1..])
  }

  lemma ClaimIsCovered(c: Claim, slotBudget: int, budgetMB: int)
    requires 0 < slotBudget <= budgetMB
    ensures var held := SlotsForPolicy(c.slots, c.memoryMB, slotBudget, budgetMB, false);
            (if c.memoryMB > 0 then c.memoryMB else 0) <= held * PerSlot(slotBudget, budgetMB)
  {
    PerSlotIsGreatest(slotBudget, budgetMB);
    if c.memoryMB > 0 {
      CoversByNeed(c.slots, c.memoryMB, slotBudget, budgetMB);
    }
    Monotone(0, c.slots, PerSlot(slotBudget, budgetMB));
  }

  lemma Distributes(a: int, b: int, per: int)
    ensures (a + b) * per == a * per + b * per
  {
  }

  /** Slots held cover the memory claimed. */
  lemma {:induction false} SlotsCoverMemory(cs: seq<Claim>, slotBudget: int, budgetMB: int)
    requires 0 < slotBudget <= budgetMB
    ensures MemorySum(cs) <= SlotSum(cs, slotBudget, budgetMB) * PerSlot(slotBudget, budgetMB)
  {
    if cs != [] {
      SlotsCoverMemory(cs[1..], slotBudget, budgetMB);
      ClaimIsCovered(cs[0], slotBudget, budgetMB);
      Distributes(SlotsForPolicy(cs[0].slots, cs[0].memoryMB, slotBudget, budgetMB, false),
                  SlotSum(cs[1..], slotBudget, budgetMB), PerSlot(slotBudget, budgetMB));
    }
  }

  /** Any targets whose slots fit in the slot budget have memory that fits in the memory budget. */
  lemma SlotsFitMemoryFits(cs: seq<Claim>, slotBudget: int, budgetMB: int)
    requires 0 < slotBudget <= budgetMB && SlotSum(cs, slotBudget, budgetMB) <= slotBudget
    ensures MemorySum(cs) <= budgetMB
  {
    var per := PerSlot(slotBudget, budgetMB);
    SlotsCoverMemory(cs, slotBudget, budgetMB);
    PerSlotIsGreatest(slotBudget, budgetMB);
    Monotone(SlotSum(cs, slotBudget, budgetMB), slotBudget, per);
  }

  ghost predicate FitsWhenSlotsFit(cs: seq<Claim>, slotBudget: int, budgetMB: int) {
    SlotSum(cs, slotBudget, budgetMB) <= slotBudget ==> MemorySum(cs) <= budgetMB
  }

  /** With more slots than megabytes a slot stands for no memory, and one target can claim more than there is. */
  lemma OneClaimTooMany(slotBudget: int, budgetMB: int)
    requires 0 < budgetMB < slotBudget
    ensures !FitsWhenSlotsFit([Claim(1, budgetMB + 1)], slotBudget, budgetMB)
  {
    var cs := [Claim(1, budgetMB + 1)];
    assert cs[1..] == [];
    PerSlotIsGreatest(slotBudget, budgetMB);
    assert SlotsForPolicy(1, budgetMB + 1, slotBudget, budgetMB, false) == 1;
    assert SlotSum(cs[1..], slotBudget, budgetMB) == 0 && MemorySum(cs[1..]) == 0;
  }

  /** So admission by slots keeps memory within its budget exactly when there are at least as many
      megabytes as slots. */
  lemma AdmissionIsSafeIff(slotBudget: int, budgetMB: int)
    requires slotBudget > 0 && budgetMB > 0
    ensures (forall cs :: FitsWhenSlotsFit(cs, slotBudget, budgetMB)) <==> slotBudget <= budgetMB
  {
    if slotBudget <= budgetMB {
      forall cs ensures FitsWhenSlotsFit(cs, slotBudget, budgetMB) {
        if SlotSum(cs, slotBudget, budgetMB) <= slotBudget {
          SlotsFitMemoryFits(cs, slotBudget, budgetMB);
        }
      }
    } else {
      OneClaimTooMany(slotBudget, budgetMB);
    }
  }
}
