/** Totals over a block of consecutively numbered accounts. */
module Spending {

  import opened Parties
  import opened Mechanism

  /** Total spent by accounts `lo` to `lo + n - 1`. */
  function SumSpent(w: World, lo: int, n: nat): int
  {
    if n == 0 then 0 else SumSpent(w, lo, n - 1) + Agent(w, Party(lo + n - 1)).spentWei
  }

  predicate InBlock(p: Party, lo: int, n: nat)
  {
    lo <= p.id < lo + n
  }

  /** Charging one account moves the total only when the account is in the block. */
  lemma {:induction false} SumSpentCharged(w: World, w': World, lo: int, n: nat, who: Party, wei: int)
    requires forall b :: InBlock(b, lo, n) ==>
               Agent(w', b).spentWei == Agent(w, b).spentWei + (if b == who then wei else 0)
    ensures SumSpent(w', lo, n) == SumSpent(w, lo, n) + (if InBlock(who, lo, n) then wei else 0)
  {
    if n > 0 {
      assert forall b :: InBlock(b, lo, n - 1) ==> InBlock(b, lo, n);
      SumSpentCharged(w, w', lo, n - 1, who, wei);
      assert InBlock(Party(lo + n - 1), lo, n);
    }
  }

  lemma {:induction false} NobodySpent(w: World, lo: int, n: nat)
    requires forall b :: InBlock(b, lo, n) ==> Agent(w, b).spentWei == 0
    ensures SumSpent(w, lo, n) == 0
  {
    if n > 0 {
      assert forall b :: InBlock(b, lo, n - 1) ==> InBlock(b, lo, n);
      NobodySpent(w, lo, n - 1);
      assert InBlock(Party(lo + n - 1), lo, n);
    }
  }

  // ---- what one operation moves ----

  lemma AttestMoney(w: World, p: Party)
    ensures var w' := Submit(w, p, 0);
      forall b :: && Agent(w', b).lockedWei == Agent(w, b).lockedWei
                  && Agent(w', b).spentWei == Agent(w, b).spentWei + (if b == p then ATTEST_COST else 0)
  {
  }

  lemma RateMoney(w: World, v: Version, from: Party, to: Party)
    ensures var w' := GiveReceipt(w, v, from, to);
      forall b :: && Agent(w', b).lockedWei == Agent(w, b).lockedWei
                  && Agent(w', b).spentWei == Agent(w, b).spentWei + (if b == from then RECEIPT_COST else 0)
  {
  }

  // ---- capital: what is spent and what is locked ----

  function Capital(w: World, b: Party): int
  {
    Agent(w, b).spentWei + Agent(w, b).lockedWei
  }

  /** Capital put up by accounts `lo` to `lo + n - 1`. */
  function SumCapital(w: World, lo: int, n: nat): int
  {
    if n == 0 then 0 else SumCapital(w, lo, n - 1) + Capital(w, Party(lo + n - 1))
  }

  function Share(b: Party, who: Option<Party>, wei: int): int
  {
    if who == Some(b) then wei else 0
  }

  function BlockShare(who: Option<Party>, lo: int, n: nat, wei: int): int
  {
    if who.Some? && InBlock(who.value, lo, n) then wei else 0
  }

  /** Two payments move the total by those made inside the block. */
  lemma {:induction false} SumCapitalPaid(w: World, w': World, lo: int, n: nat, a: Option<Party>, x: int,
                                          f: Option<Party>, y: int)
    requires forall b :: InBlock(b, lo, n) ==> Capital(w', b) == Capital(w, b) + Share(b, a, x) + Share(b, f, y)
    ensures SumCapital(w', lo, n) == SumCapital(w, lo, n) + BlockShare(a, lo, n, x) + BlockShare(f, lo, n, y)
  {
    if n > 0 {
      assert forall b :: InBlock(b, lo, n - 1) ==> InBlock(b, lo, n);
      SumCapitalPaid(w, w', lo, n - 1, a, x, f, y);
      assert InBlock(Party(lo + n - 1), lo, n);
    }
  }

  /** Totals depend on the records alone. */
  lemma {:induction false} SameTotals(w: World, w': World, lo: int, n: nat)
    requires SameRecords(w, w')
    ensures SumSpent(w', lo, n) == SumSpent(w, lo, n) && SumCapital(w', lo, n) == SumCapital(w, lo, n)
  {
    if n > 0 {
      SameTotals(w, w', lo, n - 1);
      assert Agent(w', Party(lo + n - 1)) == Agent(w, Party(lo + n - 1));
    }
  }
}
