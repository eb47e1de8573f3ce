/** The two wallet updaters of the component: the once-a-second accrual tick and
    the claim handler. Each builds the next wallet from the current one. */
module Mining {
  import opened Types

  /** Seconds per day: the base mining rate is an amount per day at hashrate 1. */
  const SecondsPerDay: real := 86400.0

  /** What one tick adds at the given hashrate and base rate. */
  function RatePerSecond(hashrate: real, baseRate: real): (r: real)
    ensures r * SecondsPerDay == hashrate * baseRate
    ensures hashrate >= 0.0 && baseRate >= 0.0 ==> r >= 0.0
  {
    (hashrate * baseRate) / SecondsPerDay
  }

  /** One accrual tick: only the unclaimed amount moves, by one second's worth. */
  function Tick(w: WalletState, baseRate: real): (r: WalletState)
    ensures r.(accumulatedMined := w.accumulatedMined) == w
    ensures r.accumulatedMined - w.accumulatedMined == RatePerSecond(w.hashrate, baseRate)
    ensures w.hashrate >= 0.0 && baseRate >= 0.0 ==> r.accumulatedMined >= w.accumulatedMined
  {
    w.(accumulatedMined := w.accumulatedMined + RatePerSecond(w.hashrate, baseRate))
  }

  /** `n` consecutive ticks with nothing in between. */
  function Ticks(w: WalletState, baseRate: real, n: nat): WalletState
    decreases n
  {
    if n == 0 then w else Tick(Ticks(w, baseRate, n - 1), baseRate)
  }

  /** After `n` ticks the unclaimed amount has grown by exactly `n` seconds' worth
      at the starting hashrate, and nothing else in the wallet has changed. */
  lemma {:induction false} TicksClosedForm(w: WalletState, baseRate: real, n: nat)
    ensures Ticks(w, baseRate, n)
         == w.(accumulatedMined := w.accumulatedMined + (n as real) * RatePerSecond(w.hashrate, baseRate))
  {
    if n > 0 {
      TicksClosedForm(w, baseRate, n - 1);
      var rate := RatePerSecond(w.hashrate, baseRate);
      assert ((n - 1) as real) * rate + rate == (n as real) * rate;
    }
  }

  /** With a non-negative hashrate and base rate, more ticks never mean less mined. */
  lemma TicksMonotone(w: WalletState, baseRate: real, m: nat, n: nat)
    requires m <= n
    requires w.hashrate >= 0.0 && baseRate >= 0.0
    ensures Ticks(w, baseRate, m).accumulatedMined <= Ticks(w, baseRate, n).accumulatedMined
  {
    TicksClosedForm(w, baseRate, m);
    TicksClosedForm(w, baseRate, n);
    var rate := RatePerSecond(w.hashrate, baseRate);
    assert (n as real) * rate - (m as real) * rate == ((n - m) as real) * rate;
    assert ((n - m) as real) * rate >= 0.0;
  }

  /** The claim handler: the unclaimed amount is moved into the balance and the
      claim time is stamped. */
  function Claim(w: WalletState, now: int): (r: WalletState)
    ensures r.balance + r.accumulatedMined == w.balance + w.accumulatedMined
    ensures r.accumulatedMined == 0.0
    ensures r.lastClaimTime == now && r.hashrate == w.hashrate
    ensures w.accumulatedMined == 0.0 ==> r.balance == w.balance
  {
    w.(balance := w.balance + w.accumulatedMined, accumulatedMined := 0.0, lastClaimTime := now)
  }

  /** A second claim settles nothing more: two claims equal the later one alone. */
  lemma ClaimTwice(w: WalletState, first: int, second: int)
    ensures Claim(Claim(w, first), second) == Claim(w, second)
    ensures Claim(Claim(w, first), second).balance == Claim(w, first).balance
  {
  }

  /** Mining for `n` seconds and then claiming settles the old balance, the old
      backlog and `n` seconds' worth of mining, and leaves nothing pending. */
  lemma TicksThenClaim(w: WalletState, baseRate: real, n: nat, now: int)
    ensures Claim(Ticks(w, baseRate, n), now).balance
         == w.balance + w.accumulatedMined + (n as real) * RatePerSecond(w.hashrate, baseRate)
    ensures Claim(Ticks(w, baseRate, n), now).accumulatedMined == 0.0
    ensures Claim(Ticks(w, baseRate, n), now).hashrate == w.hashrate
  {
    TicksClosedForm(w, baseRate, n);
  }

  /** What a child panel (shop, missions, wallet view) may do through `setWallet`
      within this model: replace the balance and the hashrate. */
  function SetBalanceHashrate(w: WalletState, balance: real, hashrate: real): (r: WalletState)
    ensures r.accumulatedMined == w.accumulatedMined && r.lastClaimTime == w.lastClaimTime
    ensures r.balance == balance && r.hashrate == hashrate
  {
    w.(balance := balance, hashrate := hashrate)
  }

  /** A tick reads the current wallet, so a spend made just before it survives. */
  lemma SpendSurvivesTick(w: WalletState, balance: real, hashrate: real, baseRate: real)
    ensures Tick(SetBalanceHashrate(w, balance, hashrate), baseRate).balance == balance
    ensures Tick(SetBalanceHashrate(w, balance, hashrate), baseRate).accumulatedMined
         == w.accumulatedMined + RatePerSecond(hashrate, baseRate)
  {
  }
}
