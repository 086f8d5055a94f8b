/** The metrics of a list of closed trades: one pass for the drawdown, one for the streaks, and totals. */
module Metrics {
  import opened Numbers
  import opened PositionExits

  function PnlTotal(trades: seq<ClosedTrade>): real {
    if trades == [] then 0.0 else PnlTotal(trades[..|trades| - 1]) + trades[|trades| - 1].pnl
  }

  function CommissionTotal(trades: seq<ClosedTrade>): real {
    if trades == [] then 0.0 else CommissionTotal(trades[..|trades| - 1]) + trades[|trades| - 1].commission
  }

  /** The balance after the first `n` trades. */
  function BalanceAfter(initialBalance: real, trades: seq<ClosedTrade>, n: nat): real
    requires n <= |trades|
  {
    initialBalance + PnlTotal(trades[..n])
  }

  // ----- Drawdown -----

  /** How far the balance is lower after `j` trades than after `i`. */
  function FallBetween(initialBalance: real, trades: seq<ClosedTrade>, i: nat, j: nat): real
    requires i <= j <= |trades|
  {
    BalanceAfter(initialBalance, trades, i) - BalanceAfter(initialBalance, trades, j)
  }

  /** `fall` is the largest fall from any balance to the same or a later one, among the first `n` + 1 balances. */
  ghost predicate IsLargestFall(initialBalance: real, trades: seq<ClosedTrade>, n: nat, fall: real)
    requires n <= |trades|
  {
    && (forall i, j :: 0 <= i <= j <= n ==> FallBetween(initialBalance, trades, i, j) <= fall)
    && (exists i, j :: 0 <= i <= j <= n && FallBetween(initialBalance, trades, i, j) == fall)
  }

  /** `peak` is the largest of the first `n` + 1 balances. */
  ghost predicate IsPeak(initialBalance: real, trades: seq<ClosedTrade>, n: nat, peak: real)
    requires n <= |trades|
  {
    && (forall i :: 0 <= i <= n ==> BalanceAfter(initialBalance, trades, i) <= peak)
    && (exists i :: 0 <= i <= n && BalanceAfter(initialBalance, trades, i) == peak)
  }

  lemma NextBalance(initialBalance: real, trades: seq<ClosedTrade>, n: nat)
    requires n < |trades|
    ensures BalanceAfter(initialBalance, trades, n + 1) == BalanceAfter(initialBalance, trades, n) + trades[n].pnl
  {
    assert trades[..n + 1][..n] == trades[..n];
  }

  lemma NextPeak(initialBalance: real, trades: seq<ClosedTrade>, n: nat, peak: real, peak': real)
    requires n < |trades| && IsPeak(initialBalance, trades, n, peak)
    requires peak' == Max(peak, BalanceAfter(initialBalance, trades, n + 1))
    ensures IsPeak(initialBalance, trades, n + 1, peak')
  {
  }

  /** The fall from the running peak is what one more balance adds. */
  lemma NextFall(initialBalance: real, trades: seq<ClosedTrade>, n: nat, fall: real, peak: real, fall': real)
    requires n < |trades| && IsLargestFall(initialBalance, trades, n, fall)
    requires IsPeak(initialBalance, trades, n + 1, peak)
    requires fall' == Max(fall, peak - BalanceAfter(initialBalance, trades, n + 1))
    ensures IsLargestFall(initialBalance, trades, n + 1, fall')
  {
    if fall' == fall {
      var i, j :| 0 <= i <= j <= n && FallBetween(initialBalance, trades, i, j) == fall;
      assert 0 <= i <= j <= n + 1;
    } else {
      var i :| 0 <= i <= n + 1 && BalanceAfter(initialBalance, trades, i) == peak;
      assert FallBetween(initialBalance, trades, i, n + 1) == fall';
    }
  }

  /** One pass with a running peak finds the largest fall between any earlier and any later balance. */
  method MaxDrawdown(trades: seq<ClosedTrade>, initialBalance: real) returns (maxDD: real)
    ensures IsLargestFall(initialBalance, trades, |trades|, maxDD)
  {
    var peak, runningBalance := initialBalance, initialBalance;
    maxDD := 0.0;
    assert FallBetween(initialBalance, trades, 0, 0) == 0.0;
    assert BalanceAfter(initialBalance, trades, 0) == initialBalance;
    for n := 0 to |trades|
      invariant runningBalance == BalanceAfter(initialBalance, trades, n)
      invariant IsPeak(initialBalance, trades, n, peak)
      invariant IsLargestFall(initialBalance, trades, n, maxDD)
    {
      NextBalance(initialBalance, trades, n);
      runningBalance := runningBalance + trades[n].pnl;
      ghost var peak0, maxDD0 := peak, maxDD;
      if runningBalance > peak {
        peak := runningBalance;
      }
      var dd := peak - runningBalance;
      if dd > maxDD {
        maxDD := dd;
      }
      NextPeak(initialBalance, trades, n, peak0, peak);
      NextFall(initialBalance, trades, n, maxDD0, peak, maxDD);
    }
  }

  // ----- Streaks -----

  /** The outcomes that count for streaks, breakeven exits left out: true is a win. */
  function Outcomes(trades: seq<ClosedTrade>): seq<bool> {
    if trades == [] then []
    else
      var last := trades[|trades| - 1];
      Outcomes(trades[..|trades| - 1]) + if last.exitReason == Breakeven then [] else [last.pnl > 0.0]
  }

  /** All of `outcomes[i..j]` are `win`. */
  ghost predicate Streak(outcomes: seq<bool>, i: nat, j: nat, win: bool) {
    i <= j <= |outcomes| && forall k :: i <= k < j ==> outcomes[k] == win
  }

  ghost predicate IsLongestStreak(outcomes: seq<bool>, win: bool, length: nat) {
    && (exists i: nat, j: nat :: Streak(outcomes, i, j, win) && j - i == length)
    && (forall i: nat, j: nat :: Streak(outcomes, i, j, win) ==> j - i <= length)
  }

  /** `length` is the length of the streak that ends the outcomes. */
  ghost predicate IsFinalStreak(outcomes: seq<bool>, win: bool, length: nat) {
    && length <= |outcomes| && Streak(outcomes, |outcomes| - length, |outcomes|, win)
    && (length < |outcomes| ==> outcomes[|outcomes| - length - 1] != win)
  }

  lemma NextOutcome(outcomes: seq<bool>, outcome: bool, win: bool, current: nat, longest: nat, current': nat,
                    longest': nat)
    requires IsFinalStreak(outcomes, win, current) && IsLongestStreak(outcomes, win, longest)
    requires current' == if outcome == win then current + 1 else 0
    requires longest' == if current' > longest then current' else longest
    ensures IsFinalStreak(outcomes + [outcome], win, current')
    ensures IsLongestStreak(outcomes + [outcome], win, longest')
  {
    var more, n := outcomes + [outcome], |outcomes|;
    assert forall k :: 0 <= k < n ==> outcomes[k] == more[k];
    assert current < n ==> more[n - current - 1] != win;
    assert more[n] == outcome;
    forall i: nat, j: nat | Streak(more, i, j, win)
      ensures j - i <= longest'
    {
      if j <= n {
        assert Streak(outcomes, i, j, win);
      }
    }
    if longest' == longest {
      var i: nat, j: nat :| Streak(outcomes, i, j, win) && j - i == longest;
      assert Streak(more, i, j, win);
    } else {
      assert forall k :: n - current <= k < n ==> more[k] == outcomes[k] == win;
      assert Streak(more, n - current, n + 1, win);
    }
  }

  method MaxStreaks(trades: seq<ClosedTrade>) returns (maxWins: nat, maxLosses: nat)
    ensures IsLongestStreak(Outcomes(trades), true, maxWins)
    ensures IsLongestStreak(Outcomes(trades), false, maxLosses)
  {
    maxWins, maxLosses := 0, 0;
    var wins, losses := 0, 0;
    assert Streak([], 0, 0, true) && Streak([], 0, 0, false);
    for n := 0 to |trades|
      invariant IsFinalStreak(Outcomes(trades[..n]), true, wins) && IsLongestStreak(Outcomes(trades[..n]), true, maxWins)
      invariant IsFinalStreak(Outcomes(trades[..n]), false, losses) && IsLongestStreak(Outcomes(trades[..n]), false, maxLosses)
    {
      assert trades[..n + 1][..n] == trades[..n];
      ghost var outcomes, wins0, losses0, maxWins0, maxLosses0 := Outcomes(trades[..n]), wins, losses, maxWins, maxLosses;
      if trades[n].exitReason != Breakeven {
        if trades[n].pnl > 0.0 {
          wins, losses := wins + 1, 0;
          if wins > maxWins {
            maxWins := wins;
          }
        } else {
          losses, wins := losses + 1, 0;
          if losses > maxLosses {
            maxLosses := losses;
          }
        }
        NextOutcome(outcomes, trades[n].pnl > 0.0, true, wins0, maxWins0, wins, maxWins);
        NextOutcome(outcomes, trades[n].pnl > 0.0, false, losses0, maxLosses0, losses, maxLosses);
      } else {
        assert Outcomes(trades[..n + 1]) == outcomes;
      }
    }
    assert trades[..|trades|] == trades;
  }

  // ----- The report -----

  datatype BacktestMetrics = BacktestMetrics(
    totalTrades: nat,
    totalPnl: real,
    maxDrawdown: real,
    maxConsecutiveWins: nat,
    maxConsecutiveLosses: nat,
    totalCommission: real,
    finalBalance: real)

  /** The unrounded final balance. */
  function FinalBalance(trades: seq<ClosedTrade>, initialBalance: real): real {
    initialBalance + PnlTotal(trades)
  }

  method CalculateMetrics(trades: seq<ClosedTrade>, initialBalance: real) returns (m: BacktestMetrics)
    ensures m.totalTrades == |trades| && m.totalPnl == Round2(PnlTotal(trades))
    ensures m.finalBalance == if trades == [] then initialBalance else Round2(FinalBalance(trades, initialBalance))
    ensures exists fall :: IsLargestFall(initialBalance, trades, |trades|, fall) && m.maxDrawdown == Round2(fall)
    ensures IsLongestStreak(Outcomes(trades), true, m.maxConsecutiveWins)
    ensures IsLongestStreak(Outcomes(trades), false, m.maxConsecutiveLosses)
    ensures m.totalCommission == Round2(CommissionTotal(trades))
  {
    var maxDD := MaxDrawdown(trades, initialBalance);
    var maxWins, maxLosses := MaxStreaks(trades);
    var totalPnl, totalCommission := 0.0, 0.0;
    for n := 0 to |trades|
      invariant totalPnl == PnlTotal(trades[..n]) && totalCommission == CommissionTotal(trades[..n])
    {
      assert trades[..n + 1][..n] == trades[..n];
      totalPnl, totalCommission := totalPnl + trades[n].pnl, totalCommission + trades[n].commission;
    }
    assert trades[..|trades|] == trades;
    m := BacktestMetrics(|trades|, Round2(totalPnl), Round2(maxDD), maxWins, maxLosses, Round2(totalCommission),
                         if trades == [] then initialBalance else Round2(initialBalance + totalPnl));
  }
}
