/** `HandleStats` (handlers/home.go): the portfolio statistics read from the
    four tables with COUNT and SUM queries. The queries change nothing; the
    arithmetic on their results is a function of the ledger. */
module Stats {
  import opened Seqs
  import opened Types
  import opened Totals
  import opened Tables

  /** `profit_loss > 0` on a row whose P/L is `pl`. */
  function IsGain<T>(pl: T -> real): T -> bool
  {
    (x: T) => pl(x) > 0.0
  }

  /** `profit_loss < 0`. */
  function IsLoss<T>(pl: T -> real): T -> bool
  {
    (x: T) => pl(x) < 0.0
  }

  /** `COALESCE(SUM(profit_loss), 0) … AND profit_loss > 0`. */
  function Gains<T(!new)>(s: seq<T>, pl: T -> real): (r: real)
    ensures r >= 0.0
  {
    var w := Filter(s, IsGain(pl));
    assert forall i :: 0 <= i < |w| ==> w[i] in w;
    SumNonNegative(w, pl);
    Sum(w, pl)
  }

  /** `COALESCE(SUM(profit_loss), 0) … AND profit_loss < 0`. */
  function Losses<T(!new)>(s: seq<T>, pl: T -> real): (r: real)
    ensures r <= 0.0
  {
    var w := Filter(s, IsLoss(pl));
    assert forall i :: 0 <= i < |w| ==> w[i] in w;
    SumNonPositive(w, pl);
    Sum(w, pl)
  }

  /** Break-even rows count for neither side: the total P/L is the gains
      plus the losses. */
  lemma {:induction false} GainsPlusLosses<T(!new)>(s: seq<T>, pl: T -> real)
    ensures Sum(s, pl) == Gains(s, pl) + Losses(s, pl)
  {
    if s != [] {
      var front := s[..|s| - 1];
      var x := s[|s| - 1];
      GainsPlusLosses(front, pl);
      assert Filter(s, IsGain(pl)) == Filter(front, IsGain(pl)) + (if pl(x) > 0.0 then [x] else []);
      assert Filter(s, IsLoss(pl)) == Filter(front, IsLoss(pl)) + (if pl(x) < 0.0 then [x] else []);
      assert Filter(front, IsGain(pl)) + [] == Filter(front, IsGain(pl));
      assert Filter(front, IsLoss(pl)) + [] == Filter(front, IsLoss(pl));
      if pl(x) > 0.0 {
        SumAppend(Filter(front, IsGain(pl)), x, pl);
      } else if pl(x) < 0.0 {
        SumAppend(Filter(front, IsLoss(pl)), x, pl);
      }
    }
  }

  /** Every row wins exactly when the winning rows are all the rows. */
  lemma {:induction false} AllGains<T>(s: seq<T>, pl: T -> real)
    ensures Count(s, IsGain(pl)) == |s| <==> forall i :: 0 <= i < |s| ==> pl(s[i]) > 0.0
  {
    if s != [] {
      var front := s[..|s| - 1];
      AllGains(front, pl);
      assert forall i :: 0 <= i < |front| ==> front[i] == s[i];
    }
  }

  /** `(totalWins / totalClosed) * 100`, 0 when nothing is closed. */
  function WinRate(wins: nat, closed: nat): (r: real)
    requires wins <= closed
    ensures 0.0 <= r <= 100.0
    ensures closed == 0 ==> r == 0.0
    ensures r == 100.0 <==> closed > 0 && wins == closed
  {
    if closed > 0 then
      var f := (wins as real) / (closed as real);
      assert f * (closed as real) == wins as real;
      assert f <= 1.0;
      f * 100.0
    else 0.0
  }

  /** The win rate is the winning share of the closed rows, in percent. */
  lemma WinRateIsShare(wins: nat, closed: nat)
    requires wins <= closed && closed > 0
    ensures WinRate(wins, closed) * (closed as real) == 100.0 * (wins as real)
  {
    var f := (wins as real) / (closed as real);
    assert f * (closed as real) == wins as real;
  }

  /** `totalGains / -totalLossAmount`, 0 when there are no losses. */
  function ProfitFactor(gains: real, losses: real): (r: real)
    requires gains >= 0.0 && losses <= 0.0
    ensures r >= 0.0
    ensures losses == 0.0 ==> r == 0.0
  {
    if losses != 0.0 then gains / -losses else 0.0
  }

  /** With losses, the profit factor is the gains per unit lost. */
  lemma ProfitFactorIsRatio(gains: real, losses: real)
    requires gains >= 0.0 && losses < 0.0
    ensures ProfitFactor(gains, losses) * -losses == gains
  {
  }

  datatype StatsData = StatsData(totalPositions: nat, stockCount: nat, optionCount: nat, closedCount: nat,
                                 totalPL: real, totalGains: real, totalLosses: real,
                                 winRate: real, profitFactor: real)

  /** The winning closed rows of both tables. */
  function Wins(db: Db): (r: nat)
    ensures r <= |db.closedStocks| + |db.closedOptions|
  {
    Count(db.closedStocks, IsGain(StockPL)) + Count(db.closedOptions, IsGain(OptionPL))
  }

  /** `HandleStats`. The total P/L is the realised P/L of both tables and
      splits into the gains and the losses; the win rate is a percentage of
      all closed rows, break-evens included; the profit factor is never
      negative. */
  function ComputeStats(db: Db): (s: StatsData)
    ensures s.stockCount == |db.stocks| && s.optionCount == |db.options|
    ensures s.totalPositions == |db.stocks| + |db.options|
    ensures s.closedCount == |db.closedStocks| + |db.closedOptions|
    ensures s.totalPL == Sum(db.closedStocks, StockPL) + Sum(db.closedOptions, OptionPL)
    ensures s.totalPL == s.totalGains + s.totalLosses
    ensures s.totalGains >= 0.0 && s.totalLosses <= 0.0 && s.profitFactor >= 0.0
    ensures 0.0 <= s.winRate <= 100.0
    ensures s.winRate == WinRate(Wins(db), s.closedCount)
    ensures s.profitFactor == ProfitFactor(s.totalGains, s.totalLosses)
    ensures s.closedCount == 0 ==> s.winRate == 0.0 && s.totalPL == 0.0
  {
    var closed := |db.closedStocks| + |db.closedOptions|;
    var gains := Gains(db.closedStocks, StockPL) + Gains(db.closedOptions, OptionPL);
    var losses := Losses(db.closedStocks, StockPL) + Losses(db.closedOptions, OptionPL);
    GainsPlusLosses(db.closedStocks, StockPL);
    GainsPlusLosses(db.closedOptions, OptionPL);
    var winRate := WinRate(Wins(db), closed);
    var factor := ProfitFactor(gains, losses);
    StatsData(|db.stocks| + |db.options|, |db.stocks|, |db.options|, closed,
              Sum(db.closedStocks, StockPL) + Sum(db.closedOptions, OptionPL), gains, losses,
              winRate, factor)
  }

  /** The win rate is 100 exactly when something is closed and every closed
      row, of either table, has a positive P/L. */
  lemma PerfectWinRate(db: Db)
    ensures ComputeStats(db).winRate == 100.0 <==>
              |db.closedStocks| + |db.closedOptions| > 0 &&
              (forall i :: 0 <= i < |db.closedStocks| ==> db.closedStocks[i].profitLoss > 0.0) &&
              (forall i :: 0 <= i < |db.closedOptions| ==> db.closedOptions[i].profitLoss > 0.0)
  {
    var closed := |db.closedStocks| + |db.closedOptions|;
    assert ComputeStats(db).winRate == 100.0 <==> closed > 0 && Wins(db) == closed;
    AllGains(db.closedStocks, StockPL);
    AllGains(db.closedOptions, OptionPL);
    assert Wins(db) == closed <==>
             Count(db.closedStocks, IsGain(StockPL)) == |db.closedStocks| &&
             Count(db.closedOptions, IsGain(OptionPL)) == |db.closedOptions|;
  }

  /** Statistics without losses report a profit factor of 0, however large
      the gains. */
  lemma NoLossesNoFactor(db: Db)
    requires forall i :: 0 <= i < |db.closedStocks| ==> db.closedStocks[i].profitLoss >= 0.0
    requires forall i :: 0 <= i < |db.closedOptions| ==> db.closedOptions[i].profitLoss >= 0.0
    ensures ComputeStats(db).profitFactor == 0.0
    ensures ComputeStats(db).totalGains == ComputeStats(db).totalPL
  {
    NoLosses(db.closedStocks, StockPL);
    NoLosses(db.closedOptions, OptionPL);
  }

  lemma {:induction false} NoLosses<T(!new)>(s: seq<T>, pl: T -> real)
    requires forall i :: 0 <= i < |s| ==> pl(s[i]) >= 0.0
    ensures Losses(s, pl) == 0.0
  {
    if s != [] {
      var front := s[..|s| - 1];
      assert forall i :: 0 <= i < |front| ==> front[i] == s[i];
      NoLosses(front, pl);
      assert Filter(s, IsLoss(pl)) == Filter(front, IsLoss(pl)) + [];
      assert Filter(front, IsLoss(pl)) + [] == Filter(front, IsLoss(pl));
    }
  }
}
