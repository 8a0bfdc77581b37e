/** The play rate the timer really gives (tools/wavegen_model.py, sccp2_rate):
    rounded counts, with a prescaler when they do not fit. */
module WaveGen {
  import opened Common

  datatype TimerError = ZeroDivision

  const FITS: nat := 65536

  /** The nearest whole number of `div` in n: halves up. */
  function RoundedDiv(n: nat, div: nat): nat
    requires div > 0
  {
    (n + div / 2) / div
  }

  /** The prescaler: the first step whose rounded count fits, or the last. */
  function Prescaler(ticks: nat): nat {
    if ticks <= FITS then 1
    else if RoundedDiv(ticks, 4) <= FITS then 4
    else if RoundedDiv(ticks, 16) <= FITS then 16
    else 64
  }

  /** n rounded to a multiple of `div`. */
  function Multiple(n: nat, div: nat): nat
    requires div > 0
  {
    RoundedDiv(n, div) * div
  }

  function Period(ticks: nat): nat { Multiple(ticks, Prescaler(ticks)) }

  lemma RoundedOne(ticks: nat)
    ensures RoundedDiv(ticks, 1) == ticks
  {
  }

  method Sccp2Rate(play: nat, clk: nat) returns (r: Result<nat, TimerError>)
    ensures play == 0 ==> r == Failure(ZeroDivision)
    ensures play > 0 ==>
              var p := Period(RoundedDiv(clk, play));
              r == if p == 0 then Failure(ZeroDivision) else Success(RoundedDiv(clk, p))
  {
    if play == 0 { return Failure(ZeroDivision); }
    hide RoundedDiv;
    var ticks := RoundedDiv(clk, play);
    var div, t := 1, ticks;
    RoundedOne(ticks);
    while t > FITS && div < 64
      invariant div == 1 || div == 4 || div == 16 || div == 64
      invariant t == RoundedDiv(ticks, div)
      invariant div > 1 ==> ticks > FITS
      invariant div > 4 ==> RoundedDiv(ticks, 4) > FITS
      invariant div > 16 ==> RoundedDiv(ticks, 16) > FITS
      decreases 64 - div
    {
      div := div * 4;
      t := RoundedDiv(ticks, div);
    }
    assert div == Prescaler(ticks);
    var period := t * div;
    if period == 0 { return Failure(ZeroDivision); }
    r := Success(RoundedDiv(clk, period));
  }

  /** x is n but for half a step at most. */
  predicate Near(x: nat, n: nat, step: nat) { 2 * x <= 2 * n + step && 2 * n <= 2 * x + step }

  lemma RoundedNear(n: nat, div: nat)
    requires div > 0
    ensures Near(Multiple(n, div), n, div)
  {
    var rest := (n + div / 2) % div;
    assert n + div / 2 == RoundedDiv(n, div) * div + rest;
  }

  /** The prescaler is the smallest that fits: a smaller step of the chain would not. */
  lemma SmallestPrescaler(ticks: nat, div: nat)
    requires div == 1 || div == 4 || div == 16 || div == 64
    requires div < Prescaler(ticks)
    ensures RoundedDiv(ticks, div) > FITS
  {
    RoundedOne(ticks);
    hide RoundedDiv;
  }

  lemma PrescalerFits(ticks: nat)
    ensures RoundedDiv(ticks, Prescaler(ticks)) <= FITS || Prescaler(ticks) == 64
  {
    RoundedOne(ticks);
    hide RoundedDiv;
  }

  lemma NotZero(n: nat, div: nat)
    requires div > 0 && 2 * n > div
    ensures RoundedDiv(n, div) >= 1 && Multiple(n, div) >= 1
  {
    RoundedNear(n, div);
    var q := RoundedDiv(n, div);
    hide RoundedDiv;
    assert q * div > 0;
  }

  lemma PeriodPositive(ticks: nat)
    requires ticks >= 1
    ensures Period(ticks) >= 1
  {
    RoundedOne(ticks);
    hide RoundedDiv;
    NotZero(ticks, Prescaler(ticks));
  }

  /** For every play rate up to the clock there is a rate, and each of the three
      roundings is off by half of its divisor at most. */
  lemma RateBounds(play: nat, clk: nat)
    requires clk >= play >= 1
    ensures var ticks := RoundedDiv(clk, play); var p := Period(ticks);
            p >= 1 && Near(p, ticks, Prescaler(ticks)) && Near(ticks * play, clk, play)
                && Near(RoundedDiv(clk, p) * p, clk, p)
  {
    var ticks := RoundedDiv(clk, play);
    NotZero(clk, play);
    PeriodPositive(ticks);
    RoundedNear(clk, play);
    RoundedNear(ticks, Prescaler(ticks));
    RoundedNear(clk, Period(ticks));
    hide RoundedDiv, Prescaler, Near;
  }

  /** There is no tick left exactly when half of the play rate, rounded up, is
      above the clock: then the division by the period fails. */
  lemma TooFastFails(play: nat, clk: nat)
    requires play > 0
    ensures Period(RoundedDiv(clk, play)) == 0 <==> clk < (play + 1) / 2
  {
    var n := clk + play / 2;
    assert RoundedDiv(clk, play) == n / play;
    if n < play {
      assert n / play == 0;
    } else {
      assert n / play >= 1;
      PeriodPositive(n / play);
    }
  }
}
