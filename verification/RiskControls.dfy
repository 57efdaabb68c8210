// risk/guardrails.py and risk/position_sizer.py.
module RiskControls {
  import opened Wrappers
  import Arithmetic

  datatype Reason = MaxTradesReached | MaxDailyLossHit

  datatype GuardRails = GuardRails(maxDailyLoss: int, maxTradesPerDay: int) {
    function LossLimit(): int { if maxDailyLoss < 0 then -maxDailyLoss else maxDailyLoss }

    function ValidateDailyLoss(dayPnl: int): Option<Reason> {
      if dayPnl <= -LossLimit() then Some(MaxDailyLossHit) else None
    }

    function ValidateTradeCount(trades: int): Option<Reason> {
      if trades >= maxTradesPerDay then Some(MaxTradesReached) else None
    }
  }

  // The first guard-rail an entry would break.
  function Blocked(g: Option<GuardRails>, dayTrades: int, dayPnl: int): Option<Reason> {
    if g.None? then None
    else if g.value.ValidateTradeCount(dayTrades).Some? then g.value.ValidateTradeCount(dayTrades)
    else g.value.ValidateDailyLoss(dayPnl)
  }

  datatype SkipReason = ZeroRiskBudget | BadInstrumentParams | RiskBelowOneLot

  datatype Sizing = Sized(quantity: int, lots: int) | Skipped(reason: SkipReason)

  datatype PositionSizer = PositionSizer(capital: real, maxRiskPct: real) {
    function Budget(): real { capital * (maxRiskPct / 100.0) }

    function Size(slDist: int, moneyPerPoint: real, lotSize: int): Sizing {
      if capital <= 0.0 || maxRiskPct <= 0.0 then Skipped(ZeroRiskBudget)
      else if slDist <= 0 || moneyPerPoint <= 0.0 || lotSize <= 0 then Skipped(BadInstrumentParams)
      else
        var perLot := PerLotRisk(slDist, moneyPerPoint, lotSize);
        PerLotRiskPositive(slDist, moneyPerPoint, lotSize);
        var lots := (Budget() / perLot).Floor;
        if lots <= 0 then Skipped(RiskBelowOneLot) else Sized(lots * lotSize, lots)
    }
  }

  function PerLotRisk(slDist: int, moneyPerPoint: real, lotSize: int): real {
    slDist as real * moneyPerPoint * lotSize as real
  }

  lemma PerLotRiskPositive(slDist: int, moneyPerPoint: real, lotSize: int)
    requires slDist > 0 && moneyPerPoint > 0.0 && lotSize > 0
    ensures PerLotRisk(slDist, moneyPerPoint, lotSize) > 0.0
  {
    assert slDist as real * moneyPerPoint > 0.0;
  }

  lemma FloorQuotient(budget: real, unit: real, n: int)
    requires unit > 0.0 && n == (budget / unit).Floor
    ensures n as real * unit <= budget < (n + 1) as real * unit
  {
    var q := budget / unit;
    assert q * unit == budget;
    assert n as real <= q < (n + 1) as real;
  }

  // The budget is the configured percentage of the capital.
  lemma BudgetIsPercentage(s: PositionSizer)
    ensures 100.0 * s.Budget() == s.capital * s.maxRiskPct
  {
    var share := s.maxRiskPct / 100.0;
    assert 100.0 * share == s.maxRiskPct;
    assert 100.0 * (s.capital * share) == s.capital * (100.0 * share);
  }

  // Sizing succeeds with the greatest number of whole lots whose loss at the stop is within
  // the configured percentage of the capital, and is skipped for one reason each: no capital
  // or percentage, then unusable parameters, then a single lot already too much.
  lemma SizeIsGreatestWithinBudget(s: PositionSizer, slDist: int, moneyPerPoint: real, lotSize: int)
    ensures var sizing := s.Size(slDist, moneyPerPoint, lotSize);
      var perLot := slDist as real * moneyPerPoint * lotSize as real;
      if s.capital <= 0.0 || s.maxRiskPct <= 0.0 then sizing == Skipped(ZeroRiskBudget)
      else if slDist <= 0 || moneyPerPoint <= 0.0 || lotSize <= 0 then sizing == Skipped(BadInstrumentParams)
      else if s.capital * s.maxRiskPct < 100.0 * perLot then sizing == Skipped(RiskBelowOneLot)
      else
        && sizing.Sized? && sizing.lots >= 1 && sizing.quantity == sizing.lots * lotSize
        && 100.0 * (sizing.lots as real * perLot) <= s.capital * s.maxRiskPct
        && s.capital * s.maxRiskPct < 100.0 * ((sizing.lots + 1) as real * perLot)
  {
    if s.capital > 0.0 && s.maxRiskPct > 0.0 && slDist > 0 && moneyPerPoint > 0.0 && lotSize > 0 {
      var perLot := PerLotRisk(slDist, moneyPerPoint, lotSize);
      var lots := (s.Budget() / perLot).Floor;
      PerLotRiskPositive(slDist, moneyPerPoint, lotSize);
      FloorQuotient(s.Budget(), perLot, lots);
      BudgetIsPercentage(s);
      AtMostOne(lots + 1, perLot);
      AtLeastOne(lots, perLot);
    }
  }

  lemma AtMostOne(n: int, unit: real)
    requires unit > 0.0
    ensures n <= 1 ==> n as real * unit <= unit
  {
  }

  lemma AtLeastOne(n: int, unit: real)
    requires unit > 0.0
    ensures n >= 1 ==> n as real * unit >= unit
  {
  }

  // A sized quantity risks no more than that percentage of the capital at any stop distance up
  // to the one it was sized for.
  lemma SizedRiskWithinBudget(s: PositionSizer, slDist: int, moneyPerPoint: real, lotSize: int, distance: int)
    requires s.Size(slDist, moneyPerPoint, lotSize).Sized? && distance <= slDist
    ensures var quantity := s.Size(slDist, moneyPerPoint, lotSize).quantity;
      100.0 * (quantity as real * moneyPerPoint * distance as real) <= s.capital * s.maxRiskPct
  {
    SizeIsGreatestWithinBudget(s, slDist, moneyPerPoint, lotSize);
    var sizing := s.Size(slDist, moneyPerPoint, lotSize);
    ScaledRisk(sizing.lots as real, lotSize as real, moneyPerPoint, slDist as real, distance as real);
    Arithmetic.RealProduct(sizing.lots, lotSize);
  }

  lemma ScaledRisk(lots: real, lotSize: real, moneyPerPoint: real, slDist: real, distance: real)
    requires lots >= 0.0 && lotSize >= 0.0 && moneyPerPoint >= 0.0 && distance <= slDist
    ensures (lots * lotSize) * moneyPerPoint * distance <= lots * (slDist * moneyPerPoint * lotSize)
  {
    var weight := (lots * lotSize) * moneyPerPoint;
    assert weight >= 0.0;
    assert weight * distance <= weight * slDist;
    assert weight * slDist == lots * (slDist * moneyPerPoint * lotSize) by {
      assert slDist * moneyPerPoint * lotSize == lotSize * moneyPerPoint * slDist;
      assert (lots * lotSize) * moneyPerPoint == lots * (lotSize * moneyPerPoint);
    }
  }
}
