/** The process simulation of the four-tank plant as values: one tick is four ordered
    stages (pump Z1 -> Z2, gravity Z2 -> Z3, heater on Z3, latched valve Z3 -> Z4 with
    temperature mixing) followed by the cycle counter and the periodic status report. */
module Plant {
  import opened Tanks

  const Ambient: real := 20.0
  const PumpFlowPerStep: real := 0.15   // flow of the pump per unit of pump speed
  const GravityFlow: real := 0.4
  const HeaterMinLevel: real := 1.0
  const HeatStep: real := 0.4
  const CoolStep: real := 0.05
  const DrainFlow: real := 0.9
  const ReportPeriod: nat := 50
  const Capacity: real := 100.0
  const InitialFeed: real := 90.0

  datatype TankState = TankState(level: real, capacity: real, temp: real)

  /** What the plant pushes to its report sink: the run parameters on start, and the heating
      tank's temperature with the product tank's level on every 50th cycle. */
  datatype Report =
    | StartReport(target: int, pumpSpeed: int)
    | StatusReport(heatTemp: real, productLevel: real)

  /** Z1 feed, Z2 buffer, Z3 heating, Z4 product; the two actuator flags; the valve latch;
      the cycle counter and the run parameters. */
  datatype PlantState = PlantState(
    z1: TankState, z2: TankState, z3: TankState, z4: TankState,
    pumpOn: bool, heaterOn: bool, valveOpen: bool,
    cycle: nat, pumpSpeed: int, target: int)

  predicate InBounds(t: TankState) {
    0.0 <= t.level <= t.capacity
  }

  predicate AllInBounds(s: PlantState) {
    InBounds(s.z1) && InBounds(s.z2) && InBounds(s.z3) && InBounds(s.z4)
  }

  function Total(s: PlantState): real {
    s.z1.level + s.z2.level + s.z3.level + s.z4.level
  }

  /** The plant as constructed: Z1 filled to 90, the rest empty, everything at 20 degrees. */
  function Initial(): PlantState {
    var empty := TankState(0.0, Capacity, Ambient);
    PlantState(empty.(level := InitialFeed), empty, empty, empty,
               false, false, false, 0, 0, 0)
  }

  /** The start command: stores the parameters and closes the valve. */
  function Start(s: PlantState, pumpSpeed: int, target: int): PlantState {
    s.(pumpSpeed := pumpSpeed, target := target, valveOpen := false)
  }

  /** Withdraws up to `amount` from `src` and adds what came out to `dst`; when that does
      not fit, `dst` is left as it was and the withdrawn liquid is gone. */
  function Transfer(src: TankState, dst: TankState, amount: real): (r: (TankState, TankState))
    ensures r.0.capacity == src.capacity && r.0.temp == src.temp
    ensures r.1.capacity == dst.capacity && r.1.temp == dst.temp
    ensures 0.0 <= src.level && 0.0 <= amount ==>
              0.0 <= r.0.level <= src.level && src.level - r.0.level <= amount
    ensures Fits(dst.level, dst.capacity, src.level - r.0.level) ==>
              r.0.level + r.1.level == src.level + dst.level
    ensures !Fits(dst.level, dst.capacity, src.level - r.0.level) ==> r.1 == dst
    ensures 0.0 <= src.level && 0.0 <= amount ==>
              r.0.level + r.1.level <= src.level + dst.level
    ensures InBounds(src) && InBounds(dst) && 0.0 <= amount ==> InBounds(r.0) && InBounds(r.1)
    ensures src.level - r.0.level == Withdrawn(src.level, amount)
    ensures r.1.level == if Fits(dst.level, dst.capacity, Withdrawn(src.level, amount))
                         then dst.level + Withdrawn(src.level, amount) else dst.level
  {
    var taken := Withdrawn(src.level, amount);
    var src' := src.(level := src.level - taken);
    var dst' := if Fits(dst.level, dst.capacity, taken) then dst.(level := dst.level + taken) else dst;
    (src', dst')
  }

  function PumpFlow(pumpSpeed: int): real {
    pumpSpeed as real * PumpFlowPerStep
  }

  /** Capacity and temperature of a tank are kept by a transfer. */
  predicate SameTank(t: TankState, t': TankState) {
    t'.capacity == t.capacity && t'.temp == t.temp
  }

  /** Stage 1: the pump runs iff Z1 holds liquid and Z2 is below capacity; only Z1, Z2 and
      the pump flag change. A running pump takes the smaller of Z1's contents and the pump
      flow out of Z1, and Z2 gains exactly that when it fits and nothing otherwise. Levels
      stay in bounds for a non-negative pump speed, and no liquid is lost when Z2 has room
      for a full pump flow. */
  function PumpStage(s: PlantState): (r: PlantState)
    ensures r.pumpOn == (s.z1.level > 0.0 && s.z2.level < s.z2.capacity)
    ensures r == s.(pumpOn := r.pumpOn, z1 := r.z1, z2 := r.z2)
    ensures SameTank(s.z1, r.z1) && SameTank(s.z2, r.z2)
    ensures !r.pumpOn ==> r.z1 == s.z1 && r.z2 == s.z2
    ensures AllInBounds(s) && 0 <= s.pumpSpeed ==> AllInBounds(r) && Total(r) <= Total(s)
    ensures (0.0 <= s.z1.level && 0 <= s.pumpSpeed &&
             s.z2.level + PumpFlow(s.pumpSpeed) <= s.z2.capacity) ==> Total(r) == Total(s)
    ensures r.pumpOn ==> s.z1.level - r.z1.level == Withdrawn(s.z1.level, PumpFlow(s.pumpSpeed))
    ensures r.pumpOn ==>
              r.z2.level == if Fits(s.z2.level, s.z2.capacity, Withdrawn(s.z1.level, PumpFlow(s.pumpSpeed)))
                            then s.z2.level + Withdrawn(s.z1.level, PumpFlow(s.pumpSpeed)) else s.z2.level
  {
    if s.z1.level > 0.0 && s.z2.level < s.z2.capacity then
      var (z1', z2') := Transfer(s.z1, s.z2, PumpFlow(s.pumpSpeed));
      s.(pumpOn := true, z1 := z1', z2 := z2')
    else
      s.(pumpOn := false)
  }

  /** Stage 2: gravity flow of 0.4 from Z2 to Z3 iff Z2 holds liquid and Z3 is below
      capacity; only Z2 and Z3 change. Z2 loses the smaller of its contents and 0.4, and
      Z3 gains exactly that when it fits and nothing otherwise. No liquid is lost when Z3
      has room for 0.4. */
  function GravityStage(s: PlantState): (r: PlantState)
    ensures r == s.(z2 := r.z2, z3 := r.z3)
    ensures SameTank(s.z2, r.z2) && SameTank(s.z3, r.z3)
    ensures !(s.z2.level > 0.0 && s.z3.level < s.z3.capacity) ==> r == s
    ensures AllInBounds(s) ==> AllInBounds(r) && Total(r) <= Total(s)
    ensures 0.0 <= s.z2.level && s.z3.level + GravityFlow <= s.z3.capacity ==> Total(r) == Total(s)
    ensures s.z2.level > 0.0 && s.z3.level < s.z3.capacity ==>
              s.z2.level - r.z2.level == Withdrawn(s.z2.level, GravityFlow)
    ensures s.z2.level > 0.0 && s.z3.level < s.z3.capacity ==>
              r.z3.level == if Fits(s.z3.level, s.z3.capacity, Withdrawn(s.z2.level, GravityFlow))
                            then s.z3.level + Withdrawn(s.z2.level, GravityFlow) else s.z3.level
  {
    if s.z2.level > 0.0 && s.z3.level < s.z3.capacity then
      var (z2', z3') := Transfer(s.z2, s.z3, GravityFlow);
      s.(z2 := z2', z3 := z3')
    else
      s
  }

  /** Stage 3: the heater is on iff Z3 holds more than 1; when on it heats Z3 by 0.4 while
      Z3 is below the target, when off Z3 cools by 0.05 while it is above ambient. Only the
      temperature of Z3 and the heater flag change. */
  function HeatStage(s: PlantState): (r: PlantState)
    ensures r.heaterOn == (s.z3.level > HeaterMinLevel)
    ensures r == s.(heaterOn := r.heaterOn, z3 := s.z3.(temp := r.z3.temp))
    ensures r.z3.temp > s.z3.temp <==> r.heaterOn && s.z3.temp < s.target as real
    ensures r.z3.temp < s.z3.temp <==> !r.heaterOn && s.z3.temp > Ambient
    ensures r.z3.temp > s.z3.temp ==> r.z3.temp == s.z3.temp + HeatStep
    ensures r.z3.temp < s.z3.temp ==> r.z3.temp == s.z3.temp - CoolStep
  {
    if s.z3.level > HeaterMinLevel then
      s.(heaterOn := true,
         z3 := if s.z3.temp < s.target as real then s.z3.(temp := s.z3.temp + HeatStep) else s.z3)
    else
      s.(heaterOn := false,
         z3 := if s.z3.temp > Ambient then s.z3.(temp := s.z3.temp - CoolStep) else s.z3)
  }

  /** The temperature Z4 is given after a drain: its old temperature weighted by the level
      less the drained amount, and the incoming temperature weighted by the drained amount. */
  function Blend(oldTemp: real, newLevel: real, drained: real, inTemp: real): real
    requires newLevel > 0.0
  {
    (oldTemp * (newLevel - drained) + inTemp * drained) / newLevel
  }

  /** Drains the smaller of Z3's contents and 0.9 from Z3 into Z4 (Z4 gains it only when it
      fits) and, if Z4 then holds liquid, recomputes its temperature from the amount taken
      out of Z3, whether or not the add succeeded. */
  function Drain(z3: TankState, z4: TankState): (r: (TankState, TankState))
    ensures SameTank(z3, r.0) && r.1.capacity == z4.capacity
    ensures r.1.level <= 0.0 ==> r.1.temp == z4.temp
    ensures z3.level > 0.0 ==> 0.0 < z3.level - r.0.level <= DrainFlow
    ensures InBounds(z3) && InBounds(z4) ==>
              InBounds(r.0) && InBounds(r.1) && r.0.level + r.1.level <= z3.level + z4.level
    ensures 0.0 <= z3.level && z4.level + DrainFlow <= z4.capacity ==>
              r.0.level + r.1.level == z3.level + z4.level
    ensures var a := z3.level - r.0.level;
      Fits(z4.level, z4.capacity, a) && z4.level + a > 0.0 ==>
        r.1.level == z4.level + a && r.1.temp == Blend(z4.temp, z4.level + a, a, z3.temp)
    ensures z3.level - r.0.level == Withdrawn(z3.level, DrainFlow)
    ensures r.1.level == if Fits(z4.level, z4.capacity, Withdrawn(z3.level, DrainFlow))
                         then z4.level + Withdrawn(z3.level, DrainFlow) else z4.level
    ensures var a := Withdrawn(z3.level, DrainFlow);
      !Fits(z4.level, z4.capacity, a) && z4.level > 0.0 ==>
        r.1.temp == Blend(z4.temp, z4.level, a, z3.temp)
  {
    var (z3', z4') := Transfer(z3, z4, DrainFlow);
    var drained := z3.level - z3'.level;
    (z3', if z4'.level > 0.0 then z4'.(temp := Blend(z4'.temp, z4'.level, drained, z3'.temp)) else z4')
  }

  /** The valve opens once Z3 is at the target temperature, or stays open. */
  function ValveOpening(s: PlantState): bool {
    s.valveOpen || s.z3.temp >= s.target as real
  }

  /** True when the valve stage moves liquid. */
  predicate Drains(s: PlantState) {
    ValveOpening(s) && s.z3.level > 0.0
  }

  /** Stage 4: the open valve drains the smaller of Z3's contents and 0.9 from Z3 into Z4
      while Z3 holds liquid (Z4 gains it only when it fits), and closes once Z3 is empty;
      only Z3, Z4 and the valve change, and Z3 keeps its temperature. */
  function ValveStage(s: PlantState): (r: PlantState)
    ensures r == s.(valveOpen := r.valveOpen, z3 := r.z3, z4 := r.z4)
    ensures r.valveOpen == (ValveOpening(s) && r.z3.level > 0.0)
    ensures SameTank(s.z3, r.z3) && r.z4.capacity == s.z4.capacity
    ensures !Drains(s) ==> r.z3 == s.z3 && r.z4 == s.z4
    ensures r.z4.level <= 0.0 ==> r.z4.temp == s.z4.temp
    ensures Drains(s) ==> 0.0 < s.z3.level - r.z3.level <= DrainFlow
    ensures AllInBounds(s) ==> AllInBounds(r) && Total(r) <= Total(s)
    ensures 0.0 <= s.z3.level && s.z4.level + DrainFlow <= s.z4.capacity ==> Total(r) == Total(s)
    ensures var a := s.z3.level - r.z3.level;
      Drains(s) && Fits(s.z4.level, s.z4.capacity, a) && s.z4.level + a > 0.0 ==>
        r.z4.level == s.z4.level + a && r.z4.temp == Blend(s.z4.temp, s.z4.level + a, a, s.z3.temp)
    ensures Drains(s) ==> s.z3.level - r.z3.level == Withdrawn(s.z3.level, DrainFlow)
    ensures Drains(s) ==>
              r.z4.level == if Fits(s.z4.level, s.z4.capacity, Withdrawn(s.z3.level, DrainFlow))
                            then s.z4.level + Withdrawn(s.z3.level, DrainFlow) else s.z4.level
    ensures var a := Withdrawn(s.z3.level, DrainFlow);
      Drains(s) && !Fits(s.z4.level, s.z4.capacity, a) && s.z4.level > 0.0 ==>
        r.z4.temp == Blend(s.z4.temp, s.z4.level, a, s.z3.temp)
  {
    var open := ValveOpening(s);
    var (z3', z4') := if open && s.z3.level > 0.0 then Drain(s.z3, s.z4) else (s.z3, s.z4);
    s.(valveOpen := if z3'.level <= 0.0 then false else open, z3 := z3', z4 := z4')
  }

  /** The state entering the valve stage. */
  function Heated(s: PlantState): PlantState {
    HeatStage(GravityStage(PumpStage(s)))
  }

  /** One tick of the simulation. */
  function Tick(s: PlantState): PlantState {
    var v := ValveStage(Heated(s));
    v.(cycle := v.cycle + 1)
  }

  /** The reports one tick pushes: a status on every cycle count divisible by 50. */
  function Emitted(s: PlantState): seq<Report> {
    var r := Tick(s);
    if r.cycle % ReportPeriod == 0 then [StatusReport(r.z3.temp, r.z4.level)] else []
  }

  /** `n` ticks in a row, and the reports they push. */
  function Run(s: PlantState, n: nat): PlantState
    decreases n
  {
    if n == 0 then s else Run(Tick(s), n - 1)
  }

  function RunReports(s: PlantState, n: nat): seq<Report>
    decreases n
  {
    if n == 0 then [] else Emitted(s) + RunReports(Tick(s), n - 1)
  }

  // ---------------------------------------------------------------------------------------
  // Properties of one tick

  /** The pump flag is the stage-1 guard; the heater flag is the stage-3 guard, read on the
      level Z3 has after the gravity stage. */
  lemma TickActuators(s: PlantState)
    ensures Tick(s).pumpOn == (s.z1.level > 0.0 && s.z2.level < s.z2.capacity)
    ensures Tick(s).heaterOn == (GravityStage(PumpStage(s)).z3.level > HeaterMinLevel)
  {
  }

  /** Z3 warms by exactly 0.4 when, and only when, the heater is on and Z3 is below the
      target; it cools by exactly 0.05 when, and only when, the heater is off and Z3 is
      above 20 degrees; otherwise its temperature stays. */
  lemma TickHeating(s: PlantState)
    ensures var r := Tick(s);
      (r.z3.temp > s.z3.temp <==> r.heaterOn && s.z3.temp < s.target as real) &&
      (r.z3.temp < s.z3.temp <==> !r.heaterOn && s.z3.temp > Ambient) &&
      (r.z3.temp > s.z3.temp ==> r.z3.temp == s.z3.temp + HeatStep) &&
      (r.z3.temp < s.z3.temp ==> r.z3.temp == s.z3.temp - CoolStep)
  {
  }

  /** The valve is open after a tick iff it was open or Z3 reached the target after heating,
      and Z3 is not empty at the end of the tick; so an open valve implies liquid in Z3, an
      open valve stays open unless Z3 ends empty, and reaching the target opens it. */
  lemma TickValve(s: PlantState)
    ensures var r := Tick(s);
      (r.valveOpen <==> (s.valveOpen || r.z3.temp >= s.target as real) && r.z3.level > 0.0) &&
      (r.valveOpen ==> r.z3.level > 0.0) &&
      (s.valveOpen && r.z3.level > 0.0 ==> r.valveOpen) &&
      (r.z3.temp >= s.target as real && r.z3.level > 0.0 ==> r.valveOpen)
  {
  }

  /** The cycle counter goes up by one and a status report of (Z3 temperature, Z4 level) is
      pushed exactly when the new count is a multiple of 50; the run parameters and
      capacities do not change. */
  lemma TickBookkeeping(s: PlantState)
    ensures var r := Tick(s);
      r.cycle == s.cycle + 1 && r.pumpSpeed == s.pumpSpeed && r.target == s.target &&
      r.z1.capacity == s.z1.capacity && r.z2.capacity == s.z2.capacity &&
      r.z3.capacity == s.z3.capacity && r.z4.capacity == s.z4.capacity &&
      Emitted(s) == (if (s.cycle + 1) % ReportPeriod == 0 then [StatusReport(r.z3.temp, r.z4.level)] else [])
  {
  }

  /** With a non-negative pump speed, a tick keeps every level within its bounds and never
      creates liquid. */
  lemma TickKeepsBounds(s: PlantState)
    requires AllInBounds(s) && 0 <= s.pumpSpeed
    ensures AllInBounds(Tick(s)) && Total(Tick(s)) <= Total(s)
  {
  }

  /** The mixing law. When the valve drains amount `a` from Z3 into Z4 and the add fits, Z4
      gains exactly `a` and its new temperature is the level-weighted mean of its old
      temperature and Z3's, which lies between the two. When Z4 ends the tick empty its
      temperature is unchanged, and without a drain Z4 is untouched. */
  lemma TickMixing(s: PlantState)
    requires AllInBounds(s)
    ensures var h, r := Heated(s), Tick(s);
      var a := h.z3.level - r.z3.level;
      (Drains(h) && Fits(s.z4.level, s.z4.capacity, a) ==>
         r.z4.level == s.z4.level + a &&
         r.z4.temp == WeightedMean(s.z4.temp, s.z4.level, r.z3.temp, a) &&
         Between(r.z4.temp, s.z4.temp, r.z3.temp)) &&
      (r.z4.level <= 0.0 ==> r.z4.temp == s.z4.temp) &&
      (!Drains(h) ==> r.z4 == s.z4)
  {
    var h := Heated(s);
    assert h.z4 == s.z4;
    assert Tick(s).z3 == ValveStage(h).z3 && Tick(s).z4 == ValveStage(h).z4;
    ValveMixing(h);
  }

  /** The mixing law for the valve stage on its own. */
  lemma ValveMixing(s: PlantState)
    requires InBounds(s.z4)
    ensures var r := ValveStage(s);
      var a := s.z3.level - r.z3.level;
      Drains(s) && Fits(s.z4.level, s.z4.capacity, a) ==>
        r.z4.level == s.z4.level + a &&
        r.z4.temp == WeightedMean(s.z4.temp, s.z4.level, r.z3.temp, a) &&
        Between(r.z4.temp, s.z4.temp, r.z3.temp)
  {
    var r := ValveStage(s);
    var a := s.z3.level - r.z3.level;
    if Drains(s) && Fits(s.z4.level, s.z4.capacity, a) {
      BlendIsWeightedMean(s.z4.temp, s.z4.level, s.z3.temp, a);
    }
  }

  /** The temperature of `level0` at `t0` mixed with `a` at `t1`. */
  function WeightedMean(t0: real, level0: real, t1: real, a: real): real
    requires level0 + a != 0.0
  {
    (t0 * level0 + t1 * a) / (level0 + a)
  }

  predicate Between(x: real, a: real, b: real) {
    (a <= b ==> a <= x <= b) && (b <= a ==> b <= x <= a)
  }

  /** The blend after a successful add of `a` onto `level0` is the weighted mean, between
      the two temperatures. */
  lemma BlendIsWeightedMean(t0: real, level0: real, t1: real, a: real)
    requires 0.0 <= level0 && 0.0 <= a && 0.0 < level0 + a
    ensures Blend(t0, level0 + a, a, t1) == WeightedMean(t0, level0, t1, a)
    ensures Between(Blend(t0, level0 + a, a, t1), t0, t1)
  {
    assert t0 * ((level0 + a) - a) == t0 * level0;
    MeanBetween(t0, level0, t1, a);
  }

  /** The weighted mean of two temperatures lies between them: multiplied by the total
      level, its distance from each end is the temperature difference times the other
      level, which has the sign of the difference. */
  lemma MeanBetween(t0: real, level0: real, t1: real, a: real)
    requires 0.0 <= level0 && 0.0 <= a && 0.0 < level0 + a
    ensures Between(WeightedMean(t0, level0, t1, a), t0, t1)
  {
    var n := level0 + a;
    var x := WeightedMean(t0, level0, t1, a);
    assert x * n == t0 * level0 + t1 * a;
    assert (x - t0) * n == (t1 - t0) * a;
    assert (t1 - x) * n == (t1 - t0) * level0;
    ProductSign(t1 - t0, a);
    ProductSign(t1 - t0, level0);
    QuotientSign(x - t0, n, (t1 - t0) * a);
    QuotientSign(t1 - x, n, (t1 - t0) * level0);
  }

  lemma ProductSign(d: real, a: real)
    requires 0.0 <= a
    ensures 0.0 <= d ==> 0.0 <= d * a
    ensures d <= 0.0 ==> d * a <= 0.0
  {
  }

  lemma QuotientSign(y: real, n: real, p: real)
    requires 0.0 < n && y * n == p
    ensures 0.0 <= p ==> 0.0 <= y
    ensures p <= 0.0 ==> y <= 0.0
  {
  }

  // ---------------------------------------------------------------------------------------
  // Conservation of liquid in the plant as built

  /** The level side of the plant as built: all capacities 100, levels within bounds, at
      most 98.5 in total and pump speed 0..10. Then every add of a tick fits. */
  predicate Conserving(s: PlantState) {
    AllInBounds(s) &&
    s.z1.capacity == Capacity && s.z2.capacity == Capacity &&
    s.z3.capacity == Capacity && s.z4.capacity == Capacity &&
    Total(s) <= 98.5 && 0 <= s.pumpSpeed <= 10
  }

  /** `Conserving` together with the Z3 and Z4 temperatures between 19.95 and the target
      plus 0.4. */
  predicate Nominal(s: PlantState) {
    Conserving(s) &&
    Ambient - CoolStep <= s.z3.temp <= s.target as real + HeatStep &&
    Ambient - CoolStep <= s.z4.temp <= s.target as real + HeatStep
  }

  /** When every add fits, a tick moves liquid without losing any. */
  lemma TickConserves(s: PlantState)
    requires Conserving(s)
    ensures Conserving(Tick(s)) && Total(Tick(s)) == Total(s)
  {
    assert PumpFlow(s.pumpSpeed) <= 1.5;
    var p := PumpStage(s);
    assert Total(p) == Total(s);
    var g := GravityStage(p);
    assert Total(g) == Total(s);
    var r := Tick(s);
    assert Total(r) == Total(s);
  }

  /** In the nominal plant a tick keeps the total and the temperature bounds hold again. */
  lemma TickNominal(s: PlantState)
    requires Nominal(s)
    ensures Nominal(Tick(s)) && Total(Tick(s)) == Total(s)
  {
    var r := Tick(s);
    assert Conserving(r) && Total(r) == Total(s) by {
      TickConserves(s);
    }
    var h := Heated(s);
    assert h.z4 == s.z4 && h.target == s.target;
    assert Ambient - CoolStep <= h.z3.temp <= s.target as real + HeatStep;
    if Drains(h) {
      var a := h.z3.level - r.z3.level;
      BlendIsWeightedMean(h.z4.temp, h.z4.level, h.z3.temp, a);
    }
  }

  /** A start command with an operator's pump speed keeps the level side of the plant; it
      may leave the temperature band, since the new target can lie below Z3's temperature. */
  lemma StartConserves(s: PlantState, pumpSpeed: int, target: int)
    requires Conserving(s) && 0 <= pumpSpeed <= 10
    ensures Conserving(Start(s, pumpSpeed, target)) && Total(Start(s, pumpSpeed, target)) == Total(s)
  {
  }

  // ---------------------------------------------------------------------------------------
  // Properties of a run of ticks

  /** From a nominal state every run stays nominal and holds exactly the same total. */
  lemma {:induction false} RunNominal(s: PlantState, n: nat)
    requires Nominal(s)
    ensures Nominal(Run(s, n)) && Total(Run(s, n)) == Total(s)
    decreases n
  {
    if n > 0 {
      var t := Tick(s);
      var k := Total(s);
      assert Nominal(t) && Total(t) == k by {
        TickNominal(s);
      }
      RunNominal(t, n - 1);
      var u := Run(t, n - 1);
      assert Run(s, n) == u;
      assert Nominal(u) && Total(u) == k;
    }
  }

  /** After a start with the operator's ranges (pump speed at most 10, target at least 20)
      on the plant as built, no tick ever loses liquid: the plant holds 90 forever, every
      level stays within its capacity, and Z3 and Z4 never exceed the target by more than 0.4. */
  lemma RunFromStart(pumpSpeed: int, target: int, n: nat)
    requires 0 <= pumpSpeed <= 10 && 20 <= target
    ensures var r := Run(Start(Initial(), pumpSpeed, target), n);
      Nominal(r) && Total(r) == InitialFeed
  {
    RunNominal(Start(Initial(), pumpSpeed, target), n);
  }

  /** The temperature band does not survive a second start: Z3 at 90.3 with target 90 is
      nominal, and pressing start with target 20 puts Z3 far above the new target. */
  lemma RestartLeavesBand()
    ensures var s := PlantState(TankState(50.0, Capacity, Ambient), TankState(10.0, Capacity, Ambient),
                                TankState(20.0, Capacity, 90.3), TankState(10.0, Capacity, 85.0),
                                true, true, false, 700, 5, 90);
      Nominal(s) && Conserving(Start(s, 5, 20)) && !Nominal(Start(s, 5, 20))
  {
  }

  /** What the operator and the timer do to the plant: the start button, pressed any number
      of times, and timer ticks. */
  datatype Command = Press(pumpSpeed: int, target: int) | TimerTick

  function Apply(s: PlantState, c: Command): PlantState {
    match c
    case Press(pumpSpeed, target) => Start(s, pumpSpeed, target)
    case TimerTick => Tick(s)
  }

  /** The plant after a sequence of commands, oldest first. */
  function Session(s: PlantState, cmds: seq<Command>): PlantState
    decreases |cmds|
  {
    if |cmds| == 0 then s else Session(Apply(s, cmds[0]), cmds[1..])
  }

  /** Every press uses a pump speed within 0..10, which includes the spin box's 1..10. */
  predicate OperatorSpeeds(cmds: seq<Command>) {
    forall i :: 0 <= i < |cmds| && cmds[i].Press? ==> 0 <= cmds[i].pumpSpeed <= 10
  }

  /** Any interleaving of starts and ticks from a conserving state keeps it conserving and
      holds exactly the same total. */
  lemma {:induction false} SessionConserves(s: PlantState, cmds: seq<Command>)
    requires Conserving(s) && OperatorSpeeds(cmds)
    ensures Conserving(Session(s, cmds)) && Total(Session(s, cmds)) == Total(s)
    decreases |cmds|
  {
    if |cmds| > 0 {
      var t := Apply(s, cmds[0]);
      var k := Total(s);
      assert Conserving(t) && Total(t) == k by {
        match cmds[0]
        case Press(pumpSpeed, target) => StartConserves(s, pumpSpeed, target);
        case TimerTick => TickConserves(s);
      }
      assert OperatorSpeeds(cmds[1..]) by {
        forall i | 0 <= i < |cmds[1..]| && cmds[1..][i].Press?
          ensures 0 <= cmds[1..][i].pumpSpeed <= 10
        {
          assert cmds[1..][i] == cmds[i + 1];
        }
      }
      SessionConserves(t, cmds[1..]);
      var u := Session(t, cmds[1..]);
      assert Session(s, cmds) == u;
      assert Conserving(u) && Total(u) == k;
    }
  }

  /** However often the start button is pressed between ticks, with pump speeds within 0..10
      the plant as built holds exactly 90 and every level stays within its capacity. */
  lemma SessionFromBuilt(cmds: seq<Command>)
    requires OperatorSpeeds(cmds)
    ensures Conserving(Session(Initial(), cmds)) && Total(Session(Initial(), cmds)) == InitialFeed
  {
    SessionConserves(Initial(), cmds);
  }

  /** A run of `n` ticks advances the cycle counter by `n` and keeps the run parameters. */
  lemma {:induction false} RunCycle(s: PlantState, n: nat)
    ensures Run(s, n).cycle == s.cycle + n
    ensures Run(s, n).pumpSpeed == s.pumpSpeed && Run(s, n).target == s.target
    decreases n
  {
    if n > 0 {
      var t := Tick(s);
      assert t.cycle == s.cycle + 1 && t.pumpSpeed == s.pumpSpeed && t.target == s.target by {
        TickBookkeeping(s);
      }
      RunCycle(t, n - 1);
    }
  }

  /** A run of `n` ticks from cycle count `c` pushes one report per multiple of 50 in
      c+1 .. c+n, and nothing else. */
  lemma {:induction false} RunReportCount(s: PlantState, n: nat)
    ensures |RunReports(s, n)| == (s.cycle + n) / ReportPeriod - s.cycle / ReportPeriod
    decreases n
  {
    if n > 0 {
      var t := Tick(s);
      var e := Emitted(s);
      assert t.cycle == s.cycle + 1 &&
             |e| == (if (s.cycle + 1) % ReportPeriod == 0 then 1 else 0) by {
        TickBookkeeping(s);
      }
      StepCount(s.cycle);
      RunReportCount(t, n - 1);
      var u := RunReports(t, n - 1);
      assert RunReports(s, n) == e + u;
      assert |u| == (t.cycle + (n - 1)) / ReportPeriod - t.cycle / ReportPeriod;
    }
  }

  /** Every report a run of ticks pushes is a status report. */
  lemma {:induction false} RunReportsAreStatus(s: PlantState, n: nat)
    ensures forall i :: 0 <= i < |RunReports(s, n)| ==> RunReports(s, n)[i].StatusReport?
    decreases n
  {
    if n > 0 {
      var t := Tick(s);
      assert forall i :: 0 <= i < |Emitted(s)| ==> Emitted(s)[i].StatusReport? by {
        TickBookkeeping(s);
      }
      RunReportsAreStatus(t, n - 1);
      assert RunReports(s, n) == Emitted(s) + RunReports(t, n - 1);
    }
  }

  /** The last tick of a run of n + 1 ticks is a tick of the state after n. */
  lemma {:induction false} RunLast(s: PlantState, n: nat)
    ensures Run(s, n + 1) == Tick(Run(s, n))
    decreases n
  {
    if n > 0 {
      RunLast(Tick(s), n - 1);
    }
  }

  /** Reports come out in tick order: the reports of n + 1 ticks are those of the first n
      followed by, exactly when the cycle count after tick n + 1 is a multiple of 50, one
      status report of Z3's temperature and Z4's level after that tick. */
  lemma {:induction false} RunReportsInOrder(s: PlantState, n: nat)
    ensures var u := Run(s, n + 1);
      RunReports(s, n + 1) ==
        RunReports(s, n) + (if u.cycle % ReportPeriod == 0 then [StatusReport(u.z3.temp, u.z4.level)] else [])
    decreases n
  {
    RunLast(s, n);
    RunReportsLast(s, n);
  }

  lemma {:induction false} RunReportsLast(s: PlantState, n: nat)
    ensures RunReports(s, n + 1) == RunReports(s, n) + Emitted(Run(s, n))
    decreases n
  {
    if n > 0 {
      var t := Tick(s);
      var e := Emitted(s);
      RunReportsLast(t, n - 1);
      var last := Emitted(Run(t, n - 1));
      assert RunReports(t, n) == RunReports(t, n - 1) + last;
      assert RunReports(s, n + 1) == e + RunReports(t, n);
      assert RunReports(s, n) == e + RunReports(t, n - 1);
      assert Run(s, n) == Run(t, n - 1);
    }
  }

  /** One more tick crosses a multiple of 50 exactly when the new count is one. (The case
      split on the remainder is spelled out for solver margin.) */
  lemma StepCount(c: nat)
    ensures (c + 1) / ReportPeriod - c / ReportPeriod == if (c + 1) % ReportPeriod == 0 then 1 else 0
  {
    var q, m := c / ReportPeriod, c % ReportPeriod;
    assert c == ReportPeriod * q + m;
    if m == ReportPeriod - 1 {
      assert c + 1 == ReportPeriod * (q + 1);
    } else {
      assert c + 1 == ReportPeriod * q + (m + 1);
    }
  }

  /** Fifty ticks from the start of a fresh plant push exactly one status report. */
  lemma FiftyTicksOneReport(pumpSpeed: int, target: int)
    ensures var rs := RunReports(Start(Initial(), pumpSpeed, target), 50);
      |rs| == 1 && rs[0].StatusReport?
  {
    RunReportCount(Start(Initial(), pumpSpeed, target), 50);
    RunReportsAreStatus(Start(Initial(), pumpSpeed, target), 50);
  }

  /** One tick after a start with pump speed 5 and target 65 on the plant as built: the pump
      runs and takes 0.75 from Z1, and in the same tick gravity passes 0.4 of it on to Z3. */
  lemma FirstTickFromStart()
    ensures var r := Tick(Start(Initial(), 5, 65));
      r.pumpOn && !r.heaterOn && !r.valveOpen &&
      r.z1.level == 89.25 && r.z2.level == 0.35 && r.z3.level == 0.4 && r.z4.level == 0.0 &&
      r.z3.temp == 20.0 && r.cycle == 1
  {
  }

  // ---------------------------------------------------------------------------------------
  // Overflow, as the simulation is written

  /** The pump guard checks only that Z2 is below capacity: with Z2 at 99.5 and pump speed
      10, the 1.5 taken from Z1 does not fit into Z2 and is lost. */
  lemma PumpOverflowLoses()
    ensures var s := PlantState(TankState(10.0, Capacity, Ambient), TankState(99.5, Capacity, Ambient),
                                TankState(0.0, Capacity, Ambient), TankState(0.0, Capacity, Ambient),
                                false, false, false, 0, 10, 65);
      var r := Tick(s);
      r.pumpOn && r.z1.level == 8.5 && r.z2.level == 99.1 && r.z3.level == 0.4 &&
      Total(r) == Total(s) - 1.5
  {
    var s := PlantState(TankState(10.0, Capacity, Ambient), TankState(99.5, Capacity, Ambient),
                        TankState(0.0, Capacity, Ambient), TankState(0.0, Capacity, Ambient),
                        false, false, false, 0, 10, 65);
    var p := PumpStage(s);
    assert p.pumpOn && p.z1.level == 8.5 && p.z2.level == 99.5 && p.z3 == s.z3 && p.z4 == s.z4;
    var g := GravityStage(p);
    assert g.z1 == p.z1 && g.z2.level == 99.1 && g.z3.level == 0.4 && g.z4 == s.z4;
    var h := HeatStage(g);
    assert !Drains(h);
  }

  /** The valve stage never checks the room left in Z4: with Z4 at 99.5 the 0.9 drained from
      Z3 is lost, and Z4's temperature is still recomputed, as though 0.9 of Z4's own liquid
      had been replaced by Z3's. */
  lemma DrainOverflowShiftsTemp()
    ensures var s := PlantState(TankState(0.0, Capacity, Ambient), TankState(0.0, Capacity, Ambient),
                                TankState(5.0, Capacity, 70.0), TankState(99.5, Capacity, Ambient),
                                false, false, true, 0, 5, 65);
      var r := Tick(s);
      r.valveOpen && r.z3.level == 4.1 && r.z4.level == 99.5 &&
      r.z4.temp == (Ambient * (99.5 - DrainFlow) + 70.0 * DrainFlow) / 99.5 && r.z4.temp > Ambient &&
      Total(r) == Total(s) - DrainFlow
  {
  }
}
