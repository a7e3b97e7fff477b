/** The simulation screen of the SCADA application (`EkranWizualizacji`) without its drawing:
    four tank objects, the pump and the heater, the run parameters and the valve latch,
    updated in place by the start command and by each timer tick. */
module Scada {
  import opened Tanks
  import Plant

  /** A pump or heater (`Urzadzenie`): a flag the simulation sets every tick. */
  class Actuator {
    const name: string
    var active: bool

    constructor (name: string)
      ensures this.name == name && !active
    {
      this.name := name;
      active := false;
    }
  }

  /** The value of a tank object. */
  function View(t: Tank): Plant.TankState
    reads t
  {
    Plant.TankState(t.level, t.capacity, t.temp)
  }

  class Screen {
    const z1: Tank
    const z2: Tank
    const z3: Tank
    const z4: Tank
    const pump: Actuator
    const heater: Actuator
    var cycle: nat
    var pumpSpeed: int
    var target: int
    var valveOpen: bool
    /** Set by the start command; the timer that drives `Tick` runs only after it. */
    var started: bool
    /** The report sink: every report pushed so far, oldest first. */
    ghost var reports: seq<Plant.Report>

    /** The four tanks and the two actuators are distinct objects. */
    ghost predicate Valid()
      reads this
    {
      z1 != z2 && z1 != z3 && z1 != z4 && z2 != z3 && z2 != z4 && z3 != z4 && pump != heater
    }

    /** The state of the plant as seen by the simulation. */
    function State(): Plant.PlantState
      reads this, z1, z2, z3, z4, pump, heater
    {
      Plant.PlantState(View(z1), View(z2), View(z3), View(z4),
                       pump.active, heater.active, valveOpen, cycle, pumpSpeed, target)
    }

    /** The plant as built: four tanks of capacity 100, Z1 filled to 90, nothing started. */
    constructor ()
      ensures Valid() && State() == Plant.Initial()
      ensures !started && reports == []
      ensures fresh(z1) && fresh(z2) && fresh(z3) && fresh(z4) && fresh(pump) && fresh(heater)
    {
      z1 := new Tank(Plant.Capacity, "Z1 (Surowiec)");
      z2 := new Tank(Plant.Capacity, "Z2 (Bufor)");
      z3 := new Tank(Plant.Capacity, "Z3 (Grzanie)");
      z4 := new Tank(Plant.Capacity, "Z4 (Produkt)");
      pump := new Actuator("Pompa P1");
      heater := new Actuator("Grzałka G1");
      cycle := 0;
      pumpSpeed := 0;
      target := 0;
      valveOpen := false;
      started := false;
      reports := [];
      new;
      z1.level := Plant.InitialFeed;
    }

    /** The start command: stores the pump speed and the target temperature, closes the
        valve and pushes one start report; tanks, actuators and the cycle count stay. */
    method Start(speed: int, temp: int)
      modifies this
      ensures State() == Plant.Start(old(State()), speed, temp)
      ensures reports == old(reports) + [Plant.StartReport(temp, speed)]
      ensures started
    {
      pumpSpeed := speed;
      target := temp;
      valveOpen := false;
      reports := reports + [Plant.StartReport(temp, speed)];
      started := true;
    }

    /** One timer tick: the four stages in order, then the cycle count and the report. */
    method Tick()
      requires Valid() && started
      modifies this, z1, z2, z3, z4, pump, heater
      ensures Valid() && started
      ensures State() == Plant.Tick(old(State()))
      ensures reports == old(reports) + Plant.Emitted(old(State()))
    {
      PumpStep();
      GravityStep();
      HeaterStep();
      ValveStep();
      cycle := cycle + 1;
      if cycle % Plant.ReportPeriod == 0 {
        reports := reports + [Plant.StatusReport(z3.temp, z4.level)];
      }
    }

    /** Stage 1: pump Z1 -> Z2. */
    method PumpStep()
      requires Valid()
      modifies z1, z2, pump
      ensures State() == Plant.PumpStage(old(State()))
    {
      if z1.level > 0.0 && z2.level < z2.capacity {
        pump.active := true;
        var flow := pumpSpeed as real * Plant.PumpFlowPerStep;
        var taken := z1.WithdrawFluid(flow);
        var _ := z2.AddFluid(taken);
      } else {
        pump.active := false;
      }
    }

    /** Stage 2: gravity Z2 -> Z3. */
    method GravityStep()
      requires Valid()
      modifies z2, z3
      ensures State() == Plant.GravityStage(old(State()))
    {
      if z2.level > 0.0 && z3.level < z3.capacity {
        var taken := z2.WithdrawFluid(Plant.GravityFlow);
        var _ := z3.AddFluid(taken);
      }
    }

    /** Stage 3: heater on Z3. */
    method HeaterStep()
      requires Valid()
      modifies z3, heater
      ensures State() == Plant.HeatStage(old(State()))
    {
      if z3.level > Plant.HeaterMinLevel {
        heater.active := true;
        if z3.temp < target as real {
          z3.temp := z3.temp + Plant.HeatStep;
        }
      } else {
        heater.active := false;
        if z3.temp > Plant.Ambient {
          z3.temp := z3.temp - Plant.CoolStep;
        }
      }
    }

    /** Stage 4: latched valve Z3 -> Z4 with temperature mixing. */
    method ValveStep()
      requires Valid()
      modifies this`valveOpen, z3, z4
      ensures State() == Plant.ValveStage(old(State()))
    {
      ghost var s := State();
      if z3.temp >= target as real {
        valveOpen := true;
      }
      assert valveOpen == Plant.ValveOpening(s);
      if valveOpen && z3.level > 0.0 {
        var taken := z3.WithdrawFluid(Plant.DrainFlow);
        var _ := z4.AddFluid(taken);
        assert (View(z3), View(z4)) == Plant.Transfer(s.z3, s.z4, Plant.DrainFlow);
        assert taken == s.z3.level - z3.level;
        if z4.level > 0.0 {
          z4.temp := Plant.Blend(z4.temp, z4.level, taken, z3.temp);
        }
        assert (View(z3), View(z4)) == Plant.Drain(s.z3, s.z4);
      }
      if z3.level <= 0.0 {
        valveOpen := false;
      }
    }
  }
}
