# Four-tank process simulation

A Dafny model of the process-simulation core of a small SCADA demo written in Python with
PyQt6 (`Projekt_Python_Informatyka.py`). The plant has four tanks: Z1 feed, Z2 buffer, Z3
heating and Z4 product. It also has a pump between Z1 and Z2 and a heater in Z3. An external
timer calls one simulation step every 100 ms. The step runs four stages in a fixed order:

1. The pump moves liquid from Z1 to Z2.
2. Gravity moves liquid from Z2 to Z3.
3. The heater heats Z3, or Z3 cools.
4. A latched valve drains Z3 into Z4, which mixes the temperatures.

After the four stages come the cycle counter and a status report every 50 cycles.

The model has three modules:

- `Tanks` (`tanks.dfy`) models the tank class `Zbiornik`. `Tanks.Tank` is a class with
  `level`, `capacity`, `temp` and `name`. Its methods `AddFluid` (`dodaj_ciecz`) and
  `WithdrawFluid` (`pobierz_ciecz`) update `level` in place. The function `Withdrawn` gives
  the amount a withdrawal really takes.
- `Plant` (`plant.dfy`) is the simulation as values. One function per stage is composed into
  `Tick`, and `Run` and `RunReports` repeat ticks. The lemmas here state what the simulation
  promises: level bounds, actuator flags, the heating rule, the valve latch, conservation of
  liquid, the mixing law and the report cadence.
- `Scada` (`scada.dfy`) models the screen class `EkranWizualizacji` without its drawing, plus
  the actuator class `Urzadzenie`. `Scada.Screen` holds the four tank objects, the pump and
  heater objects, and the fields `cycle`, `pumpSpeed`, `target`, `valveOpen` and `started`.
  The method `Start` (`start_proces`) and the methods `Tick` and `PumpStep` … `ValveStep`
  (`symuluj_proces`) change those fields in place. Each method is proved to produce exactly
  `Plant.Start`, `Plant.Tick` or the matching stage function of the old state. The report
  callback is a ghost sequence `reports` of `Plant.Report` values: the start parameters, and
  (Z3 temperature, Z4 level) pairs in place of formatted strings.

Pump speed and target temperature are integers, because the source takes them from integer
spin boxes. Levels and temperatures are `real`. Ticks happen only after the start command:
`Screen.Tick` requires `started`, because the timer is started at the end of `start_proces`.

Points where the code behaves differently from what one might expect; the model follows
the code:

- The start command does not reset the cycle counter. It is set to 0 only in the constructor.
- Z2 holds 0.35 after one tick at pump speed 5: the pump brings 0.75 and, in the same tick,
  gravity passes 0.4 on to Z3 (`Plant.FirstTickFromStart`).
- Cooling subtracts 0.05 whenever Z3 is above 20 degrees, so a temperature strictly between
  20 and 20.05 would cool to just below 20. In exact arithmetic Z3 of the plant as built
  starts at 20 and moves only by +0.4 and -0.05, so it stays on a 0.05 grid and never goes
  below 20; only floating-point rounding could take it lower. The temperature band the model
  proves (`Plant.Nominal`) uses the weaker lower bound 19.95, which needs no grid argument.
- The pump guard and the gravity guard only check that the destination is below capacity.
  The valve stage checks nothing about Z4. An add that does not fit loses the withdrawn
  liquid (`Plant.PumpOverflowLoses`).
- After a failed add into Z4, Z4's temperature is still recomputed from its unchanged level
  L and the drained amount A, as (T4·(L−A) + T3·A)/L: as though A of Z4's own liquid had been
  replaced by Z3's (`Plant.Drain`, `Plant.DrainOverflowShiftsTemp`).
- Neither overflow can happen in the plant as built while the pump speed is within 0..10,
  which includes the spin box's 1..10. `Plant.SessionFromBuilt` proves that under any sequence of start presses and
  ticks the plant then holds exactly 90 and every add fits. The temperature band of
  `Plant.RunFromStart` holds after a single start: pressing start again with a lower target
  can leave Z3 above the new target plus 0.4 (`Plant.RestartLeavesBand`).

## Model

| member | source | states |
|---|---|---|
| `Tanks.Withdrawn` | Projekt_Python_Informatyka.py:29-35 | an empty tank gives nothing; otherwise the result is the whole request or the whole contents, whichever is smaller; it is never more than the request or the contents, never negative for a non-negative request, and positive exactly when both tank and request are |
| `Tanks.Tank.AddFluid` | Projekt_Python_Informatyka.py:22-27 | succeeds iff level + amount is at most the capacity; on success the level rises by exactly the amount, on failure nothing changes; bounds are kept for a non-negative amount |
| `Tanks.Tank.WithdrawFluid` | Projekt_Python_Informatyka.py:29-35 | returns `Withdrawn` of the old level and the request, and the level drops by exactly that; for a non-negative request the tank stays within bounds and the result lies between 0 and the old level |
| `Tanks.Tank.constructor` | Projekt_Python_Informatyka.py:15-20 | a new tank is empty at 20 degrees with the given capacity and name |
| `Plant.Transfer` | Projekt_Python_Informatyka.py:123-124 | one withdraw-then-add between two tanks (also lines 132-133 and 154-155): the source tank loses exactly `Withdrawn` of its level and the request, and the destination gains exactly that amount when it fits and nothing otherwise; the source stays non-negative; if the withdrawn amount fits, the two levels sum to what they did before, otherwise the destination is unchanged and that amount is lost; liquid is never created; bounds are kept; capacities and temperatures are kept |
| `Plant.PumpStage` | Projekt_Python_Informatyka.py:117-126 | the pump flag equals "Z1 not empty and Z2 below capacity"; only Z1, Z2 and the flag change; a running pump takes exactly the smaller of Z1's level and speed·0.15 out of Z1, and Z2 gains exactly that when it fits and nothing otherwise; an idle pump moves nothing; bounds are kept and liquid is not created for a non-negative speed; nothing is lost when Z2 has room for a full pump flow |
| `Plant.GravityStage` | Projekt_Python_Informatyka.py:128-133 | only Z2 and Z3 change, and only when Z2 is not empty and Z3 is below capacity; then Z2 loses exactly the smaller of its level and 0.4, and Z3 gains exactly that when it fits and nothing otherwise; bounds are kept and liquid is not created; nothing is lost when Z3 has room for 0.4 |
| `Plant.HeatStage` | Projekt_Python_Informatyka.py:135-144 | the heater flag equals "Z3 holds more than 1"; Z3 warms iff the heater is on and Z3 is below the target, then by exactly 0.4; Z3 cools iff the heater is off and Z3 is above 20, then by exactly 0.05; nothing else changes |
| `Plant.Drain` | Projekt_Python_Informatyka.py:152-159 | Z3 loses exactly the smaller of its level and 0.9 (more than 0 when Z3 is not empty), and Z4 gains exactly that when it fits and nothing otherwise; bounds are kept, liquid is not created, and nothing is lost when Z4 has room for 0.9; on a successful add Z4 gains exactly the drained amount and gets the blended temperature; after a failed add into a non-empty Z4 its temperature is still recomputed from its unchanged level and the drained amount; an empty Z4 keeps its temperature |
| `Plant.ValveStage` | Projekt_Python_Informatyka.py:146-163 | afterwards the valve is open iff it was open or Z3 is at the target, and Z3 is not empty; when it drains, Z3 loses exactly the smaller of its level and 0.9 and Z4 gains exactly that when it fits and nothing otherwise; without a drain Z3 and Z4 are untouched; only Z3, Z4 and the valve change; bounds, no creation of liquid, no loss with room in Z4, the blend on a successful add, and the recomputed Z4 temperature after a failed add into a non-empty Z4 |
| `Plant.TickActuators` | Projekt_Python_Informatyka.py:119-142 | after a tick the pump flag is the stage-1 guard on the old state, and the heater flag is "Z3 holds more than 1" on the level after the gravity stage |
| `Plant.TickHeating` | Projekt_Python_Informatyka.py:137-144 | over a tick Z3 warms iff the heater is on and Z3 was below the target, then by exactly 0.4; it cools iff the heater is off and Z3 was above 20, then by exactly 0.05 |
| `Plant.TickValve` | Projekt_Python_Informatyka.py:148-163 | after a tick the valve is open iff it was open or Z3 reached the target, and Z3 ends non-empty; an open valve implies liquid in Z3; an open valve stays open unless Z3 ends empty; reaching the target with liquid left opens it |
| `Plant.TickBookkeeping` | Projekt_Python_Informatyka.py:166-168 | a tick raises the cycle count by exactly 1 and keeps the run parameters and capacities; it emits one (Z3 temperature, Z4 level) status report iff the new count is a multiple of 50, and none otherwise |
| `Plant.TickKeepsBounds` | Projekt_Python_Informatyka.py:113-163 | with a non-negative pump speed, every tank stays within 0 and its capacity, and the total never grows |
| `Plant.TickMixing` | Projekt_Python_Informatyka.py:157-159 | when the valve drains amount A and the add fits, Z4 gains exactly A; its new temperature is (T4·L4 + T3·A)/(L4 + A), which lies between T4 and T3; a Z4 that ends empty keeps its temperature; without a drain Z4 is untouched |
| `Plant.ValveMixing` | Projekt_Python_Informatyka.py:152-159 | the same mixing law for the valve stage on its own |
| `Plant.BlendIsWeightedMean` | Projekt_Python_Informatyka.py:159 | the source's formula, after a successful add of A onto a level L0 ≥ 0, equals the level-weighted mean of the two temperatures and lies between them |
| `Plant.TickConserves` | Projekt_Python_Informatyka.py:113-163 | with capacities 100, levels in bounds, a total of at most 98.5 and pump speed 0..10, every add of a tick fits: the tick keeps all of that and the total exactly |
| `Plant.TickNominal` | Projekt_Python_Informatyka.py:113-163 | in addition, Z3 and Z4 stay between 19.95 and the target plus 0.4 after the tick |
| `Plant.StartConserves` | Projekt_Python_Informatyka.py:104-111 | a start command with pump speed 0..10 keeps the level invariant and the total, whatever the new target |
| `Plant.RestartLeavesBand` | Projekt_Python_Informatyka.py:104-111 | a start press may lower the target below Z3's temperature: a nominal state leaves the temperature band, while the level invariant still holds |
| `Plant.SessionConserves` | Projekt_Python_Informatyka.py:104-168 | any interleaving of start presses (pump speeds 0..10) and ticks keeps the level invariant and the total exactly |
| `Plant.SessionFromBuilt` | Projekt_Python_Informatyka.py:63-168 | on the plant as built, any such sequence of start presses and ticks leaves every level within bounds and exactly 90 in the plant |
| `Plant.RunNominal` | Projekt_Python_Informatyka.py:113-168 | from such a state, every run of ticks stays in it and keeps the total exactly |
| `Plant.RunFromStart` | Projekt_Python_Informatyka.py:63-111 | after a single start with pump speed 0..10 and target at least 20 on the plant as built, every run keeps every level within bounds and the total at exactly 90; Z3 and Z4 never exceed the target by more than 0.4 |
| `Plant.RunCycle` | Projekt_Python_Informatyka.py:166 | n ticks raise the cycle count by exactly n and keep the pump speed and target |
| `Plant.RunReportCount` | Projekt_Python_Informatyka.py:166-168 | n ticks from cycle count c emit exactly (c+n)/50 − c/50 reports |
| `Plant.RunReportsAreStatus` | Projekt_Python_Informatyka.py:166-168 | every report pushed by a run of ticks is a status report |
| `Plant.RunReportsInOrder` | Projekt_Python_Informatyka.py:166-168 | reports come in tick order: n + 1 ticks push the reports of the first n and then, exactly when the count after the last tick is a multiple of 50, one status report of Z3's temperature and Z4's level after that tick |
| `Plant.FiftyTicksOneReport` | Projekt_Python_Informatyka.py:166-168 | fifty ticks after the first start emit exactly one status report |
| `Plant.FirstTickFromStart` | Projekt_Python_Informatyka.py:117-133 | one tick after a start with pump speed 5 and target 65: the pump runs, Z1 holds 89.25, Z2 0.35, Z3 0.4, Z4 0; the heater is off and the valve closed |
| `Plant.PumpOverflowLoses` | Projekt_Python_Informatyka.py:119-124 | with Z2 at 99.5 and pump speed 10, the pump still runs; the 1.5 taken from Z1 does not fit into Z2, so the plant total drops by 1.5 |
| `Plant.DrainOverflowShiftsTemp` | Projekt_Python_Informatyka.py:152-159 | with Z4 at 99.5, the 0.9 drained from Z3 is lost, so Z4's level is unchanged, yet Z4's temperature is recomputed and rises above 20 |
| `Scada.Actuator.constructor` | Projekt_Python_Informatyka.py:39-43 | a new pump or heater is inactive |
| `Scada.Screen.constructor` | Projekt_Python_Informatyka.py:57-99 | the new screen holds four distinct fresh tanks of capacity 100 at 20 degrees, with 90 in Z1; both actuators are off, the valve is closed, the cycle count, pump speed and target are 0, nothing is started and no report has been pushed |
| `Scada.Screen.Start` | Projekt_Python_Informatyka.py:104-111 | stores the pump speed and target and closes the valve, leaving the tanks, actuators and cycle count as they were; pushes exactly one start report with the two parameters, and marks the simulation started |
| `Scada.Screen.Tick` | Projekt_Python_Informatyka.py:113-168 | the screen stays well formed; the new state of the tanks, actuators, valve and cycle count is `Plant.Tick` of the old one, so every `Plant` lemma holds of it; the report sink grows by exactly `Plant.Emitted` of the old state |
| `Scada.Screen.PumpStep` | Projekt_Python_Informatyka.py:117-126 | the state after the in-place pump stage is `Plant.PumpStage` of the state before |
| `Scada.Screen.GravityStep` | Projekt_Python_Informatyka.py:128-133 | the state after the in-place gravity stage is `Plant.GravityStage` of the state before |
| `Scada.Screen.HeaterStep` | Projekt_Python_Informatyka.py:135-144 | the state after the in-place heater stage is `Plant.HeatStage` of the state before |
| `Scada.Screen.ValveStep` | Projekt_Python_Informatyka.py:146-163 | the state after the in-place valve stage is `Plant.ValveStage` of the state before |

## Left out

- The PyQt6 window `ScadaApp`, its spin boxes, tabs and style sheets (lines 245-321) are user interface. The input ranges 1..10 and 20..90 are enforced there, not in the core. The model takes any integers, and the lemmas that need the ranges say so in their requires.
- Drawing is left out: `paintEvent`, `rysuj_tekst_z_obwodka`, the colour interpolation, the `QRect` of each tank, the positions of the actuators and the pipe point lists of `Rura`. None of them affects the simulation.
- The `QTimer` and the repaint request `self.update()` are the external driver. `Screen.Tick` is called directly, and only after `Start`.
- Floating-point rounding is left out: levels and temperatures are exact reals, so 0.15, 0.4, 0.05 and 0.9 are exact. Python's floats would round.
- The formatting of report lines to one decimal place is left out. Reports carry the numbers themselves.
- Stopping the timer or restarting the application is not modelled, because the source has no such operation in the core.
