/** `hunt_thermal_scale`: the control loop that steps the batch size up while the card
    is cool and cuts it when hot, above a low watermark that only rises. */
module ThermalHunt {
  import opened Hits

  /** `ThermalHuntState` (over_floor_streak is never used). */
  datatype State = State(batch: int, lastAdjust: real, lastTemp: int, consecutiveCool: int, idleMs: int,
                         floor: int, lastOk: int)

  const FRESH := State(0, 0.0, 0, 0, 0, 0, 0)

  /** The parameters a hunt runs under, as the caller passes them. */
  datatype Params = Params(useMem: bool, target: int, cap: int, gpuCap: int, planned: int, step: int,
                           minBatch: int, cutSettle: real)

  datatype Reading = Reading(gpu: int, mem: int, now: real)

  datatype Action = Hold | Raise | Cut

  // ---- parameters after the function's own adjustments ---------------------------------

  function Step(p: Params): (s: int)
    ensures s >= 1
  {
    if p.step < 1 then 1000 else p.step
  }

  function Planned(p: Params): (n: int)
    ensures n >= 1
  {
    Max(1, p.planned)
  }

  function MinBatch(p: Params): (n: int)
    ensures 1 <= n <= Planned(p)
  {
    Min(Max(p.minBatch, Step(p)), Planned(p))
  }

  function CutSettle(p: Params): real { if p.cutSettle > 5.0 then p.cutSettle else 5.0 }
  function Target(p: Params): int { Max(40, p.target) }
  function Cap(p: Params): int { if p.cap <= Target(p) then Target(p) + 3 else p.cap }

  /** The controlling temperature: the memory junction if used and known, unless the
      die is at its own cap and hotter. A drop of 12 degrees from a reading at or above
      target is a sensor glitch and ignored. */
  function ControlTemp(p: Params, r: Reading, lastTemp: int): int {
    var sensor := if p.useMem && r.mem > 0 then r.mem else r.gpu;
    var temp := if p.gpuCap > 0 && r.gpu >= p.gpuCap && r.gpu > sensor then r.gpu else sensor;
    if lastTemp >= Target(p) && temp > 0 && lastTemp - temp >= 12 then lastTemp else temp
  }

  function ClampBatch(p: Params, batch: int): int {
    Max(MinBatch(p), Min(Planned(p), if batch <= 0 then Planned(p) else batch))
  }

  predicate IsCool(p: Params, temp: int, dT: int) {
    temp <= Target(p) && dT <= 0
  }

  predicate IsHot(p: Params, temp: int, dT: int) {
    temp >= Cap(p) || temp >= Target(p) + 2 || (temp >= Target(p) && dT > 0)
  }

  /** Where a cut would land: the last good batch, but above the watermark if the step
      leaves room, and never above the present batch. */
  function DropTo(p: Params, batch: int, floor: int, lastOk: int): (drop: int)
    ensures drop <= batch
    ensures batch >= MinBatch(p) ==> drop >= MinBatch(p)
    ensures drop < batch ==> drop > floor
  {
    var d0 := if lastOk <= floor then floor + Step(p) else lastOk;
    var d1 := if d0 >= batch then batch - Step(p) else d0;
    var d2 := if d1 <= floor then floor + Step(p) else d1;
    Min(batch, Max(MinBatch(p), d2))
  }

  /** `apply`: outside the settle window, move to next clamped to the allowed range. */
  predicate Settled(p: Params, st: State, now: real) {
    now - st.lastAdjust >= CutSettle(p)
  }

  function MoveTo(p: Params, st: State, now: real, next: int): State {
    var to := Max(MinBatch(p), Min(Planned(p), next));
    if Settled(p, st, now) && to != st.batch then st.(batch := to, lastAdjust := now) else st
  }

  /** The state on entry to the control step proper. */
  function Entered(p: Params, st: State): State {
    var batch := ClampBatch(p, st.batch);
    st.(batch := batch, floor := Max(MinBatch(p), if st.floor <= 0 then batch else st.floor),
        lastOk := if st.lastOk <= 0 then batch else st.lastOk)
  }

  function TempChange(st: State, temp: int): int {
    if st.lastTemp > 0 then temp - st.lastTemp else 0
  }

  function IdleMs(p: Params, temp: int): int {
    if temp >= Target(p) then Min(80, 12 * (temp - Target(p) + 1)) else 0
  }

  /** The first reading only opens the observation window. */
  function Observe(p: Params, st: State, now: real, temp: int): State {
    var batch := ClampBatch(p, st.batch);
    st.(batch := batch, lastAdjust := now, lastTemp := temp,
        floor := if st.floor <= 0 then batch else st.floor,
        lastOk := if st.lastOk <= 0 then batch else st.lastOk)
  }

  function Warmer(p: Params, st: State, now: real): State {
    MoveTo(p, st.(lastOk := st.batch, consecutiveCool := st.consecutiveCool + 1), now, st.batch + Step(p))
  }

  function Cooler(p: Params, st: State, now: real): State {
    var drop := DropTo(p, st.batch, st.floor, st.lastOk);
    var calm := st.(consecutiveCool := 0);
    if drop == st.batch then calm
    else
      var cut := MoveTo(p, calm, now, drop);
      cut.(floor := Max(cut.floor, cut.batch))
  }

  function Hunt(p: Params, st0: State, r: Reading): (State, Action) {
    var temp := ControlTemp(p, r, st0.lastTemp);
    if st0.lastAdjust <= 0.0 then (Observe(p, st0, r.now, temp), Hold)
    else
      var st := Entered(p, st0).(idleMs := IdleMs(p, temp));
      var dT := TempChange(st0, temp);
      var (moved, action) :=
        if IsCool(p, temp, dT) then (Warmer(p, st, r.now), Raise)
        else if IsHot(p, temp, dT) then (Cooler(p, st, r.now), Cut)
        else (st.(consecutiveCool := 0), Hold);
      (moved.(lastTemp := temp), if moved.batch != st.batch then action else Hold)
  }

  // ---- the routine itself, updating its state in place ------------------------------------

  class HuntState {
    var st: State

    constructor ()
      ensures st == FRESH
    {
      st := FRESH;
    }

    method ClampIntoRange(p: Params)
      modifies this
      ensures st == old(st).(batch := ClampBatch(p, old(st.batch)))
    {
      if st.batch <= 0 {
        st := st.(batch := Planned(p));
      }
      if st.batch > Planned(p) {
        st := st.(batch := Planned(p));
      }
      if st.batch < MinBatch(p) {
        st := st.(batch := MinBatch(p));
      }
    }

    method SeedWatermarks()
      modifies this
      ensures st == old(st).(floor := if old(st.floor) <= 0 then old(st.batch) else old(st.floor),
                             lastOk := if old(st.lastOk) <= 0 then old(st.batch) else old(st.lastOk))
    {
      if st.floor <= 0 {
        st := st.(floor := st.batch);
      }
      if st.lastOk <= 0 {
        st := st.(lastOk := st.batch);
      }
    }

    method CutWhenHot(p: Params, now: real)
      requires st.batch >= MinBatch(p)
      modifies this
      ensures st == Cooler(p, old(st), now)
    {
      st := st.(consecutiveCool := 0);
      var drop := st.lastOk;
      if drop <= st.floor {
        drop := st.floor + Step(p);
      }
      if drop >= st.batch {
        drop := st.batch - Step(p);
      }
      if drop <= st.floor {
        drop := st.floor + Step(p);
      }
      if drop < MinBatch(p) {
        drop := MinBatch(p);
      }
      if drop > st.batch {
        drop := st.batch;
      }
      if drop != st.batch {
        st := MoveTo(p, st, now, drop);
        if st.batch > st.floor {
          st := st.(floor := st.batch);
        }
      }
    }

    method HuntThermalScale(p: Params, r: Reading) returns (action: Action)
      modifies this
      ensures (st, action) == Hunt(p, old(st), r)
    {
      hide ControlTemp, MoveTo, DropTo, Cooler, Warmer;
      ClampIntoRange(p);
      var temp := ControlTemp(p, r, st.lastTemp);
      if st.lastAdjust <= 0.0 {
        st := st.(lastAdjust := r.now, lastTemp := temp);
        SeedWatermarks();
        return Hold;
      }
      SeedWatermarks();
      if st.floor < MinBatch(p) {
        st := st.(floor := MinBatch(p));
      }
      st := st.(idleMs := IdleMs(p, temp));
      var dT := TempChange(st, temp);
      var before := st.batch;
      action := Hold;
      if IsCool(p, temp, dT) {
        st := Warmer(p, st, r.now);
        action := if st.batch != before then Raise else Hold;
      } else if IsHot(p, temp, dT) {
        CutWhenHot(p, r.now);
        action := if st.batch != before then Cut else Hold;
      } else {
        st := st.(consecutiveCool := 0);
      }
      st := st.(lastTemp := temp);
    }
  }

  // ---- one call, from the reading and the settings themselves ---------------------------------

  /** The temperature a reading shows: the die's if it is at its own cap and no junction in
      use is as hot; else the junction's if used and known, else the die's. */
  function Shown(p: Params, r: Reading): int {
    if p.useMem && r.mem > 0 && (p.gpuCap <= 0 || r.gpu < p.gpuCap || r.gpu <= r.mem) then r.mem else r.gpu
  }

  /** A fall of twelve degrees or more from a temperature at or above the target. */
  predicate Glitch(p: Params, st: State, r: Reading) {
    st.lastTemp >= 40 && st.lastTemp >= p.target && Shown(p, r) > 0 && st.lastTemp - Shown(p, r) >= 12
  }

  /** What a call records, and that a glitch goes by as no change of temperature at all. */
  lemma RecordedTemp(p: Params, st: State, r: Reading)
    ensures Hunt(p, st, r).0.lastTemp == if Glitch(p, st, r) then st.lastTemp else Shown(p, r)
    ensures Glitch(p, st, r) ==> Hunt(p, st, r) == Hunt(p, st, Reading(st.lastTemp, st.lastTemp, r.now))
  {
    hide MoveTo, DropTo, IsCool, IsHot, ClampBatch, MinBatch;
    if Glitch(p, st, r) {
      assert ControlTemp(p, r, st.lastTemp) == st.lastTemp
          == ControlTemp(p, Reading(st.lastTemp, st.lastTemp, r.now), st.lastTemp);
    }
  }

  /** A die at its own cap two degrees past the target is never given a raise, whatever the
      memory shows; nor is a memory junction in use above the target, whatever the die does. */
  lemma HotNeverRaised(p: Params, st: State, r: Reading)
    requires || (p.gpuCap > 0 && r.gpu >= p.gpuCap && r.gpu >= 42 && r.gpu >= p.target + 2)
             || (p.useMem && r.mem > 40 && r.mem > p.target)
    ensures Hunt(p, st, r).1 != Raise
  {
    hide MoveTo, DropTo, ClampBatch, MinBatch;
  }

  datatype Ground = Ground(target: int, step: int, planned: int, least: int, floor: int, good: int)

  /** The settings and marks a call goes by. */
  function GroundOf(p: Params, st: State): (g: Ground)
    ensures g.target >= 40 && g.target >= p.target && (g.target == 40 || g.target == p.target)
    ensures g.step == if p.step >= 1 then p.step else 1000
    ensures g.planned >= 1 && g.planned >= p.planned && (g.planned == 1 || g.planned == p.planned)
    ensures g.least <= g.planned && (g.least == g.planned || (g.least >= p.minBatch && g.least >= g.step))
    ensures g.least == g.planned || g.least == p.minBatch || g.least == g.step
    ensures g.least == g.planned ==> p.minBatch >= g.planned || g.step >= g.planned
    ensures g.floor >= g.least && g.floor >= st.floor && (g.floor == g.least || g.floor == st.floor)
    ensures g.good == if st.lastOk > 0 then st.lastOk else st.batch
  {
    Ground(Target(p), Step(p), Planned(p), MinBatch(p), Max(MinBatch(p), st.floor),
           if st.lastOk > 0 then st.lastOk else st.batch)
  }

  predicate Rising(st: State, t: int) { st.lastTemp > 0 && t > st.lastTemp }

  predicate Cool(st: State, g: Ground, t: int) { t <= g.target && !Rising(st, t) }

  /** Two degrees over, at a cap one degree over, or at the target and rising. */
  predicate Hot(p: Params, st: State, g: Ground, t: int) {
    t >= g.target + 2 || (t == g.target + 1 && p.cap == t) || (t >= g.target && Rising(st, t))
  }

  predicate RoomToCut(st: State, g: Ground) {
    st.batch > g.least && (g.floor < g.good < st.batch || g.floor + g.step < st.batch)
  }

  /** What a call in range does. A raise goes up one step; a cut goes back to the last good
      batch if that lies between watermark and batch, and otherwise one step down, or to one
      step above the watermark. */
  lemma HuntExactly(p: Params, st: State, r: Reading)
    requires InRange(p, st) && st.lastAdjust > 0.0
    ensures var (next, action) := Hunt(p, st, r);
            var g, t := GroundOf(p, st), next.lastTemp;
            var ready := r.now - st.lastAdjust >= 5.0 && r.now - st.lastAdjust >= p.cutSettle;
            && (action == Raise <==> Cool(st, g, t) && ready && st.batch < g.planned)
            && (action == Cut <==> Hot(p, st, g, t) && ready && RoomToCut(st, g))
            && next.batch == (match action
                              case Raise => if st.batch + g.step > g.planned then g.planned else st.batch + g.step
                              case Cut => if g.good >= st.batch then st.batch - g.step
                                          else if g.good > g.floor then g.good else g.floor + g.step
                              case Hold => st.batch)
  {
    hide ControlTemp;
  }

  /** And the other fields it leaves: after a hot reading with room to cut, executed or
      refused, the watermark is at the batch. */
  lemma MarksExactly(p: Params, st: State, r: Reading)
    requires InRange(p, st) && st.lastAdjust > 0.0
    ensures var (next, action) := Hunt(p, st, r);
            var g, t := GroundOf(p, st), next.lastTemp;
            && next.lastAdjust == (if action == Hold then st.lastAdjust else r.now)
            && next.lastOk == (if Cool(st, g, t) then st.batch else g.good)
            && next.floor == (if Hot(p, st, g, t) && RoomToCut(st, g) then next.batch else g.floor)
            && next.consecutiveCool == (if Cool(st, g, t) then st.consecutiveCool + 1 else 0)
            && next.idleMs == (if t < g.target then 0 else if t < g.target + 6 then 12 * (t - g.target + 1) else 80)
  {
    hide ControlTemp;
  }

  /** The first call changes nothing but what it seeds: the whole plan if there is no batch
      yet, and the marks at the batch. */
  lemma FirstExactly(p: Params, st: State, r: Reading)
    requires st.lastAdjust <= 0.0
    ensures var (next, action) := Hunt(p, st, r);
            var g := GroundOf(p, st);
            && action == Hold && next.lastAdjust == r.now
            && next.batch == (if st.batch <= 0 || st.batch >= g.planned then g.planned
                              else if st.batch <= g.least then g.least else st.batch)
            && next.floor == (if st.floor > 0 then st.floor else next.batch)
            && next.lastOk == (if st.lastOk > 0 then st.lastOk else next.batch)
            && next.consecutiveCool == st.consecutiveCool && next.idleMs == st.idleMs
  {
    hide ControlTemp;
  }

  // ---- whole runs ---------------------------------------------------------------------------

  /** Holds once the hunt has been called at all. */
  predicate InRange(p: Params, st: State) {
    0 < st.floor <= st.batch <= Planned(p) && MinBatch(p) <= st.batch
  }

  /** The first reading brings the state into range exactly when its watermark does not
      lie above the batch it starts from: always for a fresh state (no watermark yet),
      and for one seeded within the plan. */
  lemma FirstCallInRange(p: Params, st: State, r: Reading)
    requires st.lastAdjust <= 0.0
    ensures InRange(p, Hunt(p, st, r).0) <==> st.floor <= ClampBatch(p, st.batch)
    ensures st.floor <= 0 || (st.floor == st.batch == st.lastOk && 0 < st.batch <= Planned(p)) ==>
              InRange(p, Hunt(p, st, r).0)
    ensures Hunt(p, st, r).1 == Hold
  {
  }

  /** One call: the range is kept, the watermark does not sink, and an executed cut
      lands strictly above the watermark it met. */
  lemma HuntStep(p: Params, st: State, r: Reading)
    requires InRange(p, st)
    ensures var (next, action) := Hunt(p, st, r);
            && InRange(p, next)
            && st.floor <= next.floor
            && (action == Cut ==> st.floor < next.batch < st.batch && next.floor >= next.batch)
            && (action == Raise ==> st.batch < next.batch)
            && (action == Hold ==> next.batch == st.batch)
  {
  }

  function Run(p: Params, st: State, rs: seq<Reading>): State
    decreases |rs|
  {
    if rs == [] then st else Run(p, Hunt(p, st, rs[0]).0, rs[1..])
  }

  function Cuts(p: Params, st: State, rs: seq<Reading>): nat
    decreases |rs|
  {
    if rs == [] then 0
    else
      (if Hunt(p, st, rs[0]).1 == Cut then 1 else 0) + Cuts(p, Hunt(p, st, rs[0]).0, rs[1..])
  }

  /** However long the run and whatever the readings, it makes at most as many cuts as
      the watermark rises, hence at most planned - initial floor. */
  lemma {:induction false} CutsBounded(p: Params, st: State, rs: seq<Reading>)
    requires InRange(p, st)
    ensures var end := Run(p, st, rs);
            && InRange(p, end)
            && Cuts(p, st, rs) <= end.floor - st.floor <= Planned(p) - st.floor
    decreases |rs|
  {
    if rs != [] {
      HuntStep(p, st, rs[0]);
      CutsBounded(p, Hunt(p, st, rs[0]).0, rs[1..]);
    }
  }

  // ---- when a cut happens, and when the watermark meets the batch ------------------------------

  /** A hot reading for which a smaller batch can be found above the watermark: the last
      good one, or one step above it. */
  predicate CutWanted(p: Params, st: State, r: Reading) {
    var temp := ControlTemp(p, r, st.lastTemp);
    var dT, e := TempChange(st, temp), Entered(p, st);
    && !IsCool(p, temp, dT) && IsHot(p, temp, dT)
    && e.batch > MinBatch(p)
    && (e.floor < e.lastOk < e.batch || e.floor + Step(p) < e.batch)
  }

  lemma DropExactly(p: Params, st: State)
    requires InRange(p, st)
    ensures var e := Entered(p, st);
            DropTo(p, e.batch, e.floor, e.lastOk) != e.batch
            <==> e.batch > MinBatch(p) && (e.floor < e.lastOk < e.batch || e.floor + Step(p) < e.batch)
  {
  }

  /** The exact condition for a cut. */
  lemma CutExactly(p: Params, st: State, r: Reading)
    requires InRange(p, st)
    ensures Hunt(p, st, r).1 == Cut <==> st.lastAdjust > 0.0 && Settled(p, st, r.now) && CutWanted(p, st, r)
  {
    hide ControlTemp;
    DropExactly(p, st);
  }

  /** When the watermark is at the batch after a reading: it was already and no raise
      took place, or a cut was wanted, whether it was executed or refused. */
  lemma FloorMeetsBatch(p: Params, st: State, r: Reading)
    requires InRange(p, st) && st.lastAdjust > 0.0
    ensures var (next, action) := Hunt(p, st, r);
            next.floor == next.batch
            <==> CutWanted(p, st, r) || (Entered(p, st).floor == st.batch && action != Raise)
  {
    hide ControlTemp;
    DropExactly(p, st);
  }

  /** No cut can come out of a state whose watermark is at the batch. */
  lemma NoCutAtFloor(p: Params, st: State, r: Reading)
    requires InRange(p, st)
    ensures st.floor == st.batch ==> Hunt(p, st, r).1 != Cut
  {
  }

  /** When a hot reading asks for a cut inside the settle window, the cut is refused
      but the watermark is still raised, all the way to the batch. */
  lemma RefusedCutRaisesFloor(p: Params, st: State, r: Reading)
    requires InRange(p, st) && st.lastAdjust > 0.0 && CutWanted(p, st, r) && !Settled(p, st, r.now)
    ensures var (next, action) := Hunt(p, st, r);
            action == Hold && next.floor == next.batch == st.batch
  {
    CutExactly(p, st, r);
    FloorMeetsBatch(p, st, r);
    HuntStep(p, st, r);
    hide Hunt;
  }

  function RaisesIn(p: Params, st: State, rs: seq<Reading>): nat
    decreases |rs|
  {
    if rs == [] then 0
    else
      (if Hunt(p, st, rs[0]).1 == Raise then 1 else 0) + RaisesIn(p, Hunt(p, st, rs[0]).0, rs[1..])
  }

  /** Cuts and raises alternate, as far as cuts go: an executed cut leaves the watermark
      at the batch, so no second one comes before a raise. */
  lemma {:induction false} CutsNeedRaises(p: Params, st: State, rs: seq<Reading>)
    requires InRange(p, st)
    ensures Cuts(p, st, rs) <= RaisesIn(p, st, rs) + (if st.floor == st.batch then 0 else 1)
    decreases |rs|
  {
    hide Hunt;
    if rs != [] {
      HuntStep(p, st, rs[0]);
      NoCutAtFloor(p, st, rs[0]);
      CutsNeedRaises(p, Hunt(p, st, rs[0]).0, rs[1..]);
    }
  }

  /** From such a state on, heat alone never gets the batch down again: until a raise
      happens, the batch stays where it is over any run of readings. */
  lemma {:induction false} StuckAtFloor(p: Params, st: State, rs: seq<Reading>)
    requires InRange(p, st) && st.floor == st.batch
    requires RaisesIn(p, st, rs) == 0
    ensures Run(p, st, rs).batch == st.batch && Run(p, st, rs).floor == st.floor
    decreases |rs|
  {
    if rs != [] {
      HuntStep(p, st, rs[0]);
      NoCutAtFloor(p, st, rs[0]);
      StuckAtFloor(p, Hunt(p, st, rs[0]).0, rs[1..]);
    }
  }

  // ---- the reported state, at concrete readings ---------------------------------------------------

  /** Target 84 degrees, cap 90, 8000 attempts planned, steps of 1000. */
  const EIGHT_THOUSAND := Params(true, 84, 90, 0, 8000, 1000, 1000, 5.0)
  /** Raised to 8000 at 100 s, from a watermark of 4000. */
  const JUST_RAISED := State(8000, 100.0, 83, 1, 0, 4000, 7000)

  /** At 102 s the memory is at 88 degrees: a cut to 7000 is wanted and refused. At 110 s
      it is at 95, past the cap and settled, and nothing is cut any more. */
  lemma HotAndStuck()
    ensures InRange(EIGHT_THOUSAND, JUST_RAISED)
    ensures var (once, a) := Hunt(EIGHT_THOUSAND, JUST_RAISED, Reading(60, 88, 102.0));
            var (twice, b) := Hunt(EIGHT_THOUSAND, once, Reading(60, 95, 110.0));
            && a == Hold && once.floor == once.batch == 8000
            && b == Hold && twice.batch == 8000
            && Settled(EIGHT_THOUSAND, once, 110.0) && 95 >= Cap(EIGHT_THOUSAND)
  {
  }
}
