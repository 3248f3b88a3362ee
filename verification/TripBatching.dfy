/** Trip batching: many client trips share one modem odometer.

    Each trip keeps three offsets, which are rebased whenever the modem batch restarts and the
    odometer starts again from zero.  `World` adds what the adapter does not see: the distance
    really travelled, where the current batch began, and where each trip began.  A modem call and
    its response are one successful step. */
module TripBatching {

  const WORD := 0x1_0000_0000
  type uint32 = x: int | 0 <= x < 0x1_0000_0000

  // The source's arithmetic wraps around.
  function Add32(a: uint32, b: uint32): uint32 {
    (a + b) % WORD
  }

  function Sub32(a: uint32, b: uint32): uint32 {
    (a - b) % WORD
  }

  function Min(x: int, y: int): int {
    if x < y then x else y
  }

  /** TripSessionStatus: the odometer when the trip began in this batch, the distance recorded at
      the last report, the distance recorded when the batch last restarted, and the options. */
  datatype Trip = Trip(ongoing: uint32, thisTrip: uint32, onRestart: uint32, distance: uint32, tbf: uint32)

  datatype Adapter = Adapter(
    trips: map<nat, Trip>, distance: uint32, tbf: uint32, tbfDropped: bool, distanceDropped: bool)

  // ---------- Walking a std::map: ascending ids ----------

  ghost function Least(ids: set<nat>): (x: nat)
    requires ids != {}
    ensures x in ids && forall y :: y in ids ==> x <= y
  {
    LeastIsThere(ids);
    var x :| x in ids && forall y :: y in ids ==> x <= y;
    x
  }

  lemma LeastIsThere(ids: set<nat>)
    requires ids != {}
    ensures exists x :: x in ids && forall y :: y in ids ==> x <= y
  {
    var m := LeastExists(ids);
  }

  lemma LeastExists(ids: set<nat>) returns (m: nat)
    requires ids != {}
    ensures m in ids && forall y :: y in ids ==> m <= y
  {
    var x :| x in ids;
    var below := set y | y in ids && y < x;
    m := x;
    if below != {} {
      assert x !in below;
      m := LeastExists(below);
    }
    forall y | y in ids ensures m <= y {
      assert y in below || x <= y;
    }
  }

  ghost function Ascending(ids: set<nat>): seq<nat> {
    if ids == {} then [] else [Least(ids)] + Ascending(ids - {Least(ids)})
  }

  // ---------- The adapter ----------

  /** The distance the adapter records for a trip at an odometer reading. */
  function Recorded32(t: Trip, reading: uint32): uint32 {
    Add32(t.onRestart, Sub32(reading, t.ongoing))
  }

  function Remaining32(t: Trip): uint32 {
    Sub32(t.distance, t.thisTrip)
  }

  /** The running minimum of restartTripBatching, in which zero stands for "none yet". */
  function MinStep(m: uint32, x: uint32): uint32 {
    if m == 0 || m > x then x else m
  }

  function RunningMin(xs: seq<uint32>): uint32 {
    if xs == [] then 0 else MinStep(RunningMin(xs[..|xs| - 1]), xs[|xs| - 1])
  }

  function MinRemaining(trips: map<nat, Trip>, ids: seq<nat>): uint32
    requires forall id :: id in ids ==> id in trips
  {
    RunningMin(seq(|ids|, i requires 0 <= i < |ids| => Remaining32(trips[ids[i]])))
  }

  function MinTbf(trips: map<nat, Trip>, ids: seq<nat>): uint32
    requires forall id :: id in ids ==> id in trips
  {
    RunningMin(seq(|ids|, i requires 0 <= i < |ids| => trips[ids[i]].tbf))
  }

  /** The rebase of a successful restart: the distance so far goes into onRestart. */
  function FoldTrip(t: Trip, reading: uint32): Trip {
    var d := Recorded32(t, reading);
    t.(thisTrip := d, ongoing := 0, onRestart := d)
  }

  function Folded(trips: map<nat, Trip>, reading: uint32): map<nat, Trip> {
    map id | id in trips :: FoldTrip(trips[id], reading)
  }

  ghost function LeastRemaining(a: Adapter): uint32 {
    AscendingIds(a.trips.Keys);
    MinRemaining(a.trips, Ascending(a.trips.Keys))
  }

  ghost function LeastTbf(a: Adapter): uint32 {
    AscendingIds(a.trips.Keys);
    MinTbf(a.trips, Ascending(a.trips.Keys))
  }

  /** Does a restart call for a new distance.  What is left wraps around when the modem has gone
      further than it was programmed to. */
  ghost predicate Redistances(a: Adapter, reading: uint32) {
    var left := Sub32(a.distance, reading);
    if !a.distanceDropped && left != 0 then LeastRemaining(a) < left else LeastRemaining(a) != 0
  }

  ghost predicate Repaces(a: Adapter) {
    LeastTbf(a) < a.tbf || (LeastTbf(a) != a.tbf && a.tbfDropped)
  }

  /** restartTripBatching.  The second result says whether the modem batch was restarted. */
  ghost function Restart(a: Adapter, reading: uint32): (Adapter, bool) {
    if a.trips == map[] then (a.(distance := 0, tbf := 0), false)
    else if Redistances(a, reading) || Repaces(a) then
      (a.(trips := Folded(a.trips, reading),
          distance := if Redistances(a, reading) then LeastRemaining(a) else a.distance,
          tbf := if Repaces(a) then LeastTbf(a) else a.tbf), true)
    else (a, false)
  }

  /** The rebase when a join restarts the batch: the distance at the last report is kept, what
      came after it is not looked at. */
  function CutTrip(t: Trip): Trip {
    t.(ongoing := 0, onRestart := t.thisTrip)
  }

  function Cut(trips: map<nat, Trip>): map<nat, Trip> {
    map id | id in trips :: CutTrip(trips[id])
  }

  /** Does a join restart the batch, and with what distance. */
  predicate JoinShortens(a: Adapter, distance: uint32, reading: uint32) {
    distance < Sub32(a.distance, reading)
  }

  predicate JoinRestarts(a: Adapter, distance: uint32, tbf: uint32, reading: uint32) {
    JoinShortens(a, distance, reading) || tbf < a.tbf
  }

  /** startTripBatchingMultiplex. */
  function Start(a: Adapter, id: nat, distance: uint32, tbf: uint32, reading: uint32): (Adapter, bool) {
    if a.trips == map[] then
      (a.(trips := map[id := Trip(0, 0, 0, distance, tbf)], distance := distance, tbf := tbf), true)
    else
      var trips := a.trips[id := Trip(reading, 0, 0, distance, tbf)];
      if JoinRestarts(a, distance, tbf, reading) then
        (a.(trips := Cut(trips),
            distance := if JoinShortens(a, distance, reading) then distance else Sub32(a.distance, reading),
            tbf := if tbf < a.tbf then tbf else a.tbf), true)
      else (a.(trips := trips), false)
  }

  function Dropping(a: Adapter, t: Trip): Adapter {
    a.(tbfDropped := a.tbfDropped || t.tbf == a.tbf,
       distanceDropped := a.distanceDropped || t.distance == a.distance)
  }

  /** The adapter when a stopped trip has just been taken out. */
  function Without(a: Adapter, id: nat): Adapter
    requires id in a.trips
  {
    Dropping(a, a.trips[id]).(trips := a.trips - {id})
  }

  /** stopTripBatchingMultiplexCommon, for a trip that is there. */
  ghost function Stop(a: Adapter, id: nat, reading: uint32): (Adapter, bool)
    requires id in a.trips
  {
    Restart(Without(a, id), reading)
  }

  /** The trips at a report: each takes down its distance; it is completed when that is enough. */
  function Updated(t: Trip, reading: uint32): Trip {
    t.(thisTrip := Recorded32(t, reading))
  }

  predicate Completes(t: Trip, reading: uint32) {
    t.distance <= Recorded32(t, reading)
  }

  function Completed(a: Adapter, reading: uint32): set<nat> {
    set id | id in a.trips && Completes(a.trips[id], reading)
  }

  /** The adapter after the loop over the trips, before any restart. */
  function Reported(a: Adapter, reading: uint32): Adapter {
    Adapter(
      map id | id in a.trips && !Completes(a.trips[id], reading) :: Updated(a.trips[id], reading),
      a.distance, a.tbf,
      a.tbfDropped || (exists id :: id in Completed(a, reading) && a.trips[id].tbf == a.tbf),
      a.distanceDropped || (exists id :: id in Completed(a, reading) && a.trips[id].distance == a.distance))
  }

  /** reportCompletedTripsEvent. */
  ghost function Report(a: Adapter, reading: uint32): (Adapter, bool) {
    if Completed(a, reading) == {} then (Reported(a, reading), false)
    else Restart(Reported(a, reading), reading)
  }

  lemma {:induction false} AscendingIds(ids: set<nat>)
    ensures forall x :: x in Ascending(ids) <==> x in ids
    ensures Ascends(Ascending(ids))
  {
    if ids != {} {
      var x, rest := Least(ids), ids - {Least(ids)};
      AscendingIds(rest);
      var tail := Ascending(rest);
      forall j | 0 <= j < |tail| ensures x < tail[j] {
        assert tail[j] in rest;
      }
    }
  }

  // ---------- The world ----------

  /** total: the distance really travelled; base: where the running batch began; joined: where
      each trip began. */
  datatype World = World(adapter: Adapter, total: nat, base: nat, joined: map<nat, nat>)

  datatype Event =
    | Travel(metres: nat)
    | StartTrip(id: nat, distance: uint32, tbf: uint32)
    | StopTrip(id: nat)
    | ReportTrips

  function Reading(w: World): int {
    w.total - w.base
  }

  /** All distances that are looked at fit the modem's 32 bits. */
  predicate Fits(w: World) {
    && (w.adapter.trips != map[] ==> 0 <= Reading(w) < WORD)
    && forall id :: id in w.adapter.trips ==> id in w.joined && w.total - w.joined[id] < WORD
  }

  /** The modem's odometer; it is not asked when no batch is running. */
  function Odometer(w: World): uint32
    requires Fits(w)
  {
    if w.adapter.trips == map[] then 0 else Reading(w)
  }

  ghost function After(w: World, r: (Adapter, bool)): World {
    w.(adapter := r.0, base := if r.1 then w.total else w.base)
  }

  ghost function StartIn(w: World, id: nat, distance: uint32, tbf: uint32): World
    requires Fits(w)
  {
    After(w, Start(w.adapter, id, distance, tbf, Odometer(w))).(joined := w.joined[id := w.total])
  }

  ghost function StopIn(w: World, id: nat): World
    requires Fits(w)
  {
    if id !in w.adapter.trips then w
    else After(w, Stop(w.adapter, id, Odometer(w)))
  }

  /** A stop that restarts its trip with new options is not one of these: it issues the start before
      the restart has been answered. */
  ghost function StepIn(w: World, e: Event): World
    requires Fits(w)
  {
    match e
    case Travel(d) => w.(total := w.total + d)
    case StartTrip(id, distance, tbf) => StartIn(w, id, distance, tbf)
    case StopTrip(id) => StopIn(w, id)
    case ReportTrips => After(w, Report(w.adapter, Odometer(w)))
  }

  // ---------- The accounting ----------

  /** The offsets of a trip at an odometer reading, in unbounded arithmetic. */
  function Recorded(t: Trip, reading: int): int {
    t.onRestart + (reading - t.ongoing)
  }

  /** No subtraction underflows, and what is recorded lies between what was recorded at the last
      report and what was travelled. */
  predicate TripSound(t: Trip, reading: int, travelled: int) {
    t.ongoing <= reading && t.onRestart <= t.thisTrip <= Recorded(t, reading) <= travelled
  }

  ghost predicate Sound(w: World) {
    && Fits(w)
    && w.base <= w.total
    && forall id :: id in w.adapter.trips ==>
         w.joined[id] <= w.total && TripSound(w.adapter.trips[id], Reading(w), w.total - w.joined[id])
  }

  /** What the adapter owes a trip: distance travelled and not recorded. */
  function Deficit(w: World, id: nat): int
    requires id in w.adapter.trips && id in w.joined
  {
    (w.total - w.joined[id]) - Recorded(w.adapter.trips[id], Reading(w))
  }

  lemma RecordedFits(t: Trip, reading: uint32, travelled: int)
    requires TripSound(t, reading, travelled) && travelled < WORD
    ensures Recorded32(t, reading) == Recorded(t, reading)
  {
  }

  /** A restart of the batch by restartTripBatching keeps every trip's record to the metre. */
  lemma FoldKeepsRecord(t: Trip, reading: uint32, travelled: int)
    requires TripSound(t, reading, travelled) && travelled < WORD
    ensures Recorded(FoldTrip(t, reading), 0) == Recorded(t, reading)
    ensures TripSound(FoldTrip(t, reading), 0, travelled)
  {
  }

  /** A restart by a join takes the record back to the last report. */
  lemma CutDropsUnreported(t: Trip, reading: uint32, travelled: int)
    requires TripSound(t, reading, travelled)
    ensures Recorded(CutTrip(t), 0) == t.thisTrip
    ensures TripSound(CutTrip(t), 0, travelled)
  {
  }

  /** The join brings a shorter interval, or is due before the point the modem is programmed to
      report at; past that point, what is left of the programmed distance has wrapped around. */
  predicate ForcesRestart(w: World, e: Event)
    requires Fits(w)
  {
    && e.StartTrip? && w.adapter.trips != map[]
    && var r := Odometer(w);
       || e.tbf < w.adapter.tbf
       || e.distance + r < w.adapter.distance + if r <= w.adapter.distance then 0 else WORD
  }

  lemma JoinRestartsIff(w: World, e: Event)
    requires Fits(w) && e.StartTrip? && w.adapter.trips != map[]
    ensures ForcesRestart(w, e) <==> JoinRestarts(w.adapter, e.distance, e.tbf, Odometer(w))
  {
    LeftOfProgrammed(w.adapter.distance, Odometer(w));
  }

  lemma LeftOfProgrammed(distance: uint32, reading: uint32)
    ensures Sub32(distance, reading) == distance - reading + if reading <= distance then 0 else WORD
  {
  }

  /** What an event takes away from the record of a trip that lives through it. */
  function Lost(w: World, e: Event, id: nat): int
    requires Fits(w) && id in w.adapter.trips
  {
    if ForcesRestart(w, e) then Recorded(w.adapter.trips[id], Reading(w)) - w.adapter.trips[id].thisTrip else 0
  }

  predicate Starts(e: Event, id: nat) {
    e.StartTrip? && e.id == id
  }

  /** The environment's part: the odometer keeps within its 32 bits. */
  predicate Legal(w: World, e: Event) {
    e.Travel? ==> Fits(w.(total := w.total + e.metres))
  }

  /** What Restart does to the trips of a sound world. */
  lemma RestartSound(w: World, a: Adapter)
    requires Sound(w.(adapter := a))
    requires a.trips != map[]
    ensures var w' := After(w, Restart(a, Reading(w)));
      && Sound(w') && w'.adapter.trips.Keys == a.trips.Keys
      && forall id :: id in a.trips ==> Deficit(w', id) == Deficit(w.(adapter := a), id)
  {
    hide Redistances, Repaces, LeastRemaining, LeastTbf, TripSound, Recorded;
    forall id | id in a.trips
      ensures Recorded(FoldTrip(a.trips[id], Reading(w)), 0) == Recorded(a.trips[id], Reading(w))
      ensures TripSound(FoldTrip(a.trips[id], Reading(w)), 0, w.total - w.joined[id])
    {
      FoldKeepsRecord(a.trips[id], Reading(w), w.total - w.joined[id]);
    }
    hide FoldTrip;
  }

  lemma FirstTripSound(w: World, id: nat, distance: uint32, tbf: uint32)
    requires Sound(w) && w.adapter.trips == map[]
    ensures var w' := StartIn(w, id, distance, tbf);
      Sound(w') && w'.adapter.trips.Keys == {id} && Deficit(w', id) == 0
  {
  }

  lemma JoinTripSound(w: World, id: nat, distance: uint32, tbf: uint32, x: nat)
    requires Sound(w) && x in w.adapter.trips && x != id
    ensures var w' := StartIn(w, id, distance, tbf);
      && x in w'.adapter.trips && x in w'.joined && w'.joined[x] == w.joined[x]
      && TripSound(w'.adapter.trips[x], Reading(w'), w.total - w.joined[x])
      && Deficit(w', x) == Deficit(w, x) + Lost(w, StartTrip(id, distance, tbf), x)
  {
    JoinRestartsIff(w, StartTrip(id, distance, tbf));
    hide Sub32, Add32, JoinRestarts, ForcesRestart;
    CutDropsUnreported(w.adapter.trips[x], Odometer(w), w.total - w.joined[x]);
  }

  lemma JoinShape(w: World, id: nat, distance: uint32, tbf: uint32)
    requires Sound(w) && w.adapter.trips != map[]
    ensures var w' := StartIn(w, id, distance, tbf);
      && w'.adapter.trips.Keys == w.adapter.trips.Keys + {id}
      && w'.joined == w.joined[id := w.total] && w'.total == w.total && 0 <= Reading(w') <= Reading(w)
      && TripSound(w'.adapter.trips[id], Reading(w'), 0) && Recorded(w'.adapter.trips[id], Reading(w')) == 0
  {
    hide Sub32, Add32, JoinRestarts;
  }

  lemma JoinSound(w: World, id: nat, distance: uint32, tbf: uint32)
    requires Sound(w) && w.adapter.trips != map[]
    ensures var w' := StartIn(w, id, distance, tbf);
      && Sound(w') && w'.adapter.trips.Keys == w.adapter.trips.Keys + {id}
      && Deficit(w', id) == 0
      && forall x :: x in w.adapter.trips && x != id ==>
           Deficit(w', x) == Deficit(w, x) + Lost(w, StartTrip(id, distance, tbf), x)
  {
    hide StartIn, Lost;
    var w' := StartIn(w, id, distance, tbf);
    JoinShape(w, id, distance, tbf);
    forall x | x in w.adapter.trips && x != id
      ensures x in w'.adapter.trips && x in w'.joined && w'.joined[x] == w.joined[x]
      ensures TripSound(w'.adapter.trips[x], Reading(w'), w.total - w.joined[x])
      ensures Deficit(w', x) == Deficit(w, x) + Lost(w, StartTrip(id, distance, tbf), x)
    {
      JoinTripSound(w, id, distance, tbf, x);
    }
  }

  lemma StopSound(w: World, id: nat)
    requires Sound(w) && id in w.adapter.trips
    ensures Sound(StopIn(w, id))
    ensures StopIn(w, id).adapter.trips.Keys == w.adapter.trips.Keys - {id}
    ensures forall x :: x in w.adapter.trips && x != id ==> Deficit(StopIn(w, id), x) == Deficit(w, x)
  {
    var a := Without(w.adapter, id);
    if a.trips != map[] {
      RestartSound(w, a);
    }
    hide Restart, TripSound, Recorded, Dropping;
  }

  /** The loop of a report only writes down what is recorded. */
  lemma ReportedSound(w: World)
    requires Sound(w)
    ensures Sound(w.(adapter := Reported(w.adapter, Odometer(w))))
    ensures forall x :: x in Reported(w.adapter, Odometer(w)).trips ==>
      && x in w.adapter.trips
      && Deficit(w.(adapter := Reported(w.adapter, Odometer(w))), x) == Deficit(w, x)
  {
    forall x | x in w.adapter.trips
      ensures Recorded32(w.adapter.trips[x], Odometer(w)) == Recorded(w.adapter.trips[x], Reading(w))
    {
      RecordedFits(w.adapter.trips[x], Odometer(w), w.total - w.joined[x]);
    }
  }

  lemma ReportSound(w: World)
    requires Sound(w)
    ensures var w' := After(w, Report(w.adapter, Odometer(w)));
      && Sound(w')
      && w'.adapter.trips.Keys == w.adapter.trips.Keys - Completed(w.adapter, Odometer(w))
      && forall x :: x in w'.adapter.trips ==> Deficit(w', x) == Deficit(w, x)
  {
    var a := Reported(w.adapter, Odometer(w));
    ReportedSound(w);
    assert a.trips.Keys == w.adapter.trips.Keys - Completed(w.adapter, Odometer(w));
    if Completed(w.adapter, Odometer(w)) != {} && a.trips != map[] {
      RestartSound(w, a);
    }
  }

  /** One step keeps the offsets sound, and changes what is owed to a trip only where a join
      restarts the batch: there by exactly the distance since the trip's last report. */
  lemma StepAccounts(w: World, e: Event)
    requires Sound(w) && Legal(w, e)
    ensures Sound(StepIn(w, e))
    ensures forall x :: x in w.adapter.trips && x in StepIn(w, e).adapter.trips && !Starts(e, x) ==>
      Deficit(StepIn(w, e), x) == Deficit(w, x) + Lost(w, e, x)
    ensures e.StartTrip? ==> e.id in StepIn(w, e).adapter.trips && Deficit(StepIn(w, e), e.id) == 0
    ensures forall x :: x in StepIn(w, e).adapter.trips ==> x in w.adapter.trips || Starts(e, x)
  {
    match e {
      case Travel(_) =>
      case StartTrip(id, distance, tbf) =>
        if w.adapter.trips == map[] {
          FirstTripSound(w, id, distance, tbf);
        } else {
          JoinSound(w, id, distance, tbf);
        }
      case StopTrip(id) =>
        if id in w.adapter.trips {
          StopSound(w, id);
        }
      case ReportTrips => ReportSound(w);
    }
  }

  // ---------- When the batch restarts ----------

  /** Where on the road the modem is going to report. */
  function ReportPoint(w: World): int {
    w.base + w.adapter.distance
  }

  /** Of two trips that are due at two points, the modem reports at the nearer one, with the shorter
      interval: the first trip brings its own options, and a join whose reading has not overrun the
      programmed distance moves the report to the nearer point to the metre. */
  lemma StartProgramsNearer(w: World, id: nat, distance: uint32, tbf: uint32)
    requires Fits(w) && Odometer(w) <= w.adapter.distance
    ensures var w' := StartIn(w, id, distance, tbf);
      if w.adapter.trips == map[] then ReportPoint(w') == w.total + distance && w'.adapter.tbf == tbf
      else
        && ReportPoint(w') == Min(ReportPoint(w), w.total + distance)
        && w'.adapter.tbf == Min(w.adapter.tbf, tbf)
  {
    LeftOfProgrammed(w.adapter.distance, Odometer(w));
    hide Sub32;
  }

  /** A join with no shorter interval, due no earlier than the programmed report, only adds its own
      trip, which begins at the reading.  Past that report, what is left of it has wrapped around. */
  lemma QuietJoin(w: World, id: nat, distance: uint32, tbf: uint32)
    requires Fits(w) && w.adapter.trips != map[] && w.adapter.tbf <= tbf
    requires w.adapter.distance + (if Odometer(w) <= w.adapter.distance then 0 else WORD) <= distance + Odometer(w)
    ensures StartIn(w, id, distance, tbf) ==
      w.(adapter := w.adapter.(trips := w.adapter.trips[id := Trip(Odometer(w), 0, 0, distance, tbf)]),
         joined := w.joined[id := w.total])
  {
    JoinRestartsIff(w, StartTrip(id, distance, tbf));
    hide JoinRestarts;
  }

  /** Any other join, and the first trip, begins a new batch here: each trip begins at reading zero,
      on top of what it had at its last report, and no drop is noticed or forgotten. */
  lemma RestartingStart(w: World, id: nat, distance: uint32, tbf: uint32)
    requires Fits(w) && (w.adapter.trips == map[] || ForcesRestart(w, StartTrip(id, distance, tbf)))
    ensures var a, w' := w.adapter, StartIn(w, id, distance, tbf);
      && w'.base == w'.total == w.total && w'.joined == w.joined[id := w.total]
      && w'.adapter.trips.Keys == a.trips.Keys + {id}
      && w'.adapter.trips[id] == Trip(0, 0, 0, distance, tbf)
      && (forall x :: x in a.trips && x != id ==>
            w'.adapter.trips[x] ==
              Trip(0, a.trips[x].thisTrip, a.trips[x].thisTrip, a.trips[x].distance, a.trips[x].tbf))
      && w'.adapter.tbfDropped == a.tbfDropped && w'.adapter.distanceDropped == a.distanceDropped
  {
    if w.adapter.trips != map[] {
      JoinRestartsIff(w, StartTrip(id, distance, tbf));
    }
    hide JoinRestarts, ForcesRestart;
  }

  /** Past the programmed distance a restarting join programs what has wrapped around, unless its
      own distance is less. */
  lemma OverrunJoinPrograms(w: World, id: nat, distance: uint32, tbf: uint32)
    requires Fits(w) && w.adapter.distance < Odometer(w) && w.adapter.trips != map[]
    requires tbf < w.adapter.tbf || distance + Odometer(w) < w.adapter.distance + WORD
    ensures var w' := StartIn(w, id, distance, tbf);
      && ReportPoint(w') == Min(ReportPoint(w) + WORD, w.total + distance)
      && w'.adapter.tbf == Min(w.adapter.tbf, tbf)
  {
    LeftOfProgrammed(w.adapter.distance, Odometer(w));
    hide Sub32;
  }

  // ---------- All runs ----------

  ghost predicate LegalRun(w: World, events: seq<Event>)
    requires Fits(w)
    decreases |events|
  {
    events != [] ==>
      && Legal(w, events[0]) && Fits(StepIn(w, events[0]))
      && LegalRun(StepIn(w, events[0]), events[1..])
  }

  ghost function RunIn(w: World, events: seq<Event>): World
    requires Fits(w) && LegalRun(w, events)
    decreases |events|
  {
    if events == [] then w else RunIn(StepIn(w, events[0]), events[1..])
  }

  const Idle := Adapter(map[], 0, 0, false, false)

  function NewWorld(total: nat): World {
    World(Idle, total, total, map[])
  }

  /** What is owed to a trip after a run, counted event by event: nothing when it starts, and then
      whatever each restart forced by a join takes away. */
  ghost function Debt(w: World, events: seq<Event>, id: nat, owed: int): int
    requires Fits(w) && LegalRun(w, events)
    decreases |events|
  {
    if events == [] then owed
    else
      Debt(StepIn(w, events[0]), events[1..], id, Owed(w, events[0], id, owed))
  }

  function Owed(w: World, e: Event, id: nat, owed: int): int
    requires Fits(w)
  {
    if id in w.adapter.trips && !Starts(e, id) then owed + Lost(w, e, id) else 0
  }

  lemma StepOwes(w: World, e: Event, id: nat, owed: int)
    requires Sound(w) && Legal(w, e) && (id in w.adapter.trips ==> owed == Deficit(w, id))
    ensures Sound(StepIn(w, e))
    ensures id in StepIn(w, e).adapter.trips ==> Deficit(StepIn(w, e), id) == Owed(w, e, id, owed)
  {
    StepAccounts(w, e);
    hide StepIn, Deficit, Lost, Legal;
  }

  /** Over every run no subtraction underflows, the record never exceeds the distance travelled,
      and it falls short of it by exactly what restarting joins took away. */
  lemma {:induction false} RunAccounts(w: World, events: seq<Event>, id: nat, owed: int)
    requires Sound(w) && LegalRun(w, events)
    requires id in w.adapter.trips ==> owed == Deficit(w, id)
    ensures Sound(RunIn(w, events))
    ensures id in RunIn(w, events).adapter.trips ==> Deficit(RunIn(w, events), id) == Debt(w, events, id, owed)
    decreases |events|
  {
    if events != [] {
      hide StepIn, Sound, Deficit, Owed, Legal, Fits;
      StepOwes(w, events[0], id, owed);
      RunAccounts(StepIn(w, events[0]), events[1..], id, Owed(w, events[0], id, owed));
    }
  }

  ghost predicate NoForcedRestart(w: World, events: seq<Event>)
    requires Fits(w) && LegalRun(w, events)
    decreases |events|
  {
    events != [] ==> !ForcesRestart(w, events[0]) && NoForcedRestart(StepIn(w, events[0]), events[1..])
  }

  lemma {:induction false} NothingOwed(w: World, events: seq<Event>, id: nat)
    requires Fits(w) && LegalRun(w, events) && NoForcedRestart(w, events)
    ensures Debt(w, events, id, 0) == 0
    decreases |events|
  {
    if events != [] {
      NothingOwed(StepIn(w, events[0]), events[1..], id);
    }
  }

  /** On a run in which no join restarts the batch, the record is the distance travelled. */
  lemma RunExact(total: nat, events: seq<Event>, id: nat)
    requires LegalRun(NewWorld(total), events) && NoForcedRestart(NewWorld(total), events)
    ensures var w := RunIn(NewWorld(total), events);
      id in w.adapter.trips ==>
        id in w.joined && Recorded(w.adapter.trips[id], Reading(w)) == w.total - w.joined[id]
  {
    RunAccounts(NewWorld(total), events, id, 0);
    NothingOwed(NewWorld(total), events, id);
  }

  /** The trip goes on through the whole run. */
  ghost predicate Lives(w: World, events: seq<Event>, id: nat)
    requires Fits(w) && LegalRun(w, events)
    decreases |events|
  {
    && id in w.adapter.trips
    && (events != [] ==> !Starts(events[0], id) && Lives(StepIn(w, events[0]), events[1..], id))
  }

  /** Whenever a join restarts the batch, nothing was travelled since the trip's last report. */
  ghost predicate CutsAreClean(w: World, events: seq<Event>, id: nat)
    requires Fits(w) && LegalRun(w, events) && Lives(w, events, id)
    decreases |events|
  {
    events != [] ==>
      && (ForcesRestart(w, events[0]) ==>
            w.adapter.trips[id].thisTrip == Recorded(w.adapter.trips[id], Reading(w)))
      && CutsAreClean(StepIn(w, events[0]), events[1..], id)
  }

  /** The exact condition: a record that was right stays right if and only if every restart forced
      by a join came when the trip had travelled nothing since its last report. */
  lemma {:induction false} ExactIffCutsAreClean(w: World, events: seq<Event>, id: nat)
    requires Sound(w) && LegalRun(w, events) && Lives(w, events, id)
    ensures var end := RunIn(w, events);
      && Sound(end) && id in end.adapter.trips
      && Deficit(end, id) >= Deficit(w, id)
      && (Deficit(end, id) == Deficit(w, id) <==> CutsAreClean(w, events, id))
    decreases |events|
  {
    if events != [] {
      StepAccounts(w, events[0]);
      ExactIffCutsAreClean(StepIn(w, events[0]), events[1..], id);
    }
  }

  /** A join that restarts the batch between two reports loses distance: one trip of 1000 metres,
      100 of them travelled and none reported, and then a second trip of 50 metres. */
  lemma JoinCanLoseDistance(w: World, id: nat, distance: uint32, tbf: uint32)
    requires w.total == 100 && w.base == 0 && w.joined == map[1 := 0]
    requires w.adapter.trips == map[1 := Trip(0, 0, 0, 1000, 10)]
    requires w.adapter.distance == 1000 && w.adapter.tbf == 10
    requires id == 2 && distance == 50 && tbf == 10
    ensures Sound(w) && Deficit(w, 1) == 0
    ensures 1 in StartIn(w, id, distance, tbf).adapter.trips && 1 in StartIn(w, id, distance, tbf).joined
    ensures Deficit(StartIn(w, id, distance, tbf), 1) == 100
  {
    hide Start, Restart, Ascending, Add32, Sub32, Fits, Sound, Lost, Deficit, JoinShortens, ForcesRestart;
    assert 1 in w.adapter.trips && w.adapter.trips != map[];
    OneTripSound(w);
    JoinSound(w, id, distance, tbf);
    LostHere(w, StartTrip(id, distance, tbf));
  }

  lemma OneTripSound(w: World)
    requires w.total == 100 && w.base == 0 && w.joined == map[1 := 0]
    requires w.adapter.trips == map[1 := Trip(0, 0, 0, 1000, 10)]
    ensures Sound(w) && Deficit(w, 1) == 0 && Odometer(w) == 100
  {
  }

  lemma LostHere(w: World, e: Event)
    requires Fits(w) && w.adapter.trips == map[1 := Trip(0, 0, 0, 1000, 10)] && Reading(w) == 100
    requires e.StartTrip? && w.adapter.distance == 1000 && e.distance == 50
    ensures 1 in w.adapter.trips && Lost(w, e, 1) == 100
  {
  }

  /** A report in any sound world: no trip is reported early, the reported and the remaining trips
      are exactly the old ones, and what remains has its record written down. */
  lemma ReportSplits(w: World)
    requires Sound(w)
    ensures var a, r := w.adapter, Odometer(w);
      && (forall id :: id in Completed(a, r) ==> a.trips[id].distance <= w.total - w.joined[id])
      && Completed(a, r) !! Reported(a, r).trips.Keys
      && Completed(a, r) + Reported(a, r).trips.Keys == a.trips.Keys
      && StepIn(w, ReportTrips).adapter.trips.Keys == Reported(a, r).trips.Keys
      && forall id :: id in Reported(a, r).trips ==>
           && Reported(a, r).trips[id].thisTrip == Recorded(a.trips[id], Reading(w)) < a.trips[id].distance
           && Deficit(StepIn(w, ReportTrips), id) == Deficit(w, id)
  {
    ReportSound(w);
    forall x | x in w.adapter.trips
      ensures Recorded32(w.adapter.trips[x], Odometer(w)) == Recorded(w.adapter.trips[x], Reading(w))
    {
      RecordedFits(w.adapter.trips[x], Odometer(w), w.total - w.joined[x]);
    }
  }

  // ---------- The interval ----------

  /** Without zeros the running minimum is the minimum, whatever the order. */
  lemma {:induction false} RunningMinIsMin(xs: seq<uint32>)
    requires forall x :: x in xs ==> x > 0
    ensures forall x :: x in xs ==> RunningMin(xs) <= x
    ensures xs != [] ==> RunningMin(xs) in xs
  {
    if xs != [] {
      var front, last := xs[..|xs| - 1], xs[|xs| - 1];
      assert xs == front + [last];
      assert forall x :: x in front ==> x in xs;
      RunningMinIsMin(front);
    }
  }

  /** With zeros it is still one of them, and zero only if the last one is. */
  lemma {:induction false} RunningMinIsThere(xs: seq<uint32>)
    requires xs != []
    ensures RunningMin(xs) in xs
    ensures RunningMin(xs) == 0 <==> xs[|xs| - 1] == 0
  {
    if |xs| > 1 {
      var front := xs[..|xs| - 1];
      RunningMinIsThere(front);
      assert forall x :: x in front ==> x in xs;
    }
  }

  lemma MinTbfIsThere(trips: map<nat, Trip>, ids: seq<nat>)
    requires ids != [] && forall id :: id in ids ==> id in trips
    ensures exists i :: 0 <= i < |ids| && trips[ids[i]].tbf == MinTbf(trips, ids)
    ensures MinTbf(trips, ids) == 0 <==> trips[ids[|ids| - 1]].tbf == 0
  {
    var xs := seq(|ids|, i requires 0 <= i < |ids| => trips[ids[i]].tbf);
    RunningMinIsThere(xs);
    var i :| 0 <= i < |xs| && xs[i] == RunningMin(xs);
    assert trips[ids[i]].tbf == MinTbf(trips, ids);
  }

  lemma LeastTbfIsThere(a: Adapter)
    requires a.trips != map[]
    ensures exists id :: id in a.trips && a.trips[id].tbf == LeastTbf(a)
    ensures LeastTbf(a) == 0 <==> !LastIsPositive(a)
  {
    AscendingIds(a.trips.Keys);
    var ids := Ascending(a.trips.Keys);
    var x :| x in a.trips;
    assert x in ids;
    LastIsGreatest(ids);
    MinTbfIsThere(a.trips, ids);
    hide Ascending, MinTbf, Ascends, LastIsPositive;
    var i :| 0 <= i < |ids| && a.trips[ids[i]].tbf == MinTbf(a.trips, ids);
    assert ids[i] in ids;
    assert ids[|ids| - 1] in ids;
    GreatestDecides(a, ids[|ids| - 1]);
  }

  lemma GreatestDecides(a: Adapter, g: nat)
    requires g in a.trips && forall x :: x in a.trips ==> x <= g
    ensures LastIsPositive(a) <==> a.trips[g].tbf > 0
  {
  }

  lemma {:induction false} LastIsGreatest(ids: seq<nat>)
    requires Ascends(ids) && ids != []
    ensures forall x :: x in ids ==> x <= ids[|ids| - 1]
  {
  }

  lemma LeastTbfIsMin(a: Adapter, id: nat)
    requires id in a.trips && forall x :: x in a.trips ==> a.trips[x].tbf > 0
    ensures LeastTbf(a) <= a.trips[id].tbf
  {
    AscendingIds(a.trips.Keys);
    var ids := Ascending(a.trips.Keys);
    var xs := seq(|ids|, i requires 0 <= i < |ids| => a.trips[ids[i]].tbf);
    forall x | x in xs ensures x > 0 {
      var i :| 0 <= i < |xs| && xs[i] == x;
      assert ids[i] in ids;
    }
    RunningMinIsMin(xs);
    assert id in ids;
    var i :| 0 <= i < |ids| && ids[i] == id;
    assert xs[i] in xs;
  }

  lemma MinRemainingIsThere(trips: map<nat, Trip>, ids: seq<nat>)
    requires ids != [] && forall id :: id in ids ==> id in trips
    ensures exists i :: 0 <= i < |ids| && Remaining32(trips[ids[i]]) == MinRemaining(trips, ids)
  {
    var xs := seq(|ids|, i requires 0 <= i < |ids| => Remaining32(trips[ids[i]]));
    RunningMinIsThere(xs);
    var i :| 0 <= i < |xs| && xs[i] == RunningMin(xs);
    assert Remaining32(trips[ids[i]]) == MinRemaining(trips, ids);
  }

  lemma MinRemainingIsMin(trips: map<nat, Trip>, ids: seq<nat>)
    requires ids != [] && forall id :: id in ids ==> id in trips && trips[id].thisTrip < trips[id].distance
    ensures MinRemaining(trips, ids) > 0
    ensures forall id :: id in ids ==> MinRemaining(trips, ids) <= trips[id].distance - trips[id].thisTrip
  {
    var xs := seq(|ids|, i requires 0 <= i < |ids| => Remaining32(trips[ids[i]]));
    forall x | x in xs ensures x > 0 {
      var i :| 0 <= i < |xs| && xs[i] == x;
      assert ids[i] in ids;
    }
    RunningMinIsMin(xs);
    forall id | id in ids ensures RunningMin(xs) <= trips[id].distance - trips[id].thisTrip {
      var i :| 0 <= i < |ids| && ids[i] == id;
      assert xs[i] in xs;
    }
  }

  /** The interval the modem is programmed with is the shortest interval of the live trips. */
  ghost predicate TbfRight(a: Adapter) {
    && (forall id :: id in a.trips ==> a.tbf <= a.trips[id].tbf)
    && (a.trips != map[] ==> exists id :: id in a.trips && a.trips[id].tbf == a.tbf)
  }

  /** A trip with the programmed interval may be missing only if a drop was noticed. */
  ghost predicate TbfNearlyRight(a: Adapter) {
    && (forall id :: id in a.trips ==> a.tbf <= a.trips[id].tbf)
    && (a.trips != map[] ==> a.tbfDropped || exists id :: id in a.trips && a.trips[id].tbf == a.tbf)
  }

  /** The trip with the greatest id has a positive interval. */
  predicate LastIsPositive(a: Adapter) {
    exists g :: g in a.trips && a.trips[g].tbf > 0 && forall x :: x in a.trips ==> x <= g
  }

  /** A drop was noticed at some time, and a trip with interval zero comes before one with a
      positive interval: the scan takes the zero for "no minimum yet". */
  predicate ZeroIsMissed(a: Adapter) {
    a.tbfDropped && LastIsPositive(a) && exists id :: id in a.trips && a.trips[id].tbf == 0
  }

  lemma RestartKeepsTrips(a: Adapter, reading: uint32)
    ensures var a' := Restart(a, reading).0;
      && a'.trips.Keys == a.trips.Keys
      && (forall id :: id in a.trips ==> a'.trips[id].tbf == a.trips[id].tbf)
      && (a.trips != map[] ==> a'.tbf == if Repaces(a) then LeastTbf(a) else a.tbf)
  {
    hide Redistances, Repaces, LeastRemaining, LeastTbf, Recorded32;
  }

  lemma ZeroTbf(a: Adapter, a': Adapter, zero: nat)
    requires zero in a.trips && a.trips[zero].tbf == 0 && a.tbf == 0
    requires a'.trips.Keys == a.trips.Keys && forall id :: id in a.trips ==> a'.trips[id].tbf == a.trips[id].tbf
    requires a'.tbf == if Repaces(a) then LeastTbf(a) else a.tbf
    ensures TbfRight(a') <==> !ZeroIsMissed(a)
  {
    LeastTbfIsThere(a);
    hide LeastTbf, LastIsPositive;
    assert zero in a'.trips && a'.trips[zero].tbf == 0;
  }

  lemma PositiveTbf(a: Adapter, a': Adapter)
    requires TbfNearlyRight(a) && a.trips != map[] && forall id :: id in a.trips ==> a.trips[id].tbf > 0
    requires a'.trips.Keys == a.trips.Keys && forall id :: id in a.trips ==> a'.trips[id].tbf == a.trips[id].tbf
    requires a'.tbf == if Repaces(a) then LeastTbf(a) else a.tbf
    ensures TbfRight(a')
  {
    LeastTbfIsThere(a);
    var least :| least in a.trips && a.trips[least].tbf == LeastTbf(a);
    assert least in a'.trips;
    forall id | id in a.trips
      ensures LeastTbf(a) <= a.trips[id].tbf
    {
      LeastTbfIsMin(a, id);
    }
    hide LeastTbf;
    assert a'.tbf == LeastTbf(a) == a'.trips[least].tbf || !Repaces(a);
  }

  /** A restart makes the interval right exactly unless it misses a zero. */
  lemma RestartTbfIff(a: Adapter, reading: uint32)
    requires TbfNearlyRight(a)
    ensures TbfRight(Restart(a, reading).0) <==> !ZeroIsMissed(a)
  {
    RestartKeepsTrips(a, reading);
    var a' := Restart(a, reading).0;
    hide Restart, LeastTbf, Repaces;
    if a.trips == map[] {
      assert a'.trips == map[];
    } else if id :| id in a.trips && a.trips[id].tbf == 0 {
      ZeroTbf(a, a', id);
    } else {
      PositiveTbf(a, a');
    }
  }

  lemma StartTbf(a: Adapter, id: nat, distance: uint32, tbf: uint32, reading: uint32)
    requires TbfRight(a) && id !in a.trips
    ensures TbfRight(Start(a, id, distance, tbf, reading).0)
  {
    var a' := Start(a, id, distance, tbf, reading).0;
    assert id in a'.trips && a'.trips[id].tbf == tbf;
    if a.trips != map[] && a.tbf <= tbf {
      var x :| x in a.trips && a.trips[x].tbf == a.tbf;
      assert x in a'.trips && a'.trips[x].tbf == a'.tbf;
    }
  }

  lemma StopTbfIff(a: Adapter, id: nat, reading: uint32)
    requires TbfRight(a) && id in a.trips
    ensures TbfRight(Stop(a, id, reading).0) <==> !ZeroIsMissed(Without(a, id))
  {
    var rest := Without(a, id);
    var x :| x in a.trips && a.trips[x].tbf == a.tbf;
    if x != id {
      assert x in rest.trips;
    }
    RestartTbfIff(rest, reading);
  }

  lemma ReportedTbf(a: Adapter, reading: uint32)
    requires TbfRight(a)
    ensures TbfNearlyRight(Reported(a, reading))
    ensures Completed(a, reading) == {} ==> TbfRight(Reported(a, reading))
  {
    var rest := Reported(a, reading);
    if a.trips != map[] {
      var x :| x in a.trips && a.trips[x].tbf == a.tbf;
      if Completes(a.trips[x], reading) {
        assert x in Completed(a, reading);
      } else {
        assert x in rest.trips && rest.trips[x].tbf == a.tbf;
      }
    }
  }

  predicate HasTbf(trips: map<nat, Trip>, tbf: uint32) {
    exists id :: id in trips && trips[id].tbf == tbf
  }

  /** A restart programs a new interval exactly when no trip has the programmed one any more, or the
      scan misses the zero that a trip still has. */
  lemma RepacesIff(a: Adapter)
    requires TbfNearlyRight(a) && a.trips != map[]
    ensures Repaces(a) <==> ZeroIsMissed(a) || !HasTbf(a.trips, a.tbf)
  {
    LeastTbfIsThere(a);
    var least :| least in a.trips && a.trips[least].tbf == LeastTbf(a);
    if zero :| zero in a.trips && a.trips[zero].tbf == 0 {
      assert HasTbf(a.trips, a.tbf) <==> a.tbf == 0;
      hide LeastTbf, LastIsPositive;
    } else {
      forall id | id in a.trips
        ensures LeastTbf(a) <= a.trips[id].tbf
      {
        LeastTbfIsMin(a, id);
      }
      hide LeastTbf;
    }
  }

  /** The stops and reports that make the interval wrong. */
  ghost predicate MissesZero(w: World, e: Event)
    requires Fits(w)
  {
    match e
    case StopTrip(id) => id in w.adapter.trips && ZeroIsMissed(Without(w.adapter, id))
    case ReportTrips => Completed(w.adapter, Odometer(w)) != {} && ZeroIsMissed(Reported(w.adapter, Odometer(w)))
    case _ => false
  }

  /** Every step keeps the programmed interval the shortest one, exactly unless it misses a zero. */
  lemma StepTbfIff(w: World, e: Event)
    requires Fits(w) && TbfRight(w.adapter) && (e.StartTrip? ==> e.id !in w.adapter.trips)
    ensures TbfRight(StepIn(w, e).adapter) <==> !MissesZero(w, e)
  {
    hide TbfRight, TbfNearlyRight, ZeroIsMissed, Restart, Reported, Completed;
    match e {
      case Travel(_) =>
      case StartTrip(id, distance, tbf) => StartTbf(w.adapter, id, distance, tbf, Odometer(w));
      case StopTrip(id) =>
        if id in w.adapter.trips {
          StopTbfIff(w.adapter, id, Odometer(w));
        }
      case ReportTrips =>
        ReportedTbf(w.adapter, Odometer(w));
        if Completed(w.adapter, Odometer(w)) != {} {
          RestartTbfIff(Reported(w.adapter, Odometer(w)), Odometer(w));
        }
    }
  }

  /** Trips start under ids that are not in use, and no step misses a zero. */
  ghost predicate NoZeroMissed(w: World, events: seq<Event>)
    requires Fits(w) && LegalRun(w, events)
    decreases |events|
  {
    events != [] ==>
      && (events[0].StartTrip? ==> events[0].id !in w.adapter.trips)
      && !MissesZero(w, events[0])
      && NoZeroMissed(StepIn(w, events[0]), events[1..])
  }

  /** Over every such run the programmed interval is the shortest one of the live trips. */
  lemma {:induction false} RunTbf(w: World, events: seq<Event>)
    requires Fits(w) && LegalRun(w, events) && NoZeroMissed(w, events)
    requires TbfRight(w.adapter)
    ensures TbfRight(RunIn(w, events).adapter)
    decreases |events|
  {
    if events != [] {
      StepTbfIff(w, events[0]);
      hide TbfRight, StepIn, MissesZero, Legal, Fits;
      RunTbf(StepIn(w, events[0]), events[1..]);
    }
  }

  /** In particular over every run whose trips have positive intervals. */
  ghost predicate PositiveStarts(w: World, events: seq<Event>)
    requires Fits(w) && LegalRun(w, events)
    decreases |events|
  {
    events != [] ==>
      && (events[0].StartTrip? ==> events[0].tbf > 0 && events[0].id !in w.adapter.trips)
      && PositiveStarts(StepIn(w, events[0]), events[1..])
  }

  predicate PositiveTbfs(a: Adapter) {
    forall id :: id in a.trips ==> a.trips[id].tbf > 0
  }

  lemma StepKeepsPositive(w: World, e: Event)
    requires Fits(w) && PositiveTbfs(w.adapter) && (e.StartTrip? ==> e.tbf > 0)
    ensures PositiveTbfs(StepIn(w, e).adapter) && !MissesZero(w, e)
  {
    match e {
      case StopTrip(id) =>
        if id in w.adapter.trips {
          RestartKeepsTrips(Without(w.adapter, id), Odometer(w));
        }
      case ReportTrips => RestartKeepsTrips(Reported(w.adapter, Odometer(w)), Odometer(w));
      case _ =>
    }
    hide Restart;
  }

  lemma {:induction false} PositiveMissesNone(w: World, events: seq<Event>)
    requires Fits(w) && LegalRun(w, events) && PositiveStarts(w, events) && PositiveTbfs(w.adapter)
    ensures NoZeroMissed(w, events)
    decreases |events|
  {
    if events != [] {
      StepKeepsPositive(w, events[0]);
      hide PositiveTbfs, StepIn, MissesZero, Legal, Fits;
      PositiveMissesNone(StepIn(w, events[0]), events[1..]);
    }
  }

  // ---------- The programmed distance ----------

  /** The odometer reading at which a trip is complete. */
  function Due(t: Trip): int {
    t.distance - t.onRestart + t.ongoing
  }

  /** The modem is programmed to report no later than the first trip is complete. */
  ghost predicate Timely(a: Adapter) {
    forall id :: id in a.trips ==> a.distance <= Due(a.trips[id])
  }

  /** What a trip had to go at its last report, and what it has travelled since. */
  function Left(t: Trip): int {
    t.distance - t.thisTrip
  }

  function Unreported(t: Trip, reading: int): int {
    Recorded(t, reading) - t.thisTrip
  }

  /** The modem has not overrun the programmed distance, or the join does not restart the batch, or
      no other trip had less to go at its last report than the distance now programmed. */
  predicate StartIsSafe(w: World, distance: uint32, tbf: uint32)
    requires Fits(w)
  {
    var a, r := w.adapter, Odometer(w);
    || a.trips == map[]
    || r <= a.distance
    || (a.tbf <= tbf && a.distance + WORD <= distance + r)
    || (forall x :: x in a.trips ==> Min(distance, a.distance + WORD - r) <= Left(a.trips[x]))
  }

  lemma NewTripIsDueLater(a: Adapter, distance: uint32, reading: uint32)
    requires !JoinShortens(a, distance, reading)
    ensures a.distance <= distance + reading
  {
  }

  lemma TimelyAfterStart(w: World, id: nat, distance: uint32, tbf: uint32)
    requires Sound(w) && Timely(w.adapter) && id !in w.adapter.trips && w.adapter.trips != map[]
    ensures var a, r := w.adapter, Odometer(w);
      Timely(StartIn(w, id, distance, tbf).adapter) <==>
        (JoinRestarts(a, distance, tbf, r) ==>
           var programmed := if JoinShortens(a, distance, r) then distance else Sub32(a.distance, r);
           forall x :: x in a.trips ==> programmed <= Left(a.trips[x]))
  {
    var a, r, after := w.adapter, Odometer(w), StartIn(w, id, distance, tbf).adapter;
    if JoinRestarts(a, distance, tbf, r) {
      assert !JoinShortens(a, distance, r) ==> Sub32(a.distance, r) <= distance;
      hide Sub32, JoinShortens;
      assert after.trips[id] == Trip(0, 0, 0, distance, after.trips[id].tbf);
      assert forall x :: x in a.trips ==> x in after.trips && after.trips[x] == CutTrip(a.trips[x]);
      assert forall x :: x in after.trips ==> x == id || x in a.trips;
    } else {
      NewTripIsDueLater(a, distance, r);
    }
  }

  /** A start keeps the modem timely exactly when it is safe. */
  lemma StartTimelyIff(w: World, id: nat, distance: uint32, tbf: uint32)
    requires Sound(w) && Timely(w.adapter) && id !in w.adapter.trips
    ensures Timely(StartIn(w, id, distance, tbf).adapter) <==> StartIsSafe(w, distance, tbf)
  {
    var a, r := w.adapter, Odometer(w);
    if a.trips != map[] {
      TimelyAfterStart(w, id, distance, tbf);
      LeftOfProgrammed(a.distance, r);
      hide StartIn, Timely, Sub32;
      if r <= a.distance {
        forall x | x in a.trips
          ensures a.distance - r <= Left(a.trips[x])
        {
          CutDropsUnreported(a.trips[x], r, w.total - w.joined[x]);
        }
      }
    }
  }

  lemma TimelyFromLeast(a: Adapter, r: uint32)
    requires Timely(a) && a.trips != map[] && a.distance <= r && LeastRemaining(a) > 0
    requires forall id :: id in a.trips ==> LeastRemaining(a) <= Due(FoldTrip(a.trips[id], r))
    ensures Timely(Restart(a, r).0)
  {
    assert Sub32(a.distance, r) == 0 || Sub32(a.distance, r) == a.distance - r + WORD;
    hide Sub32, LeastRemaining, LeastTbf, FoldTrip, Due;
  }

  /** The scan finds what is left to some trip. */
  lemma ShortestLeft(a: Adapter)
    requires a.trips != map[] && forall x :: x in a.trips ==> a.trips[x].thisTrip < a.trips[x].distance
    ensures exists x :: x in a.trips && Left(a.trips[x]) == LeastRemaining(a)
    ensures LeastRemaining(a) > 0 && forall x :: x in a.trips ==> LeastRemaining(a) <= Left(a.trips[x])
  {
    AscendingIds(a.trips.Keys);
    var ids := Ascending(a.trips.Keys);
    var x :| x in a.trips;
    assert x in ids;
    MinRemainingIsThere(a.trips, ids);
    MinRemainingIsMin(a.trips, ids);
    hide Ascending, MinRemaining, Ascends;
    var i :| 0 <= i < |ids| && Remaining32(a.trips[ids[i]]) == MinRemaining(a.trips, ids);
    assert ids[i] in ids;
    assert Left(a.trips[ids[i]]) == LeastRemaining(a);
  }

  /** With every record just written down and the programmed distance used up, a restart programs
      the exact distance to the next completion, or keeps a distance that is still short enough
      because the overrun made the subtraction wrap around. */
  lemma RestartTimely(w: World, a: Adapter)
    requires Sound(w.(adapter := a)) && Timely(a)
    requires a.trips != map[] && a.distance <= Reading(w)
    requires forall id :: id in a.trips ==>
      a.trips[id].thisTrip == Recorded(a.trips[id], Reading(w)) < a.trips[id].distance
    ensures Timely(Restart(a, Reading(w)).0)
  {
    hide Timely, LeastRemaining, Restart;
    ShortestLeft(a);
    forall id | id in a.trips
      ensures 0 < LeastRemaining(a) <= Due(FoldTrip(a.trips[id], Reading(w)))
    {
      
      RecordedFits(a.trips[id], Reading(w), w.total - w.joined[id]);
    }
    var x :| x in a.trips;
    hide Due, FoldTrip, Recorded;
    TimelyFromLeast(a, Reading(w));
  }

  /** A report keeps it too. */
  lemma ReportTimely(w: World)
    requires Sound(w) && Timely(w.adapter)
    ensures Timely(StepIn(w, ReportTrips).adapter)
  {
    var a, r := w.adapter, Odometer(w);
    var rest := Reported(a, r);
    ReportSplits(w);
    ReportedSound(w);
    assert Timely(rest);
    if Completed(a, r) != {} && rest.trips != map[] {
      var done :| done in Completed(a, r);
      RecordedFits(a.trips[done], r, w.total - w.joined[done]);
      assert a.distance <= Due(a.trips[done]) <= r;
      RestartTimely(w, rest);
    }
  }

  /** Does a report that completes a trip program a new distance: the drop of the programmed one was
      noticed, or the modem reported just there, or less is left to a trip than what has wrapped
      around. */
  predicate ReportRenews(w: World)
    requires Fits(w)
  {
    var a, r := w.adapter, Odometer(w);
    || a.distanceDropped
    || (exists id :: id in Completed(a, r) && a.trips[id].distance == a.distance)
    || r == a.distance
    || (exists id :: id in a.trips - Completed(a, r) && Due(a.trips[id]) < a.distance + WORD)
  }

  /** What is left to the shortest trip after a report, and that the programmed distance is used up. */
  lemma ShortestAfterReport(w: World)
    requires Sound(w) && Timely(w.adapter)
    requires Completed(w.adapter, Odometer(w)) != {}
    requires Reported(w.adapter, Odometer(w)).trips != map[]
    ensures var a, r := w.adapter, Odometer(w); var rest := Reported(a, r);
      && a.distance <= r && 0 < LeastRemaining(rest)
      && (exists x :: x in rest.trips && LeastRemaining(rest) == Due(a.trips[x]) - r)
      && (forall x :: x in rest.trips ==> LeastRemaining(rest) <= Due(a.trips[x]) - r)
  {
    var a, r := w.adapter, Odometer(w);
    var rest := Reported(a, r);
    ReportSplits(w);
    var done :| done in Completed(a, r);
    RecordedFits(a.trips[done], r, w.total - w.joined[done]);
    assert a.distance <= Due(a.trips[done]) <= r;
    assert forall x :: x in rest.trips ==> Left(rest.trips[x]) == Due(a.trips[x]) - r;
    hide Sub32, LeastRemaining, Due, Recorded32, Sound, Timely, Recorded;
    ShortestLeft(rest);
    var x :| x in rest.trips && Left(rest.trips[x]) == LeastRemaining(rest);
    assert LeastRemaining(rest) == Due(a.trips[x]) - r;
  }

  lemma RedistancesIff(w: World)
    requires Sound(w) && Timely(w.adapter)
    requires Completed(w.adapter, Odometer(w)) != {}
    requires Reported(w.adapter, Odometer(w)).trips != map[]
    ensures Redistances(Reported(w.adapter, Odometer(w)), Odometer(w)) <==> ReportRenews(w)
  {
    var a, r := w.adapter, Odometer(w);
    ShortestAfterReport(w);
    LeftOfProgrammed(a.distance, r);
    hide Sub32, LeastRemaining, Due, Completes, Sound, Timely;
    assert forall x :: x in a.trips - Completed(a, r) <==> x in Reported(a, r).trips;
  }

  lemma SomeRemain(a: Adapter, reading: uint32)
    requires Completed(a, reading) != a.trips.Keys
    ensures Reported(a, reading).trips != map[]
  {
    var left := a.trips.Keys - Completed(a, reading);
    assert a.trips.Keys == Completed(a, reading) + left;
    var x :| x in left;
    assert x in Reported(a, reading).trips;
  }

  /** What a report leaves programmed, on the road.  Where it completes no trip the batch goes on;
      where it completes some and renews the distance, the modem reports next exactly where the
      next trip is complete; otherwise the old distance stays. */
  lemma ReportPrograms(w: World)
    requires Sound(w) && Timely(w.adapter)
    ensures var a, r, w' := w.adapter, Odometer(w), StepIn(w, ReportTrips);
      && (Completed(a, r) == {} ==> ReportPoint(w') == ReportPoint(w) && w'.base == w.base && w'.adapter.tbf == a.tbf)
      && (Completed(a, r) == a.trips.Keys && a.trips != map[] ==> w'.adapter.distance == 0 && w'.adapter.tbf == 0)
      && (Completed(a, r) != {} && Completed(a, r) != a.trips.Keys ==>
            if ReportRenews(w) then
              && w'.base == w'.total
              && (exists x :: x in a.trips - Completed(a, r) && ReportPoint(w') == w.base + Due(a.trips[x]))
              && (forall x :: x in a.trips - Completed(a, r) ==> ReportPoint(w') <= w.base + Due(a.trips[x]))
            else w'.adapter.distance == a.distance)
  {
    var a, r := w.adapter, Odometer(w);
    var rest := Reported(a, r);
    assert forall x :: x in a.trips - Completed(a, r) <==> x in rest.trips;
    if Completed(a, r) != {} && Completed(a, r) != a.trips.Keys {
      SomeRemain(a, r);
      ShortestAfterReport(w);
      RedistancesIff(w);
    }
    hide Redistances, Repaces, LeastRemaining, LeastTbf, Due, Sound, Timely, Completes, ReportRenews;
  }

  /** After a report that completes some trips and leaves others, the next report lies ahead, exactly
      if the distance is renewed, or a positive one is programmed again with a new interval. */
  lemma NextReportIsAheadIff(w: World)
    requires Sound(w) && Timely(w.adapter) && TbfRight(w.adapter)
    requires Completed(w.adapter, Odometer(w)) != {}
    requires Completed(w.adapter, Odometer(w)) != w.adapter.trips.Keys
    ensures var a, r, w' := w.adapter, Odometer(w), StepIn(w, ReportTrips);
      var rest := Reported(a, r);
      w'.total < ReportPoint(w') <==>
        ReportRenews(w) || (a.distance > 0 && (ZeroIsMissed(rest) || !HasTbf(rest.trips, a.tbf)))
  {
    var a, r := w.adapter, Odometer(w);
    var rest := Reported(a, r);
    SomeRemain(a, r);
    ShortestAfterReport(w);
    RedistancesIff(w);
    ReportedTbf(a, r);
    RepacesIff(rest);
    hide Redistances, Repaces, LeastRemaining, LeastTbf, Due, Sound, Timely, Completes, ReportRenews;
    hide TbfRight, TbfNearlyRight, ZeroIsMissed, HasTbf;
  }

  /** Does a stop program a new distance.  Not while the modem is on its way to the programmed point
      and the trip that set it stays; where it has gone past that point unnoticed, only if less is
      left to a trip than what has wrapped around; otherwise if the scan finds anything left. */
  ghost predicate StopRenews(w: World, id: nat)
    requires Fits(w) && id in w.adapter.trips
  {
    var a, r := w.adapter, Odometer(w);
    var least := LeastRemaining(Without(a, id));
    if a.distanceDropped || a.trips[id].distance == a.distance || r == a.distance then least != 0
    else a.distance < r && least < a.distance + WORD - r
  }

  /** Does a stop program a new interval: one is found that is shorter, or the one programmed has no
      trip any more as far as drops are noticed. */
  ghost predicate StopRepaces(w: World, id: nat)
    requires Fits(w) && id in w.adapter.trips
  {
    var a, least := w.adapter, LeastTbf(Without(w.adapter, id));
    least < a.tbf || (a.tbf < least && (a.tbfDropped || a.trips[id].tbf == a.tbf))
  }

  /** Where the distance is renewed, no trip that stays has travelled further since its last report
      than it exceeds the shortest one left; where only the interval is, none is complete before
      the whole programmed distance is travelled again. */
  ghost predicate StopIsSafe(w: World, id: nat)
    requires Fits(w) && id in w.adapter.trips
  {
    var a, rest, r := w.adapter, Without(w.adapter, id), Odometer(w);
    if StopRenews(w, id) then
      forall x :: x in rest.trips ==> Unreported(rest.trips[x], r) <= Left(rest.trips[x]) - LeastRemaining(rest)
    else if StopRepaces(w, id) then
      forall x :: x in rest.trips ==> a.distance + r <= Due(rest.trips[x])
    else true
  }

  lemma LeftToGo(w: World, x: nat)
    requires Sound(w) && x in w.adapter.trips
    ensures Left(w.adapter.trips[x]) >= Due(w.adapter.trips[x]) - Odometer(w)
  {
  }

  /** What is left to each trip of a timely modem that is on its way. */
  lemma LeastOnTheWay(w: World, id: nat)
    requires Sound(w) && Timely(w.adapter) && id in w.adapter.trips && Odometer(w) < w.adapter.distance
    requires Without(w.adapter, id).trips != map[]
    ensures w.adapter.distance - Odometer(w) <= LeastRemaining(Without(w.adapter, id))
  {
    var rest := Without(w.adapter, id);
    forall x | x in rest.trips
      ensures Left(rest.trips[x]) >= w.adapter.distance - Odometer(w)
    {
      LeftToGo(w, x);
    }
    hide Sound, Odometer, Timely, Without, LeastRemaining;
    ShortestLeft(rest);
  }

  /** The cases of a restart, put in the terms of the state before the stop. */
  lemma StopCases(w: World, id: nat)
    requires Sound(w) && Timely(w.adapter) && id in w.adapter.trips && Without(w.adapter, id).trips != map[]
    ensures StopRenews(w, id) <==> Redistances(Without(w.adapter, id), Odometer(w))
    ensures StopRepaces(w, id) <==> Repaces(Without(w.adapter, id))
  {
    LeftOfProgrammed(w.adapter.distance, Odometer(w));
    if Odometer(w) < w.adapter.distance {
      LeastOnTheWay(w, id);
    }
    hide Sub32, LeastRemaining, LeastTbf, Sound, Timely;
  }

  /** A stop keeps the modem timely exactly when it is safe. */
  lemma StopTimelyIff(w: World, id: nat)
    requires Sound(w) && Timely(w.adapter) && id in w.adapter.trips
    ensures Timely(StopIn(w, id).adapter) <==> StopIsSafe(w, id)
  {
    var rest, r := Without(w.adapter, id), Odometer(w);
    if rest.trips != map[] {
      StopCases(w, id);
    }
    hide Redistances, Repaces, StopRenews, StopRepaces, LeastRemaining, LeastTbf;
    forall x | x in rest.trips
      ensures Due(FoldTrip(rest.trips[x], r)) == Due(rest.trips[x]) - r
      ensures Due(rest.trips[x]) - r == Left(rest.trips[x]) - Unreported(rest.trips[x], r)
    {
      RecordedFits(rest.trips[x], r, w.total - w.joined[x]);
    }
    hide FoldTrip, Due, Left, Unreported;
    var after := StopIn(w, id).adapter;
    if rest.trips != map[] && (Redistances(rest, r) || Repaces(rest)) {
      assert forall x :: x in after.trips <==> x in rest.trips;
      assert forall x :: x in after.trips ==> after.trips[x] == FoldTrip(rest.trips[x], r);
    }
  }

  lemma StopNearlyRight(a: Adapter, id: nat)
    requires TbfRight(a) && id in a.trips
    ensures TbfNearlyRight(Without(a, id))
  {
    var rest := Without(a, id);
    var x :| x in a.trips && a.trips[x].tbf == a.tbf;
    assert x == id || (x in rest.trips && rest.trips[x].tbf == a.tbf);
  }

  /** On the way to the programmed point, a stop of a trip with another distance, no drop of the
      distance being noticed so far, keeps that distance; if a trip stays that has the programmed
      interval, it takes the stopped trip away and changes nothing else. */
  lemma QuietStop(w: World, id: nat)
    requires Sound(w) && Timely(w.adapter) && TbfRight(w.adapter)
    requires id in w.adapter.trips && w.adapter.trips.Keys != {id} && Odometer(w) < w.adapter.distance
    requires !w.adapter.distanceDropped && w.adapter.trips[id].distance != w.adapter.distance
    requires !ZeroIsMissed(Without(w.adapter, id))
    ensures var a, w' := w.adapter, StopIn(w, id);
      && w'.adapter.distance == a.distance
      && (HasTbf(a.trips - {id}, a.tbf) ==>
            w' == w.(adapter := a.(trips := a.trips - {id},
                                   tbfDropped := a.tbfDropped || a.trips[id].tbf == a.tbf)))
  {
    var a := w.adapter;
    SomeStay(a.trips, id);
    StopCases(w, id);
    StopNearlyRight(a, id);
    RepacesIff(Without(a, id));
    hide Redistances, Repaces, Sound, Timely, TbfRight, TbfNearlyRight, ZeroIsMissed, HasTbf;
  }

  lemma SomeStay(trips: map<nat, Trip>, id: nat)
    requires id in trips && trips.Keys != {id}
    ensures trips - {id} != map[]
  {
    var x :| x in trips && x != id;
    assert x in trips - {id};
  }

  /** When the trip that set the distance has been stopped, now or before, the next stop on the way
      begins a new batch, for exactly the shortest distance left to a trip at its last report. */
  lemma RenewingStop(w: World, id: nat)
    requires Sound(w) && Timely(w.adapter)
    requires id in w.adapter.trips && w.adapter.trips.Keys != {id} && Odometer(w) < w.adapter.distance
    requires w.adapter.distanceDropped || w.adapter.trips[id].distance == w.adapter.distance
    ensures var rest, w' := w.adapter.trips - {id}, StopIn(w, id);
      && w'.base == w'.total == w.total
      && (exists x :: x in rest && w'.adapter.distance == Left(rest[x]))
      && (forall x :: x in rest ==> w'.adapter.distance <= Left(rest[x]))
  {
    var a := w.adapter;
    var rest := Without(a, id);
    SomeStay(a.trips, id);
    forall x | x in rest.trips
      ensures Left(rest.trips[x]) > 0
    {
      LeftToGo(w, x);
    }
    ShortestLeft(rest);
    StopCases(w, id);
    hide Repaces, Redistances, Sound, Timely, LeastRemaining, Left;
  }

  /** A stop after which no trip has the programmed interval begins a new batch with the shortest
      interval that is left. */
  lemma RepacingStop(w: World, id: nat)
    requires Fits(w) && TbfRight(w.adapter) && id in w.adapter.trips && w.adapter.trips.Keys != {id}
    requires !HasTbf(w.adapter.trips - {id}, w.adapter.tbf) && !ZeroIsMissed(Without(w.adapter, id))
    ensures StopIn(w, id).base == w.total && TbfRight(StopIn(w, id).adapter)
  {
    SomeStay(w.adapter.trips, id);
    StopNearlyRight(w.adapter, id);
    RepacesIff(Without(w.adapter, id));
    StopTbfIff(w.adapter, id, Odometer(w));
    hide Repaces, Redistances, TbfRight, TbfNearlyRight, ZeroIsMissed, HasTbf;
  }

  /** The last trip to stop leaves nothing programmed, and begins no new batch. */
  lemma LastStop(w: World, id: nat)
    requires Fits(w) && w.adapter.trips.Keys == {id}
    ensures var a, w' := w.adapter, StopIn(w, id);
      && w'.adapter.trips == map[] && w'.adapter.distance == 0 && w'.adapter.tbf == 0
      && w'.total == w.total && w'.base == w.base && w'.joined == w.joined
  {
    assert w.adapter.trips - {id} == map[];
    hide Redistances, Repaces;
  }

  /** The trips that an event takes away. */
  function Gone(w: World, e: Event): set<nat>
    requires Fits(w)
  {
    match e
    case StopTrip(id) => {id} * w.adapter.trips.Keys
    case ReportTrips => Completed(w.adapter, Odometer(w))
    case _ => {}
  }

  /** A drop is noticed exactly when a trip goes that has the programmed distance or interval, and is
      never forgotten. */
  lemma DropsAreNoticed(w: World, e: Event)
    requires Fits(w)
    ensures var a, after := w.adapter, StepIn(w, e).adapter;
      && (after.distanceDropped <==>
            a.distanceDropped || exists x :: x in Gone(w, e) && x in a.trips && a.trips[x].distance == a.distance)
      && (after.tbfDropped <==>
            a.tbfDropped || exists x :: x in Gone(w, e) && x in a.trips && a.trips[x].tbf == a.tbf)
  {
    hide Redistances, Repaces, LeastRemaining, LeastTbf, Completes, JoinRestarts, Folded, Cut;
    if e.StopTrip? && e.id in w.adapter.trips {
      assert e.id in Gone(w, e);
    }
  }

  /** What a stop leaves of the trips that stay: their record, on top of which they begin again if
      the batch does. */
  lemma StopKeepsTrips(w: World, id: nat, x: nat)
    requires Sound(w) && id in w.adapter.trips && x in w.adapter.trips && x != id
    ensures var t, w' := w.adapter.trips[x], StopIn(w, id);
      && x in w'.adapter.trips
      && (w'.adapter.trips[x] == t ||
           (w'.base == w.total && Recorded(t, Reading(w)) < WORD &&
            w'.adapter.trips[x] ==
              Trip(0, Recorded(t, Reading(w)), Recorded(t, Reading(w)), t.distance, t.tbf)))
  {
    RecordedFits(w.adapter.trips[x], Odometer(w), w.total - w.joined[x]);
    hide Redistances, Repaces, Recorded32, Recorded, Sound;
  }

  /** So it fails as soon as the distance is renewed and the trip with the least left has travelled
      anything since its last report. */
  lemma StopIsLate(w: World, id: nat, x: nat)
    requires Sound(w) && Timely(w.adapter) && id in w.adapter.trips
    requires var rest := Without(w.adapter, id);
      && x in rest.trips && StopRenews(w, id)
      && Left(rest.trips[x]) == LeastRemaining(rest) && Unreported(rest.trips[x], Odometer(w)) > 0
    ensures !Timely(StopIn(w, id).adapter)
  {
    StopTimelyIff(w, id);
    hide StopIn, StopRenews, LeastRemaining;
  }

  /** The starts and stops that keep the modem timely, in the state they come in. */
  ghost predicate SafeEvent(w: World, e: Event)
    requires Fits(w)
  {
    match e
    case StartTrip(_, distance, tbf) => StartIsSafe(w, distance, tbf)
    case StopTrip(id) => id in w.adapter.trips ==> StopIsSafe(w, id)
    case _ => true
  }

  /** Every event keeps the modem timely exactly when it is safe. */
  lemma StepTimelyIff(w: World, e: Event)
    requires Sound(w) && Timely(w.adapter) && (e.StartTrip? ==> e.id !in w.adapter.trips)
    ensures Timely(StepIn(w, e).adapter) <==> SafeEvent(w, e)
  {
    hide Timely, Sound, StartIsSafe, StopIsSafe;
    match e {
      case StartTrip(id, distance, tbf) => StartTimelyIff(w, id, distance, tbf);
      case StopTrip(id) =>
        if id in w.adapter.trips {
          StopTimelyIff(w, id);
        }
      case ReportTrips => ReportTimely(w);
      case Travel(_) =>
    }
  }

  /** Fresh ids, and only safe starts and stops. */
  ghost predicate SafeRun(w: World, events: seq<Event>)
    requires Fits(w) && LegalRun(w, events)
    decreases |events|
  {
    events != [] ==>
      && (events[0].StartTrip? ==> events[0].id !in w.adapter.trips)
      && SafeEvent(w, events[0])
      && SafeRun(StepIn(w, events[0]), events[1..])
  }

  /** Over every such run the modem reports no later than the first trip is complete. */
  lemma {:induction false} RunTimely(w: World, events: seq<Event>)
    requires Sound(w) && LegalRun(w, events) && SafeRun(w, events) && Timely(w.adapter)
    ensures Timely(RunIn(w, events).adapter)
    decreases |events|
  {
    if events != [] {
      StepTimelyIff(w, events[0]);
      StepAccounts(w, events[0]);
      hide Timely, Sound, StepIn, SafeEvent, Legal;
      RunTimely(StepIn(w, events[0]), events[1..]);
    }
  }

  /** A stop can break it: the remaining distances it goes by are those of the last report.  Here
      a trip of 2000 metres that has gone 400 of them gets a batch of 2000 more. */
  lemma StopCanDelayReports(w: World, id: nat)
    requires id == 1
    requires w.total == 500 && w.base == 0 && w.joined == map[1 := 0, 2 := 100]
    requires w.adapter.trips == map[1 := Trip(0, 0, 0, 1000, 5), 2 := Trip(100, 0, 0, 2000, 10)]
    requires w.adapter.distance == 1000 && w.adapter.tbf == 5
    ensures Sound(w) && Timely(w.adapter) && !Timely(StopIn(w, id).adapter)
  {
    var a := Without(w.adapter, id);
    assert a.trips == map[2 := Trip(100, 0, 0, 2000, 10)] && a.trips.Keys == {2};
    assert 2 in a.trips;
    assert Ascending({2}) == [Least({2})] + Ascending({2} - {Least({2})});
    assert Least({2}) == 2 && {2} - {2} == {};
    RestartAlone(a, 2, Odometer(w));
    assert 2 in Restart(a, Odometer(w)).0.trips;
  }

  lemma RestartAlone(a: Adapter, id: nat, reading: uint32)
    requires a.trips.Keys == {id} && Ascending({id}) == [id] && a.distanceDropped && Remaining32(a.trips[id]) != 0
    ensures Restart(a, reading).0.distance == Remaining32(a.trips[id])
    ensures Restart(a, reading).0.trips == map[id := FoldTrip(a.trips[id], reading)]
  {
    var xs := seq(1, i requires 0 <= i < 1 => Remaining32(a.trips[[id][i]]));
    assert xs[..0] == [] && MinRemaining(a.trips, [id]) == RunningMin(xs);
    assert RunningMin(xs) == MinStep(RunningMin([]), xs[0]);
  }

  // ---------- The adapter object ----------

  method LeastKey(ids: set<nat>) returns (x: nat)
    requires ids != {}
    ensures x == Least(ids)
  {
    x :| x in ids;
    var todo := ids - {x};
    while todo != {}
      invariant todo <= ids && x in ids
      invariant forall y :: y in ids && y !in todo ==> x <= y
    {
      var y :| y in todo;
      if y < x {
        x := y;
      }
      todo := todo - {y};
    }
  }

  /** One more id of a map that is walked in ascending order. */
  lemma Advance(done: seq<nat>, todo: set<nat>, all: seq<nat>)
    requires todo != {} && all == done + Ascending(todo)
    ensures all == (done + [Least(todo)]) + Ascending(todo - {Least(todo)})
  {
  }

  lemma MinSnoc(trips: map<nat, Trip>, ids: seq<nat>, id: nat)
    requires id in trips && forall x :: x in ids ==> x in trips
    ensures MinRemaining(trips, ids + [id]) == MinStep(MinRemaining(trips, ids), Remaining32(trips[id]))
    ensures MinTbf(trips, ids + [id]) == MinStep(MinTbf(trips, ids), trips[id].tbf)
  {
    var more := ids + [id];
    var rs := seq(|more|, i requires 0 <= i < |more| => Remaining32(trips[more[i]]));
    assert rs[..|ids|] == seq(|ids|, i requires 0 <= i < |ids| => Remaining32(trips[ids[i]]));
    var ts := seq(|more|, i requires 0 <= i < |more| => trips[more[i]].tbf);
    assert ts[..|ids|] == seq(|ids|, i requires 0 <= i < |ids| => trips[ids[i]].tbf);
  }

  class BatchingAdapter {
    var tripSessions: map<nat, Trip>
    var ongoingTripDistance: uint32
    var ongoingTripTBFInterval: uint32
    var tripWithOngoingTBFDropped: bool
    var tripWithOngoingTripDistanceDropped: bool

    constructor ()
      ensures Model() == Idle
    {
      tripSessions := map[];
      ongoingTripDistance, ongoingTripTBFInterval := 0, 0;
      tripWithOngoingTBFDropped, tripWithOngoingTripDistanceDropped := false, false;
    }

    ghost function Model(): Adapter
      reads this
    {
      Adapter(tripSessions, ongoingTripDistance, ongoingTripTBFInterval,
              tripWithOngoingTBFDropped, tripWithOngoingTripDistanceDropped)
    }

    /** The scan of restartTripBatching for the shortest remaining distance and interval. */
    method ShortestOfAll() returns (minRemainingDistance: uint32, minTBFInterval: uint32)
      ensures forall id :: id in Ascending(tripSessions.Keys) ==> id in tripSessions
      ensures minRemainingDistance == MinRemaining(tripSessions, Ascending(tripSessions.Keys))
      ensures minTBFInterval == MinTbf(tripSessions, Ascending(tripSessions.Keys))
    {
      minRemainingDistance, minTBFInterval := 0, 0;
      var todo := tripSessions.Keys;
      ghost var all, done: seq<nat> := Ascending(tripSessions.Keys), [];
      AscendingIds(tripSessions.Keys);
      assert all == done + Ascending(todo);
      while todo != {}
        invariant todo <= tripSessions.Keys && all == done + Ascending(todo)
        invariant forall id :: id in done ==> id in tripSessions
        invariant minRemainingDistance == MinRemaining(tripSessions, done)
        invariant minTBFInterval == MinTbf(tripSessions, done)
      {
        var id := LeastKey(todo);
        var trip := tripSessions[id];
        MinSnoc(tripSessions, done, id);
        Advance(done, todo, all);
        if minRemainingDistance == 0 || minRemainingDistance > Sub32(trip.distance, trip.thisTrip) {
          minRemainingDistance := Sub32(trip.distance, trip.thisTrip);
        }
        if minTBFInterval == 0 || minTBFInterval > trip.tbf {
          minTBFInterval := trip.tbf;
        }
        done := done + [id];
        todo := todo - {id};
      }
      assert Ascending({}) == [] && all == done;
    }

    method FoldSessions(accumulatedDistance: uint32)
      modifies this`tripSessions
      ensures tripSessions == Folded(old(tripSessions), accumulatedDistance)
    {
      var todo := tripSessions.Keys;
      while todo != {}
        invariant todo <= tripSessions.Keys == old(tripSessions).Keys
        invariant forall id :: id in tripSessions ==>
          tripSessions[id] == if id in todo then old(tripSessions)[id]
            else FoldTrip(old(tripSessions)[id], accumulatedDistance)
      {
        var id := LeastKey(todo);
        var trip := tripSessions[id];
        var sofar := Add32(trip.onRestart, Sub32(accumulatedDistance, trip.ongoing));
        tripSessions := tripSessions[id := trip.(thisTrip := sofar, ongoing := 0, onRestart := sofar)];
        todo := todo - {id};
      }
    }

    /** restartTripBatching, with the query and the restart answered successfully at once. */
    method RestartTripBatching(accumulatedDistance: uint32) returns (restarted: bool)
      modifies this
      ensures (Model(), restarted) == Restart(old(Model()), accumulatedDistance)
    {
      restarted := false;
      if |tripSessions| == 0 {
        ongoingTripDistance, ongoingTripTBFInterval := 0, 0;
        return;
      }
      var minRemainingDistance, minTBFInterval := ShortestOfAll();
      hide MinRemaining, MinTbf, Ascending, Sub32, Add32, FoldTrip;
      var newDistance, newInterval := ongoingTripDistance, ongoingTripTBFInterval;
      if !tripWithOngoingTripDistanceDropped && Sub32(newDistance, accumulatedDistance) != 0 {
        if minRemainingDistance < Sub32(newDistance, accumulatedDistance) {
          newDistance := minRemainingDistance;
          restarted := true;
        }
      } else if minRemainingDistance != 0 {
        newDistance := minRemainingDistance;
        restarted := true;
      }
      if minTBFInterval < newInterval || (minTBFInterval != newInterval && tripWithOngoingTBFDropped) {
        newInterval := minTBFInterval;
        restarted := true;
      }
      if restarted {
        FoldSessions(accumulatedDistance);
        ongoingTripDistance, ongoingTripTBFInterval := newDistance, newInterval;
      }
    }

    method CutSessions()
      modifies this`tripSessions
      ensures tripSessions == Cut(old(tripSessions))
    {
      var todo := tripSessions.Keys;
      while todo != {}
        invariant todo <= tripSessions.Keys == old(tripSessions).Keys
        invariant forall id :: id in tripSessions ==>
          tripSessions[id] == if id in todo then old(tripSessions)[id] else CutTrip(old(tripSessions)[id])
      {
        var id := LeastKey(todo);
        var trip := tripSessions[id];
        tripSessions := tripSessions[id := trip.(ongoing := 0, onRestart := trip.thisTrip)];
        todo := todo - {id};
      }
    }

    method StartTripBatchingMultiplex(sessionId: nat, minDistance: uint32, minInterval: uint32, reading: uint32)
      returns (restarted: bool)
      modifies this
      ensures (Model(), restarted) == Start(old(Model()), sessionId, minDistance, minInterval, reading)
    {
      if |tripSessions| == 0 {
        tripSessions := map[sessionId := Trip(0, 0, 0, minDistance, minInterval)];
        ongoingTripDistance, ongoingTripTBFInterval := minDistance, minInterval;
        return true;
      }
      hide Sub32, CutTrip;
      var newDistance, newInterval := ongoingTripDistance, ongoingTripTBFInterval;
      restarted := false;
      if newInterval > minInterval {
        newInterval := minInterval;
        restarted := true;
      }
      var remaining := Sub32(newDistance, reading);
      if minDistance < remaining {
        newDistance := minDistance;
        restarted := true;
      } else if restarted {
        newDistance := remaining;
      }
      tripSessions := tripSessions[sessionId := Trip(reading, 0, 0, minDistance, minInterval)];
      if restarted {
        ongoingTripDistance, ongoingTripTBFInterval := newDistance, newInterval;
        CutSessions();
      }
    }

    method StopTripBatchingMultiplexCommon(sessionId: nat, reading: uint32) returns (restarted: bool)
      requires sessionId in tripSessions
      modifies this
      ensures (Model(), restarted) == Stop(old(Model()), sessionId, reading)
    {
      hide Restart;
      var trip := tripSessions[sessionId];
      if trip.tbf == ongoingTripTBFInterval {
        tripWithOngoingTBFDropped := true;
      }
      if trip.distance == ongoingTripDistance {
        tripWithOngoingTripDistanceDropped := true;
      }
      tripSessions := tripSessions - {sessionId};
      restarted := RestartTripBatching(reading);
    }

    /** One trip of a report: its distance is written down, or it is erased as completed. */
    method ReportTrip(id: nat, accumulatedDistance: uint32) returns (completed: bool)
      requires id in tripSessions
      modifies this
      ensures Model() == ReportOne(old(Model()), id, accumulatedDistance)
      ensures completed <==> Completes(old(tripSessions)[id], accumulatedDistance)
    {
      hide Recorded32;
      var trip := tripSessions[id];
      var sofar := Recorded32(trip, accumulatedDistance);
      completed := trip.distance <= sofar;
      if completed {
        tripSessions := tripSessions - {id};
        if trip.tbf == ongoingTripTBFInterval {
          tripWithOngoingTBFDropped := true;
        }
        if trip.distance == ongoingTripDistance {
          tripWithOngoingTripDistanceDropped := true;
        }
      } else {
        tripSessions := tripSessions[id := trip.(thisTrip := sofar)];
      }
    }

    /** The loop of a report: the completed trips are erased and listed in ascending order. */
    method TakeCompleted(accumulatedDistance: uint32) returns (completedTrips: seq<nat>)
      modifies this
      ensures Model() == Reported(old(Model()), accumulatedDistance)
      ensures completedTrips == CompletedOf(old(Model()).trips, Ascending(old(Model()).trips.Keys), accumulatedDistance)
    {
      completedTrips := [];
      ghost var a := Model();
      var todo := tripSessions.Keys;
      ghost var all, done: seq<nat> := Ascending(todo), [];
      ReportsAll(a, accumulatedDistance);
      assert all == done + Ascending(todo) && Model() == ReportMany(a, done, accumulatedDistance);
      assert completedTrips == CompletedOf(a.trips, done, accumulatedDistance);
      hide Recorded32, Ascending, Least, Reported, ReportMany, CompletedOf, Completes;
      while todo != {}
        invariant todo <= a.trips.Keys && all == done + Ascending(todo)
        invariant forall id :: id in todo ==> id in tripSessions && tripSessions[id] == a.trips[id]
        invariant Model() == ReportMany(a, done, accumulatedDistance)
        invariant completedTrips == CompletedOf(a.trips, done, accumulatedDistance)
      {
        var id := LeastKey(todo);
        ManySnoc(a, done, id, accumulatedDistance);
        Advance(done, todo, all);
        var completed := ReportTrip(id, accumulatedDistance);
        if completed {
          completedTrips := completedTrips + [id];
        }
        done := done + [id];
        todo := todo - {id};
      }
      NoneLeft();
      assert all == done;
    }

    /** reportCompletedTripsEvent. */
    method ReportCompletedTrips(accumulatedDistance: uint32) returns (completedTrips: seq<nat>, restarted: bool)
      modifies this
      ensures (Model(), restarted) == Report(old(Model()), accumulatedDistance)
      ensures completedTrips == CompletedOf(old(Model()).trips, Ascending(old(Model()).trips.Keys), accumulatedDistance)
    {
      AboutCompleted(Model(), accumulatedDistance);
      hide Restart, Reported, Completed, CompletedOf;
      completedTrips := TakeCompleted(accumulatedDistance);
      restarted := false;
      if |completedTrips| > 0 {
        restarted := RestartTripBatching(accumulatedDistance);
      }
    }
  }

  lemma NoneLeft()
    ensures Ascending({}) == []
  {
  }

  // ---------- The loop of a report, trip by trip ----------

  function ReportOne(a: Adapter, id: nat, reading: uint32): Adapter {
    if id !in a.trips then a
    else if Completes(a.trips[id], reading) then Without(a, id)
    else a.(trips := a.trips[id := Updated(a.trips[id], reading)])
  }

  function ReportMany(a: Adapter, ids: seq<nat>, reading: uint32): Adapter {
    if ids == [] then a else ReportOne(ReportMany(a, ids[..|ids| - 1], reading), ids[|ids| - 1], reading)
  }

  function CompletedOf(trips: map<nat, Trip>, ids: seq<nat>, reading: uint32): seq<nat> {
    if ids == [] then []
    else
      var id := ids[|ids| - 1];
      CompletedOf(trips, ids[..|ids| - 1], reading) +
        if id in trips && Completes(trips[id], reading) then [id] else []
  }

  lemma ManySnoc(a: Adapter, ids: seq<nat>, id: nat, reading: uint32)
    ensures ReportMany(a, ids + [id], reading) == ReportOne(ReportMany(a, ids, reading), id, reading)
    ensures CompletedOf(a.trips, ids + [id], reading) ==
      CompletedOf(a.trips, ids, reading) + if id in a.trips && Completes(a.trips[id], reading) then [id] else []
  {
  }

  ghost predicate DropsTbf(a: Adapter, ids: seq<nat>, reading: uint32) {
    exists id :: id in ids && id in a.trips && Completes(a.trips[id], reading) && a.trips[id].tbf == a.tbf
  }

  ghost predicate DropsDistance(a: Adapter, ids: seq<nat>, reading: uint32) {
    exists id :: id in ids && id in a.trips && Completes(a.trips[id], reading) && a.trips[id].distance == a.distance
  }

  lemma DropsSnoc(a: Adapter, ids: seq<nat>, id: nat, reading: uint32)
    requires id in a.trips
    ensures var done := Completes(a.trips[id], reading);
      && (DropsTbf(a, ids + [id], reading) <==> DropsTbf(a, ids, reading) || (done && a.trips[id].tbf == a.tbf))
      && (DropsDistance(a, ids + [id], reading) <==>
            DropsDistance(a, ids, reading) || (done && a.trips[id].distance == a.distance))
  {
  }

  lemma {:induction false} ReportsManyFlags(a: Adapter, ids: seq<nat>, reading: uint32)
    requires forall id :: id in ids ==> id in a.trips
    ensures var m := ReportMany(a, ids, reading);
      && m.trips.Keys <= a.trips.Keys && m.distance == a.distance && m.tbf == a.tbf
  {
    hide Completes, Updated;
    if ids != [] {
      ReportsManyFlags(a, ids[..|ids| - 1], reading);
    }
  }

  lemma {:induction false} ReportsMany(a: Adapter, ids: seq<nat>, reading: uint32)
    requires forall i, j :: 0 <= i < j < |ids| ==> ids[i] != ids[j]
    requires forall id :: id in ids ==> id in a.trips
    ensures var m := ReportMany(a, ids, reading);
      && (forall id :: id in m.trips <==> id in a.trips && !(id in ids && Completes(a.trips[id], reading)))
      && (forall id :: id in m.trips ==>
            m.trips[id] == if id in ids then Updated(a.trips[id], reading) else a.trips[id])
  {
    hide Completes, Updated;
    if ids != [] {
      var front, last := ids[..|ids| - 1], ids[|ids| - 1];
      assert ids == front + [last] && last !in front;
      ReportsMany(a, front, reading);
      hide Dropping;
    }
  }

  lemma {:induction false} ReportsManyDrops(a: Adapter, ids: seq<nat>, reading: uint32)
    requires forall i, j :: 0 <= i < j < |ids| ==> ids[i] != ids[j]
    requires forall id :: id in ids ==> id in a.trips
    ensures var m := ReportMany(a, ids, reading);
      && m.tbfDropped == (a.tbfDropped || DropsTbf(a, ids, reading))
      && m.distanceDropped == (a.distanceDropped || DropsDistance(a, ids, reading))
  {
    hide Completes, Updated;
    if ids != [] {
      var front, last := ids[..|ids| - 1], ids[|ids| - 1];
      assert ids == front + [last] && last !in front;
      ReportsMany(a, front, reading);
      ReportsManyFlags(a, front, reading);
      ReportsManyDrops(a, front, reading);
      DropsSnoc(a, front, last, reading);
      hide DropsTbf, DropsDistance;
    }
  }

  lemma ReportsAll(a: Adapter, reading: uint32)
    ensures ReportMany(a, Ascending(a.trips.Keys), reading) == Reported(a, reading)
  {
    var ids := Ascending(a.trips.Keys);
    hide ReportMany, Ascending, Updated, Completes;
    AscendingIds(a.trips.Keys);
    ReportsMany(a, ids, reading);
    ReportsManyFlags(a, ids, reading);
    ReportsManyDrops(a, ids, reading);
    var m := ReportMany(a, ids, reading);
    assert m.trips == Reported(a, reading).trips;
    assert DropsTbf(a, ids, reading) <==> exists id :: id in Completed(a, reading) && a.trips[id].tbf == a.tbf;
    assert DropsDistance(a, ids, reading) <==>
      exists id :: id in Completed(a, reading) && a.trips[id].distance == a.distance;
  }

  lemma {:induction false} CompletedOfMembers(trips: map<nat, Trip>, ids: seq<nat>, reading: uint32)
    ensures forall id :: id in CompletedOf(trips, ids, reading) <==>
      id in ids && id in trips && Completes(trips[id], reading)
  {
    hide Completes;
    if ids != [] {
      assert ids == ids[..|ids| - 1] + [ids[|ids| - 1]];
      CompletedOfMembers(trips, ids[..|ids| - 1], reading);
    }
  }

  predicate Ascends(s: seq<nat>) {
    forall i, j :: 0 <= i < j < |s| ==> s[i] < s[j]
  }

  lemma AscendsSnoc(s: seq<nat>, x: nat)
    requires Ascends(s) && forall y :: y in s ==> y < x
    ensures Ascends(s + [x])
  {
    assert forall i :: 0 <= i < |s| ==> s[i] in s;
  }

  lemma {:induction false} CompletedOfAscends(trips: map<nat, Trip>, ids: seq<nat>, reading: uint32)
    requires Ascends(ids)
    ensures Ascends(CompletedOf(trips, ids, reading))
  {
    hide Completes;
    if ids != [] {
      var front, last := ids[..|ids| - 1], ids[|ids| - 1];
      CompletedOfAscends(trips, front, reading);
      CompletedOfMembers(trips, front, reading);
      forall y | y in CompletedOf(trips, front, reading) ensures y < last {
        assert y in front;
        var k :| 0 <= k < |front| && front[k] == y;
        assert ids[k] < ids[|ids| - 1];
      }
      AscendsSnoc(CompletedOf(trips, front, reading), last);
    }
  }

  /** The list of completed trips has exactly the completed trips, each once, in ascending order. */
  lemma AboutCompleted(a: Adapter, reading: uint32)
    ensures var c := CompletedOf(a.trips, Ascending(a.trips.Keys), reading);
      && (forall id :: id in c <==> id in Completed(a, reading))
      && Ascends(c)
      && (c == [] <==> Completed(a, reading) == {})
  {
    AscendingIds(a.trips.Keys);
    CompletedOfMembers(a.trips, Ascending(a.trips.Keys), reading);
    CompletedOfAscends(a.trips, Ascending(a.trips.Keys), reading);
    var c := CompletedOf(a.trips, Ascending(a.trips.Keys), reading);
    if c != [] {
      assert c[0] in c;
    }
  }
}
