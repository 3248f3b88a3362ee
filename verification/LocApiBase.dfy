/** Two parts of LocApiBase.cpp: the estimator that maps GNSS fix times to the boot clock, and the
    table of adapters. */
module ElapsedRealtime {

  const STABILIZATION := 5

  /** One call: the fix time, whether it can be trusted, the interval between fixes (0 if not
      known), and the two clocks read during the call, if they could be read. */
  datatype Fix = Fix(data: int, trusted: bool, tbf: int, utc: int, boot: int, clocksRead: bool)

  datatype Event = Estimate(fix: Fix) | Reset

  datatype State = State(clockDiff: int, prevUtc: int, prevBoot: int, prevData: int, threshold: int)

  const Cleared := State(0, 0, 0, 0, STABILIZATION)

  predicate Jumps(f: Fix, prevData: int) {
    f.tbf > 0 && f.tbf != f.data - prevData
  }

  /** getElapsedRealtimeEstimateNanos */
  function Step(s: State, initialTravel: int, f: Fix): (State, int) {
    if !f.clocksRead then (s, -1)
    else if !f.trusted then (s, f.boot - initialTravel)
    else
      var threshold := if Jumps(f, s.prevData) then STABILIZATION else s.threshold;
      var diff :=
        if threshold == 0 then f.utc - f.data - initialTravel
        else if threshold < 0 then s.clockDiff + (f.utc - f.boot) - (s.prevUtc - s.prevBoot)
        else s.clockDiff;
      var travel := if threshold < 0 then f.utc - f.data - diff else initialTravel;
      (State(diff, f.utc, f.boot, f.data, threshold - 1), f.boot - travel)
  }

  /** What the estimator is for, without any wall clock: count trusted fixes, then tie the fix
      clock to the boot clock at one of them and go by the fix clock alone. */
  datatype Reference = Warming(left: nat, prevData: int) | Tied(boot0: int, data0: int, prevData: int)

  const Untied := Warming(STABILIZATION, 0)

  function ReferenceStep(r: Reference, initialTravel: int, f: Fix): (Reference, int) {
    if !f.clocksRead then (r, -1)
    else if !f.trusted then (r, f.boot - initialTravel)
    else
      match if Jumps(f, r.prevData) then Warming(STABILIZATION, r.prevData) else r
      case Warming(left, _) =>
        (if left == 0 then Tied(f.boot, f.data, f.data) else Warming(left - 1, f.data), f.boot - initialTravel)
      case Tied(boot0, data0, _) =>
        (Tied(boot0, data0, f.data), boot0 - initialTravel + (f.data - data0))
  }

  predicate Matches(s: State, initialTravel: int, r: Reference) {
    && s.prevData == r.prevData
    && match r
       case Warming(left, _) => s.threshold == left
       case Tied(boot0, data0, _) =>
         s.threshold < 0 && s.clockDiff == s.prevUtc - s.prevBoot + boot0 - data0 - initialTravel
  }

  lemma StepMatches(s: State, initialTravel: int, r: Reference, f: Fix)
    requires Matches(s, initialTravel, r)
    ensures Matches(Step(s, initialTravel, f).0, initialTravel, ReferenceStep(r, initialTravel, f).0)
    ensures Step(s, initialTravel, f).1 == ReferenceStep(r, initialTravel, f).1
  {
  }

  function Outputs(s: State, initialTravel: int, events: seq<Event>): seq<int>
    decreases |events|
  {
    if events == [] then []
    else
      match events[0]
      case Reset => Outputs(Cleared, initialTravel, events[1..])
      case Estimate(f) =>
        var (s', out) := Step(s, initialTravel, f);
        [out] + Outputs(s', initialTravel, events[1..])
  }

  function ReferenceOutputs(r: Reference, initialTravel: int, events: seq<Event>): seq<int>
    decreases |events|
  {
    if events == [] then []
    else
      match events[0]
      case Reset => ReferenceOutputs(Untied, initialTravel, events[1..])
      case Estimate(f) =>
        var (r', out) := ReferenceStep(r, initialTravel, f);
        [out] + ReferenceOutputs(r', initialTravel, events[1..])
  }

  /** Over every sequence of calls and resets the estimator gives the answers of the reference. */
  lemma {:induction false} EstimatorRefinesReference(s: State, initialTravel: int, r: Reference, events: seq<Event>)
    requires Matches(s, initialTravel, r)
    ensures Outputs(s, initialTravel, events) == ReferenceOutputs(r, initialTravel, events)
    decreases |events|
  {
    if events != [] {
      match events[0] {
        case Reset =>
          EstimatorRefinesReference(Cleared, initialTravel, Untied, events[1..]);
        case Estimate(f) =>
          StepMatches(s, initialTravel, r, f);
          EstimatorRefinesReference(
            Step(s, initialTravel, f).0, initialTravel, ReferenceStep(r, initialTravel, f).0, events[1..]);
      }
    }
  }

  function AtWallTime(e: Event, utc: int): Event {
    if e.Estimate? then Estimate(e.fix.(utc := utc)) else e
  }

  lemma {:induction false} ReferenceIgnoresWallClock(
    r: Reference, initialTravel: int, events: seq<Event>, others: seq<Event>)
    requires |events| == |others|
    requires forall i :: 0 <= i < |events| ==> AtWallTime(events[i], 0) == AtWallTime(others[i], 0)
    ensures ReferenceOutputs(r, initialTravel, events) == ReferenceOutputs(r, initialTravel, others)
    decreases |events|
  {
    if events != [] {
      assert AtWallTime(events[0], 0) == AtWallTime(others[0], 0);
      match events[0] {
        case Reset =>
          ReferenceIgnoresWallClock(Untied, initialTravel, events[1..], others[1..]);
        case Estimate(f) =>
          ReferenceIgnoresWallClock(ReferenceStep(r, initialTravel, f).0, initialTravel, events[1..], others[1..]);
      }
    }
  }

  /** Whatever the wall clock does, at any time, the estimates are the same. */
  lemma WallClockDoesNotMatter(initialTravel: int, events: seq<Event>, others: seq<Event>)
    requires |events| == |others|
    requires forall i :: 0 <= i < |events| ==> AtWallTime(events[i], 0) == AtWallTime(others[i], 0)
    ensures Outputs(Cleared, initialTravel, events) == Outputs(Cleared, initialTravel, others)
  {
    EstimatorRefinesReference(Cleared, initialTravel, Untied, events);
    EstimatorRefinesReference(Cleared, initialTravel, Untied, others);
    ReferenceIgnoresWallClock(Untied, initialTravel, events, others);
  }

  function After(s: State, initialTravel: int, fixes: seq<Fix>): State {
    if fixes == [] then s
    else Step(After(s, initialTravel, fixes[..|fixes| - 1]), initialTravel, fixes[|fixes| - 1]).0
  }

  /** The fix comes exactly its interval after that time, or its interval is not known. */
  predicate InTime(f: Fix, prevData: int) {
    f.tbf <= 0 || f.data == prevData + f.tbf
  }

  /** A trusted fix that does not come in time begins the calibration anew, whatever there was
      before: the answer goes by the initial travel time, and four more fixes are waited for before it can be done. */
  lemma JumpRecalibrates(s: State, initialTravel: int, f: Fix)
    requires f.clocksRead && f.trusted && !InTime(f, s.prevData)
    ensures Matches(Step(s, initialTravel, f).0, initialTravel, Warming(4, f.data))
    ensures Step(s, initialTravel, f).1 == f.boot - initialTravel
  {
  }

  /** Every trusted fix of the list comes in time, each measured from the trusted fix before it. */
  predicate Steady(fixes: seq<Fix>, prevData: int) {
    fixes != [] ==>
      if fixes[0].clocksRead && fixes[0].trusted
      then InTime(fixes[0], prevData) && Steady(fixes[1..], fixes[0].data)
      else Steady(fixes[1..], prevData)
  }

  /** Telescoping: after the calibrating fix, and until the next jump or reset, every trusted fix
      is mapped to the boot time of the calibration plus the fix time gone by since then. */
  lemma {:induction false} Telescopes(s: State, initialTravel: int, boot0: int, data0: int, fixes: seq<Fix>, i: nat)
    requires Matches(s, initialTravel, Tied(boot0, data0, s.prevData))
    requires Steady(fixes, s.prevData) && i < |fixes| && fixes[i].clocksRead && fixes[i].trusted
    ensures Step(After(s, initialTravel, fixes[..i]), initialTravel, fixes[i]).1
      == boot0 - initialTravel + (fixes[i].data - data0)
    decreases i
  {
    if i == 0 {
      assert fixes[..0] == [];
      StepMatches(s, initialTravel, Tied(boot0, data0, s.prevData), fixes[0]);
    } else {
      var next := Step(s, initialTravel, fixes[0]).0;
      StepMatches(s, initialTravel, Tied(boot0, data0, s.prevData), fixes[0]);
      AfterFirst(s, initialTravel, fixes[..i]);
      assert fixes[..i][1..] == fixes[1..][..i - 1];
      Telescopes(next, initialTravel, boot0, data0, fixes[1..], i - 1);
    }
  }

  lemma {:induction false} AfterFirst(s: State, initialTravel: int, fixes: seq<Fix>)
    requires fixes != []
    ensures After(s, initialTravel, fixes) == After(Step(s, initialTravel, fixes[0]).0, initialTravel, fixes[1..])
  {
    if |fixes| == 1 {
      assert fixes[..0] == [] && fixes[1..] == [];
    } else {
      var front := fixes[..|fixes| - 1];
      AfterFirst(s, initialTravel, front);
      assert front[1..] == fixes[1..][..|fixes| - 2];
    }
  }

  lemma {:induction false} CountdownTies(s: State, initialTravel: int, fixes: seq<Fix>)
    requires s.threshold >= 0 && |fixes| == s.threshold + 1
    requires forall f :: f in fixes ==> Counts(f)
    requires s.threshold == STABILIZATION || InTime(fixes[0], s.prevData)
    requires Steady(fixes[1..], fixes[0].data)
    ensures var last := fixes[|fixes| - 1];
      Matches(After(s, initialTravel, fixes), initialTravel, Tied(last.boot, last.data, last.data))
    decreases |fixes|
  {
    assert fixes[0] in fixes;
    AfterFirst(s, initialTravel, fixes);
    if |fixes| > 1 {
      assert fixes[1] in fixes;
      CountdownTies(Step(s, initialTravel, fixes[0]).0, initialTravel, fixes[1..]);
    } else {
      assert fixes[1..] == [];
    }
  }

  /** A fix that is trusted and comes with both clocks. */
  predicate Counts(f: Fix) {
    f.clocksRead && f.trusted
  }

  function Counted(fixes: seq<Fix>): (counted: seq<Fix>)
    ensures forall f :: f in counted ==> Counts(f)
  {
    if fixes == [] then []
    else Counted(fixes[..|fixes| - 1]) + if Counts(fixes[|fixes| - 1]) then [fixes[|fixes| - 1]] else []
  }

  lemma {:induction false} OthersChangeNothing(s: State, initialTravel: int, fixes: seq<Fix>)
    ensures After(s, initialTravel, fixes) == After(s, initialTravel, Counted(fixes))
  {
    if fixes != [] {
      var front, last := fixes[..|fixes| - 1], fixes[|fixes| - 1];
      OthersChangeNothing(s, initialTravel, front);
      if Counts(last) {
        assert Counted(fixes)[..|Counted(fixes)| - 1] == Counted(front);
      } else {
        assert Counted(fixes) == Counted(front);
      }
    }
  }

  /** Calibration: with the counter at k, of the fixes that count, among any others, the one after k
      more ties the clocks together, if all of them come in time.  After a reset or a jump that is the
      sixth, and the first is free: it is measured from nothing. */
  lemma CalibratesAfterCountdown(s: State, initialTravel: int, fixes: seq<Fix>)
    requires s.threshold >= 0 && |Counted(fixes)| == s.threshold + 1
    requires s.threshold == STABILIZATION || InTime(Counted(fixes)[0], s.prevData)
    requires Steady(Counted(fixes)[1..], Counted(fixes)[0].data)
    ensures var last := Counted(fixes)[s.threshold];
      Matches(After(s, initialTravel, fixes), initialTravel, Tied(last.boot, last.data, last.data))
  {
    OthersChangeNothing(s, initialTravel, fixes);
    CountdownTies(s, initialTravel, Counted(fixes));
  }

  /** And none before it does. */
  lemma {:induction false} CalibratesNoSooner(s: State, initialTravel: int, fixes: seq<Fix>)
    requires s.threshold <= STABILIZATION
    ensures s.threshold - |Counted(fixes)| <= After(s, initialTravel, fixes).threshold <= STABILIZATION
  {
    if fixes != [] {
      CalibratesNoSooner(s, initialTravel, fixes[..|fixes| - 1]);
    }
  }

  class ElapsedRealtimeEstimator {
    var currentClockDiff: int
    var prevUtcTimeNanos: int
    var prevBootTimeNanos: int
    var prevDataTimeNanos: int
    var fixTimeStablizationThreshold: int
    const initialTravelTime: int

    constructor (travelTimeNanosEstimate: int)
      ensures Model() == Cleared && initialTravelTime == travelTimeNanosEstimate
    {
      initialTravelTime := travelTimeNanosEstimate;
      currentClockDiff, prevUtcTimeNanos, prevBootTimeNanos, prevDataTimeNanos := 0, 0, 0, 0;
      fixTimeStablizationThreshold := STABILIZATION;
    }

    ghost function Model(): State
      reads this
    {
      State(currentClockDiff, prevUtcTimeNanos, prevBootTimeNanos, prevDataTimeNanos, fixTimeStablizationThreshold)
    }

    method Reset()
      modifies this
      ensures Model() == Cleared
    {
      currentClockDiff, prevDataTimeNanos, prevUtcTimeNanos, prevBootTimeNanos := 0, 0, 0, 0;
      fixTimeStablizationThreshold := STABILIZATION;
    }

    /** The clocks are read by the caller. */
    method GetElapsedRealtimeEstimateNanos(fix: Fix) returns (estimate: int)
      modifies this
      ensures (Model(), estimate) == Step(old(Model()), initialTravelTime, fix)
    {
      var currentTravelTimeNanos := initialTravelTime;
      if !fix.clocksRead {
        return -1;
      }
      if fix.trusted {
        if fix.tbf > 0 && fix.tbf != fix.data - prevDataTimeNanos {
          fixTimeStablizationThreshold := STABILIZATION;
        }
        if fixTimeStablizationThreshold == 0 {
          currentClockDiff := fix.utc - fix.data - currentTravelTimeNanos;
        } else if fixTimeStablizationThreshold < 0 {
          currentClockDiff := currentClockDiff + (fix.utc - fix.boot) - (prevUtcTimeNanos - prevBootTimeNanos);
          currentTravelTimeNanos := fix.utc - fix.data - currentClockDiff;
        }
        prevUtcTimeNanos, prevBootTimeNanos, prevDataTimeNanos := fix.utc, fix.boot, fix.data;
        fixTimeStablizationThreshold := fixTimeStablizationThreshold - 1;
      }
      estimate := fix.boot - currentTravelTimeNanos;
    }
  }
}

/** The table of adapters: an array without holes. */
module AdapterTable {

  const MAX_ADAPTERS := 10

  class LocAdapterBase {
    constructor () {
    }
  }

  datatype Message = OpenFor(adapter: LocAdapterBase) | OpenAll | CloseAll

  predicate NoDuplicates(s: seq<LocAdapterBase>) {
    forall i, j :: 0 <= i < j < |s| ==> s[i] != s[j]
  }

  // ---------- What the two operations do to the list of adapters ----------

  function Added(s: seq<LocAdapterBase>, a: LocAdapterBase): seq<LocAdapterBase> {
    if a in s || |s| == MAX_ADAPTERS then s else s + [a]
  }

  function IndexOf(s: seq<LocAdapterBase>, a: LocAdapterBase): (i: nat)
    requires a in s
    ensures i < |s| && s[i] == a
  {
    if s[0] == a then 0 else 1 + IndexOf(s[1..], a)
  }

  /** The last adapter takes the place of the one that goes. */
  function Removed(s: seq<LocAdapterBase>, a: LocAdapterBase): seq<LocAdapterBase> {
    if a in s then s[IndexOf(s, a) := s[|s| - 1]][..|s| - 1] else s
  }

  lemma AddKeeps(s: seq<LocAdapterBase>, a: LocAdapterBase)
    requires NoDuplicates(s) && |s| <= MAX_ADAPTERS
    ensures NoDuplicates(Added(s, a)) && |Added(s, a)| <= MAX_ADAPTERS
    ensures forall x :: x in Added(s, a) <==> x in s || (x == a && |s| < MAX_ADAPTERS)
  {
  }

  lemma RemoveKeeps(s: seq<LocAdapterBase>, a: LocAdapterBase)
    requires NoDuplicates(s)
    ensures NoDuplicates(Removed(s, a))
    ensures forall x :: x in Removed(s, a) <==> x in s && x != a
    ensures Removed(s, a) == [] <==> forall x :: x in s ==> x == a
  {
    if a in s {
      var i, r := IndexOf(s, a), Removed(s, a);
      forall x | x in s && x != a ensures x in r {
        var k :| 0 <= k < |s| && s[k] == x;
        assert r[if k == |s| - 1 then i else k] == x;
      }
      if r != [] {
        assert r[0] in r;
      }
    } else if s != [] {
      assert s[0] in s;
    }
  }

  // ---------- The array ----------

  class LocApi {
    var locAdapters: array<LocAdapterBase?>
    var messages: seq<Message>
    /** The adapters at the front of the array. */
    ghost var adapters: seq<LocAdapterBase>

    ghost predicate Valid()
      reads this, locAdapters
    {
      && locAdapters.Length == MAX_ADAPTERS
      && |adapters| <= MAX_ADAPTERS && NoDuplicates(adapters)
      && (forall i :: 0 <= i < |adapters| ==> locAdapters[i] == adapters[i])
      && (forall i :: |adapters| <= i < MAX_ADAPTERS ==> locAdapters[i] == null)
    }

    constructor ()
      ensures Valid() && fresh(locAdapters) && adapters == [] && messages == []
    {
      locAdapters := new LocAdapterBase?[MAX_ADAPTERS](_ => null);
      messages, adapters := [], [];
    }

    method AddAdapter(adapter: LocAdapterBase)
      requires Valid()
      modifies this`messages, this`adapters, locAdapters
      ensures Valid() && adapters == Added(old(adapters), adapter)
      ensures messages == old(messages) + if adapters == old(adapters) then [] else [OpenFor(adapter)]
    {
      var i := 0;
      while i < MAX_ADAPTERS && locAdapters[i] != adapter
        invariant i <= |adapters|
        invariant adapter !in adapters[..i]
        invariant Valid() && adapters == old(adapters) && messages == old(messages)
      {
        if locAdapters[i] == null {
          AddKeeps(adapters, adapter);
          locAdapters[i] := adapter;
          messages := messages + [OpenFor(adapter)];
          adapters := adapters + [adapter];
          return;
        }
        i := i + 1;
      }
    }

    /** Moves the last adapter into slot j; says which slot is empty now. */
    method FillHole(j: nat) returns (i: nat)
      requires Valid() && j < |adapters|
      modifies this`adapters, locAdapters
      ensures i == |old(adapters)| - 1
      ensures adapters == old(adapters)[j := old(adapters)[i]][..i]
      ensures Valid()
    {
      i := j + 1;
      while i < MAX_ADAPTERS && locAdapters[i] != null
        invariant j < i <= |adapters|
      {
        i := i + 1;
      }
      i := i - 1;
      locAdapters[j] := locAdapters[i];
      locAdapters[i] := null;
      adapters := adapters[j := adapters[i]][..i];
    }

    method RemoveAdapter(adapter: LocAdapterBase)
      requires Valid()
      modifies this`messages, this`adapters, locAdapters
      ensures Valid() && adapters == Removed(old(adapters), adapter)
      ensures messages == old(messages) + RemovalMessage(old(adapters), adapter)
    {
      RemoveKeeps(adapters, adapter);
      var i := 0;
      ghost var gone := false;
      while i < MAX_ADAPTERS && locAdapters[i] != null
        invariant i <= MAX_ADAPTERS && Valid()
        invariant !gone ==> adapters == old(adapters) && messages == old(messages)
        invariant !gone ==> i <= |adapters| && adapter !in adapters[..i]
        invariant gone ==> adapter in old(adapters) && adapters == Removed(old(adapters), adapter) && i > |adapters|
        invariant gone ==> messages == old(messages) + RemovalMessage(old(adapters), adapter)
        decreases MAX_ADAPTERS - i
      {
        if locAdapters[i] == adapter {
          FirstIndex(adapters, adapter, i);
          i := FillHole(i);
          messages := messages + if i == 0 then [CloseAll] else [OpenAll];
          gone := true;
        }
        i := i + 1;
      }
    }
  }

  /** The modem is closed when the last adapter goes; otherwise its event mask is updated. */
  function RemovalMessage(s: seq<LocAdapterBase>, a: LocAdapterBase): seq<Message> {
    if a !in s then [] else if Removed(s, a) == [] then [CloseAll] else [OpenAll]
  }

  /** Put plainly, for a table without duplicates: nothing is asked for if the adapter is not there,
      the modem is closed if it was the only one, and opened anew for those that stay. */
  lemma RemovalAsks(s: seq<LocAdapterBase>, a: LocAdapterBase, other: LocAdapterBase)
    requires NoDuplicates(s)
    ensures a !in s ==> RemovalMessage(s, a) == []
    ensures s == [a] ==> RemovalMessage(s, a) == [CloseAll]
    ensures a in s && other in s && other != a ==> RemovalMessage(s, a) == [OpenAll]
  {
    RemoveKeeps(s, a);
  }

  lemma {:induction false} FirstIndex(s: seq<LocAdapterBase>, a: LocAdapterBase, i: nat)
    requires i < |s| && s[i] == a && a !in s[..i]
    ensures IndexOf(s, a) == i
  {
    if i > 0 {
      assert s[0] in s[..i];
      assert s[1..][..i - 1] == s[..i][1..];
      FirstIndex(s[1..], a, i - 1);
    }
  }
}
