/** The AGPS manager: it routes client calls and framework reports to one of two state machines. */
module AgpsManager {
  import opened Agps
  import opened Wrappers

  /** The two machines, where they exist, and the handles refused for want of one. */
  datatype Manager = Manager(
    agnss: Option<Machine>, internet: Option<Machine>, useEmergencyPdn: bool, refused: seq<int>)

  datatype Call =
    | RequestAtl(handle: int, agpsType: int)
    | ReleaseAtl(handle: int)
    | ReportAtl(event: Op, agpsType: int)
    | HandleModemSSR
    | CreateMachines(wwan: bool, supl: bool, suplEs: bool, agpsCapable: bool)

  /** getAgpsStateMachine. */
  predicate ToAgnss(agpsType: int) {
    agpsType == -1 || agpsType == SUPL || agpsType == SUPL_ES
  }

  /** An emergency request is an ordinary one unless the emergency PDN is in use. */
  function EffectiveType(g: Manager, agpsType: int): int {
    if !g.useEmergencyPdn && agpsType == SUPL_ES then SUPL else agpsType
  }

  function StepOption(m: Option<Machine>, op: Op): Option<Machine> {
    match m
    case None => None
    case Some(x) => Some(Step(x, op))
  }

  predicate Holds(m: Option<Machine>, h: int) {
    m.Some? && Listed(m.value.subs, h)
  }

  function CallStep(g: Manager, c: Call): Manager
    requires ProperCall(c)
  {
    match c
    case RequestAtl(h, t0) =>
      var t := EffectiveType(g, t0);
      var op := Request(h, true, t);
      if (if ToAgnss(t) then g.agnss else g.internet).None? then g.(refused := g.refused + [h])
      else if ToAgnss(t) then g.(agnss := StepOption(g.agnss, op))
      else g.(internet := StepOption(g.internet, op))
    case ReleaseAtl(h) =>
      if Holds(g.agnss, h) then g.(agnss := StepOption(g.agnss, Release(h)))
      else if Holds(g.internet, h) then g.(internet := StepOption(g.internet, Release(h)))
      else g
    case ReportAtl(e, t) =>
      if ToAgnss(t) then g.(agnss := StepOption(g.agnss, e)) else g.(internet := StepOption(g.internet, e))
    case HandleModemSSR =>
      g.(agnss := StepOption(g.agnss, ModemRestart), internet := StepOption(g.internet, ModemRestart))
    case CreateMachines(wwan, supl, suplEs, agpsCapable) =>
      g.(internet := if wwan then Created(g.internet, WWAN_ANY) else g.internet,
         agnss := if agpsCapable && supl && suplEs then Created(g.agnss, SUPL) else g.agnss)
  }

  function Created(m: Option<Machine>, agpsType: int): Option<Machine> {
    if m.None? then Some(Fresh(agpsType)) else m
  }

  predicate ProperCall(c: Call) {
    c.ReportAtl? ==> c.event.ReportOpen? || c.event.ReportFailed? || c.event.ReportClosed?
  }

  function CallRun(g: Manager, calls: seq<Call>): Manager
    requires forall c :: c in calls ==> ProperCall(c)
    decreases |calls|
  {
    if calls == [] then g else CallRun(CallStep(g, calls[0]), calls[1..])
  }

  // ---------- Which machine a call reaches ----------

  /** The types served by the machine for assistance data: any, SUPL and emergency SUPL. */
  const AgnssTypes := {-1, 1, 5}

  /** A request of one of these types is an event of the machine for assistance data, any other of
      the internet machine; an emergency one goes by its own type only if the emergency PDN is in
      use.  It is refused exactly if that machine is missing, and nothing else changes. */
  lemma RequestGoesByType(g: Manager, h: int, t: int)
    ensures var g' := CallStep(g, RequestAtl(h, t));
      var op := Request(h, true, if t == 5 && !g.useEmergencyPdn then 1 else t);
      if t in AgnssTypes then
        if g.agnss.None? then g' == g.(refused := g.refused + [h])
        else g' == g.(agnss := Some(Step(g.agnss.value, op)))
      else if g.internet.None? then g' == g.(refused := g.refused + [h])
      else g' == g.(internet := Some(Step(g.internet.value, op)))
  {
    hide Step;
  }

  /** A report of the framework goes by its type too, and is lost if the machine is missing. */
  lemma ReportGoesByType(g: Manager, e: Op, t: int)
    requires ProperCall(ReportAtl(e, t))
    ensures var g' := CallStep(g, ReportAtl(e, t));
      if t in AgnssTypes then g' == if g.agnss.Some? then g.(agnss := Some(Step(g.agnss.value, e))) else g
      else g' == if g.internet.Some? then g.(internet := Some(Step(g.internet.value, e))) else g
  {
    hide Step;
  }

  /** Where a handle is, in a machine that may be missing. */
  function PlaceIn(m: Option<Machine>, h: int): Life {
    if m.None? then Out else Place(m.value.subs, h)
  }

  /** A release makes its handle leave or wait, in the first machine that lists it and in no
      other; it changes nothing if no machine does. */
  lemma ReleaseReachesHolder(g: Manager, h: int, x: int)
    requires g.agnss.Some? ==> ListRight(g.agnss.value)
    requires g.internet.Some? ==> ListRight(g.internet.value)
    ensures var g' := CallStep(g, ReleaseAtl(h));
      && (PlaceIn(g.agnss, h) != Out ==> PlaceIn(g'.agnss, h) in {Out, Leaving} && g' == g.(agnss := g'.agnss))
      && (PlaceIn(g.agnss, h) == Out != PlaceIn(g.internet, h) ==>
            PlaceIn(g'.internet, h) in {Out, Leaving} && g' == g.(internet := g'.internet))
      && (PlaceIn(g.agnss, h) == PlaceIn(g.internet, h) == Out ==> g' == g)
      && (x != h ==> PlaceIn(g'.agnss, x) == PlaceIn(g.agnss, x) && PlaceIn(g'.internet, x) == PlaceIn(g.internet, x))
  {
    if g.agnss.Some? {
      PlaceListed(g.agnss.value.subs, h);
      StepPlaces(g.agnss.value, Release(h), h);
      StepPlaces(g.agnss.value, Release(h), x);
    }
    if g.internet.Some? {
      PlaceListed(g.internet.value.subs, h);
      StepPlaces(g.internet.value, Release(h), h);
      StepPlaces(g.internet.value, Release(h), x);
    }
    hide Step, Place, Listed, ListRight;
  }

  /** A machine that is missing is created, new, exactly if its callback types and the capability
      ask for it; one that is there stays as it is. */
  lemma CreationIsAsked(g: Manager, wwan: bool, supl: bool, suplEs: bool, agpsCapable: bool)
    ensures var g' := CallStep(g, CreateMachines(wwan, supl, suplEs, agpsCapable));
      && (g'.internet.Some? <==> g.internet.Some? || wwan)
      && (g'.agnss.Some? <==> g.agnss.Some? || (agpsCapable && supl && suplEs))
      && (g.internet.Some? ==> g'.internet == g.internet) && (g.agnss.Some? ==> g'.agnss == g.agnss)
      && (g.internet.None? && g'.internet.Some? ==> g'.internet.value == Machine(Released, [], WWAN_ANY, [], []))
      && (g.agnss.None? && g'.agnss.Some? ==> g'.agnss.value == Machine(Released, [], SUPL, [], []))
      && g'.refused == g.refused
  {
  }

  /** When the modem restarts, no machine has anybody in its list any more. */
  lemma RestartReachesBoth(g: Manager, h: int)
    ensures var g' := CallStep(g, HandleModemSSR);
      && PlaceIn(g'.agnss, h) == PlaceIn(g'.internet, h) == Out
      && (g'.agnss.Some? <==> g.agnss.Some?) && (g'.internet.Some? <==> g.internet.Some?)
      && g'.refused == g.refused
  {
    if g.agnss.Some? {
      RestartDropsAll(g.agnss.value);
    }
    if g.internet.Some? {
      RestartDropsAll(g.internet.value);
    }
    hide Step;
  }

  // ---------- The run of one machine ----------

  /** What a call is to one machine: an event, or its creation if it is not there yet. */
  datatype Change = Happens(op: Op) | Creation

  function ChangesFor(g: Manager, c: Call, agnss: bool): seq<Change>
    requires ProperCall(c)
  {
    match c
    case RequestAtl(h, t0) =>
      var t := EffectiveType(g, t0);
      if ToAgnss(t) == agnss then [Happens(Request(h, true, t))] else []
    case ReleaseAtl(h) =>
      if agnss then if Holds(g.agnss, h) then [Happens(Release(h))] else []
      else if !Holds(g.agnss, h) && Holds(g.internet, h) then [Happens(Release(h))] else []
    case ReportAtl(e, t) => if ToAgnss(t) == agnss then [Happens(e)] else []
    case HandleModemSSR => [Happens(ModemRestart)]
    case CreateMachines(wwan, supl, suplEs, agpsCapable) =>
      if (if agnss then agpsCapable && supl && suplEs else wwan) then [Creation] else []
  }

  /** The changes one machine sees during a run of the manager. */
  function Seen(g: Manager, calls: seq<Call>, agnss: bool): seq<Change>
    requires forall c :: c in calls ==> ProperCall(c)
    decreases |calls|
  {
    if calls == [] then []
    else ChangesFor(g, calls[0], agnss) + Seen(CallStep(g, calls[0]), calls[1..], agnss)
  }

  function Changed(m: Option<Machine>, agpsType: int, c: Change): Option<Machine> {
    match c
    case Happens(op) => StepOption(m, op)
    case Creation => Created(m, agpsType)
  }

  function ChangedBy(m: Option<Machine>, agpsType: int, changes: seq<Change>): Option<Machine>
    decreases |changes|
  {
    if changes == [] then m else ChangedBy(Changed(m, agpsType, changes[0]), agpsType, changes[1..])
  }

  /** The events that come when the machine is there. */
  function Events(m: Option<Machine>, agpsType: int, changes: seq<Change>): seq<Op>
    decreases |changes|
  {
    if changes == [] then []
    else
      (if m.Some? && changes[0].Happens? then [changes[0].op] else []) +
      Events(Changed(m, agpsType, changes[0]), agpsType, changes[1..])
  }

  lemma RunSplit(m: Machine, front: seq<Op>, rest: seq<Op>)
    requires |front| <= 1
    ensures Run(m, front + rest) == Run(Run(m, front), rest)
  {
    if front == [] {
      assert front + rest == rest;
    } else {
      assert (front + rest)[1..] == rest && front[1..] == [];
    }
  }

  /** A machine goes through a run of its own, from where it was or from its creation. */
  lemma {:induction false} MachineRuns(m: Option<Machine>, agpsType: int, changes: seq<Change>)
    ensures ChangedBy(m, agpsType, changes).Some? ==>
      ChangedBy(m, agpsType, changes).value == Run(Created(m, agpsType).value, Events(m, agpsType, changes))
    decreases |changes|
  {
    if changes != [] {
      var next := Changed(m, agpsType, changes[0]);
      MachineRuns(next, agpsType, changes[1..]);
      hide Step;
      if m.Some? && changes[0].Happens? {
        var op := changes[0].op;
        assert [op][1..] == [] && Run(m.value, [op]) == Run(Step(m.value, op), []) == Step(m.value, op);
        RunSplit(m.value, [op], Events(next, agpsType, changes[1..]));
      } else {
        assert Events(m, agpsType, changes) == Events(next, agpsType, changes[1..]);
      }
    }
  }

  lemma ChangedSplit(m: Option<Machine>, agpsType: int, front: seq<Change>, rest: seq<Change>)
    requires |front| <= 1
    ensures ChangedBy(m, agpsType, front + rest) == ChangedBy(ChangedBy(m, agpsType, front), agpsType, rest)
  {
    if front == [] {
      assert front + rest == rest;
    } else {
      assert (front + rest)[1..] == rest && front[1..] == [];
    }
  }

  lemma ManagerStepsItsMachines(g: Manager, c: Call)
    requires ProperCall(c)
    ensures CallStep(g, c).agnss == ChangedBy(g.agnss, SUPL, ChangesFor(g, c, true))
    ensures CallStep(g, c).internet == ChangedBy(g.internet, WWAN_ANY, ChangesFor(g, c, false))
    ensures |ChangesFor(g, c, true)| <= 1 && |ChangesFor(g, c, false)| <= 1
  {
    hide Step;
    forall m: Option<Machine>, t: int, x: Change ensures ChangedBy(m, t, [x]) == Changed(m, t, x) {
      assert [x][1..] == [];
      assert ChangedBy(Changed(m, t, x), t, []) == Changed(m, t, x);
    }
  }

  /** Whatever clients and framework do, each machine goes through changes of its own, so that
      everything proved about the runs of one machine holds for both machines of a manager. */
  lemma {:induction false} ManagerRunsItsMachines(g: Manager, calls: seq<Call>)
    requires forall c :: c in calls ==> ProperCall(c)
    ensures CallRun(g, calls).agnss == ChangedBy(g.agnss, SUPL, Seen(g, calls, true))
    ensures CallRun(g, calls).internet == ChangedBy(g.internet, WWAN_ANY, Seen(g, calls, false))
    decreases |calls|
  {
    if calls != [] {
      var next := CallStep(g, calls[0]);
      ManagerRunsItsMachines(next, calls[1..]);
      ManagerStepsItsMachines(g, calls[0]);
      hide CallStep, ChangesFor;
      ChangedSplit(g.agnss, SUPL, ChangesFor(g, calls[0], true), Seen(next, calls[1..], true));
      ChangedSplit(g.internet, WWAN_ANY, ChangesFor(g, calls[0], false), Seen(next, calls[1..], false));
    }
  }

  /** Over every run of the manager, the creation of its machines included, both are safe. */
  lemma ManagerSafe(g: Manager, calls: seq<Call>)
    requires forall c :: c in calls ==> ProperCall(c)
    requires g.agnss.Some? ==> g.agnss.value == Fresh(SUPL)
    requires g.internet.Some? ==> g.internet.value == Fresh(WWAN_ANY)
    ensures var end := CallRun(g, calls);
      && (end.agnss.Some? ==> Safe(end.agnss.value))
      && (end.internet.Some? ==> Safe(end.internet.value))
  {
    ManagerRunsItsMachines(g, calls);
    MachineRuns(g.agnss, SUPL, Seen(g, calls, true));
    MachineRuns(g.internet, WWAN_ANY, Seen(g, calls, false));
    RunSafe(SUPL, Events(g.agnss, SUPL, Seen(g, calls, true)));
    RunSafe(WWAN_ANY, Events(g.internet, WWAN_ANY, Seen(g, calls, false)));
  }
}
