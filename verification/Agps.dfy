/** The AGPS data-connection state machine of the GNSS adapter, its manager, and the closed loop
    it forms with the built-in framework handler.

    `Machine` is the value of one state machine together with the log of everything it was asked
    and everything it told its clients and the framework.  The functions say what each event
    does to it; the properties are statements about every state and log a run can reach. */
module Agps {

  // Agps types of gps_extended_c.h
  const SUPL := 1
  const WWAN_ANY := 3
  const SUPL_ES := 5

  datatype State = Released | Pending | Acquired | Releasing

  datatype Subscriber = Subscriber(handle: int, waitForCloseComplete: bool, inactive: bool)

  datatype Entry =
    // clients
    | Requested(handle: int)      // the client asked for the connection
    | Unsubscribed(handle: int)   // the client gave it up
    | Joined(handle: int)         // a subscriber was put into the list
    // callbacks, and the end of a subscription without one
    | Opened(handle: int)
    | OpenFailed(handle: int)
    | Closed(handle: int)
    | Dropped(handle: int)
    // commands to the framework
    | ConnRequested(agpsType: int)
    | ConnReleased(agpsType: int)
    // events from the framework
    | SawGranted | SawDenied | SawReleased

  /** What the framework status callback is called with. */
  datatype Command = Connect(agpsType: int) | Disconnect(agpsType: int)

  /** `issued` is the calls of the framework callback so far; `log` has them too, in their place
      among everything else that happened. */
  datatype Machine = Machine(
    state: State, subs: seq<Subscriber>, agpsType: int, log: seq<Entry>, issued: seq<Command>)

  function Fresh(agpsType: int): Machine {
    Machine(Released, [], agpsType, [], [])
  }

  // ---------- The subscriber list ----------

  predicate Listed(subs: seq<Subscriber>, h: int) {
    subs != [] && (subs[|subs| - 1].handle == h || Listed(subs[..|subs| - 1], h))
  }

  predicate AnyActive(subs: seq<Subscriber>) {
    subs != [] && (!subs[|subs| - 1].inactive || AnyActive(subs[..|subs| - 1]))
  }

  /** No handle is listed twice. */
  predicate Distinct(subs: seq<Subscriber>) {
    subs != [] ==> Distinct(subs[..|subs| - 1]) && !Listed(subs[..|subs| - 1], subs[|subs| - 1].handle)
  }

  /** addSubscriber: a handle that is already listed is left as it is. */
  function Add(m: Machine, s: Subscriber): Machine {
    if Listed(m.subs, s.handle) then m
    else m.(subs := m.subs + [s], log := m.log + [Joined(s.handle)])
  }

  /** deleteSubscriber. */
  function Without(subs: seq<Subscriber>, h: int): seq<Subscriber> {
    if subs == [] then []
    else
      var rest := Without(subs[..|subs| - 1], h);
      if subs[|subs| - 1].handle == h then rest else rest + [subs[|subs| - 1]]
  }

  /** What setting mIsInactive through the pointer of the listed subscriber does to the list. */
  function Deactivate(subs: seq<Subscriber>, h: int): seq<Subscriber> {
    if subs == [] then []
    else
      var last := subs[|subs| - 1];
      Deactivate(subs[..|subs| - 1], h) + [if last.handle == h then last.(inactive := true) else last]
  }

  /** getSubscriber: the first one with the handle. */
  function Find(subs: seq<Subscriber>, h: int): (s: Subscriber)
    requires Listed(subs, h)
    ensures s in subs && s.handle == h
  {
    if Listed(subs[..|subs| - 1], h) then Find(subs[..|subs| - 1], h) else subs[|subs| - 1]
  }

  datatype Audience = All | Inactive | Active

  predicate Addressed(s: Subscriber, who: Audience) {
    match who
    case All => true
    case Inactive => s.inactive
    case Active => !s.inactive
  }

  function Chosen(subs: seq<Subscriber>, who: Audience): seq<Subscriber> {
    if subs == [] then []
    else
      var rest := Chosen(subs[..|subs| - 1], who);
      if Addressed(subs[|subs| - 1], who) then rest + [subs[|subs| - 1]] else rest
  }

  function Others(subs: seq<Subscriber>, who: Audience): seq<Subscriber> {
    if subs == [] then []
    else
      var rest := Others(subs[..|subs| - 1], who);
      if Addressed(subs[|subs| - 1], who) then rest else rest + [subs[|subs| - 1]]
  }

  datatype Notice = Grant | Deny | Close | Drop

  function NoticeTo(h: int, n: Notice): Entry {
    match n
    case Grant => Opened(h)
    case Deny => OpenFailed(h)
    case Close => Closed(h)
    case Drop => Dropped(h)
  }

  function Notices(subs: seq<Subscriber>, n: Notice): seq<Entry> {
    if subs == [] then []
    else Notices(subs[..|subs| - 1], n) + [NoticeTo(subs[|subs| - 1].handle, n)]
  }

  /** notifyAllSubscribers without deletion. */
  function NotifyAll(m: Machine, n: Notice, who: Audience): Machine {
    m.(log := m.log + Notices(Chosen(m.subs, who), n))
  }

  /** notifyAllSubscribers with deletion. */
  function NotifyAndDelete(m: Machine, n: Notice, who: Audience): Machine {
    NotifyAll(m, n, who).(subs := Others(m.subs, who))
  }

  function RequestConn(m: Machine): Machine {
    m.(log := m.log + [ConnRequested(m.agpsType)], issued := m.issued + [Connect(m.agpsType)])
  }

  function ReleaseConn(m: Machine): Machine {
    m.(log := m.log + [ConnReleased(m.agpsType)], issued := m.issued + [Disconnect(m.agpsType)])
  }

  // ---------- The events ----------

  /** processAgpsEventSubscribe, on behalf of a client request. */
  function Subscribe(m: Machine, s: Subscriber): Machine {
    var asked := m.(log := m.log + [Requested(s.handle)]);
    match m.state
    case Released => RequestConn(Add(asked, s)).(state := Pending)
    case Pending => Add(asked, s)
    case Acquired => Add(asked.(log := asked.log + [Opened(s.handle)]), s)
    case Releasing => Add(asked, s)
  }

  /** The first half of processAgpsEventUnsubscribe: the subscriber waits in the list for the
      close, or is told at once and deleted. */
  function Leave(m: Machine, h: int): Machine
    requires Listed(m.subs, h)
  {
    var asked := m.(log := m.log + [Unsubscribed(h)]);
    if Find(m.subs, h).waitForCloseComplete then asked.(subs := Deactivate(m.subs, h))
    else asked.(subs := Without(m.subs, h), log := asked.log + [Closed(h)])
  }

  /** The second half: release the connection when nobody needs it any more. */
  function ReleaseIfUnused(left: Machine): Machine {
    match left.state
    case Released => left
    case Pending | Acquired =>
      if left.subs == [] then ReleaseConn(left).(state := Released)
      else if !AnyActive(left.subs) then ReleaseConn(left).(state := Releasing)
      else left
    case Releasing => if left.subs == [] then left.(state := Released) else left
  }

  /** processAgpsEventUnsubscribe for a listed subscriber. */
  function Unsubscribe(m: Machine, h: int): Machine
    requires Listed(m.subs, h)
  {
    if m.state == Released then m.(log := m.log + [Unsubscribed(h), Closed(h)])
    else ReleaseIfUnused(Leave(m, h))
  }

  function Granted(m: Machine): Machine {
    var seen := m.(log := m.log + [SawGranted]);
    if m.state == Pending then NotifyAll(seen, Grant, Active).(state := Acquired) else seen
  }

  /** What Releasing does with the end of the old connection. */
  function AfterRelease(seen: Machine): Machine {
    var rest := NotifyAndDelete(seen, Close, Inactive);
    if AnyActive(rest.subs) then RequestConn(rest).(state := Pending) else rest.(state := Released)
  }

  function ReleasedEvent(m: Machine): Machine {
    var seen := m.(log := m.log + [SawReleased]);
    match m.state
    case Acquired => NotifyAndDelete(seen, Close, All).(state := Released)
    case Releasing => AfterRelease(seen)
    case Released | Pending => seen
  }

  function Denied(m: Machine): Machine {
    var seen := m.(log := m.log + [SawDenied]);
    match m.state
    case Pending => NotifyAndDelete(seen, Deny, All).(state := Released)
    case Releasing => AfterRelease(seen)
    case Released | Acquired => seen
  }

  /** dropAllSubscribers: the list is emptied, nobody is told, the state stays. */
  function DropAll(m: Machine): Machine {
    NotifyAndDelete(m, Drop, All)
  }

  datatype Op =
    | Request(handle: int, waitForCloseComplete: bool, agpsType: int)
    | Release(handle: int)
    | ReportOpen | ReportFailed | ReportClosed
    | ModemRestart

  function Step(m: Machine, op: Op): Machine {
    match op
    case Request(h, wait, t) => Subscribe(m.(agpsType := t), Subscriber(h, wait, false))
    case Release(h) => if Listed(m.subs, h) then Unsubscribe(m, h) else m
    case ReportOpen => Granted(m)
    case ReportFailed => Denied(m)
    case ReportClosed => ReleasedEvent(m)
    case ModemRestart => DropAll(m)
  }

  function Run(m: Machine, ops: seq<Op>): Machine
    decreases |ops|
  {
    if ops == [] then m else Run(Step(m, ops[0]), ops[1..])
  }

  // ---------- Reading the log ----------

  /** Where a handle stands with the machine: not listed, listed, or listed and waiting for the
      close.  Broken is what the log of a machine that loses or doubles a subscription says. */
  datatype Life = Out | In | Leaving | Broken

  function LifeStep(l: Life, e: Entry, h: int): Life {
    match e
    case Joined(x) => if x != h then l else if l == Out then In else Broken
    case Unsubscribed(x) => if x != h then l else if l == In || l == Leaving then Leaving else Broken
    case OpenFailed(x) => if x != h then l else if l == In || l == Leaving then Out else Broken
    case Closed(x) => if x != h then l else if l == In || l == Leaving then Out else Broken
    case Dropped(x) => if x != h then l else if l == In || l == Leaving then Out else Broken
    case _ => l
  }

  function LifeOf(log: seq<Entry>, h: int): Life {
    if log == [] then Out else LifeStep(LifeOf(log[..|log| - 1], h), log[|log| - 1], h)
  }

  /** What the client was last told about its last request. */
  datatype Standing = Silent | Waiting | Told(granted: bool)

  function StandingStep(s: Standing, e: Entry, h: int): Standing {
    match e
    case Requested(x) => if x == h then Waiting else s
    case Opened(x) => if x == h then Told(true) else s
    case OpenFailed(x) => if x == h then Told(false) else s
    case Closed(x) => if x == h then Told(false) else s
    case _ => s
  }

  function StandingOf(log: seq<Entry>, h: int): Standing {
    if log == [] then Silent else StandingStep(StandingOf(log[..|log| - 1], h), log[|log| - 1], h)
  }

  /** What the framework was last asked for, and whether it has ended the connection since. */
  datatype Line = Idle | Asked | AskEnded | GivenUp | Bad

  function LineStep(l: Line, e: Entry): Line {
    match e
    case ConnRequested(_) => if l == Asked || l == Bad then Bad else Asked
    case ConnReleased(_) => if l == Asked || l == AskEnded then GivenUp else Bad
    case SawDenied => if l == Asked then AskEnded else l
    case SawReleased => if l == Asked then AskEnded else l
    case _ => l
  }

  function LineOf(log: seq<Entry>): Line {
    if log == [] then Idle else LineStep(LineOf(log[..|log| - 1]), log[|log| - 1])
  }

  lemma Snoc(log: seq<Entry>, e: Entry, h: int)
    ensures LifeOf(log + [e], h) == LifeStep(LifeOf(log, h), e, h)
    ensures StandingOf(log + [e], h) == StandingStep(StandingOf(log, h), e, h)
    ensures LineOf(log + [e]) == LineStep(LineOf(log), e)
  {
  }

  // ---------- What the list operations do ----------

  /** What the list says about a handle. */
  function Place(subs: seq<Subscriber>, h: int): Life {
    if subs == [] then Out
    else
      var last := subs[|subs| - 1];
      if last.handle == h then if last.inactive then Leaving else In
      else Place(subs[..|subs| - 1], h)
  }

  predicate Hit(l: Life, who: Audience) {
    match who
    case All => l == In || l == Leaving
    case Inactive => l == Leaving
    case Active => l == In
  }

  lemma SnocList(subs: seq<Subscriber>, s: Subscriber, h: int)
    ensures Listed(subs + [s], h) <==> s.handle == h || Listed(subs, h)
    ensures AnyActive(subs + [s]) <==> !s.inactive || AnyActive(subs)
    ensures Distinct(subs + [s]) <==> Distinct(subs) && !Listed(subs, s.handle)
    ensures Place(subs + [s], h) ==
      if s.handle == h then (if s.inactive then Leaving else In) else Place(subs, h)
  {
  }

  lemma {:induction false} PlaceListed(subs: seq<Subscriber>, h: int)
    ensures Place(subs, h) != Broken
    ensures Listed(subs, h) <==> Place(subs, h) != Out
  {
    if subs != [] {
      PlaceListed(subs[..|subs| - 1], h);
    }
  }

  /** The list has an active subscriber exactly when some handle is listed as active. */
  lemma {:induction false} ActiveHandle(subs: seq<Subscriber>, h: int)
    requires Place(subs, h) == In
    ensures AnyActive(subs)
  {
    if subs[|subs| - 1].handle != h {
      ActiveHandle(subs[..|subs| - 1], h);
    }
  }

  lemma {:induction false} ChosenAndOthers(subs: seq<Subscriber>, who: Audience, h: int)
    requires Distinct(subs)
    ensures Place(Chosen(subs, who), h) == if Hit(Place(subs, h), who) then Place(subs, h) else Out
    ensures Place(Others(subs, who), h) == if Hit(Place(subs, h), who) then Out else Place(subs, h)
  {
    if subs != [] {
      var front, last := subs[..|subs| - 1], subs[|subs| - 1];
      ChosenAndOthers(front, who, h);
      SnocList(Chosen(front, who), last, h);
      SnocList(Others(front, who), last, h);
      PlaceListed(front, h);
    }
  }

  lemma {:induction false} ChosenDistinct(subs: seq<Subscriber>, who: Audience)
    requires Distinct(subs)
    ensures Distinct(Chosen(subs, who))
  {
    if subs != [] {
      var front, last := subs[..|subs| - 1], subs[|subs| - 1];
      ChosenDistinct(front, who);
      ChosenAndOthers(front, who, last.handle);
      PlaceListed(front, last.handle);
      PlaceListed(Chosen(front, who), last.handle);
      SnocList(Chosen(front, who), last, last.handle);
    }
  }

  lemma {:induction false} OthersDistinct(subs: seq<Subscriber>, who: Audience)
    requires Distinct(subs)
    ensures Distinct(Others(subs, who))
  {
    if subs != [] {
      var front, last := subs[..|subs| - 1], subs[|subs| - 1];
      OthersDistinct(front, who);
      ChosenAndOthers(front, who, last.handle);
      PlaceListed(front, last.handle);
      PlaceListed(Others(front, who), last.handle);
      SnocList(Others(front, who), last, last.handle);
    }
  }

  lemma {:induction false} NobodyLeft(subs: seq<Subscriber>)
    ensures Others(subs, All) == []
  {
    if subs != [] {
      NobodyLeft(subs[..|subs| - 1]);
    }
  }

  /** After the inactive ones have gone, whoever is left is active. */
  lemma {:induction false} RestIsActive(subs: seq<Subscriber>)
    ensures Others(subs, Inactive) != [] ==> AnyActive(Others(subs, Inactive))
  {
    if subs != [] {
      var front, last := subs[..|subs| - 1], subs[|subs| - 1];
      RestIsActive(front);
      SnocList(Others(front, Inactive), last, 0);
    }
  }

  lemma {:induction false} DeactivatedPlace(subs: seq<Subscriber>, h: int, x: int)
    ensures Place(Deactivate(subs, h), x) == if x == h && Place(subs, x) != Out then Leaving else Place(subs, x)
    ensures Deactivate(subs, h) == [] <==> subs == []
  {
    if subs != [] {
      var front, last := subs[..|subs| - 1], subs[|subs| - 1];
      DeactivatedPlace(front, h, x);
      SnocList(Deactivate(front, h), if last.handle == h then last.(inactive := true) else last, x);
    }
  }

  lemma {:induction false} WithoutPlace(subs: seq<Subscriber>, h: int, x: int)
    ensures Place(Without(subs, h), x) == if x == h then Out else Place(subs, x)
  {
    if subs != [] {
      var front, last := subs[..|subs| - 1], subs[|subs| - 1];
      WithoutPlace(front, h, x);
      SnocList(Without(front, h), last, x);
    }
  }

  lemma {:induction false} DeactivatedDistinct(subs: seq<Subscriber>, h: int)
    requires Distinct(subs)
    ensures Distinct(Deactivate(subs, h))
  {
    if subs != [] {
      var front, last := subs[..|subs| - 1], subs[|subs| - 1];
      DeactivatedDistinct(front, h);
      DeactivatedPlace(front, h, last.handle);
      PlaceListed(front, last.handle);
      PlaceListed(Deactivate(front, h), last.handle);
      SnocList(Deactivate(front, h), if last.handle == h then last.(inactive := true) else last, last.handle);
    }
  }

  lemma {:induction false} WithoutDistinct(subs: seq<Subscriber>, h: int)
    requires Distinct(subs)
    ensures Distinct(Without(subs, h))
  {
    if subs != [] {
      var front, last := subs[..|subs| - 1], subs[|subs| - 1];
      WithoutDistinct(front, h);
      WithoutPlace(front, h, last.handle);
      PlaceListed(front, last.handle);
      PlaceListed(Without(front, h), last.handle);
      SnocList(Without(front, h), last, last.handle);
    }
  }

  // ---------- What a round of notices does to the log ----------

  lemma NoticeSnoc(log: seq<Entry>, subs: seq<Subscriber>, n: Notice)
    requires subs != []
    ensures log + Notices(subs, n)
      == (log + Notices(subs[..|subs| - 1], n)) + [NoticeTo(subs[|subs| - 1].handle, n)]
  {
  }

  lemma {:induction false} NoticesKeepLine(log: seq<Entry>, subs: seq<Subscriber>, n: Notice)
    ensures LineOf(log + Notices(subs, n)) == LineOf(log)
  {
    if subs == [] {
      assert log + [] == log;
    } else {
      NoticesKeepLine(log, subs[..|subs| - 1], n);
      NoticeSnoc(log, subs, n);
      Snoc(log + Notices(subs[..|subs| - 1], n), NoticeTo(subs[|subs| - 1].handle, n), 0);
    }
  }

  lemma {:induction false} NoticesStanding(log: seq<Entry>, subs: seq<Subscriber>, n: Notice, h: int)
    ensures StandingOf(log + Notices(subs, n), h) ==
      if n != Drop && Listed(subs, h) then Told(n == Grant) else StandingOf(log, h)
  {
    if subs == [] {
      assert log + [] == log;
    } else {
      var front, last := subs[..|subs| - 1], subs[|subs| - 1];
      NoticesStanding(log, front, n, h);
      NoticeSnoc(log, subs, n);
      Snoc(log + Notices(front, n), NoticeTo(last.handle, n), h);
    }
  }

  lemma {:induction false} NoticesLife(log: seq<Entry>, subs: seq<Subscriber>, n: Notice, h: int)
    requires Distinct(subs)
    requires n != Grant && Listed(subs, h) ==> LifeOf(log, h) == In || LifeOf(log, h) == Leaving
    ensures LifeOf(log + Notices(subs, n), h) ==
      if n != Grant && Listed(subs, h) then Out else LifeOf(log, h)
  {
    if subs == [] {
      assert log + [] == log;
    } else {
      var front, last := subs[..|subs| - 1], subs[|subs| - 1];
      assert Listed(subs, h) <==> last.handle == h || Listed(front, h);
      NoticesLife(log, front, n, h);
      var before, e := log + Notices(front, n), NoticeTo(last.handle, n);
      Snoc(before, e, h);
      assert LifeOf(before + [e], h) == if n != Grant && Listed(subs, h) then Out else LifeOf(log, h);
      NoticeSnoc(log, subs, n);
    }
  }

  // ---------- Which lists a machine can have ----------

  /** RELEASED has no subscribers; PENDING and ACQUIRED have none or at least an active one;
      no handle is listed twice. */
  predicate ListRight(m: Machine) {
    && Distinct(m.subs)
    && (m.state == Released ==> m.subs == [])
    && (m.state == Pending || m.state == Acquired ==> m.subs == [] || AnyActive(m.subs))
  }

  // ---------- What each event does, client by client ----------

  /** A round of notices tells the listed handles, in the order of the list. */
  lemma {:induction false} NoticesInOrder(subs: seq<Subscriber>, n: Notice)
    ensures Notices(subs, n) == seq(|subs|, i requires 0 <= i < |subs| => NoticeTo(subs[i].handle, n))
    ensures Chosen(subs, All) == subs
  {
    if subs != [] {
      NoticesInOrder(subs[..|subs| - 1], n);
    }
  }

  /** A modem restart drops everybody in the order of the list and does nothing else. */
  lemma RestartDropsAll(m: Machine)
    ensures Step(m, ModemRestart) ==
      m.(subs := [], log := m.log + seq(|m.subs|, i requires 0 <= i < |m.subs| => Dropped(m.subs[i].handle)))
  {
    NobodyLeft(m.subs);
    NoticesInOrder(m.subs, Drop);
    hide Notices, Chosen, Others, Listed, AnyActive, Find, Distinct, Place;
    assert Notices(m.subs, Drop) == seq(|m.subs|, i requires 0 <= i < |m.subs| => Dropped(m.subs[i].handle));
  }

  /** When a request is denied in PENDING everybody is told that the open failed. */
  lemma DenialFailsAll(m: Machine)
    requires m.state == Pending
    ensures Step(m, ReportFailed) ==
      m.(state := Released, subs := [],
         log := m.log + [SawDenied] + seq(|m.subs|, i requires 0 <= i < |m.subs| => OpenFailed(m.subs[i].handle)))
  {
    NobodyLeft(m.subs);
    NoticesInOrder(m.subs, Deny);
    hide Notices, Chosen, Others, Listed, AnyActive, Find, Distinct, Place;
    assert Notices(m.subs, Deny) == seq(|m.subs|, i requires 0 <= i < |m.subs| => OpenFailed(m.subs[i].handle));
  }

  /** When the framework takes the connection away in ACQUIRED everybody is told that it closed. */
  lemma ForcedReleaseClosesAll(m: Machine)
    requires m.state == Acquired
    ensures Step(m, ReportClosed) ==
      m.(state := Released, subs := [],
         log := m.log + [SawReleased] + seq(|m.subs|, i requires 0 <= i < |m.subs| => Closed(m.subs[i].handle)))
  {
    NobodyLeft(m.subs);
    NoticesInOrder(m.subs, Close);
    hide Notices, Chosen, Others, Listed, AnyActive, Find, Distinct, Place;
    assert Notices(m.subs, Close) == seq(|m.subs|, i requires 0 <= i < |m.subs| => Closed(m.subs[i].handle));
  }

  /** Where an event leaves a handle. */
  function PlaceAfter(m: Machine, op: Op, x: int): Life {
    var now := Place(m.subs, x);
    match op
    case Request(h, _, _) => if x == h && now == Out then In else now
    case Release(h) =>
      if x != h || !Listed(m.subs, h) then now
      else if Find(m.subs, h).waitForCloseComplete then Leaving
      else Out
    case ReportOpen => now
    case ReportFailed =>
      if m.state == Pending || (m.state == Releasing && now == Leaving) then Out else now
    case ReportClosed =>
      if m.state == Acquired || (m.state == Releasing && now == Leaving) then Out else now
    case ModemRestart => Out
  }

  /** Every event leaves every handle there. */
  lemma {:induction false} StepPlaces(m: Machine, op: Op, x: int)
    requires ListRight(m)
    ensures Place(Step(m, op).subs, x) == PlaceAfter(m, op, x)
  {
    if op.Release? {
      LeavePlaces(m, op.handle, x);
      hide Place, Leave;
    } else {
      PlaceListed(m.subs, x);
      NobodyLeft(m.subs);
      ChosenAndOthers(m.subs, Inactive, x);
      if op.Request? {
        SnocList(m.subs, Subscriber(op.handle, op.waitForCloseComplete, false), x);
      }
      hide Place, Others, AnyActive, Notices, Distinct;
    }
  }

  lemma LeavePlaces(m: Machine, h: int, x: int)
    requires ListRight(m)
    ensures Listed(m.subs, h) ==> m.state != Released && Place(Leave(m, h).subs, x) == PlaceAfter(m, Release(h), x)
  {
    if Listed(m.subs, h) {
      PlaceListed(m.subs, h);
      DeactivatedPlace(m.subs, h, x);
      WithoutPlace(m.subs, h, x);
      hide Place, Deactivate, Without, Find, AnyActive, Distinct;
    }
  }

  lemma {:induction false} SomebodyActive(subs: seq<Subscriber>)
    requires Distinct(subs)
    ensures AnyActive(subs) <==> exists x :: Place(subs, x) == In
    ensures subs != [] <==> exists x :: Place(subs, x) != Out
  {
    if subs != [] {
      var front, last := subs[..|subs| - 1], subs[|subs| - 1];
      assert Place(subs, last.handle) != Out;
      if x :| Place(subs, x) == In {
        ActiveHandle(subs, x);
      }
      if last.inactive && AnyActive(front) {
        SomebodyActive(front);
        var x :| Place(front, x) == In;
        PlaceListed(front, x);
        assert Place(subs, x) == In;
      }
    }
  }

  /** The state that an event leads to, by who is left after it. */
  ghost function StateAfter(m: Machine, op: Op): State {
    var activeLeft := exists x :: PlaceAfter(m, op, x) == In;
    var anyLeft := exists x :: PlaceAfter(m, op, x) != Out;
    match op
    case Request(_, _, _) => if m.state == Released then Pending else m.state
    case Release(h) =>
      if !Listed(m.subs, h) then m.state
      else if !anyLeft then Released
      else if !activeLeft then Releasing
      else m.state
    case ReportOpen => if m.state == Pending then Acquired else m.state
    case ReportFailed =>
      if m.state == Pending then Released
      else if m.state == Releasing then if activeLeft then Pending else Released
      else m.state
    case ReportClosed =>
      if m.state == Acquired then Released
      else if m.state == Releasing then if activeLeft then Pending else Released
      else m.state
    case ModemRestart => m.state
  }

  lemma LeftAfter(m: Machine, op: Op)
    requires ListRight(m)
    ensures AnyActive(Step(m, op).subs) <==> exists x :: PlaceAfter(m, op, x) == In
    ensures Step(m, op).subs != [] <==> exists x :: PlaceAfter(m, op, x) != Out
  {
    var subs := Step(m, op).subs;
    StepKeepsList(m, op);
    SomebodyActive(subs);
    forall x
      ensures PlaceAfter(m, op, x) == Place(subs, x)
    {
      StepPlaces(m, op, x);
    }
    if x :| PlaceAfter(m, op, x) == In {
      assert Place(subs, x) == In;
    }
    if x :| Place(subs, x) == In {
      assert PlaceAfter(m, op, x) == In;
    }
    if x :| PlaceAfter(m, op, x) != Out {
      assert Place(subs, x) != Out;
    }
    if x :| Place(subs, x) != Out {
      assert PlaceAfter(m, op, x) != Out;
    }
  }

  /** Every event leads there. */
  lemma StepStates(m: Machine, op: Op)
    requires ListRight(m)
    ensures Step(m, op).state == StateAfter(m, op)
  {
    LeftAfter(m, op);
    if op.Release? && Listed(m.subs, op.handle) {
      SomebodyListed(m.subs, op.handle);
    }
    hide Place, PlaceAfter, AnyActive, Others, Chosen, Notices, Distinct, Without, Deactivate, Find, Listed;
  }

  /** Of whom an entry speaks. */
  function HandleOf(e: Entry): int {
    match e
    case Requested(h) => h
    case Unsubscribed(h) => h
    case Joined(h) => h
    case Opened(h) => h
    case OpenFailed(h) => h
    case Closed(h) => h
    case Dropped(h) => h
    case _ => 0
  }

  lemma {:induction false} NoticesOf(subs: seq<Subscriber>, n: Notice, e: Entry)
    ensures e in Notices(subs, n) <==> e == NoticeTo(HandleOf(e), n) && Listed(subs, HandleOf(e))
  {
    if subs != [] {
      NoticesOf(subs[..|subs| - 1], n, e);
    }
  }

  /** Whom a round of notices reaches. */
  lemma NoticesReach(subs: seq<Subscriber>, n: Notice, who: Audience, e: Entry)
    requires Distinct(subs)
    ensures e in Notices(Chosen(subs, who), n) <==>
      e == NoticeTo(HandleOf(e), n) && Hit(Place(subs, HandleOf(e)), who)
  {
    NoticesOf(Chosen(subs, who), n, e);
    ChosenAndOthers(subs, who, HandleOf(e));
    PlaceListed(Chosen(subs, who), HandleOf(e));
    PlaceListed(subs, HandleOf(e));
  }

  /** Which entries an event adds to the history, other than the commands to the framework: in
      words, what each client is told and when. */
  predicate Gains(m: Machine, op: Op, e: Entry) {
    var place := Place(m.subs, HandleOf(e));
    match op
    case Request(h, _, _) =>
      || e == Requested(h)
      || (e == Joined(h) && place == Out)
      || (e == Opened(h) && m.state == Acquired)
    case Release(h) =>
      && Listed(m.subs, h)
      && (e == Unsubscribed(h) || (e == Closed(h) && !Find(m.subs, h).waitForCloseComplete))
    case ReportOpen => e == SawGranted || (e.Opened? && m.state == Pending && place == In)
    case ReportFailed =>
      || e == SawDenied
      || (e.OpenFailed? && m.state == Pending && place != Out)
      || (e.Closed? && m.state == Releasing && place == Leaving)
    case ReportClosed =>
      || e == SawReleased
      || (e.Closed? && m.state == Acquired && place != Out)
      || (e.Closed? && m.state == Releasing && place == Leaving)
    case ModemRestart => e.Dropped? && place != Out
  }

  predicate IsCommand(e: Entry) {
    e.ConnRequested? || e.ConnReleased?
  }

  predicate Prefix(before: seq<Entry>, after: seq<Entry>) {
    |before| <= |after| && after[..|before|] == before
  }

  /** The history after an event, when what it gains is known. */
  predicate GainsExactly(m: Machine, op: Op, e: Entry) {
    && Prefix(m.log, Step(m, op).log)
    && (e in Step(m, op).log[|m.log|..] <==> Gains(m, op, e))
  }

  lemma Gained(m: Machine, op: Op, gained: seq<Entry>, e: Entry)
    requires Step(m, op).log == m.log + gained && (e in gained <==> Gains(m, op, e))
    ensures GainsExactly(m, op, e)
  {
    hide Step, Gains;
    assert (m.log + gained)[|m.log|..] == gained;
  }

  lemma RequestGains(m: Machine, h: int, wait: bool, t: int, e: Entry)
    requires !IsCommand(e)
    ensures GainsExactly(m, Request(h, wait, t), e)
  {
    PlaceListed(m.subs, h);
    hide Place, Listed;
    var told := if m.state == Acquired then [Opened(h)] else [];
    var joined := if Listed(m.subs, h) then [] else [Joined(h)];
    var asked := if m.state == Released then [ConnRequested(t)] else [];
    var gained := [Requested(h)] + told + joined + asked;
    assert e in gained <==> e == Requested(h) || e in told || e in joined || e in asked;
    assert Step(m, Request(h, wait, t)).log == m.log + gained;
    Gained(m, Request(h, wait, t), gained, e);
  }

  lemma ReleaseGains(m: Machine, h: int, e: Entry)
    requires ListRight(m) && !IsCommand(e)
    ensures GainsExactly(m, Release(h), e)
  {
    PlaceListed(m.subs, h);
    hide Place, Listed, Find, Without, Deactivate, AnyActive, GainsExactly;
    if !Listed(m.subs, h) {
      Gained(m, Release(h), [], e);
    } else {
      var told := if Find(m.subs, h).waitForCloseComplete then [] else [Closed(h)];
      var left := Leave(m, h);
      assert left.log == m.log + ([Unsubscribed(h)] + told);
      var after := ReleaseIfUnused(left);
      var asked := if after.log == left.log then [] else [ConnReleased(m.agpsType)];
      assert after.log == left.log + asked;
      var gained := [Unsubscribed(h)] + told + asked;
      assert e in gained <==> e == Unsubscribed(h) || e in told || e in asked;
      SomebodyListed(m.subs, h);
      assert Step(m, Release(h)).log == m.log + gained;
      Gained(m, Release(h), gained, e);
    }
  }

  lemma SomebodyListed(subs: seq<Subscriber>, h: int)
    requires Listed(subs, h)
    ensures subs != []
  {
  }

  lemma AfterReleaseGains(m: Machine, op: Op, saw: Entry, e: Entry)
    requires m.state == Releasing && Distinct(m.subs) && !IsCommand(e)
    requires (op == ReportFailed && saw == SawDenied) || (op == ReportClosed && saw == SawReleased)
    ensures GainsExactly(m, op, e)
  {
    NoticesReach(m.subs, Close, Inactive, e);
    hide Place, Notices, Chosen, Others, AnyActive, GainsExactly, Distinct, Prefix;
    var told := Notices(Chosen(m.subs, Inactive), Close);
    var asked := if AnyActive(Others(m.subs, Inactive)) then [ConnRequested(m.agpsType)] else [];
    var gained := [saw] + told + asked;
    assert e in gained <==> e == saw || e in told || e in asked;
    assert Step(m, op).log == m.log + gained;
    Gained(m, op, gained, e);
  }

  /** An event that tells some of the list. */
  lemma NoticeGains(m: Machine, op: Op, saw: seq<Entry>, n: Notice, who: Audience, e: Entry)
    requires Distinct(m.subs)
    requires Step(m, op).log == m.log + (saw + Notices(Chosen(m.subs, who), n))
    requires Gains(m, op, e) <==> e in saw || (e == NoticeTo(HandleOf(e), n) && Hit(Place(m.subs, HandleOf(e)), who))
    ensures GainsExactly(m, op, e)
  {
    NoticesReach(m.subs, n, who, e);
    hide GainsExactly, Step, Gains, Notices, Chosen, Place, Hit, NoticeTo;
    Gained(m, op, saw + Notices(Chosen(m.subs, who), n), e);
  }

  lemma ReportGains(m: Machine, op: Op, e: Entry)
    requires ListRight(m) && !IsCommand(e)
    requires op == ReportOpen || (m.state != Releasing && (op == ReportFailed || op == ReportClosed))
    ensures GainsExactly(m, op, e)
  {
    PlaceListed(m.subs, HandleOf(e));
    hide Place, Notices, Chosen, Others, AnyActive, GainsExactly, Distinct, Prefix;
    if m.state == Pending && op == ReportOpen {
      NoticeGains(m, op, [SawGranted], Grant, Active, e);
    } else if m.state == Pending && op == ReportFailed {
      NoticeGains(m, op, [SawDenied], Deny, All, e);
    } else if m.state == Acquired && op == ReportClosed {
      NoticeGains(m, op, [SawReleased], Close, All, e);
    } else {
      var saw := if op == ReportOpen then SawGranted else if op == ReportFailed then SawDenied else SawReleased;
      Gained(m, op, [saw], e);
    }
  }

  lemma RestartGains(m: Machine, e: Entry)
    requires ListRight(m)
    ensures GainsExactly(m, ModemRestart, e)
  {
    PlaceListed(m.subs, HandleOf(e));
    hide Place, Notices, Chosen, Others, GainsExactly, Distinct, Prefix;
    assert [] + Notices(Chosen(m.subs, All), Drop) == Notices(Chosen(m.subs, All), Drop);
    NoticeGains(m, ModemRestart, [], Drop, All, e);
  }

  /** Every event adds exactly these entries to the history, and takes none away. */
  lemma StepGains(m: Machine, op: Op, e: Entry)
    requires ListRight(m) && !IsCommand(e)
    ensures GainsExactly(m, op, e)
  {
    hide GainsExactly;
    if op.Request? {
      RequestGains(m, op.handle, op.waitForCloseComplete, op.agpsType, e);
    } else if op.Release? {
      ReleaseGains(m, op.handle, e);
    } else if m.state == Releasing && (op == ReportFailed || op == ReportClosed) {
      AfterReleaseGains(m, op, if op == ReportFailed then SawDenied else SawReleased, e);
    } else if op == ModemRestart {
      RestartGains(m, e);
    } else {
      ReportGains(m, op, e);
    }
  }

  // ---------- Safety: what every step keeps ----------

  lemma AfterReleaseList(m: Machine)
    requires Distinct(m.subs)
    ensures ListRight(AfterRelease(m))
  {
    OthersDistinct(m.subs, Inactive);
    RestIsActive(m.subs);
  }

  lemma UnsubscribeList(m: Machine, h: int)
    requires ListRight(m) && Listed(m.subs, h)
    ensures ListRight(Unsubscribe(m, h))
  {
    WithoutDistinct(m.subs, h);
    DeactivatedDistinct(m.subs, h);
  }

  lemma SubscribeList(m: Machine, s: Subscriber)
    requires ListRight(m) && !s.inactive
    ensures ListRight(Subscribe(m, s))
  {
  }

  lemma StepKeepsList(m: Machine, op: Op)
    requires ListRight(m)
    ensures ListRight(Step(m, op))
  {
    match op {
      case Request(h, wait, t) =>
        SubscribeList(m.(agpsType := t), Subscriber(h, wait, false));
      case Release(h) =>
        if Listed(m.subs, h) {
          UnsubscribeList(m, h);
        }
      case ReportOpen =>
      case ReportFailed =>
        NobodyLeft(m.subs);
        AfterReleaseList(m.(log := m.log + [SawDenied]));
      case ReportClosed =>
        NobodyLeft(m.subs);
        AfterReleaseList(m.(log := m.log + [SawReleased]));
      case ModemRestart =>
        NobodyLeft(m.subs);
    }
  }

  // ---------- Conservation: no subscription is lost or ended twice ----------

  /** The log and the list agree on every handle.  As a fold that breaks on a doubled or missing
      entry, this says that every subscription put into the list is still there or has left it
      with exactly one open-failed callback, close callback or drop. */
  ghost predicate Conserved(m: Machine) {
    forall h :: LifeOf(m.log, h) == Place(m.subs, h)
  }

  /** Entries that do not move any subscription. */
  predicate Neutral(e: Entry) {
    !e.Joined? && !e.Unsubscribed? && !e.OpenFailed? && !e.Closed? && !e.Dropped?
  }

  lemma NoteConserved(m: Machine, e: Entry)
    requires Conserved(m) && Neutral(e)
    ensures Conserved(m.(log := m.log + [e]))
  {
  }

  lemma AddConserved(m: Machine, s: Subscriber)
    requires Conserved(m) && !s.inactive
    ensures Conserved(Add(m, s))
  {
    if !Listed(m.subs, s.handle) {
      forall h ensures LifeOf(Add(m, s).log, h) == Place(Add(m, s).subs, h) {
        Snoc(m.log, Joined(s.handle), h);
        SnocList(m.subs, s, h);
        PlaceListed(m.subs, h);
      }
    }
  }

  lemma LeaveConserved(m: Machine, h: int)
    requires Conserved(m) && Listed(m.subs, h)
    ensures Conserved(Leave(m, h))
  {
    hide LifeOf, Place, Listed, Deactivate, Without;
    forall x ensures LifeOf(Leave(m, h).log, x) == Place(Leave(m, h).subs, x) {
      Snoc(m.log, Unsubscribed(h), x);
      Snoc(m.log + [Unsubscribed(h)], Closed(h), x);
      PlaceListed(m.subs, x);
      DeactivatedPlace(m.subs, h, x);
      WithoutPlace(m.subs, h, x);
    }
  }

  lemma NotifyConserved(m: Machine, who: Audience)
    requires Conserved(m) && Distinct(m.subs)
    ensures Conserved(NotifyAll(m, Grant, who))
  {
    ChosenDistinct(m.subs, who);
    forall h ensures LifeOf(NotifyAll(m, Grant, who).log, h) == Place(m.subs, h) {
      NoticesLife(m.log, Chosen(m.subs, who), Grant, h);
    }
  }

  lemma DeleteConserved(m: Machine, n: Notice, who: Audience)
    requires Conserved(m) && Distinct(m.subs) && n != Grant
    ensures Conserved(NotifyAndDelete(m, n, who))
  {
    ChosenDistinct(m.subs, who);
    var m' := NotifyAndDelete(m, n, who);
    forall h ensures LifeOf(m'.log, h) == Place(m'.subs, h) {
      ChosenAndOthers(m.subs, who, h);
      PlaceListed(m.subs, h);
      PlaceListed(Chosen(m.subs, who), h);
      NoticesLife(m.log, Chosen(m.subs, who), n, h);
    }
  }

  lemma AfterReleaseConserved(m: Machine)
    requires Conserved(m) && Distinct(m.subs)
    ensures Conserved(AfterRelease(m))
  {
    DeleteConserved(m, Close, Inactive);
    NoteConserved(NotifyAndDelete(m, Close, Inactive), ConnRequested(m.agpsType));
  }

  lemma SubscribeConserved(m: Machine, s: Subscriber)
    requires Conserved(m) && !s.inactive
    ensures Conserved(Subscribe(m, s))
  {
    var asked := m.(log := m.log + [Requested(s.handle)]);
    NoteConserved(m, Requested(s.handle));
    if m.state == Acquired {
      NoteConserved(asked, Opened(s.handle));
      AddConserved(asked.(log := asked.log + [Opened(s.handle)]), s);
    } else {
      AddConserved(asked, s);
      NoteConserved(Add(asked, s), ConnRequested(m.agpsType));
    }
  }

  lemma StepConserves(m: Machine, op: Op)
    requires ListRight(m) && Conserved(m)
    ensures Conserved(Step(m, op))
  {
    match op {
      case Request(h, wait, t) =>
        SubscribeConserved(m.(agpsType := t), Subscriber(h, wait, false));
      case Release(h) =>
        if Listed(m.subs, h) {
          LeaveConserved(m, h);
          NoteConserved(Leave(m, h), ConnReleased(m.agpsType));
        }
      case ReportOpen =>
        NoteConserved(m, SawGranted);
        NotifyConserved(m.(log := m.log + [SawGranted]), Active);
      case ReportFailed =>
        var seen := m.(log := m.log + [SawDenied]);
        NoteConserved(m, SawDenied);
        DeleteConserved(seen, Deny, All);
        AfterReleaseConserved(seen);
      case ReportClosed =>
        var seen := m.(log := m.log + [SawReleased]);
        NoteConserved(m, SawReleased);
        DeleteConserved(seen, Close, All);
        AfterReleaseConserved(seen);
      case ModemRestart =>
        DeleteConserved(m, Drop, All);
    }
  }

  // ---------- What clients were told ----------

  function Due(s: State): Standing {
    if s == Acquired then Told(true) else Waiting
  }

  /** In ACQUIRED every active subscriber has been told that its connection is open since it
      last asked; in PENDING and RELEASING it has been told nothing since. */
  ghost predicate ToldRight(m: Machine) {
    forall h :: Place(m.subs, h) == In ==> StandingOf(m.log, h) == Due(m.state)
  }

  /** Entries that tell no client anything and do not come from one. */
  predicate Quiet(e: Entry) {
    !e.Requested? && !e.Opened? && !e.OpenFailed? && !e.Closed?
  }

  lemma NoteTold(m: Machine, e: Entry)
    requires ToldRight(m) && Quiet(e)
    ensures ToldRight(m.(log := m.log + [e]))
  {
  }

  lemma SubscribeStanding(m: Machine, s: Subscriber, h: int)
    ensures StandingOf(Subscribe(m, s).log, h) ==
      if h != s.handle then StandingOf(m.log, h) else if m.state == Acquired then Told(true) else Waiting
  {
    hide StandingOf, LifeOf, LineOf, Listed;
    var asked := m.log + [Requested(s.handle)];
    var told := if m.state == Acquired then asked + [Opened(s.handle)] else asked;
    var joined := if Listed(m.subs, s.handle) then told else told + [Joined(s.handle)];
    Snoc(m.log, Requested(s.handle), h);
    Snoc(asked, Opened(s.handle), h);
    Snoc(told, Joined(s.handle), h);
    Snoc(joined, ConnRequested(m.agpsType), h);
  }

  lemma SubscribeTold(m: Machine, s: Subscriber)
    requires ListRight(m) && ToldRight(m) && !s.inactive
    ensures ToldRight(Subscribe(m, s))
  {
    var m' := Subscribe(m, s);
    forall h | Place(m'.subs, h) == In ensures StandingOf(m'.log, h) == Due(m'.state) {
      SubscribeStanding(m, s, h);
      SnocList(m.subs, s, h);
    }
  }

  lemma LeaveTold(m: Machine, h: int)
    requires ToldRight(m) && Listed(m.subs, h)
    ensures ToldRight(Leave(m, h))
  {
    var left := Leave(m, h);
    forall x | Place(left.subs, x) == In ensures StandingOf(left.log, x) == Due(m.state) {
      DeactivatedPlace(m.subs, h, x);
      WithoutPlace(m.subs, h, x);
      PlaceListed(m.subs, x);
      Snoc(m.log, Unsubscribed(h), x);
      Snoc(m.log + [Unsubscribed(h)], Closed(h), x);
    }
  }

  lemma AfterReleaseTold(m: Machine)
    requires Distinct(m.subs) && ToldRight(m) && m.state == Releasing
    ensures ToldRight(AfterRelease(m))
  {
    var rest := NotifyAndDelete(m, Close, Inactive).(state := Pending);
    forall h | Place(rest.subs, h) == In ensures StandingOf(rest.log, h) == Waiting {
      ChosenAndOthers(m.subs, Inactive, h);
      PlaceListed(Chosen(m.subs, Inactive), h);
      NoticesStanding(m.log, Chosen(m.subs, Inactive), Close, h);
    }
    NoteTold(rest, ConnRequested(m.agpsType));
  }

  lemma GrantTold(m: Machine)
    requires Distinct(m.subs) && ToldRight(m) && m.state == Pending
    ensures ToldRight(NotifyAll(m, Grant, Active).(state := Acquired))
  {
    var log := NotifyAll(m, Grant, Active).log;
    forall h | Place(m.subs, h) == In ensures StandingOf(log, h) == Told(true) {
      ChosenAndOthers(m.subs, Active, h);
      PlaceListed(Chosen(m.subs, Active), h);
      NoticesStanding(m.log, Chosen(m.subs, Active), Grant, h);
    }
  }

  lemma UnsubscribeTold(m: Machine, h: int)
    requires ListRight(m) && ToldRight(m) && Listed(m.subs, h)
    ensures ToldRight(Unsubscribe(m, h))
  {
    var left := Leave(m, h);
    LeaveTold(m, h);
    NoteTold(left, ConnReleased(m.agpsType));
    if !AnyActive(left.subs) {
      forall x | Place(left.subs, x) == In ensures false {
        ActiveHandle(left.subs, x);
      }
    }
  }

  lemma DeniedTold(m: Machine)
    requires ListRight(m) && ToldRight(m)
    ensures ToldRight(Denied(m))
  {
    NoteTold(m, SawDenied);
    NobodyLeft(m.subs);
    if m.state == Releasing {
      AfterReleaseTold(m.(log := m.log + [SawDenied]));
    }
  }

  lemma ReleasedTold(m: Machine)
    requires ListRight(m) && ToldRight(m)
    ensures ToldRight(ReleasedEvent(m))
  {
    NoteTold(m, SawReleased);
    NobodyLeft(m.subs);
    if m.state == Releasing {
      AfterReleaseTold(m.(log := m.log + [SawReleased]));
    }
  }

  lemma StepTells(m: Machine, op: Op)
    requires ListRight(m) && ToldRight(m)
    ensures ToldRight(Step(m, op))
  {
    match op {
      case Request(h, wait, t) =>
        SubscribeTold(m.(agpsType := t), Subscriber(h, wait, false));
      case Release(h) =>
        if Listed(m.subs, h) {
          UnsubscribeTold(m, h);
        }
      case ReportOpen =>
        NoteTold(m, SawGranted);
        if m.state == Pending {
          GrantTold(m.(log := m.log + [SawGranted]));
        }
      case ReportFailed =>
        DeniedTold(m);
      case ReportClosed =>
        ReleasedTold(m);
      case ModemRestart =>
        NobodyLeft(m.subs);
    }
  }

  // ---------- The framework command line ----------

  /** The line is asked for exactly as long as the machine counts on it. */
  predicate LineRight(m: Machine) {
    var l := LineOf(m.log);
    match m.state
    case Released => l == Idle || l == AskEnded || l == GivenUp
    case Pending | Acquired => l == Asked || l == AskEnded
    case Releasing => l == GivenUp
  }

  lemma NoteLine(log: seq<Entry>, e: Entry)
    ensures LineOf(log + [e]) == LineStep(LineOf(log), e)
  {
  }

  lemma AfterReleaseLine(m: Machine)
    requires LineOf(m.log) == GivenUp
    ensures LineRight(AfterRelease(m))
  {
    NoticesKeepLine(m.log, Chosen(m.subs, Inactive), Close);
    NoteLine(NotifyAndDelete(m, Close, Inactive).log, ConnRequested(m.agpsType));
  }

  lemma SubscribeLine(m: Machine, s: Subscriber)
    requires LineRight(m)
    ensures LineRight(Subscribe(m, s))
  {
    hide LineOf, Listed;
    var asked := m.log + [Requested(s.handle)];
    NoteLine(m.log, Requested(s.handle));
    var told := if m.state == Acquired then asked + [Opened(s.handle)] else asked;
    NoteLine(asked, Opened(s.handle));
    var joined := if Listed(m.subs, s.handle) then told else told + [Joined(s.handle)];
    NoteLine(told, Joined(s.handle));
    NoteLine(joined, ConnRequested(m.agpsType));
  }

  lemma LeaveLine(m: Machine, h: int)
    requires Listed(m.subs, h)
    ensures LineOf(Leave(m, h).log) == LineOf(m.log)
  {
  }

  lemma UnsubscribeLine(m: Machine, h: int)
    requires ListRight(m) && LineRight(m) && Listed(m.subs, h)
    ensures LineRight(Unsubscribe(m, h))
  {
    hide LineOf, Without, Deactivate, AnyActive, Distinct, Find;
    var left := Leave(m, h);
    LeaveLine(m, h);
    NoteLine(left.log, ConnReleased(m.agpsType));
    assert left.agpsType == m.agpsType && m.state != Released;
    assert ReleaseConn(left).log == left.log + [ConnReleased(m.agpsType)];
  }

  lemma DeniedLine(m: Machine)
    requires LineRight(m)
    ensures LineRight(Denied(m))
  {
    NoteLine(m.log, SawDenied);
    NoticesKeepLine(m.log + [SawDenied], Chosen(m.subs, All), Deny);
    if m.state == Releasing {
      AfterReleaseLine(m.(log := m.log + [SawDenied]));
    }
  }

  lemma ReleasedLine(m: Machine)
    requires LineRight(m)
    ensures LineRight(ReleasedEvent(m))
  {
    NoteLine(m.log, SawReleased);
    NoticesKeepLine(m.log + [SawReleased], Chosen(m.subs, All), Close);
    if m.state == Releasing {
      AfterReleaseLine(m.(log := m.log + [SawReleased]));
    }
  }

  lemma StepKeepsLine(m: Machine, op: Op)
    requires ListRight(m) && LineRight(m)
    ensures LineRight(Step(m, op))
  {
    match op {
      case Request(h, wait, t) =>
        SubscribeLine(m.(agpsType := t), Subscriber(h, wait, false));
      case Release(h) =>
        if Listed(m.subs, h) {
          UnsubscribeLine(m, h);
        }
      case ReportOpen =>
        NoteLine(m.log, SawGranted);
        NoticesKeepLine(m.log + [SawGranted], Chosen(m.subs, Active), Grant);
      case ReportFailed =>
        DeniedLine(m);
      case ReportClosed =>
        ReleasedLine(m);
      case ModemRestart =>
        NoticesKeepLine(m.log, Chosen(m.subs, All), Drop);
    }
  }

  lemma {:induction false} BadStays(log: seq<Entry>, n: nat)
    requires n <= |log| && LineOf(log[..n]) == Bad
    ensures LineOf(log) == Bad
    decreases |log| - n
  {
    if n < |log| {
      assert log[..n + 1][..n] == log[..n];
      BadStays(log, n + 1);
    } else {
      assert log[..n] == log;
    }
  }

  /** As long as nothing of the given kind comes after entry i, the line stays as entry i left
      it. */
  lemma {:induction false} LineSince(log: seq<Entry>, i: nat, n: nat, l: Line)
    requires i < n <= |log|
    requires (l == GivenUp && log[i].ConnReleased?) || (l == Asked && log[i].ConnRequested?)
    requires LineOf(log) != Bad
    requires forall k :: i < k < n ==>
      if l == GivenUp then !log[k].ConnRequested? && !log[k].ConnReleased?
      else !log[k].ConnRequested? && !log[k].ConnReleased? && !log[k].SawDenied? && !log[k].SawReleased?
    ensures LineOf(log[..n]) == l
    decreases n
  {
    assert log[..n][..n - 1] == log[..n - 1];
    if n > i + 1 {
      LineSince(log, i, n - 1, l);
    }
    if LineOf(log[..n]) == Bad {
      BadStays(log, n);
    }
  }

  predicate IsEnd(e: Entry, h: int) {
    e == OpenFailed(h) || e == Closed(h) || e == Dropped(h)
  }

  predicate EndsLine(e: Entry) {
    e.ConnReleased? || e.SawDenied? || e.SawReleased?
  }

  lemma {:induction false} ReleasesApart(log: seq<Entry>, i: nat, j: nat)
    requires LineOf(log) != Bad
    requires i < j < |log| && log[i].ConnReleased? && log[j].ConnReleased?
    ensures exists k :: i < k < j && log[k].ConnRequested?
    decreases j
  {
    if k :| i < k < j && log[k].ConnReleased? {
      ReleasesApart(log, i, k);
    } else if forall k :: i < k < j ==> !log[k].ConnRequested? {
      LineSince(log, i, j, GivenUp);
      assert log[..j + 1][..j] == log[..j];
      BadStays(log, j + 1);
    }
  }

  lemma {:induction false} RequestsApart(log: seq<Entry>, i: nat, j: nat)
    requires LineOf(log) != Bad
    requires i < j < |log| && log[i].ConnRequested? && log[j].ConnRequested?
    ensures exists k :: i < k < j && EndsLine(log[k])
    decreases j
  {
    if k :| i < k < j && log[k].ConnRequested? {
      RequestsApart(log, i, k);
    } else if forall k :: i < k < j ==> !EndsLine(log[k]) {
      LineSince(log, i, j, Asked);
      assert log[..j + 1][..j] == log[..j];
      BadStays(log, j + 1);
    }
  }

  lemma {:induction false} BrokenStays(log: seq<Entry>, n: nat, h: int)
    requires n <= |log| && LifeOf(log[..n], h) == Broken
    ensures LifeOf(log, h) == Broken
    decreases |log| - n
  {
    if n < |log| {
      assert log[..n + 1][..n] == log[..n];
      BrokenStays(log, n + 1, h);
    } else {
      assert log[..n] == log;
    }
  }

  lemma {:induction false} LifeSince(log: seq<Entry>, i: nat, n: nat, h: int)
    requires i < n <= |log| && LifeOf(log, h) != Broken
    requires forall k :: i < k < n ==> log[k] != Joined(h) && !IsEnd(log[k], h)
    ensures log[i] == Joined(h) ==> LifeOf(log[..n], h) == In || LifeOf(log[..n], h) == Leaving
    ensures IsEnd(log[i], h) ==> LifeOf(log[..n], h) == Out
    decreases n
  {
    assert log[..n][..n - 1] == log[..n - 1];
    if n > i + 1 {
      LifeSince(log, i, n - 1, h);
    }
    if LifeOf(log[..n], h) == Broken {
      BrokenStays(log, n, h);
    }
  }

  lemma {:induction false} JoinsApart(log: seq<Entry>, i: nat, j: nat, h: int)
    requires LifeOf(log, h) != Broken
    requires i < j < |log| && log[i] == Joined(h) && log[j] == Joined(h)
    ensures exists k :: i < k < j && IsEnd(log[k], h)
    decreases j
  {
    if k :| i < k < j && log[k] == Joined(h) {
      JoinsApart(log, i, k, h);
    } else if forall k :: i < k < j ==> !IsEnd(log[k], h) {
      LifeSince(log, i, j, h);
      assert log[..j + 1][..j] == log[..j];
      BrokenStays(log, j + 1, h);
    }
  }

  lemma {:induction false} EndsApart(log: seq<Entry>, i: nat, j: nat, h: int)
    requires LifeOf(log, h) != Broken
    requires i < j < |log| && IsEnd(log[i], h) && IsEnd(log[j], h)
    ensures exists k :: i < k < j && log[k] == Joined(h)
    decreases j
  {
    if k :| i < k < j && IsEnd(log[k], h) {
      EndsApart(log, i, k, h);
    } else if forall k :: i < k < j ==> log[k] != Joined(h) {
      LifeSince(log, i, j, h);
      assert log[..j + 1][..j] == log[..j];
      BrokenStays(log, j + 1, h);
    }
  }

  // ---------- All runs ----------

  ghost predicate Safe(m: Machine) {
    ListRight(m) && Conserved(m) && ToldRight(m) && LineRight(m)
  }

  lemma StepSafe(m: Machine, op: Op)
    requires Safe(m)
    ensures Safe(Step(m, op))
  {
    StepKeepsList(m, op);
    StepConserves(m, op);
    StepTells(m, op);
    StepKeepsLine(m, op);
  }

  lemma {:induction false} RunFromSafe(m: Machine, ops: seq<Op>)
    requires Safe(m)
    ensures Safe(Run(m, ops))
    decreases |ops|
  {
    if ops != [] {
      StepSafe(m, ops[0]);
      RunFromSafe(Step(m, ops[0]), ops[1..]);
    }
  }

  /** Over every run, modem restarts included. */
  lemma RunSafe(agpsType: int, ops: seq<Op>)
    ensures Safe(Run(Fresh(agpsType), ops))
  {
    RunFromSafe(Fresh(agpsType), ops);
  }

  /** Between two subscriptions of a handle there is an end of the first, and between two ends
      there is a subscription: each subscription ends at most once. */
  lemma RunEndsOnce(agpsType: int, ops: seq<Op>, h: int)
    ensures var log := Run(Fresh(agpsType), ops).log;
      && (forall i, j :: 0 <= i < j < |log| && log[i] == Joined(h) && log[j] == Joined(h) ==>
            exists k :: i < k < j && IsEnd(log[k], h))
      && (forall i, j :: 0 <= i < j < |log| && IsEnd(log[i], h) && IsEnd(log[j], h) ==>
            exists k :: i < k < j && log[k] == Joined(h))
  {
    var m := Run(Fresh(agpsType), ops);
    RunSafe(agpsType, ops);
    assert LifeOf(m.log, h) == Place(m.subs, h);
    PlaceListed(m.subs, h);
    forall i, j | 0 <= i < j < |m.log| && m.log[i] == Joined(h) && m.log[j] == Joined(h)
      ensures exists k :: i < k < j && IsEnd(m.log[k], h)
    {
      JoinsApart(m.log, i, j, h);
    }
    forall i, j | 0 <= i < j < |m.log| && IsEnd(m.log[i], h) && IsEnd(m.log[j], h)
      ensures exists k :: i < k < j && m.log[k] == Joined(h)
    {
      EndsApart(m.log, i, j, h);
    }
  }

  /** The framework never sees two releases without a request between them, nor two requests
      without a release or an end of the connection reported between them. */
  lemma RunCommandsAlternate(agpsType: int, ops: seq<Op>)
    ensures var log := Run(Fresh(agpsType), ops).log;
      && (forall i, j :: 0 <= i < j < |log| && log[i].ConnReleased? && log[j].ConnReleased? ==>
            exists k :: i < k < j && log[k].ConnRequested?)
      && (forall i, j :: 0 <= i < j < |log| && log[i].ConnRequested? && log[j].ConnRequested? ==>
            exists k :: i < k < j && EndsLine(log[k]))
  {
    var m := Run(Fresh(agpsType), ops);
    RunSafe(agpsType, ops);
    forall i, j | 0 <= i < j < |m.log| && m.log[i].ConnReleased? && m.log[j].ConnReleased?
      ensures exists k :: i < k < j && m.log[k].ConnRequested?
    {
      ReleasesApart(m.log, i, j);
    }
    forall i, j | 0 <= i < j < |m.log| && m.log[i].ConnRequested? && m.log[j].ConnRequested?
      ensures exists k :: i < k < j && EndsLine(m.log[k])
    {
      RequestsApart(m.log, i, j);
    }
  }
}
