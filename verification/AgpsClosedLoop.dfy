/** The built-in framework handler, and the loop it closes around the internet state machine.

    The machine's commands reach the handler synchronously; the handler answers with a message
    put at the end of the adapter's queue, to be processed later as an event of the machine. */
module AgpsClosedLoop {
  import opened Agps

  // ---------- The handler ----------

  /** processATLRequestRelease: the event that answers a command, if any. */
  function Answer(c: Command, connected: bool): seq<Op> {
    if c.agpsType != WWAN_ANY then []
    else
      match c
      case Connect(_) => if connected then [ReportOpen] else [ReportFailed]
      case Disconnect(_) => [ReportClosed]
  }

  function Answers(commands: seq<Command>, connected: bool): seq<Op> {
    if commands == [] then [] else Answer(commands[0], connected) + Answers(commands[1..], connected)
  }

  lemma AnswerToOne(connected: bool)
    ensures Answers([Connect(WWAN_ANY)], connected) == [if connected then ReportOpen else ReportFailed]
    ensures Answers([Disconnect(WWAN_ANY)], connected) == [ReportClosed]
    ensures Answers([], connected) == []
  {
    assert [Connect(WWAN_ANY)][1..] == [] && [Disconnect(WWAN_ANY)][1..] == [];
  }

  // ---------- The loop ----------

  datatype World = World(machine: Machine, queue: seq<Op>)

  /** The machine processes one event, and the handler answers the commands it issues. */
  function Process(w: World, op: Op, connected: bool): World {
    var m := Step(w.machine, op);
    StepIssues(w.machine, op);
    World(m, w.queue + Answers(m.issued[|w.machine.issued|..], connected))
  }

  datatype Action = Asks(handle: int) | Leaves(handle: int) | Restart | Deliver

  /** requestATL makes every subscriber wait for the close. */
  function Act(w: World, a: Action, connected: bool): World {
    match a
    case Asks(h) => Process(w, Request(h, true, WWAN_ANY), connected)
    case Leaves(h) => Process(w, Release(h), connected)
    case Restart => Process(w, ModemRestart, connected)
    case Deliver => if w.queue == [] then w else Process(w.(queue := w.queue[1..]), w.queue[0], connected)
  }

  /** An action, and whether the network is connected while the handler answers it. */
  datatype Turn = Turn(action: Action, connected: bool)

  function RunLoop(w: World, turns: seq<Turn>): World
    decreases |turns|
  {
    if turns == [] then w else RunLoop(Act(w, turns[0].action, turns[0].connected), turns[1..])
  }

  const Start := World(Fresh(WWAN_ANY), [])

  // ---------- The commands of a step ----------

  function Issues(m: Machine, op: Op): seq<Command> {
    match op
    case Request(_, _, t) => if m.state == Released then [Connect(t)] else []
    case Release(h) =>
      if Listed(m.subs, h) && (m.state == Pending || m.state == Acquired) && !AnyActive(Leave(m, h).subs)
      then [Disconnect(m.agpsType)] else []
    case ReportOpen => []
    case ReportFailed =>
      if m.state == Releasing && AnyActive(Others(m.subs, Inactive)) then [Connect(m.agpsType)] else []
    case ReportClosed =>
      if m.state == Releasing && AnyActive(Others(m.subs, Inactive)) then [Connect(m.agpsType)] else []
    case ModemRestart => []
  }

  lemma StepIssues(m: Machine, op: Op)
    ensures Step(m, op).issued == m.issued + Issues(m, op)
  {
  }

  predicate OfWwan(op: Op) {
    op.Request? ==> op.agpsType == WWAN_ANY
  }

  /** The events a step calls for. */
  lemma ProcessQueues(w: World, op: Op, connected: bool)
    requires w.machine.agpsType == WWAN_ANY && OfWwan(op)
    ensures Process(w, op, connected).machine.agpsType == WWAN_ANY
    ensures Process(w, op, connected).queue == w.queue + Answers(Issues(w.machine, op), connected)
  {
    StepIssues(w.machine, op);
    assert Step(w.machine, op).issued[|w.machine.issued|..] == Issues(w.machine, op);
  }

  // ---------- The shape of the queue is fixed by the state ----------

  predicate AllWait(subs: seq<Subscriber>) {
    subs != [] ==> subs[|subs| - 1].waitForCloseComplete && AllWait(subs[..|subs| - 1])
  }

  predicate Shape(w: World) {
    && w.machine.agpsType == WWAN_ANY
    && AllWait(w.machine.subs)
    && ListRight(w.machine)
    && match w.machine.state
       case Released => w.queue == []
       case Acquired => w.queue == []
       case Pending => w.queue == [ReportOpen]
       case Releasing => w.queue == [ReportClosed] || w.queue == [ReportOpen, ReportClosed]
  }

  lemma SnocWait(subs: seq<Subscriber>, s: Subscriber)
    ensures AllWait(subs + [s]) <==> s.waitForCloseComplete && AllWait(subs)
  {
  }

  lemma {:induction false} OthersWait(subs: seq<Subscriber>, who: Audience)
    requires AllWait(subs)
    ensures AllWait(Others(subs, who))
  {
    if subs != [] {
      OthersWait(subs[..|subs| - 1], who);
      SnocWait(Others(subs[..|subs| - 1], who), subs[|subs| - 1]);
    }
  }

  lemma {:induction false} DeactivatedWait(subs: seq<Subscriber>, h: int)
    requires AllWait(subs)
    ensures AllWait(Deactivate(subs, h))
    ensures Listed(subs, h) ==> Find(subs, h).waitForCloseComplete
  {
    if subs != [] {
      var front, last := subs[..|subs| - 1], subs[|subs| - 1];
      DeactivatedWait(front, h);
      SnocWait(Deactivate(front, h), if last.handle == h then last.(inactive := true) else last);
    }
  }

  /** With waiting subscribers a release leaves the list as long as it was. */
  lemma LeaveWaits(m: Machine, h: int)
    requires AllWait(m.subs) && Listed(m.subs, h)
    ensures AllWait(Leave(m, h).subs) && Leave(m, h).subs != []
  {
    DeactivatedWait(m.subs, h);
    DeactivatedPlace(m.subs, h, h);
  }

  lemma StepKeepsWaiting(m: Machine, op: Op)
    requires ListRight(m) && AllWait(m.subs)
    requires op.Request? ==> op.waitForCloseComplete
    ensures AllWait(Step(m, op).subs)
  {
    match op {
      case Request(h, wait, _) =>
        SnocWait(m.subs, Subscriber(h, wait, false));
      case Release(h) =>
        if Listed(m.subs, h) {
          LeaveWaits(m, h);
        }
      case ReportOpen =>
      case ReportFailed =>
        NobodyLeft(m.subs);
        OthersWait(m.subs, Inactive);
      case ReportClosed =>
        NobodyLeft(m.subs);
        OthersWait(m.subs, Inactive);
      case ModemRestart =>
        NobodyLeft(m.subs);
    }
  }

  function EventOf(w: World, a: Action): Op
    requires a.Deliver? ==> w.queue != []
  {
    match a
    case Asks(h) => Request(h, true, WWAN_ANY)
    case Leaves(h) => Release(h)
    case Restart => ModemRestart
    case Deliver => w.queue[0]
  }

  /** Does the action make the machine ask the framework for the connection. */
  predicate Connects(w: World, a: Action) {
    !(a.Deliver? && w.queue == []) && Connect(WWAN_ANY) in Issues(w.machine, EventOf(w, a))
  }

  /** What an action leaves, apart from the state. */
  lemma ActParts(w: World, a: Action, connected: bool)
    requires w.machine.agpsType == WWAN_ANY && AllWait(w.machine.subs) && ListRight(w.machine)
    requires a.Deliver? ==> w.queue != [] && !w.queue[0].Request?
    ensures var next := Act(w, a, connected);
      && next.machine.agpsType == WWAN_ANY && AllWait(next.machine.subs) && ListRight(next.machine)
      && next.machine == Step(w.machine, EventOf(w, a))
      && next.queue == (if a.Deliver? then w.queue[1..] else w.queue) +
           Answers(Issues(w.machine, EventOf(w, a)), connected)
  {
    var op := EventOf(w, a);
    StepKeepsList(w.machine, op);
    StepKeepsWaiting(w.machine, op);
    ProcessQueues(w, op, connected);
    ProcessQueues(w.(queue := if w.queue == [] then [] else w.queue[1..]), op, connected);
    hide AllWait, ListRight, Answers, Process, Issues, Step;
  }

  lemma RequestShape(w: World, h: int, connected: bool)
    requires Shape(w)
    ensures Shape(Act(w, Asks(h), connected)) <==> connected || !Connects(w, Asks(h))
  {
    ActParts(w, Asks(h), connected);
    AnswerToOne(connected);
    hide AllWait, ListRight, Answers, Add, Act;
    var next := Act(w, Asks(h), connected);
    if w.machine.state == Released {
      assert next.machine.state == Pending && next.queue == [if connected then ReportOpen else ReportFailed];
      assert next.queue[0] == if connected then ReportOpen else ReportFailed;
    } else {
      assert next.machine.state == w.machine.state && next.queue == w.queue;
    }
  }

  /** With waiting subscribers a release either changes neither state nor commands, or gives an
      asked-for connection up. */
  lemma ReleaseStates(m: Machine, h: int)
    requires AllWait(m.subs) && ListRight(m) && m.agpsType == WWAN_ANY
    ensures var m' := Step(m, Release(h));
      || (m'.state == m.state && Issues(m, Release(h)) == [])
      || (&& (m.state == Pending || m.state == Acquired)
          && m'.state == Releasing && Issues(m, Release(h)) == [Disconnect(WWAN_ANY)])
  {
    if Listed(m.subs, h) {
      LeaveWaits(m, h);
      hide AllWait, ListRight, Leave, AnyActive, Listed;
    }
  }

  /** What a release leaves: nothing changes, or a wanted connection is given up and its close is
      awaited. */
  lemma ReleaseParts(w: World, h: int, connected: bool)
    requires w.machine.agpsType == WWAN_ANY && AllWait(w.machine.subs) && ListRight(w.machine)
    ensures var m, next := w.machine, Act(w, Leaves(h), connected);
      && next.machine.agpsType == WWAN_ANY && AllWait(next.machine.subs) && ListRight(next.machine)
      && !Connects(w, Leaves(h))
      && (|| (next.machine.state == m.state && next.queue == w.queue)
          || (&& (m.state == Pending || m.state == Acquired)
              && next.machine.state == Releasing && next.queue == w.queue + [ReportClosed]))
  {
    ActParts(w, Leaves(h), connected);
    AnswerToOne(connected);
    ReleaseStates(w.machine, h);
    hide AllWait, ListRight, Answers, Act, Issues, Step;
    assert w.queue + [] == w.queue;
  }

  lemma ReleaseShape(w: World, h: int, connected: bool)
    requires Shape(w)
    ensures Shape(Act(w, Leaves(h), connected)) && !Connects(w, Leaves(h))
  {
    ReleaseParts(w, h, connected);
    hide AllWait, ListRight, Answers, Act, Issues, Step;
  }

  lemma OpenShape(w: World, connected: bool)
    requires Shape(w) && w.queue != [] && w.queue[0] == ReportOpen
    ensures Shape(Act(w, Deliver, connected)) && !Connects(w, Deliver)
  {
    ActParts(w, Deliver, connected);
    AnswerToOne(connected);
    hide AllWait, ListRight, Answers, Act;
  }

  lemma CloseShape(w: World, connected: bool)
    requires Shape(w) && w.queue != [] && w.queue[0] == ReportClosed
    ensures Shape(Act(w, Deliver, connected)) <==> connected || !Connects(w, Deliver)
  {
    ActParts(w, Deliver, connected);
    AnswerToOne(connected);
    hide AllWait, ListRight, Answers, Act, Others, Chosen, Notices;
    assert w.machine.state == Releasing && w.queue == [ReportClosed];
    var next := Act(w, Deliver, connected);
    if AnyActive(Others(w.machine.subs, Inactive)) {
      assert next.machine.state == Pending && next.queue == [if connected then ReportOpen else ReportFailed];
      assert next.queue[0] == if connected then ReportOpen else ReportFailed;
    } else {
      assert next.machine.state == Released && next.queue == [];
    }
  }

  /** A modem restart empties the list and changes neither the state nor what is under way. */
  lemma RestartEmptiesList(w: World, connected: bool, h: int)
    ensures var next := Act(w, Restart, connected);
      && Place(next.machine.subs, h) == Out
      && next.machine.state == w.machine.state && next.queue == w.queue
  {
    RestartDropsAll(w.machine);
    AnswerToOne(connected);
    hide Step, Answers;
    assert w.machine.issued[|w.machine.issued|..] == [];
  }

  lemma RestartShape(w: World, connected: bool)
    requires Shape(w)
    ensures Shape(Act(w, Restart, connected)) && !Connects(w, Restart)
  {
    ActParts(w, Restart, connected);
    AnswerToOne(connected);
    hide AllWait, ListRight, Answers, Act;
  }

  /** The shape is kept exactly unless the machine asks for the connection while the network is
      lost. */
  lemma ActShapeIff(w: World, a: Action, connected: bool)
    requires Shape(w)
    ensures Shape(Act(w, a, connected)) <==> connected || !Connects(w, a)
  {
    hide Act, ListRight, AllWait;
    match a {
      case Asks(h) => RequestShape(w, h, connected);
      case Leaves(h) => ReleaseShape(w, h, connected);
      case Restart => RestartShape(w, connected);
      case Deliver =>
        if w.queue == [] {
          NothingToDeliver(w, connected);
        } else if w.queue[0] == ReportOpen {
          OpenShape(w, connected);
        } else {
          CloseShape(w, connected);
        }
    }
  }

  lemma NothingToDeliver(w: World, connected: bool)
    requires w.queue == []
    ensures Act(w, Deliver, connected) == w
  {
  }

  /** The network may come and go, but is there whenever the machine asks for the connection. */
  predicate ConnectsOnline(w: World, turns: seq<Turn>)
    decreases |turns|
  {
    turns != [] ==>
      var t := turns[0];
      (t.connected || !Connects(w, t.action)) && ConnectsOnline(Act(w, t.action, t.connected), turns[1..])
  }

  // ---------- Nobody is denied, nobody is closed against its will ----------

  /** No open-failed callback and no denial anywhere in the log, and a close callback only for a
      subscriber that has given its subscription up. */
  predicate Willing(log: seq<Entry>) {
    log != [] ==>
      && Willing(log[..|log| - 1])
      && !log[|log| - 1].OpenFailed? && !log[|log| - 1].SawDenied?
      && (log[|log| - 1].Closed? ==> LifeOf(log[..|log| - 1], log[|log| - 1].handle) == Leaving)
  }

  predicate Harmless(e: Entry) {
    !e.OpenFailed? && !e.SawDenied? && !e.Closed?
  }

  lemma SnocWilling(log: seq<Entry>, e: Entry)
    requires Willing(log)
    requires Harmless(e) || (e.Closed? && LifeOf(log, e.handle) == Leaving)
    ensures Willing(log + [e])
  {
  }

  lemma {:induction false} CloseWilling(log: seq<Entry>, subs: seq<Subscriber>)
    requires Willing(log) && Distinct(subs)
    requires forall h :: Listed(subs, h) ==> LifeOf(log, h) == Leaving
    ensures Willing(log + Notices(subs, Close))
  {
    if subs == [] {
      assert log + [] == log;
    } else {
      var front, last := subs[..|subs| - 1], subs[|subs| - 1];
      CloseWilling(log, front);
      NoticesLife(log, front, Close, last.handle);
      NoticeSnoc(log, subs, Close);
      SnocWilling(log + Notices(front, Close), Closed(last.handle));
    }
  }

  /** The other notices do not depend on anything. */
  lemma {:induction false} NoticesWilling(log: seq<Entry>, subs: seq<Subscriber>, n: Notice)
    requires Willing(log) && (n == Grant || n == Drop)
    ensures Willing(log + Notices(subs, n))
  {
    if subs == [] {
      assert log + [] == log;
    } else {
      NoticesWilling(log, subs[..|subs| - 1], n);
      NoticeSnoc(log, subs, n);
      SnocWilling(log + Notices(subs[..|subs| - 1], n), NoticeTo(subs[|subs| - 1].handle, n));
    }
  }

  lemma AfterReleaseWilling(m: Machine)
    requires Willing(m.log) && Distinct(m.subs) && Conserved(m)
    ensures Willing(AfterRelease(m).log)
  {
    var leaving := Chosen(m.subs, Inactive);
    ChosenDistinct(m.subs, Inactive);
    forall h | Listed(leaving, h) ensures LifeOf(m.log, h) == Leaving {
      ChosenAndOthers(m.subs, Inactive, h);
      PlaceListed(leaving, h);
    }
    CloseWilling(m.log, leaving);
    SnocWilling(NotifyAndDelete(m, Close, Inactive).log, ConnRequested(m.agpsType));
  }

  lemma SubscribeWilling(m: Machine, s: Subscriber)
    requires Willing(m.log)
    ensures Willing(Subscribe(m, s).log)
  {
    hide Willing, LifeOf, Listed;
    var asked := m.log + [Requested(s.handle)];
    SnocWilling(m.log, Requested(s.handle));
    SnocWilling(asked, Opened(s.handle));
    var told := if m.state == Acquired then asked + [Opened(s.handle)] else asked;
    SnocWilling(told, Joined(s.handle));
    var joined := if Listed(m.subs, s.handle) then told else told + [Joined(s.handle)];
    SnocWilling(joined, ConnRequested(m.agpsType));
  }

  lemma UnsubscribeWilling(m: Machine, h: int)
    requires Willing(m.log) && ListRight(m) && Listed(m.subs, h)
    requires AllWait(m.subs)
    ensures Willing(Unsubscribe(m, h).log)
  {
    DeactivatedWait(m.subs, h);
    assert m.state != Released by {
      assert Listed([], h) == false;
    }
    hide AllWait, ListRight, Listed, Deactivate, AnyActive, Willing, LifeOf;
    var left := Leave(m, h);
    assert left.log == m.log + [Unsubscribed(h)];
    SnocWilling(m.log, Unsubscribed(h));
    SnocWilling(left.log, ConnReleased(m.agpsType));
    hide Leave;
  }

  /** What the loop keeps: the shape, the safety of the machine, and that nobody is wronged. */
  ghost predicate LoopRight(w: World) {
    Shape(w) && Safe(w.machine) && Willing(w.machine.log)
  }

  lemma StepWilling(w: World, op: Op)
    requires LoopRight(w) && op != ReportFailed
    requires op == ReportClosed ==> w.machine.state == Releasing
    ensures Willing(Step(w.machine, op).log)
  {
    var m := w.machine;
    match op {
      case Request(h, wait, t) =>
        SubscribeWilling(m.(agpsType := t), Subscriber(h, wait, false));
      case Release(h) =>
        if Listed(m.subs, h) {
          UnsubscribeWilling(m, h);
        }
      case ReportOpen =>
        SnocWilling(m.log, SawGranted);
        NoticesWilling(m.log + [SawGranted], Chosen(m.subs, Active), Grant);
      case ReportClosed =>
        SnocWilling(m.log, SawReleased);
        NoteConserved(m, SawReleased);
        AfterReleaseWilling(m.(log := m.log + [SawReleased]));
      case ModemRestart =>
        NoticesWilling(m.log, Chosen(m.subs, All), Drop);
    }
  }

  lemma ActRight(w: World, a: Action, connected: bool)
    requires LoopRight(w) && (connected || !Connects(w, a))
    ensures LoopRight(Act(w, a, connected))
  {
    ActShapeIff(w, a, connected);
    if a.Deliver? && w.queue == [] {
      NothingToDeliver(w, connected);
    } else {
      ActSteps(w, a, connected);
      StepSafe(w.machine, EventOf(w, a));
      StepWilling(w, EventOf(w, a));
      hide Safe, Willing, Act;
    }
  }

  lemma ActSteps(w: World, a: Action, connected: bool)
    requires !(a.Deliver? && w.queue == [])
    ensures Act(w, a, connected).machine == Step(w.machine, EventOf(w, a))
  {
  }

  lemma {:induction false} LoopFromRight(w: World, turns: seq<Turn>)
    requires LoopRight(w) && ConnectsOnline(w, turns)
    ensures LoopRight(RunLoop(w, turns))
    decreases |turns|
  {
    if turns != [] {
      hide LoopRight, Act, Connects;
      ActRight(w, turns[0].action, turns[0].connected);
      LoopFromRight(Act(w, turns[0].action, turns[0].connected), turns[1..]);
    }
  }

  /** Over every run of client requests, releases, modem restarts and deliveries, in any order,
      with the network there whenever the machine asks for the connection. */
  lemma LoopIsRight(turns: seq<Turn>)
    requires ConnectsOnline(Start, turns)
    ensures LoopRight(RunLoop(Start, turns))
  {
    LoopFromRight(Start, turns);
  }

  // ---------- The loop settles ----------

  function Deliveries(online: seq<bool>): seq<Turn> {
    if online == [] then [] else [Turn(Deliver, online[0])] + Deliveries(online[1..])
  }

  /** How many deliveries are needed. */
  function Backlog(w: World): nat {
    match w.machine.state
    case Released => 0
    case Acquired => 0
    case Pending => 1
    case Releasing => |w.queue| + if AnyActive(Others(w.machine.subs, Inactive)) then 1 else 0
  }

  predicate Settled(w: World) {
    w.queue == [] && (w.machine.state == Acquired || w.machine.state == Released)
  }

  lemma DeliveryMakesProgress(w: World, connected: bool)
    requires LoopRight(w) && !Settled(w) && (connected || !Connects(w, Deliver))
    ensures Backlog(Act(w, Deliver, connected)) == Backlog(w) - 1
  {
    ProcessQueues(w.(queue := w.queue[1..]), w.queue[0], connected);
  }

  lemma OtherAsks(m: Machine, x: int, h: int)
    requires x != h
    ensures Place(Step(m, Request(x, true, WWAN_ANY)).subs, h) == Place(m.subs, h)
  {
    SnocList(m.subs, Subscriber(x, true, false), h);
  }

  lemma OtherLeaves(m: Machine, x: int, h: int)
    requires AllWait(m.subs) && ListRight(m) && x != h
    ensures Place(Step(m, Release(x)).subs, h) == Place(m.subs, h)
  {
    if Listed(m.subs, x) {
      DeactivatedWait(m.subs, x);
      DeactivatedPlace(m.subs, x, h);
      hide AllWait, ListRight, Place, Listed, AnyActive, Deactivate;
    }
  }

  lemma AnswerKeepsActive(w: World, h: int)
    requires Shape(w) && w.queue != []
    ensures Place(Step(w.machine, w.queue[0]).subs, h) == In <==> Place(w.machine.subs, h) == In
  {
    ChosenAndOthers(w.machine.subs, Inactive, h);
    hide AllWait, Place, AnyActive, Others, Chosen, Notices, Distinct;
    if w.queue[0] == ReportOpen {
      assert Step(w.machine, ReportOpen).subs == w.machine.subs;
    } else {
      assert w.queue[0] == ReportClosed && w.machine.state == Releasing;
      assert Step(w.machine, ReportClosed).subs == Others(w.machine.subs, Inactive);
    }
  }

  /** What others do, and deliveries, neither end nor renew a client's active subscription. */
  lemma OthersKeepActive(w: World, a: Action, connected: bool, h: int)
    requires LoopRight(w) && a != Asks(h) && a != Leaves(h) && a != Restart
    ensures Place(Act(w, a, connected).machine.subs, h) == In <==> Place(w.machine.subs, h) == In
  {
    if a.Deliver? && w.queue == [] {
      NothingToDeliver(w, connected);
    } else {
      ActSteps(w, a, connected);
      hide Act, Step, Place, Safe, Willing;
      match a {
        case Asks(x) => OtherAsks(w.machine, x, h);
        case Leaves(x) => OtherLeaves(w.machine, x, h);
        case Deliver => AnswerKeepsActive(w, h);
      }
    }
  }

  /** A client that asks is listed as active, unless it still waits for the close of what it gave
      up before. */
  lemma AskingIsActive(w: World, connected: bool, h: int)
    requires LoopRight(w)
    ensures Place(Act(w, Asks(h), connected).machine.subs, h) == In <==> Place(w.machine.subs, h) != Leaving
  {
    ActSteps(w, Asks(h), connected);
    PlaceListed(w.machine.subs, h);
    SnocList(w.machine.subs, Subscriber(h, true, false), h);
  }

  lemma {:induction false} SettlesInBacklog(w: World, online: seq<bool>, h: int)
    requires LoopRight(w) && |online| >= Backlog(w) && ConnectsOnline(w, Deliveries(online))
    ensures var end := RunLoop(w, Deliveries(online));
      Settled(end) && LoopRight(end) && (Place(end.machine.subs, h) == In <==> Place(w.machine.subs, h) == In)
    decreases |online|
  {
    if online != [] {
      var next := Act(w, Deliver, online[0]);
      assert Deliveries(online)[1..] == Deliveries(online[1..]);
      ActRight(w, Deliver, online[0]);
      OthersKeepActive(w, Deliver, online[0], h);
      if Settled(w) {
        NothingToDeliver(w, online[0]);
      } else {
        DeliveryMakesProgress(w, online[0]);
      }
      hide LoopRight, Act, Connects, Place, Settled;
      SettlesInBacklog(next, online[1..], h);
    }
  }

  /** The client is listed as active and was told of the open connection. */
  predicate HoldsOpen(m: Machine, h: int) {
    m.state == Acquired && Place(m.subs, h) == In && StandingOf(m.log, h) == Told(true)
  }

  /** With no further client commands the loop drains within three deliveries, and then exactly
      the subscribers that were active hold an open connection. */
  lemma {:induction false} LoopSettles(turns: seq<Turn>, online: seq<bool>, h: int)
    requires ConnectsOnline(Start, turns) && ConnectsOnline(RunLoop(Start, turns), Deliveries(online))
    ensures var w := RunLoop(Start, turns);
      && Backlog(w) <= 3
      && (|online| >= Backlog(w) ==>
            var end := RunLoop(w, Deliveries(online));
            Settled(end) && (HoldsOpen(end.machine, h) <==> Place(w.machine.subs, h) == In))
  {
    var w := RunLoop(Start, turns);
    LoopIsRight(turns);
    if |online| >= Backlog(w) {
      SettlesInBacklog(w, online, h);
    }
  }

  /** Neither the client itself acts, nor does the modem restart. */
  predicate LeaveAlone(turns: seq<Turn>, h: int) {
    forall t :: t in turns ==> t.action != Asks(h) && t.action != Leaves(h) && t.action != Restart
  }

  lemma {:induction false} OthersTurns(w: World, turns: seq<Turn>, h: int)
    requires LoopRight(w) && ConnectsOnline(w, turns) && LeaveAlone(turns, h)
    ensures LoopRight(RunLoop(w, turns))
    ensures Place(RunLoop(w, turns).machine.subs, h) == In <==> Place(w.machine.subs, h) == In
    decreases |turns|
  {
    if turns != [] {
      var t := turns[0];
      assert t in turns;
      ActRight(w, t.action, t.connected);
      OthersKeepActive(w, t.action, t.connected, h);
      hide LoopRight, Act, Connects, Place;
      OthersTurns(Act(w, t.action, t.connected), turns[1..], h);
    }
  }

  /** What a request leads to: whatever the others do after it, once the loop has drained the
      client holds an open connection if and only if it was not waiting for the close of an
      earlier one when it asked.  A client that asks again before it has seen that close is not
      listed anew, and loses its request with the close. */
  lemma {:induction false} RequestIsServedIff(w: World, h: int, connected: bool, turns: seq<Turn>, online: seq<bool>)
    requires LoopRight(w) && LeaveAlone(turns, h)
    requires ConnectsOnline(w, [Turn(Asks(h), connected)] + turns)
    requires var last := RunLoop(Act(w, Asks(h), connected), turns);
      ConnectsOnline(last, Deliveries(online)) && |online| >= Backlog(last)
    ensures var end := RunLoop(RunLoop(Act(w, Asks(h), connected), turns), Deliveries(online));
      Settled(end) && (HoldsOpen(end.machine, h) <==> Place(w.machine.subs, h) != Leaving)
  {
    assert ([Turn(Asks(h), connected)] + turns)[1..] == turns;
    ActRight(w, Asks(h), connected);
    AskingIsActive(w, connected, h);
    var asked := Act(w, Asks(h), connected);
    OthersTurns(asked, turns, h);
    SettlesInBacklog(RunLoop(asked, turns), online, h);
    hide Act, Connects, RunLoop;
  }

  // ---------- When the network may be lost at any time ----------

  /** The answers are in step with the state: an open or a failure for a connection asked for, and
      a close after it once the connection is given up. */
  predicate Aligned(w: World) {
    && w.machine.agpsType == WWAN_ANY
    && AllWait(w.machine.subs)
    && ListRight(w.machine)
    && match w.machine.state
       case Released => w.queue == []
       case Acquired => w.queue == []
       case Pending => w.queue == [ReportOpen] || w.queue == [ReportFailed]
       case Releasing =>
         || w.queue == [ReportClosed]
         || w.queue == [ReportOpen, ReportClosed]
         || w.queue == [ReportFailed, ReportClosed]
  }

  /** A failure that comes only after everyone has given the connection up. */
  predicate ComesTooLate(w: World, a: Action) {
    a.Deliver? && w.queue != [] && w.queue[0] == ReportFailed && w.machine.state == Releasing
  }

  lemma RequestAligned(w: World, h: int, connected: bool)
    requires Aligned(w)
    ensures Aligned(Act(w, Asks(h), connected))
  {
    ActParts(w, Asks(h), connected);
    AnswerToOne(connected);
    hide AllWait, ListRight, Answers, Add, Act;
    var next := Act(w, Asks(h), connected);
    if w.machine.state == Released {
      assert next.machine.state == Pending && next.queue == [if connected then ReportOpen else ReportFailed];
    } else {
      assert next.machine.state == w.machine.state && next.queue == w.queue;
    }
  }

  lemma ReleaseAligned(w: World, h: int, connected: bool)
    requires Aligned(w)
    ensures Aligned(Act(w, Leaves(h), connected))
  {
    ReleaseParts(w, h, connected);
    hide AllWait, ListRight, Answers, Act, Issues, Step;
  }

  lemma RestartAligned(w: World, connected: bool)
    requires Aligned(w)
    ensures Aligned(Act(w, Restart, connected))
  {
    ActParts(w, Restart, connected);
    AnswerToOne(connected);
    hide AllWait, ListRight, Answers, Act;
    assert Act(w, Restart, connected).queue == w.queue;
  }

  lemma OpenAligned(w: World, connected: bool)
    requires Aligned(w) && w.queue != [] && w.queue[0] == ReportOpen
    ensures Aligned(Act(w, Deliver, connected))
  {
    ActParts(w, Deliver, connected);
    AnswerToOne(connected);
    hide AllWait, ListRight, Answers, Act;
  }

  lemma CloseAligned(w: World, connected: bool)
    requires Aligned(w) && w.queue != [] && w.queue[0] == ReportClosed
    ensures Aligned(Act(w, Deliver, connected))
  {
    ActParts(w, Deliver, connected);
    AnswerToOne(connected);
    hide AllWait, ListRight, Answers, Act;
    assert w.machine.state == Releasing && w.queue == [ReportClosed];
  }

  lemma FailureAligned(w: World, connected: bool)
    requires Aligned(w) && w.queue != [] && w.queue[0] == ReportFailed
    ensures Aligned(Act(w, Deliver, connected)) <==> w.machine.state != Releasing
  {
    ActParts(w, Deliver, connected);
    AnswerToOne(connected);
    NobodyLeft(w.machine.subs);
    hide AllWait, ListRight, Answers, Act, Others, Chosen, Notices;
    var next := Act(w, Deliver, connected);
    if w.machine.state == Releasing {
      assert w.queue == [ReportFailed, ReportClosed] && next.queue[0] == ReportClosed;
      assert next.machine.state == Pending || next.machine.state == Released;
    } else {
      assert w.queue == [ReportFailed];
    }
  }

  /** Whatever the network does, the answers fall out of step at exactly one point: when a failure
      is delivered in RELEASING, and is taken for the close that is still to come. */
  lemma ActAlignedIff(w: World, a: Action, connected: bool)
    requires Aligned(w)
    ensures Aligned(Act(w, a, connected)) <==> !ComesTooLate(w, a)
  {
    hide Act, AllWait, ListRight;
    match a {
      case Asks(h) => RequestAligned(w, h, connected);
      case Leaves(h) => ReleaseAligned(w, h, connected);
      case Restart => RestartAligned(w, connected);
      case Deliver =>
        if w.queue == [] {
          NothingToDeliver(w, connected);
        } else if w.queue[0] == ReportFailed {
          FailureAligned(w, connected);
        } else if w.queue[0] == ReportOpen {
          OpenAligned(w, connected);
        } else {
          CloseAligned(w, connected);
        }
    }
  }

  predicate NoneTooLate(w: World, turns: seq<Turn>)
    decreases |turns|
  {
    turns != [] ==>
      !ComesTooLate(w, turns[0].action) && NoneTooLate(Act(w, turns[0].action, turns[0].connected), turns[1..])
  }

  lemma {:induction false} RunAligned(w: World, turns: seq<Turn>)
    requires Aligned(w) && NoneTooLate(w, turns)
    ensures Aligned(RunLoop(w, turns))
    decreases |turns|
  {
    if turns != [] {
      hide Aligned, Act, ComesTooLate;
      ActAlignedIff(w, turns[0].action, turns[0].connected);
      RunAligned(Act(w, turns[0].action, turns[0].connected), turns[1..]);
    }
  }

  // ---------- Why the network has to stay connected ----------

  /** The state and the queue of a run, without its log. */
  ghost predicate Is(w: World, state: State, subs: seq<Subscriber>, queue: seq<Op>) {
    w.machine.state == state && w.machine.subs == subs && w.queue == queue && w.machine.agpsType == WWAN_ANY
  }

  const One := Subscriber(1, true, false)
  const OneGone := Subscriber(1, true, true)
  const Two := Subscriber(2, true, false)

  lemma AskedWithoutNetwork(w: World)
    requires Is(w, Released, [], [])
    ensures Is(Act(w, Asks(1), false), Pending, [One], [ReportFailed])
  {
    ProcessQueues(w, Request(1, true, WWAN_ANY), false);
  }

  lemma GivenUpBeforeTheAnswer(w: World)
    requires Is(w, Pending, [One], [ReportFailed])
    ensures Is(Act(w, Leaves(1), false), Releasing, [OneGone], [ReportFailed, ReportClosed])
  {
    assert Listed([One], 1) && !Listed([], 1) && Find([One], 1) == One;
    assert [One][..0] == [] && Deactivate([One], 1) == [OneGone];
    assert !AnyActive([OneGone]);
    assert Leave(w.machine, 1).subs == [OneGone];
    ProcessQueues(w, Release(1), false);
    AnswerToOne(false);
  }

  lemma AskedWhileReleasing(w: World)
    requires Is(w, Releasing, [OneGone], [ReportFailed, ReportClosed])
    ensures Is(Act(w, Asks(2), true), Releasing, [OneGone, Two], [ReportFailed, ReportClosed])
  {
    assert !Listed([OneGone], 2) && [OneGone] + [Two] == [OneGone, Two];
    ProcessQueues(w, Request(2, true, WWAN_ANY), true);
  }

  lemma FailureTakenForClose(w: World)
    requires Is(w, Releasing, [OneGone, Two], [ReportFailed, ReportClosed])
    ensures Is(Act(w, Deliver, true), Pending, [Two], [ReportClosed, ReportOpen])
  {
    assert [OneGone, Two][..1] == [OneGone];
    assert Others([OneGone], Inactive) == [];
    assert Others([OneGone, Two], Inactive) == [Two] && AnyActive([Two]);
    ProcessQueues(w.(queue := w.queue[1..]), ReportFailed, true);
  }

  /** A request made while the network is lost leaves a failure in the queue.  Processed in
      RELEASING, it is taken for the close that is still to come, so the machine asks again one
      close too early and the queue is out of step from then on. */
  lemma LostNetworkBreaksTheShape()
    ensures var w := Act(Act(Act(Act(Start, Asks(1), false), Leaves(1), false),
                             Asks(2), true), Deliver, true);
      w.machine.state == Pending && w.queue == [ReportClosed, ReportOpen] && !Shape(w)
  {
    AskedWithoutNetwork(Start);
    var w1 := Act(Start, Asks(1), false);
    GivenUpBeforeTheAnswer(w1);
    var w2 := Act(w1, Leaves(1), false);
    AskedWhileReleasing(w2);
    FailureTakenForClose(Act(w2, Asks(2), true));
  }
}
