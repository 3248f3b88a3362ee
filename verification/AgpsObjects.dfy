/** The subscriber and state machine objects of Agps.cpp.  Every method is proved to do to the
    value of the machine what the function of module Agps does, so that what is proved there
    about all runs holds for the objects. */
module AgpsObjects {
  import opened Agps

  class AgpsSubscriber {
    const connHandle: int
    const waitForCloseComplete: bool
    var isInactive: bool

    constructor (connHandle: int, waitForCloseComplete: bool, isInactive: bool)
      ensures View() == Subscriber(connHandle, waitForCloseComplete, isInactive)
    {
      this.connHandle := connHandle;
      this.waitForCloseComplete := waitForCloseComplete;
      this.isInactive := isInactive;
    }

    ghost function View(): Subscriber
      reads this
    {
      Subscriber(connHandle, waitForCloseComplete, isInactive)
    }

    predicate Equals(s: AgpsSubscriber) {
      connHandle == s.connHandle
    }

    method Clone() returns (s: AgpsSubscriber)
      ensures fresh(s) && s.View() == View()
    {
      s := new AgpsSubscriber(connHandle, waitForCloseComplete, isInactive);
    }
  }

  ghost function Views(list: seq<AgpsSubscriber>): (v: seq<Subscriber>)
    reads set s | s in list
    ensures |v| == |list|
  {
    if list == [] then [] else Views(list[..|list| - 1]) + [list[|list| - 1].View()]
  }

  lemma ViewsSnoc(list: seq<AgpsSubscriber>, s: AgpsSubscriber)
    ensures Views(list + [s]) == Views(list) + [s.View()]
  {
  }

  lemma {:induction false} ViewsAt(list: seq<AgpsSubscriber>)
    ensures forall i :: 0 <= i < |list| ==> Views(list)[i] == list[i].View()
  {
    if list != [] {
      ViewsAt(list[..|list| - 1]);
    }
  }

  lemma {:induction false} DeactivateAt(subs: seq<Subscriber>, h: int)
    ensures |Deactivate(subs, h)| == |subs|
    ensures forall i :: 0 <= i < |subs| ==>
      Deactivate(subs, h)[i] == if subs[i].handle == h then subs[i].(inactive := true) else subs[i]
  {
    if subs != [] {
      DeactivateAt(subs[..|subs| - 1], h);
    }
  }

  lemma NothingWalked(who: Audience, event: Notice)
    ensures Views([]) == [] && Others([], who) == [] && Notices(Chosen([], who), event) == []
  {
  }

  /** The walk of notifyAllSubscribers over the list: what is said to whom, and who is left when
      the ones spoken to are erased. */
  method WalkSubscribers(list: seq<AgpsSubscriber>, event: Notice, who: Audience)
    returns (kept: seq<AgpsSubscriber>, told: seq<Entry>)
    ensures Views(kept) == Others(Views(list), who)
    ensures told == Notices(Chosen(Views(list), who), event)
    ensures forall s :: s in kept ==> s in list
  {
    hide Views, Others, Chosen, Notices;
    NothingWalked(who, event);
    kept, told := [], [];
    ghost var seen: seq<Subscriber> := [];
    assert list[..0] == [];
    for i := 0 to |list|
      invariant seen == Views(list[..i])
      invariant Views(kept) == Others(seen, who)
      invariant told == Notices(Chosen(seen, who), event)
      invariant forall s :: s in kept ==> s in list
    {
      var subscriber := list[i];
      assert list[..i + 1] == list[..i] + [subscriber];
      ViewsSnoc(list[..i], subscriber);
      SplitSnoc(seen, subscriber.View(), who, event);
      if who == All || (who == Inactive && subscriber.isInactive) || (who == Active && !subscriber.isInactive) {
        told := told + [NoticeTo(subscriber.connHandle, event)];
      } else {
        ViewsSnoc(kept, subscriber);
        kept := kept + [subscriber];
      }
      seen := seen + [subscriber.View()];
    }
    assert list[..|list|] == list;
  }

  class AgpsStateMachine {
    var state: State
    var subscriberList: seq<AgpsSubscriber>
    var agpsType: int
    /** The calls of the client and framework callbacks, with the events between them. */
    var log: seq<Entry>
    var issued: seq<Command>

    constructor (agpsType: int)
      ensures Model() == Fresh(agpsType) && subscriberList == []
    {
      state, subscriberList, log, issued := Released, [], [], [];
      this.agpsType := agpsType;
    }

    /** Whoever is listed was listed before or is a clone made since. */
    twostate predicate OldOrFresh()
      reads this
    {
      forall s :: s in subscriberList ==> s in old(subscriberList) || fresh(s)
    }

    ghost function Model(): Machine
      reads this, set s | s in subscriberList
    {
      Machine(state, Views(subscriberList), agpsType, log, issued)
    }

    method SetType(agpsType: int)
      modifies this`agpsType
      ensures Model() == old(Model()).(agpsType := agpsType)
    {
      this.agpsType := agpsType;
    }

    method RequestOrReleaseDataConn(request: bool)
      modifies this`log, this`issued
      ensures Model() == if request then RequestConn(old(Model())) else ReleaseConn(old(Model()))
      ensures subscriberList == old(subscriberList)
    {
      if request {
        log, issued := log + [ConnRequested(agpsType)], issued + [Connect(agpsType)];
      } else {
        log, issued := log + [ConnReleased(agpsType)], issued + [Disconnect(agpsType)];
      }
    }

    method AnyActiveSubscribers() returns (any: bool)
      ensures any <==> AnyActive(Views(subscriberList))
    {
      var i := 0;
      while i < |subscriberList|
        invariant i <= |subscriberList|
        invariant !AnyActive(Views(subscriberList[..i]))
      {
        assert subscriberList[..i + 1][..i] == subscriberList[..i];
        if !subscriberList[i].isInactive {
          ViewsAt(subscriberList);
          ActiveMember(Views(subscriberList), i);
          return true;
        }
        i := i + 1;
      }
      assert subscriberList[..i] == subscriberList;
      return false;
    }

    method GetSubscriber(connHandle: int) returns (s: AgpsSubscriber?)
      ensures s == null <==> !Listed(Views(subscriberList), connHandle)
      ensures s != null ==> s in subscriberList && s.connHandle == connHandle
      ensures s != null ==> s.View() == Find(Views(subscriberList), connHandle)
    {
      var i := 0;
      while i < |subscriberList|
        invariant i <= |subscriberList|
        invariant !Listed(Views(subscriberList[..i]), connHandle)
      {
        assert subscriberList[..i + 1][..i] == subscriberList[..i];
        if subscriberList[i].connHandle == connHandle {
          FirstMember(subscriberList, i, connHandle);
          return subscriberList[i];
        }
        i := i + 1;
      }
      assert subscriberList[..i] == subscriberList;
      return null;
    }

    /** Clones the subscriber into the list unless its handle is there. */
    method AddSubscriber(subscriber: AgpsSubscriber)
      modifies this`subscriberList, this`log
      ensures Model() == Add(old(Model()), old(subscriber.View()))
      ensures OldOrFresh()
    {
      hide Views, Listed;
      var found := GetSubscriber(subscriber.connHandle);
      if found == null {
        var cloned := subscriber.Clone();
        ViewsSnoc(subscriberList, cloned);
        subscriberList := subscriberList + [cloned];
        log := log + [Joined(cloned.connHandle)];
      }
    }

    /** Erases every subscriber with the handle. */
    method DeleteSubscriber(connHandle: int)
      modifies this`subscriberList
      ensures Model() == old(Model()).(subs := Without(old(Model()).subs, connHandle))
      ensures OldOrFresh()
    {
      var all, kept: seq<AgpsSubscriber> := subscriberList, [];
      ghost var v := Views(all);
      ViewsAt(all);
      assert Views(kept) == Without(v[..0], connHandle);
      hide Views, Without;
      for i := 0 to |all|
        invariant Views(kept) == Without(v[..i], connHandle)
        invariant forall s :: s in kept ==> s in all
      {
        WithoutStep(v, i, connHandle);
        if all[i].connHandle != connHandle {
          ViewsSnoc(kept, all[i]);
          kept := kept + [all[i]];
        }
      }
      assert v[..|all|] == v;
      subscriberList := kept;
    }

    method NotifyEventToSubscriber(event: Notice, connHandle: int, deleteSubscriberPostNotify: bool)
      requires event != Drop
      modifies this`subscriberList, this`log
      ensures var m := old(Model());
        Model() == m.(log := m.log + [NoticeTo(connHandle, event)],
                      subs := if deleteSubscriberPostNotify then Without(m.subs, connHandle) else m.subs)
      ensures !deleteSubscriberPostNotify ==> subscriberList == old(subscriberList)
      ensures OldOrFresh()
    {
      hide Views, Without;
      match event {
        case Grant => log := log + [Opened(connHandle)];
        case Deny => log := log + [OpenFailed(connHandle)];
        case Close => log := log + [Closed(connHandle)];
      }
      if deleteSubscriberPostNotify {
        DeleteSubscriber(connHandle);
      }
    }

    method NotifyAllSubscribers(event: Notice, deleteSubscriberPostNotify: bool, who: Audience)
      requires event != Drop
      modifies this`subscriberList, this`log
      ensures Model() ==
        if deleteSubscriberPostNotify then NotifyAndDelete(old(Model()), event, who)
        else NotifyAll(old(Model()), event, who)
      ensures OldOrFresh()
    {
      hide Views, Others, Chosen, Notices;
      var kept, told := WalkSubscribers(subscriberList, event, who);
      log := log + told;
      if deleteSubscriberPostNotify {
        subscriberList := kept;
      }
    }

    /** Modem restart. */
    method DropAllSubscribers()
      modifies this`subscriberList, this`log
      ensures Model() == DropAll(old(Model()))
      ensures OldOrFresh()
    {
      hide Views, Others, Chosen, Notices;
      var kept, told := WalkSubscribers(subscriberList, Drop, All);
      log := log + told;
      subscriberList := kept;
    }

    method ProcessAgpsEventSubscribe(current: AgpsSubscriber)
      modifies this
      ensures Model() == Subscribe(old(Model()), old(current.View()))
      ensures OldOrFresh()
    {
      hide Listed, Views;
      log := log + [Requested(current.connHandle)];
      match state {
        case Released =>
          AddSubscriber(current);
          RequestOrReleaseDataConn(true);
          state := Pending;
        case Pending =>
          AddSubscriber(current);
        case Acquired =>
          NotifyEventToSubscriber(Grant, current.connHandle, false);
          AddSubscriber(current);
        case Releasing =>
          AddSubscriber(current);
      }
    }

    /** Marks a listed subscriber through its pointer. */
    method MakeInactive(current: AgpsSubscriber)
      requires current in subscriberList && Distinct(Views(subscriberList))
      modifies current`isInactive
      ensures Model() == old(Model()).(subs := Deactivate(old(Model()).subs, current.connHandle))
      ensures subscriberList == old(subscriberList)
    {
      ghost var before := Views(subscriberList);
      ViewsAt(subscriberList);
      DistinctAt(before);
      current.isInactive := true;
      ViewsAt(subscriberList);
      DeactivateAt(before, current.connHandle);
      hide Views, Distinct, Deactivate;
      assert Views(subscriberList) == Deactivate(before, current.connHandle);
    }

    /** The wait-or-delete step that opens the three unsubscribe branches. */
    method LeaveList(current: AgpsSubscriber)
      requires current in subscriberList && Distinct(Views(subscriberList))
      requires Listed(Views(subscriberList), current.connHandle)
      requires current.View() == Find(Views(subscriberList), current.connHandle)
      modifies this`subscriberList, this`log, current`isInactive
      ensures Model() == Leave(old(Model()), current.connHandle)
      ensures OldOrFresh()
    {
      hide Views, Listed, Distinct, Deactivate, Without;
      log := log + [Unsubscribed(current.connHandle)];
      if current.waitForCloseComplete {
        MakeInactive(current);
      } else {
        NotifyEventToSubscriber(Close, current.connHandle, true);
      }
    }

    method ReleaseConnIfUnused()
      modifies this`state, this`log, this`issued
      ensures Model() == ReleaseIfUnused(old(Model()))
      ensures subscriberList == old(subscriberList)
    {
      if subscriberList == [] {
        if state == Pending || state == Acquired {
          RequestOrReleaseDataConn(false);
        }
        state := Released;
      } else if state == Pending || state == Acquired {
        var any := AnyActiveSubscribers();
        if !any {
          RequestOrReleaseDataConn(false);
          state := Releasing;
        }
      }
    }

    method ProcessAgpsEventUnsubscribe(current: AgpsSubscriber)
      requires current in subscriberList && Distinct(Views(subscriberList))
      requires Listed(Views(subscriberList), current.connHandle)
      requires current.View() == Find(Views(subscriberList), current.connHandle)
      modifies this, current`isInactive
      ensures Model() == Unsubscribe(old(Model()), current.connHandle)
      ensures OldOrFresh()
    {
      hide Views, Listed, Distinct, Leave, ReleaseIfUnused;
      if state == Released {
        log := log + [Unsubscribed(current.connHandle)];
        NotifyEventToSubscriber(Close, current.connHandle, false);
      } else {
        LeaveList(current);
        ReleaseConnIfUnused();
      }
    }

    /** A request as the manager passes it on: the type, and a new subscriber that waits for the
        close. */
    method Request(connHandle: int, agpsType: int)
      modifies this
      ensures Model() == Step(old(Model()), Op.Request(connHandle, true, agpsType))
      ensures OldOrFresh()
    {
      hide Views, Subscribe;
      SetType(agpsType);
      var subscriber := new AgpsSubscriber(connHandle, true, false);
      ProcessAgpsEventSubscribe(subscriber);
    }

    /** A release as the manager passes it on, for a handle that is listed. */
    method Release(connHandle: int)
      requires Listed(Views(subscriberList), connHandle) && Distinct(Views(subscriberList))
      modifies this, set s | s in subscriberList
      ensures Model() == Step(old(Model()), Op.Release(connHandle))
      ensures OldOrFresh()
    {
      hide Views, Unsubscribe, Distinct, Listed;
      var subscriber := GetSubscriber(connHandle);
      ProcessAgpsEventUnsubscribe(subscriber);
    }

    method ProcessAgpsEventGranted()
      modifies this
      ensures Model() == Granted(old(Model()))
      ensures OldOrFresh()
    {
      hide Views, Others, Chosen, Notices, AfterRelease;
      log := log + [SawGranted];
      if state == Pending {
        state := Acquired;
        NotifyAllSubscribers(Grant, false, Active);
      }
    }

    method EndRelease()
      modifies this
      ensures Model() == AfterRelease(old(Model()))
      ensures OldOrFresh()
    {
      hide Others, Chosen, Notices, AnyActive, Views;
      NotifyAllSubscribers(Close, true, Inactive);
      var any := AnyActiveSubscribers();
      if any {
        state := Pending;
        RequestOrReleaseDataConn(true);
      } else {
        state := Released;
      }
    }

    method ProcessAgpsEventReleased()
      modifies this
      ensures Model() == ReleasedEvent(old(Model()))
      ensures OldOrFresh()
    {
      hide Views, Others, Chosen, Notices, AfterRelease;
      log := log + [SawReleased];
      match state {
        case Released =>
        case Acquired =>
          state := Released;
          NotifyAllSubscribers(Close, true, All);
        case Releasing =>
          EndRelease();
        case Pending =>
      }
    }

    method ProcessAgpsEventDenied()
      modifies this
      ensures Model() == Denied(old(Model()))
      ensures OldOrFresh()
    {
      hide Views, Others, Chosen, Notices, AfterRelease;
      log := log + [SawDenied];
      match state {
        case Released =>
        case Acquired =>
        case Releasing =>
          EndRelease();
        case Pending =>
          state := Released;
          NotifyAllSubscribers(Deny, true, All);
      }
    }
  }

  lemma WithoutStep(v: seq<Subscriber>, n: nat, h: int)
    requires n < |v|
    ensures Without(v[..n + 1], h) == Without(v[..n], h) + if v[n].handle == h then [] else [v[n]]
  {
    assert v[..n + 1][..n] == v[..n];
  }

  /** One more subscriber of a list that is walked from the front. */
  lemma SplitSnoc(seen: seq<Subscriber>, s: Subscriber, who: Audience, event: Notice)
    ensures Others(seen + [s], who) == if Addressed(s, who) then Others(seen, who) else Others(seen, who) + [s]
    ensures Notices(Chosen(seen + [s], who), event) ==
      if Addressed(s, who) then Notices(Chosen(seen, who), event) + [NoticeTo(s.handle, event)]
      else Notices(Chosen(seen, who), event)
  {
  }

  lemma {:induction false} DistinctAt(subs: seq<Subscriber>)
    requires Distinct(subs)
    ensures forall i, j :: 0 <= i < j < |subs| ==> subs[i].handle != subs[j].handle
  {
    if subs != [] {
      var front, last := subs[..|subs| - 1], subs[|subs| - 1];
      DistinctAt(front);
      forall i | 0 <= i < |front| ensures front[i].handle != last.handle {
        NotListedAt(front, last.handle, i);
      }
    }
  }

  lemma {:induction false} NotListedAt(subs: seq<Subscriber>, h: int, i: nat)
    requires !Listed(subs, h) && i < |subs|
    ensures subs[i].handle != h
  {
    if i < |subs| - 1 {
      NotListedAt(subs[..|subs| - 1], h, i);
    }
  }

  lemma {:induction false} ActiveMember(subs: seq<Subscriber>, i: nat)
    requires i < |subs| && !subs[i].inactive
    ensures AnyActive(subs)
  {
    if i < |subs| - 1 {
      ActiveMember(subs[..|subs| - 1], i);
    }
  }

  lemma {:induction false} FirstMember(list: seq<AgpsSubscriber>, i: nat, h: int)
    requires i < |list| && list[i].connHandle == h && !Listed(Views(list[..i]), h)
    ensures Listed(Views(list), h) && Find(Views(list), h) == list[i].View()
  {
    if i < |list| - 1 {
      assert list[..|list| - 1][..i] == list[..i];
      FirstMember(list[..|list| - 1], i, h);
    }
  }
}
