/** BiDict of LocationAPIClientBase.h: client ids and sessions in both directions, and something
    kept for each session.  Both ids and sessions are 0 when there is none. */
module BiDictionary {
  datatype Dict<T> = Dict(forward: map<nat, nat>, backward: map<nat, nat>, ext: map<nat, T>)

  function At(m: map<nat, nat>, key: nat): nat {
    if key in m then m[key] else 0
  }

  function Put<T>(d: Dict<T>, id: nat, session: nat, ext: T): Dict<T> {
    Dict(d.forward[id := session], d.backward[session := id], d.ext[session := ext])
  }

  /** An unknown id is looked up as session 0. */
  function RemovedId<T>(d: Dict<T>, id: nat): Dict<T> {
    Dict(d.forward - {id}, d.backward - {At(d.forward, id)}, d.ext - {At(d.forward, id)})
  }

  /** An unknown session is looked up as id 0. */
  function RemovedSession<T>(d: Dict<T>, session: nat): Dict<T> {
    Dict(d.forward - {At(d.backward, session)}, d.backward - {session}, d.ext - {session})
  }

  predicate Inverse<T>(d: Dict<T>) {
    && (forall id :: id in d.forward ==> d.forward[id] in d.backward && d.backward[d.forward[id]] == id)
    && (forall s :: s in d.backward ==> d.backward[s] in d.forward && d.forward[d.backward[s]] == s)
    && d.ext.Keys == d.backward.Keys
  }

  /** A pair may be set exactly when neither half belongs to another pair. */
  lemma PutKeepsInverse<T>(d: Dict<T>, id: nat, session: nat, ext: T)
    requires Inverse(d)
    ensures Inverse(Put(d, id, session, ext)) <==>
      (id in d.forward ==> d.forward[id] == session) && (session in d.backward ==> d.backward[session] == id)
  {
    var d' := Put(d, id, session, ext);
    if id in d.forward && d.forward[id] != session {
      assert d'.backward[d.forward[id]] == id;
    } else if session in d.backward && d.backward[session] != id {
      assert d'.forward[d.backward[session]] == session;
    }
  }

  lemma RemovedIdKeepsInverse<T>(d: Dict<T>, id: nat)
    requires Inverse(d)
    ensures Inverse(RemovedId(d, id)) <==> id in d.forward || 0 !in d.backward
  {
    if id !in d.forward && 0 in d.backward {
      assert d.backward[0] in RemovedId(d, id).forward;
    }
  }

  lemma RemovedSessionKeepsInverse<T>(d: Dict<T>, session: nat)
    requires Inverse(d)
    ensures Inverse(RemovedSession(d, session)) <==> session in d.backward || 0 !in d.forward
  {
    if session !in d.backward && 0 in d.forward {
      assert d.forward[0] in RemovedSession(d, session).backward;
    }
  }

  class BiDict<T> {
    var forward: map<nat, nat>
    var backward: map<nat, nat>
    var exts: map<nat, T>

    constructor ()
      ensures View() == Dict(map[], map[], map[])
    {
      forward, backward, exts := map[], map[], map[];
    }

    function View(): Dict<T>
      reads this
    {
      Dict(forward, backward, exts)
    }

    method HasId(id: nat) returns (found: bool)
      ensures found <==> id in View().forward
    {
      found := id in forward;
    }

    method HasSession(session: nat) returns (found: bool)
      ensures found <==> session in View().backward
    {
      found := session in backward;
    }

    method Set(id: nat, session: nat, ext: T)
      modifies this
      ensures View() == Put(old(View()), id, session, ext)
    {
      forward := forward[id := session];
      backward := backward[session := id];
      exts := exts[session := ext];
    }

    method RmById(id: nat)
      modifies this
      ensures View() == RemovedId(old(View()), id)
    {
      if id !in forward {
        forward := forward[id := 0];
      }
      backward := backward - {forward[id]};
      exts := exts - {forward[id]};
      forward := forward - {id};
    }

    method RmBySession(session: nat)
      modifies this
      ensures View() == RemovedSession(old(View()), session)
    {
      if session !in backward {
        backward := backward[session := 0];
      }
      forward := forward - {backward[session]};
      backward := backward - {session};
      exts := exts - {session};
    }

    method GetId(session: nat) returns (id: nat)
      ensures id == At(View().backward, session)
    {
      id := 0;
      if session in backward {
        id := backward[session];
      }
    }

    method GetSession(id: nat) returns (session: nat)
      ensures session == At(View().forward, id)
    {
      session := 0;
      if id in forward {
        session := forward[id];
      }
    }

    /** Asking for an unknown id leaves it behind, tied to session 0. */
    method GetExtById(id: nat, zero: T) returns (ext: T)
      modifies this
      ensures id in old(forward) ==> View() == old(View())
      ensures id !in old(forward) ==> View() == old(View()).(forward := old(forward)[id := 0])
      ensures ext == if At(old(forward), id) > 0 && At(old(forward), id) in exts then exts[forward[id]] else zero
    {
      ext := zero;
      if id !in forward {
        forward := forward[id := 0];
      }
      if forward[id] > 0 && forward[id] in exts {
        ext := exts[forward[id]];
      }
    }

    method GetExtBySession(session: nat, zero: T) returns (ext: T)
      ensures ext == if session in View().ext then View().ext[session] else zero
    {
      ext := if session in exts then exts[session] else zero;
    }
  }
}

/** The session calls of LocationAPIClientBase.cpp and the answers to them. */
module LocationApiClient {
  import opened BiDictionary
  import opened Wrappers

  const SESSION_MODE_ON_FULL: nat := 1
  const SESSION_MODE_ON_FIX: nat := 2
  const SESSION_MODE_ON_TRIP_COMPLETED: nat := 3

  datatype BatchingMode = Routine | Trip | NoAutoReport

  function BatchingModeOf(sessionMode: nat): BatchingMode {
    if sessionMode == SESSION_MODE_ON_FULL then Routine
    else if sessionMode == SESSION_MODE_ON_TRIP_COMPLETED then Trip
    else NoAutoReport
  }

  datatype Entity = Entity(id: nat, trackingSession: nat, batchingSession: nat, sessionMode: nat)

  datatype RequestKind =
    | StartTrackingRequest
    | StopTrackingRequest
    | UpdateTrackingOptionsRequest
    | StartBatchingRequest
    | StopBatchingRequest
    | UpdateBatchingOptionsRequest
    | GetBatchedLocationsRequest
    | GnssNiResponseRequest

  datatype Queue = Queue(session: nat, requests: seq<RequestKind>)

  /** What the location interface is asked to do with a session. */
  datatype Call =
    | StartTracking(session: nat)
    | UpdateTracking(session: nat)
    | StopTracking(session: nat)
    | StartBatching(session: nat, mode: BatchingMode)
    | UpdateBatching(session: nat, mode: BatchingMode)
    | StopBatching(session: nat)
    | GetBatchedLocations(session: nat)

  datatype Status = Success | AlreadyStarted | IdUnknown | NotSupported

  datatype Api = Api(dict: Dict<Entity>, sessions: Queue, tracking: Queue, ni: Queue)

  /** The client after a call, and what it asked the interface to do meanwhile. */
  datatype Outcome = Outcome(api: Api, calls: seq<Call>, status: Status)

  function Pushed(q: Queue, kind: RequestKind): Queue {
    q.(requests := q.requests + [kind])
  }

  function SessionOf(e: Entity): nat {
    if e.sessionMode == SESSION_MODE_ON_FIX then e.trackingSession else e.batchingSession
  }

  // ------------------------------------------------------------------------------------------
  // The calls; a new session gets the number that the interface returns

  /** locAPIStartSession */
  function Start(api: Api, id: nat, mode: nat, given: nat): Outcome {
    if id in api.dict.forward then Outcome(api, [], AlreadyStarted)
    else if mode == SESSION_MODE_ON_FIX then
      Outcome(api.(dict := Put(api.dict, id, given, Entity(id, given, 0, mode)),
                   sessions := Pushed(api.sessions, StartTrackingRequest)),
              [StartTracking(given)], Success)
    else
      Outcome(api.(dict := Put(api.dict, id, given, Entity(id, 0, given, mode)),
                   sessions := Pushed(api.sessions, StartBatchingRequest).(session := given)),
              [StartBatching(given, BatchingModeOf(mode))], Success)
  }

  /** The entity that getExtById finds, or the all-zero one. */
  function EntityOf(d: Dict<Entity>, id: nat): Entity {
    if At(d.forward, id) > 0 && At(d.forward, id) in d.ext then d.ext[At(d.forward, id)] else Entity(0, 0, 0, 0)
  }

  /** locAPIStopSession */
  function Stop(api: Api, id: nat): Outcome {
    if id !in api.dict.forward then Outcome(api, [], IdUnknown)
    else
      var e := EntityOf(api.dict, id);
      if e.sessionMode == SESSION_MODE_ON_FIX then
        Outcome(api.(sessions := Pushed(api.sessions, StopTrackingRequest)),
                [StopTracking(e.trackingSession)], Success)
      else
        Outcome(api.(sessions := Pushed(api.sessions, StopBatchingRequest)),
                [StopBatching(e.batchingSession)], Success)
  }

  function Renew(d: Dict<Entity>, id: nat, e: Entity): Dict<Entity> {
    Put(RemovedId(d, id), id, SessionOf(e), e)
  }

  /** locAPIUpdateSessionOptions: a change between fixes and batches replaces the session. */
  function Update(api: Api, id: nat, mode: nat, given: nat): Outcome {
    if id !in api.dict.forward then Outcome(api, [], IdUnknown)
    else
      var e := EntityOf(api.dict, id);
      if mode == SESSION_MODE_ON_FIX then
        var queue := Pushed(api.sessions, UpdateTrackingOptionsRequest);
        if e.sessionMode == SESSION_MODE_ON_FIX then
          Outcome(api.(dict := Renew(api.dict, id, e), sessions := queue), [UpdateTracking(e.trackingSession)], Success)
        else
          var e' := e.(trackingSession := given, batchingSession := 0, sessionMode := mode);
          Outcome(api.(dict := Renew(api.dict, id, e'), sessions := queue.(session := 0)),
                  [StopBatching(e.batchingSession), StartTracking(given)], Success)
      else
        var queue := Pushed(api.sessions, UpdateBatchingOptionsRequest);
        if e.sessionMode == SESSION_MODE_ON_FIX then
          var e' := e.(trackingSession := 0, batchingSession := given, sessionMode := mode);
          Outcome(api.(dict := Renew(api.dict, id, e'), sessions := queue.(session := given)),
                  [StopTracking(e.trackingSession), StartBatching(given, BatchingModeOf(mode))], Success)
        else
          Outcome(api.(dict := Renew(api.dict, id, e.(sessionMode := mode)), sessions := queue),
                  [UpdateBatching(e.batchingSession, BatchingModeOf(mode))], Success)
  }

  /** locAPIGetBatchedLocations */
  function GetBatched(api: Api, id: nat): Outcome {
    if id !in api.dict.forward then Outcome(api, [], IdUnknown)
    else
      var e := EntityOf(api.dict, id);
      if e.sessionMode == SESSION_MODE_ON_FIX then Outcome(api, [], NotSupported)
      else
        Outcome(api.(sessions := Pushed(api.sessions, GetBatchedLocationsRequest)),
                [GetBatchedLocations(e.batchingSession)], Success)
  }

  function Removed(d: Dict<Entity>, session: nat): Dict<Entity> {
    if session in d.backward then RemovedSession(d, session) else d
  }

  type Found = Option<RequestKind>

  function First(q: Queue): Found {
    if q.requests == [] then None else Some(q.requests[0])
  }

  function Popped(q: Queue): Queue {
    if q.requests == [] then q else q.(requests := q.requests[1..])
  }

  /** getRequestBySession: the queues with a session of their own come first. */
  function TakeRequest(api: Api, session: nat): (Api, Found) {
    var (early, found) :=
      if api.tracking.session == session then (api.(tracking := Popped(api.tracking)), First(api.tracking))
      else if api.ni.session == session then (api.(ni := Popped(api.ni)), First(api.ni))
      else (api, None);
    if found == None && session in early.dict.backward
    then (early.(sessions := Popped(early.sessions)), First(early.sessions))
    else (early, found)
  }

  /** The onResponse of each kind of request, as far as the dictionary goes. */
  function Conclude(d: Dict<Entity>, kind: RequestKind, ok: bool, session: nat): Dict<Entity> {
    match kind
    case StartTrackingRequest => if ok then d else Removed(d, session)
    case StartBatchingRequest => if ok then d else Removed(d, session)
    case StopTrackingRequest => if ok then Removed(d, session) else d
    case StopBatchingRequest => if ok then Removed(d, session) else d
    case _ => d
  }

  /** onResponseCb */
  function Response(api: Api, ok: bool, session: nat): Api {
    var (taken, found) := TakeRequest(api, session);
    match found
    case None => taken
    case Some(kind) => taken.(dict := Conclude(taken.dict, kind, ok, session))
  }

  /** The completed trips of beforeBatchingStatusCb, and the ids reported for them. */
  function TripsCompleted(d: Dict<Entity>, trips: seq<nat>): (Dict<Entity>, seq<nat>) {
    if trips == [] then (d, [])
    else
      var (before, ids) := TripsCompleted(d, trips[..|trips| - 1]);
      var s := trips[|trips| - 1];
      if s in before.backward && s in before.ext && before.ext[s].sessionMode == SESSION_MODE_ON_TRIP_COMPLETED
      then (RemovedSession(before, s), ids + [before.ext[s].id])
      else (before, ids)
  }

  // ------------------------------------------------------------------------------------------
  // The dictionary

  predicate Truthful(id: nat, session: nat, e: Entity) {
    && e.id == id && session != 0 && SessionOf(e) == session
    && (if e.sessionMode == SESSION_MODE_ON_FIX then e.batchingSession == 0 else e.trackingSession == 0)
  }

  /** Ids and sessions are each other's inverse, and each session's entity names its id, and the
      session as the one it is by its mode, and no other. */
  predicate Sound(d: Dict<Entity>) {
    && Inverse(d)
    && (forall s :: s in d.backward ==> s in d.ext && Truthful(d.backward[s], s, d.ext[s]))
  }

  datatype Op =
    | StartSession(id: nat, mode: nat, given: nat)
    | StopSession(id: nat)
    | UpdateSession(id: nat, mode: nat, given: nat)
    | GetBatch(id: nat)
    | Answer(ok: bool, session: nat)
    | Completed(trips: seq<nat>)

  function Step(api: Api, op: Op): Api {
    match op
    case StartSession(id, mode, given) => Start(api, id, mode, given).api
    case StopSession(id) => Stop(api, id).api
    case UpdateSession(id, mode, given) => Update(api, id, mode, given).api
    case GetBatch(id) => GetBatched(api, id).api
    case Answer(ok, session) => Response(api, ok, session)
    case Completed(trips) => api.(dict := TripsCompleted(api.dict, trips).0)
  }

  /** A session number the interface may give out: not 0 and not one in use. */
  predicate GivesFresh(api: Api, op: Op) {
    (op.StartSession? || op.UpdateSession?) ==> op.given != 0 && op.given !in api.dict.backward
  }

  lemma RemovedSessionKeepsSound(d: Dict<Entity>, session: nat)
    requires Sound(d)
    ensures Sound(Removed(d, session))
  {
  }

  lemma RenewKeepsSound(d: Dict<Entity>, id: nat, e: Entity)
    requires Sound(d) && id in d.forward && Truthful(id, SessionOf(e), e)
    requires SessionOf(e) == d.forward[id] || SessionOf(e) !in d.backward
    ensures Sound(Renew(d, id, e))
    ensures Renew(d, id, e).forward == d.forward[id := SessionOf(e)]
  {
    var s := d.forward[id];
    RemovedIdKeepsInverse(d, id);
    PutKeepsInverse(RemovedId(d, id), id, SessionOf(e), e);
  }

  lemma {:induction false} TripsKeepSound(d: Dict<Entity>, trips: seq<nat>)
    requires Sound(d)
    ensures Sound(TripsCompleted(d, trips).0)
  {
    if trips != [] {
      TripsKeepSound(d, trips[..|trips| - 1]);
      RemovedSessionKeepsSound(TripsCompleted(d, trips[..|trips| - 1]).0, trips[|trips| - 1]);
    }
  }

  predicate IsTrip(d: Dict<Entity>, session: nat) {
    session in d.backward && session in d.ext && d.ext[session].sessionMode == SESSION_MODE_ON_TRIP_COMPLETED
  }

  /** Exactly the live trips among these sessions have gone, and exactly their clients' ids are in
      the list; what is left is as it was. */
  ghost predicate TripsGone(d: Dict<Entity>, trips: seq<nat>, after: Dict<Entity>, ids: seq<nat>) {
    && (forall s :: s in after.backward <==> s in d.backward && !(s in trips && IsTrip(d, s)))
    && (forall s :: s in after.backward ==>
          s in after.ext && s in d.ext && after.backward[s] == d.backward[s] && after.ext[s] == d.ext[s])
    && (forall id :: id in ids <==> exists s :: s in trips && IsTrip(d, s) && d.backward[s] == id)
  }

  lemma OneTripGone(d: Dict<Entity>, init: seq<nat>, before: Dict<Entity>, ids: seq<nat>, s: nat)
    requires Sound(d) && TripsGone(d, init, before, ids) && IsTrip(before, s)
    ensures TripsGone(d, init + [s], RemovedSession(before, s), ids + [before.ext[s].id])
  {
    assert IsTrip(d, s) && s !in init && Truthful(d.backward[s], s, d.ext[s]);
    hide Inverse, Truthful;
  }

  lemma NoTripGone(d: Dict<Entity>, init: seq<nat>, before: Dict<Entity>, ids: seq<nat>, s: nat)
    requires Sound(d) && TripsGone(d, init, before, ids) && !IsTrip(before, s)
    ensures TripsGone(d, init + [s], before, ids)
  {
    assert IsTrip(d, s) ==> s in init;
    hide Inverse, Truthful;
  }

  /** Of the completed sessions exactly the live trips are removed, and exactly their clients'
      ids are reported; nothing else changes. */
  lemma {:induction false} TripsReportTheirClients(d: Dict<Entity>, trips: seq<nat>)
    requires Sound(d)
    ensures var (after, ids) := TripsCompleted(d, trips); TripsGone(d, trips, after, ids)
  {
    if trips == [] {
      assert forall s :: s in d.backward ==> s in d.ext;
    } else {
      var init, s := trips[..|trips| - 1], trips[|trips| - 1];
      assert trips == init + [s];
      TripsReportTheirClients(d, init);
      var (before, ids) := TripsCompleted(d, init);
      hide Sound, TripsGone;
      if IsTrip(before, s) {
        OneTripGone(d, init, before, ids, s);
      } else {
        NoTripGone(d, init, before, ids, s);
      }
    }
  }

  /** Whatever is called and answered, in whatever order, the dictionary stays sound. */
  lemma StepKeepsSound(api: Api, op: Op)
    requires Sound(api.dict) && GivesFresh(api, op)
    ensures Sound(Step(api, op).dict)
  {
    match op {
      case StartSession(id, mode, given) =>
        StartKeepsSound(api, id, mode, given);
      case UpdateSession(id, mode, given) =>
        UpdateKeepsSound(api, id, mode, given);
      case Answer(ok, session) =>
        AnswerKeepsSound(api, ok, session);
      case Completed(trips) =>
        TripsKeepSound(api.dict, trips);
      case _ =>
    }
  }

  lemma StartKeepsSound(api: Api, id: nat, mode: nat, given: nat)
    requires Sound(api.dict) && given != 0 && given !in api.dict.backward
    ensures Sound(Start(api, id, mode, given).api.dict)
  {
    PutKeepsInverse(api.dict, id, given, Entity(id, given, 0, mode));
    PutKeepsInverse(api.dict, id, given, Entity(id, 0, given, mode));
    hide Inverse;
  }

  lemma AnswerKeepsSound(api: Api, ok: bool, session: nat)
    requires Sound(api.dict)
    ensures Sound(Response(api, ok, session).dict)
  {
    RemovedSessionKeepsSound(api.dict, session);
    hide Sound, Removed;
  }

  /** After an update the id is at its old session, or at the new one if the update went between
      fixes and batches, under the new mode; every other id is where it was. */
  lemma UpdateKeepsSound(api: Api, id: nat, mode: nat, given: nat)
    requires Sound(api.dict) && given != 0 && given !in api.dict.backward
    ensures var d := Update(api, id, mode, given).api.dict;
      && Sound(d)
      && (id !in api.dict.forward ==> d == api.dict)
      && (id in api.dict.forward ==>
            var was := api.dict.ext[api.dict.forward[id]].sessionMode;
            var switched := (mode == SESSION_MODE_ON_FIX) != (was == SESSION_MODE_ON_FIX);
            d.forward == api.dict.forward[id := if switched then given else api.dict.forward[id]])
  {
    if id in api.dict.forward {
      var e := EntityOf(api.dict, id);
      assert Truthful(id, api.dict.forward[id], e);
      var tracking := e.(trackingSession := given, batchingSession := 0, sessionMode := mode);
      var batching := e.(trackingSession := 0, batchingSession := given, sessionMode := mode);
      if mode == SESSION_MODE_ON_FIX {
        RenewKeepsSound(api.dict, id, if e.sessionMode == SESSION_MODE_ON_FIX then e else tracking);
      } else {
        RenewKeepsSound(
          api.dict, id, if e.sessionMode == SESSION_MODE_ON_FIX then batching else e.(sessionMode := mode));
      }
    }
  }

  // ------------------------------------------------------------------------------------------
  // What each call asks for and records

  /** Session modes by number: 2 is for single fixes, all others are batches. */
  predicate ForFixes(mode: nat) {
    mode == 2
  }

  function HowToBatch(mode: nat): BatchingMode {
    match mode
    case 1 => Routine
    case 3 => Trip
    case _ => NoAutoReport
  }

  function ModeOf(d: Dict<Entity>, id: nat): nat
    requires Sound(d) && id in d.forward
  {
    d.ext[d.forward[id]].sessionMode
  }

  /** A start of a new id asks for one session of the kind that its mode wants, waits for the answer,
      and puts the id, the session and the mode on record; a second start does nothing. */
  lemma StartAsksAndRecords(api: Api, id: nat, mode: nat, given: nat)
    requires Sound(api.dict) && given != 0 && given !in api.dict.backward
    ensures var o := Start(api, id, mode, given); var d := o.api.dict;
      if id in api.dict.forward then o == Outcome(api, [], AlreadyStarted)
      else
        && o.status == Success
        && o.calls == [if ForFixes(mode) then StartTracking(given) else StartBatching(given, HowToBatch(mode))]
        && o.api.sessions.requests == api.sessions.requests +
             [if ForFixes(mode) then StartTrackingRequest else StartBatchingRequest]
        && o.api.sessions.session == (if ForFixes(mode) then api.sessions.session else given)
        && o.api.tracking == api.tracking && o.api.ni == api.ni
        && d.forward == api.dict.forward[id := given] && d.backward == api.dict.backward[given := id]
        && Sound(d) && ModeOf(d, id) == mode
        && forall s :: s in api.dict.ext ==> s in d.ext && d.ext[s] == api.dict.ext[s]
  {
    StartKeepsSound(api, id, mode, given);
    hide Inverse;
  }

  /** A stop asks for the end of the session and waits for the answer; nothing goes off the record
      before that. */
  lemma StopAsks(api: Api, id: nat)
    requires Sound(api.dict)
    ensures var o := Stop(api, id);
      if id !in api.dict.forward then o == Outcome(api, [], IdUnknown)
      else
        var s, fixes := api.dict.forward[id], ForFixes(ModeOf(api.dict, id));
        && o.status == Success
        && o.calls == [if fixes then StopTracking(s) else StopBatching(s)]
        && o.api == api.(sessions := api.sessions.(requests := api.sessions.requests +
             [if fixes then StopTrackingRequest else StopBatchingRequest]))
  {
    if id in api.dict.forward {
      assert Truthful(id, api.dict.forward[id], api.dict.ext[api.dict.forward[id]]);
    }
  }

  /** A fetch is for batches only. */
  lemma GetBatchedAsks(api: Api, id: nat)
    requires Sound(api.dict)
    ensures var o := GetBatched(api, id);
      if id !in api.dict.forward then o == Outcome(api, [], IdUnknown)
      else if ForFixes(ModeOf(api.dict, id)) then o == Outcome(api, [], NotSupported)
      else
        && o.status == Success && o.calls == [GetBatchedLocations(api.dict.forward[id])]
        && o.api == api.(sessions := api.sessions.(requests := api.sessions.requests + [GetBatchedLocationsRequest]))
  {
    if id in api.dict.forward {
      assert Truthful(id, api.dict.forward[id], api.dict.ext[api.dict.forward[id]]);
    }
  }

  /** An update within one kind asks for the session to be updated, and one between the kinds for
      its end and a new session; one answer is waited for. */
  lemma UpdateCalls(api: Api, id: nat, mode: nat, given: nat)
    requires Sound(api.dict)
    ensures var o := Update(api, id, mode, given);
      if id !in api.dict.forward then o == Outcome(api, [], IdUnknown)
      else
        var s, was := api.dict.forward[id], ForFixes(ModeOf(api.dict, id));
        && o.status == Success
        && o.calls ==
             (if was && ForFixes(mode) then [UpdateTracking(s)]
              else if was then [StopTracking(s), StartBatching(given, HowToBatch(mode))]
              else if ForFixes(mode) then [StopBatching(s), StartTracking(given)]
              else [UpdateBatching(s, HowToBatch(mode))])
        && o.api.sessions.requests == api.sessions.requests +
             [if ForFixes(mode) then UpdateTrackingOptionsRequest else UpdateBatchingOptionsRequest]
        && o.api.sessions.session ==
             (if was == ForFixes(mode) then api.sessions.session else if ForFixes(mode) then 0 else given)
        && o.api.tracking == api.tracking && o.api.ni == api.ni
  {
    if id in api.dict.forward {
      assert Truthful(id, api.dict.forward[id], api.dict.ext[api.dict.forward[id]]);
    }
  }

  /** After an update the record of the id has the new mode, and every other session is on record
      as it was; of the id's own sessions only the one it is at now is. */
  lemma UpdateRecords(api: Api, id: nat, mode: nat, given: nat)
    requires Sound(api.dict) && given != 0 && given !in api.dict.backward && id in api.dict.forward
    ensures var d := Update(api, id, mode, given).api.dict; var s := api.dict.forward[id];
      && Sound(d) && d.forward.Keys == api.dict.forward.Keys && ModeOf(d, id) == mode
      && d.backward == (api.dict.backward - {s})[d.forward[id] := id]
      && (forall x :: x in api.dict.ext && x != s ==> x in d.ext && d.ext[x] == api.dict.ext[x])
      && (forall i :: i in d.forward && i != id ==> d.forward[i] == api.dict.forward[i])
  {
    UpdateKeepsSound(api, id, mode, given);
    assert Truthful(id, api.dict.forward[id], api.dict.ext[api.dict.forward[id]]);
  }

  /** Nobody is put on record, and who stays is on record as before. */
  ghost predicate OnlyForgets(d: Dict<Entity>, after: Dict<Entity>) {
    && Sound(d) && Sound(after)
    && forall id :: id in after.forward ==> id in d.forward && ModeOf(after, id) == ModeOf(d, id)
  }

  lemma RemovedOnlyForgets(d: Dict<Entity>, session: nat)
    requires Sound(d)
    ensures OnlyForgets(d, Removed(d, session))
  {
    RemovedSessionKeepsSound(d, session);
  }

  lemma AnswerOnlyForgets(api: Api, ok: bool, session: nat)
    requires Sound(api.dict)
    ensures OnlyForgets(api.dict, Response(api, ok, session).dict)
  {
    RemovedOnlyForgets(api.dict, session);
    hide Sound, Removed;
  }

  lemma CompletionOnlyForgets(d: Dict<Entity>, trips: seq<nat>)
    requires Sound(d)
    ensures OnlyForgets(d, TripsCompleted(d, trips).0)
  {
    TripsKeepSound(d, trips);
    TripsReportTheirClients(d, trips);
    var after := TripsCompleted(d, trips).0;
    hide TripsCompleted;
    forall id | id in after.forward
      ensures id in d.forward && ModeOf(after, id) == ModeOf(d, id)
    {
      assert after.forward[id] in after.backward;
    }
  }

  /** The mode asked for last in a run of calls and answers, by a start that was accepted or an
      update of a known id. */
  function LastAsked(api: Api, ops: seq<Op>, id: nat, mode: nat): nat
    decreases |ops|
  {
    if ops == [] then mode else LastAsked(Step(api, ops[0]), ops[1..], id, Asked(api, ops[0], id, mode))
  }

  function Asked(api: Api, op: Op, id: nat, mode: nat): nat {
    if op.StartSession? && op.id == id && id !in api.dict.forward then op.mode
    else if op.UpdateSession? && op.id == id && id in api.dict.forward then op.mode
    else mode
  }

  lemma StepRecordsMode(api: Api, op: Op, id: nat, mode: nat)
    requires Sound(api.dict) && GivesFresh(api, op)
    requires id in api.dict.forward ==> ModeOf(api.dict, id) == mode
    ensures var d := Step(api, op).dict;
      Sound(d) && (id in d.forward ==> ModeOf(d, id) == Asked(api, op, id, mode))
  {
    match op {
      case StartSession(i, m, given) => StartAsksAndRecords(api, i, m, given);
      case UpdateSession(i, m, given) =>
        if i in api.dict.forward {
          UpdateRecords(api, i, m, given);
        }
      case Answer(ok, session) => AnswerOnlyForgets(api, ok, session);
      case Completed(trips) => CompletionOnlyForgets(api.dict, trips);
      case _ =>
    }
    hide Start, Update, Response, TripsCompleted, Truthful;
  }

  /** Over every run the mode on record for a live id is the one asked for last. */
  lemma {:induction false} RunRecordsMode(api: Api, ops: seq<Op>, id: nat, mode: nat)
    requires Sound(api.dict) && AllFresh(api, ops)
    requires id in api.dict.forward ==> ModeOf(api.dict, id) == mode
    ensures var d := Run(api, ops).dict;
      Sound(d) && (id in d.forward ==> ModeOf(d, id) == LastAsked(api, ops, id, mode))
    decreases |ops|
  {
    if ops != [] {
      StepRecordsMode(api, ops[0], id, mode);
      hide Sound, Step, Asked;
      RunRecordsMode(Step(api, ops[0]), ops[1..], id, Asked(api, ops[0], id, mode));
    }
  }

  /** A session's answer is matched with a session request exactly when the session is live and
      no queue with a session of its own has a request for it. */
  lemma AnswerTakesSessionRequest(api: Api, ok: bool, session: nat)
    requires api.sessions.requests != []
    ensures Response(api, ok, session).sessions != api.sessions <==>
      && session in api.dict.backward
      && !(api.tracking.session == session && api.tracking.requests != [])
      && !(api.tracking.session != session && api.ni.session == session && api.ni.requests != [])
  {
  }

  /** A request in a queue with that session of its own is taken before any session request, from the
      tracking queue first, and from no other queue. */
  lemma OwnQueueFirst(api: Api, session: nat)
    ensures var (rest, found) := TakeRequest(api, session);
      if api.tracking.session == session && api.tracking.requests != [] then
        && found == Some(api.tracking.requests[0])
        && rest == api.(tracking := Queue(session, api.tracking.requests[1..]))
      else if api.tracking.session != session && api.ni.session == session && api.ni.requests != [] then
        found == Some(api.ni.requests[0]) && rest == api.(ni := Queue(session, api.ni.requests[1..]))
      else rest == api.(sessions := rest.sessions)
  {
  }

  /** A late answer for a session that is no longer live leaves the live sessions and the session
      requests as they are. */
  lemma LateAnswerIsHarmless(api: Api, ok: bool, session: nat)
    requires session !in api.dict.backward
    ensures Response(api, ok, session).dict == api.dict && Response(api, ok, session).sessions == api.sessions
  {
  }

  predicate AllFresh(api: Api, ops: seq<Op>)
    decreases |ops|
  {
    ops != [] ==> GivesFresh(api, ops[0]) && AllFresh(Step(api, ops[0]), ops[1..])
  }

  function Run(api: Api, ops: seq<Op>): Api
    decreases |ops|
  {
    if ops == [] then api else Run(Step(api, ops[0]), ops[1..])
  }

  lemma {:induction false} RunKeepsSound(api: Api, ops: seq<Op>)
    requires Sound(api.dict) && AllFresh(api, ops)
    ensures Sound(Run(api, ops).dict)
    decreases |ops|
  {
    hide Sound, Step;
    if ops != [] {
      StepKeepsSound(api, ops[0]);
      RunKeepsSound(Step(api, ops[0]), ops[1..]);
    }
  }

  // ------------------------------------------------------------------------------------------
  // The interface answers each call once, in order

  /** An answer to come, and the kind of request that waits for it.  The answer to the stop of a
      replaced session has none. */
  datatype Awaited = Awaited(session: nat, kind: Found)

  datatype World = World(api: Api, awaiting: seq<Awaited>, issued: set<nat>)

  datatype Move = Do(op: Op) | Deliver(ok: bool)

  /** The kinds of request waited for, in order. */
  function Kinds(awaiting: seq<Awaited>): seq<RequestKind> {
    if awaiting == [] then []
    else
      var before, last := Kinds(awaiting[..|awaiting| - 1]), awaiting[|awaiting| - 1];
      if last.kind.Some? then before + [last.kind.value] else before
  }

  /** The sessions with a request that waits. */
  function Pending(awaiting: seq<Awaited>): set<nat> {
    set a | a in awaiting && a.kind.Some? :: a.session
  }

  function AwaitedFor(calls: seq<Call>, kind: Found): seq<Awaited> {
    if |calls| == 0 then []
    else if |calls| == 1 then [Awaited(calls[0].session, kind)]
    else [Awaited(calls[0].session, None), Awaited(calls[1].session, kind)]
  }

  /** The sessions that the interface gave out for these calls. */
  function Given(calls: seq<Call>): set<nat> {
    set c | c in calls && (c.StartTracking? || c.StartBatching?) :: c.session
  }

  function OutcomeOf(api: Api, op: Op): Outcome {
    match op
    case StartSession(id, mode, given) => Start(api, id, mode, given)
    case StopSession(id) => Stop(api, id)
    case UpdateSession(id, mode, given) => Update(api, id, mode, given)
    case GetBatch(id) => GetBatched(api, id)
    case _ => Outcome(Step(api, op), [], Success)
  }

  function Proceed(w: World, move: Move): World {
    match move
    case Do(op) =>
      var o := OutcomeOf(w.api, op);
      var queue := o.api.sessions.requests;
      World(o.api,
            w.awaiting + AwaitedFor(o.calls, if queue == [] then None else Some(queue[|queue| - 1])),
            w.issued + Given(o.calls))
    case Deliver(ok) =>
      if w.awaiting == [] then w
      else w.(api := Response(w.api, ok, w.awaiting[0].session), awaiting := w.awaiting[1..])
  }

  /** Sessions come fresh from the interface, which answers only calls it was asked. */
  predicate Proper(w: World, move: Move) {
    move.Do? ==>
      match move.op
      case StartSession(_, _, given) => given != 0 && given !in w.issued
      case UpdateSession(_, _, given) => given != 0 && given !in w.issued
      case Answer(_, _) => false
      case _ => true
  }

  /** The session requests are those that the answers to come are for, and each of these answers
      is for a live session. */
  predicate Matched(w: World) {
    && Sound(w.api.dict)
    && w.api.tracking.session == 0 && w.api.ni.session == 0
    && w.api.sessions.requests == Kinds(w.awaiting)
    && w.api.dict.backward.Keys <= w.issued && 0 !in w.issued
    && AllLive(w.awaiting, w.api.dict, w.issued)
  }

  predicate AllLive(awaiting: seq<Awaited>, d: Dict<Entity>, issued: set<nat>) {
    forall a :: a in awaiting ==> a.session in issued && (a.kind.Some? <==> a.session in d.backward)
  }

  /** Does the answer to this request end its session. */
  predicate Ends(kind: RequestKind, ok: bool) {
    match kind
    case StartTrackingRequest => !ok
    case StartBatchingRequest => !ok
    case StopTrackingRequest => ok
    case StopBatchingRequest => ok
    case _ => false
  }

  predicate Switches(api: Api, id: nat, mode: nat) {
    && id in api.dict.forward
    && (mode == SESSION_MODE_ON_FIX) != (EntityOf(api.dict, id).sessionMode == SESSION_MODE_ON_FIX)
  }

  /** A move that ends a session while a later answer for it is still to come: an answer, an
      update between fixes and batches, or the completion of a trip. */
  predicate Orphans(w: World, move: Move) {
    match move
    case Deliver(ok) =>
      && w.awaiting != [] && w.awaiting[0].kind.Some? && Ends(w.awaiting[0].kind.value, ok)
      && w.awaiting[0].session in Pending(w.awaiting[1..])
    case Do(UpdateSession(id, mode, _)) => Switches(w.api, id, mode) && w.api.dict.forward[id] in Pending(w.awaiting)
    case Do(Completed(trips)) => exists t :: t in trips && IsTrip(w.api.dict, t) && t in Pending(w.awaiting)
    case _ => false
  }

  lemma {:induction false} KindsOfMore(a: seq<Awaited>, b: seq<Awaited>)
    ensures Kinds(a + b) == Kinds(a) + Kinds(b)
  {
    if b == [] {
      assert a + b == a;
    } else {
      assert (a + b)[..|a + b| - 1] == a + b[..|b| - 1];
      KindsOfMore(a, b[..|b| - 1]);
    }
  }

  lemma KindsOfFirst(awaiting: seq<Awaited>)
    requires awaiting != []
    ensures Kinds(awaiting) == (if awaiting[0].kind.Some? then [awaiting[0].kind.value] else []) + Kinds(awaiting[1..])
  {
    assert awaiting == [awaiting[0]] + awaiting[1..];
    KindsOfMore([awaiting[0]], awaiting[1..]);
    assert [awaiting[0]][..0] == [];
  }

  /** An answer meets its request: it takes the one that waits for it, or none if its session was
      replaced. */
  predicate Meets(w: World) {
    w.awaiting != [] ==> TakeRequest(w.api, w.awaiting[0].session).1 == w.awaiting[0].kind
  }

  lemma AnswerMeetsItsRequest(w: World)
    requires Matched(w)
    ensures Meets(w)
    ensures w.awaiting != [] ==>
      var rest := TakeRequest(w.api, w.awaiting[0].session).0;
      rest == w.api.(sessions := rest.sessions) && rest.sessions.requests == Kinds(w.awaiting[1..])
  {
    if w.awaiting != [] {
      assert w.awaiting[0] in w.awaiting;
      KindsOfFirst(w.awaiting);
    }
  }

  lemma DictAfterAnswer(d: Dict<Entity>, kind: RequestKind, ok: bool, session: nat)
    ensures Conclude(d, kind, ok, session) == if Ends(kind, ok) then Removed(d, session) else d
  {
  }

  /** What is left to come after an answer that ends its session, or does not. */
  lemma TailAfterAnswer(awaiting: seq<Awaited>, d: Dict<Entity>, issued: set<nat>)
    requires awaiting != [] && AllLive(awaiting, d, issued)
    ensures AllLive(awaiting[1..], d, issued)
    ensures AllLive(awaiting[1..], Removed(d, awaiting[0].session), issued) <==>
      awaiting[0].session !in d.backward || awaiting[0].session !in Pending(awaiting[1..])
  {
    var s := awaiting[0].session;
    assert awaiting[0] in awaiting;
    assert forall a :: a in awaiting[1..] ==> a in awaiting;
    if s in d.backward && s in Pending(awaiting[1..]) {
      var a :| a in awaiting[1..] && a.kind.Some? && a.session == s;
      assert s !in Removed(d, s).backward;
    }
  }

  lemma DeliverMatchesIff(w: World, ok: bool)
    requires Matched(w)
    ensures Matched(Proceed(w, Deliver(ok))) <==> !Orphans(w, Deliver(ok))
  {
    if w.awaiting != [] {
      var a := w.awaiting[0];
      assert a in w.awaiting;
      AnswerMeetsItsRequest(w);
      TailAfterAnswer(w.awaiting, w.api.dict, w.issued);
      RemovedSessionKeepsSound(w.api.dict, a.session);
      hide Sound, TakeRequest, AllLive, Pending, Kinds;
      if a.kind.Some? {
        DictAfterAnswer(w.api.dict, a.kind.value, ok, a.session);
        hide Conclude;
      }
    }
  }

  /** While in step, the refusal of a start and the success of a stop take their session and its id
      off the record, and no other answer does anything to it. */
  lemma AnswerForgets(w: World, ok: bool)
    requires Matched(w) && w.awaiting != [] && w.awaiting[0].kind.Some?
    ensures var d, after, a := w.api.dict, Proceed(w, Deliver(ok)).api.dict, w.awaiting[0];
      if a.kind.value in (if ok then {StopTrackingRequest, StopBatchingRequest}
                          else {StartTrackingRequest, StartBatchingRequest}) then
        && a.session in d.backward
        && after == Dict(d.forward - {d.backward[a.session]}, d.backward - {a.session}, d.ext - {a.session})
      else after == d
  {
    assert w.awaiting[0] in w.awaiting;
    AnswerMeetsItsRequest(w);
    hide Sound, TakeRequest, Kinds;
  }

  lemma OneMoreAwaited(awaiting: seq<Awaited>, a: Awaited, d: Dict<Entity>, issued: set<nat>)
    ensures Kinds(awaiting + [a]) == Kinds(awaiting) + if a.kind.Some? then [a.kind.value] else []
    ensures AllLive(awaiting + [a], d, issued) <==> AllLive(awaiting, d, issued) && AllLive([a], d, issued)
  {
    var more := awaiting + [a];
    assert more[..|more| - 1] == awaiting;
    assert forall x :: x in more <==> x in awaiting || x == a;
  }

  /** One call for a live session, whatever else is to come for it. */
  lemma OneCall(w: World, api: Api, s: nat, kind: RequestKind, issued: set<nat>)
    requires Matched(w)
    requires Sound(api.dict) && api.tracking.session == 0 == api.ni.session
    requires api.sessions.requests == w.api.sessions.requests + [kind]
    requires api.dict.backward.Keys == w.api.dict.backward.Keys + {s}
    requires s in w.api.dict.backward || s !in w.issued
    requires issued == w.issued + {s} && s != 0
    ensures Matched(World(api, w.awaiting + [Awaited(s, Some(kind))], issued))
  {
    OneMoreAwaited(w.awaiting, Awaited(s, Some(kind)), api.dict, issued);
    hide Sound, Kinds;
    assert AllLive(w.awaiting, api.dict, issued);
  }

  /** Two calls, the stop of a session and the start of its successor: in step exactly when no
      answer for the first was still to come. */
  lemma TwoCalls(w: World, api: Api, s: nat, given: nat, kind: RequestKind)
    requires Matched(w) && s in w.api.dict.backward
    requires Sound(api.dict) && api.tracking.session == 0 == api.ni.session
    requires api.sessions.requests == w.api.sessions.requests + [kind]
    requires api.dict.backward.Keys == w.api.dict.backward.Keys - {s} + {given}
    requires given != 0 && given !in w.issued
    ensures Matched(World(api, w.awaiting + [Awaited(s, None), Awaited(given, Some(kind))], w.issued + {given})) <==>
      s !in Pending(w.awaiting)
  {
    hide Sound, Kinds, Pending;
    var more, issued := w.awaiting + [Awaited(s, None)], w.issued + {given};
    OneMoreAwaited(w.awaiting, Awaited(s, None), api.dict, issued);
    OneMoreAwaited(more, Awaited(given, Some(kind)), api.dict, issued);
    assert more + [Awaited(given, Some(kind))] == w.awaiting + [Awaited(s, None), Awaited(given, Some(kind))];
    StillLive(w.awaiting, w.api.dict, api.dict, w.issued, s, given);
    assert AllLive([Awaited(s, None)], api.dict, issued) && AllLive([Awaited(given, Some(kind))], api.dict, issued);
    hide AllLive;
    assert given != 0 && api.dict.backward.Keys <= issued;
  }

  lemma StillLive(awaiting: seq<Awaited>, d: Dict<Entity>, d': Dict<Entity>, issued: set<nat>, s: nat, given: nat)
    requires AllLive(awaiting, d, issued) && given !in issued && s in d.backward
    requires d'.backward.Keys == d.backward.Keys - {s} + {given}
    ensures AllLive(awaiting, d', issued + {given}) <==> s !in Pending(awaiting)
  {
    if s in Pending(awaiting) {
      var a :| a in awaiting && a.kind.Some? && a.session == s;
      assert s !in d'.backward;
    }
  }

  lemma StartKeepsMatched(w: World, id: nat, mode: nat, given: nat)
    requires Matched(w) && given != 0 && given !in w.issued
    ensures Matched(Proceed(w, Do(StartSession(id, mode, given))))
  {
    var op := StartSession(id, mode, given);
    StepKeepsSound(w.api, op);
    assert w.awaiting + [] == w.awaiting && w.issued + {} == w.issued;
    if id !in w.api.dict.forward {
      var o := OutcomeOf(w.api, op);
      assert Given(o.calls) == {given} by {
        assert o.calls[0].session == given;
      }
      var kind := if mode == SESSION_MODE_ON_FIX then StartTrackingRequest else StartBatchingRequest;
      OneCall(w, o.api, given, kind, w.issued + {given});
    }
  }

  lemma AskKeepsMatched(w: World, op: Op)
    requires Matched(w) && (op.StopSession? || op.GetBatch?)
    ensures Matched(Proceed(w, Do(op)))
  {
    assert w.awaiting + [] == w.awaiting && w.issued + {} == w.issued;
    var o := OutcomeOf(w.api, op);
    assert Given(o.calls) == {};
    if o.calls != [] {
      var s := w.api.dict.forward[op.id];
      assert w.api.dict.backward.Keys == w.api.dict.backward.Keys + {s};
      assert w.issued == w.issued + {s};
      var queue := o.api.sessions.requests;
      OneCall(w, o.api, s, queue[|queue| - 1], w.issued);
    }
  }

  lemma UpdateAsks(api: Api, id: nat, mode: nat, given: nat)
    requires Sound(api.dict) && given != 0 && given !in api.dict.backward && id in api.dict.forward
    ensures var o, s := Update(api, id, mode, given), api.dict.forward[id];
      && o.api.sessions.requests == api.sessions.requests + [UpdateKind(mode)]
      && (if Switches(api, id, mode)
          then |o.calls| == 2 && o.calls[0].session == s && o.calls[1].session == given && Given(o.calls) == {given}
          else |o.calls| == 1 && o.calls[0].session == s && Given(o.calls) == {})
  {
  }

  lemma UpdateMoves(api: Api, id: nat, mode: nat, given: nat)
    requires Sound(api.dict) && given != 0 && given !in api.dict.backward && id in api.dict.forward
    ensures var keys, s := Update(api, id, mode, given).api.dict.backward.Keys, api.dict.forward[id];
      keys == if Switches(api, id, mode) then api.dict.backward.Keys - {s} + {given} else api.dict.backward.Keys
  {
  }

  function UpdateKind(mode: nat): RequestKind {
    if mode == SESSION_MODE_ON_FIX then UpdateTrackingOptionsRequest else UpdateBatchingOptionsRequest
  }

  /** The world after an update of a known id. */
  lemma WorldAfterUpdate(w: World, id: nat, mode: nat, given: nat)
    requires Sound(w.api.dict) && given != 0 && given !in w.api.dict.backward && id in w.api.dict.forward
    ensures var w', s := Proceed(w, Do(UpdateSession(id, mode, given))), w.api.dict.forward[id];
      && w' == World(
           Update(w.api, id, mode, given).api,
           w.awaiting + (if Switches(w.api, id, mode) then [Awaited(s, None), Awaited(given, Some(UpdateKind(mode)))]
                         else [Awaited(s, Some(UpdateKind(mode)))]),
           if Switches(w.api, id, mode) then w.issued + {given} else w.issued)
      && w'.api.tracking == w.api.tracking && w'.api.ni == w.api.ni
      && w'.api.sessions.requests == w.api.sessions.requests + [UpdateKind(mode)]
  {
    UpdateAsks(w.api, id, mode, given);
    var o := Update(w.api, id, mode, given);
    assert o.api.tracking == w.api.tracking && o.api.ni == w.api.ni;
    hide Update, Switches, Sound, Given;
    assert w.issued + {} == w.issued;
  }

  lemma KnownUpdateMatchesIff(w: World, id: nat, mode: nat, given: nat)
    requires Matched(w) && given != 0 && given !in w.issued && id in w.api.dict.forward
    ensures Matched(Proceed(w, Do(UpdateSession(id, mode, given)))) <==>
      !(Switches(w.api, id, mode) && w.api.dict.forward[id] in Pending(w.awaiting))
  {
    var s := w.api.dict.forward[id];
    assert s != 0 && s in w.issued && w.api.dict.backward.Keys == w.api.dict.backward.Keys + {s};
    assert w.issued == w.issued + {s};
    hide Update, Switches, AllLive, Kinds, Pending, Proceed;
    UpdateKeepsSound(w.api, id, mode, given);
    UpdateMoves(w.api, id, mode, given);
    WorldAfterUpdate(w, id, mode, given);
    hide Sound, Truthful;
    var api := Update(w.api, id, mode, given).api;
    if Switches(w.api, id, mode) {
      TwoCalls(w, api, s, given, UpdateKind(mode));
    } else {
      OneCall(w, api, s, UpdateKind(mode), w.issued);
    }
  }

  lemma UpdateMatchesIff(w: World, id: nat, mode: nat, given: nat)
    requires Matched(w) && given != 0 && given !in w.issued
    ensures Matched(Proceed(w, Do(UpdateSession(id, mode, given)))) <==> !Orphans(w, Do(UpdateSession(id, mode, given)))
  {
    hide Matched, Renew;
    if id in w.api.dict.forward {
      KnownUpdateMatchesIff(w, id, mode, given);
      hide Proceed;
    } else {
      assert w.awaiting + [] == w.awaiting && w.issued + {} == w.issued;
      assert Proceed(w, Do(UpdateSession(id, mode, given))) == w;
    }
  }

  lemma CompletedMatchesIff(w: World, trips: seq<nat>)
    requires Matched(w)
    ensures Matched(Proceed(w, Do(Completed(trips)))) <==> !Orphans(w, Do(Completed(trips)))
  {
    assert w.awaiting + [] == w.awaiting && w.issued + {} == w.issued;
    TripsKeepSound(w.api.dict, trips);
    TripsReportTheirClients(w.api.dict, trips);
    var d := TripsCompleted(w.api.dict, trips).0;
    hide TripsCompleted, Sound, IsTrip, Kinds;
    TripsLeaveLive(w.awaiting, w.api.dict, d, w.issued, trips);
  }

  lemma TripsLeaveLive(awaiting: seq<Awaited>, d: Dict<Entity>, d': Dict<Entity>, issued: set<nat>, trips: seq<nat>)
    requires AllLive(awaiting, d, issued)
    requires forall s :: s in d'.backward <==> s in d.backward && !(s in trips && IsTrip(d, s))
    ensures AllLive(awaiting, d', issued) <==> forall t :: t in trips && IsTrip(d, t) ==> t !in Pending(awaiting)
  {
    if t :| t in trips && IsTrip(d, t) && t in Pending(awaiting) {
      var a :| a in awaiting && a.kind.Some? && a.session == t;
      assert t !in d'.backward;
    }
  }

  /** Answers and requests stay in step at exactly the moves that orphan no answer. */
  lemma ProceedMatchesIff(w: World, move: Move)
    requires Matched(w) && Proper(w, move)
    ensures Matched(Proceed(w, move)) <==> !Orphans(w, move)
  {
    hide Matched, Proceed;
    match move {
      case Deliver(ok) => DeliverMatchesIff(w, ok);
      case Do(StartSession(id, mode, given)) => StartKeepsMatched(w, id, mode, given);
      case Do(UpdateSession(id, mode, given)) => UpdateMatchesIff(w, id, mode, given);
      case Do(Completed(trips)) => CompletedMatchesIff(w, trips);
      case Do(op) => AskKeepsMatched(w, op);
    }
  }

  // ------------------------------------------------------------------------------------------
  // Runs

  function Play(w: World, moves: seq<Move>): World
    decreases |moves|
  {
    if moves == [] then w else Play(Proceed(w, moves[0]), moves[1..])
  }

  predicate AllProper(w: World, moves: seq<Move>)
    decreases |moves|
  {
    moves != [] ==> Proper(w, moves[0]) && AllProper(Proceed(w, moves[0]), moves[1..])
  }

  predicate NoneOrphans(w: World, moves: seq<Move>)
    decreases |moves|
  {
    moves != [] ==> !Orphans(w, moves[0]) && NoneOrphans(Proceed(w, moves[0]), moves[1..])
  }

  /** Every answer delivered in the run meets its request. */
  predicate AllMeet(w: World, moves: seq<Move>)
    decreases |moves|
  {
    moves != [] ==> (moves[0].Deliver? ==> Meets(w)) && AllMeet(Proceed(w, moves[0]), moves[1..])
  }

  /** Over every run in which no move orphans an answer, each answer meets the request it is
      for. */
  lemma {:induction false} AnswersMeetRequests(w: World, moves: seq<Move>)
    requires Matched(w) && AllProper(w, moves) && NoneOrphans(w, moves)
    ensures AllMeet(w, moves) && Matched(Play(w, moves))
    decreases |moves|
  {
    AnswerMeetsItsRequest(w);
    if moves != [] {
      hide Matched, Proceed, Proper, Orphans, Meets;
      ProceedMatchesIff(w, moves[0]);
      AnswersMeetRequests(Proceed(w, moves[0]), moves[1..]);
    }
  }

  /** What holds whether or not answers and requests are in step. */
  predicate Standing(w: World) {
    && Sound(w.api.dict)
    && w.api.tracking.session == 0 && w.api.ni.session == 0
    && w.api.dict.backward.Keys <= w.issued && 0 !in w.issued
    && forall a :: a in w.awaiting ==> a.session in w.issued
  }

  predicate IsOrphan(w: World, a: Awaited) {
    a in w.awaiting && a.kind.Some? && a.session !in w.api.dict.backward
  }

  lemma {:induction false} TripsRemoveOnly(d: Dict<Entity>, trips: seq<nat>)
    ensures TripsCompleted(d, trips).0.backward.Keys <= d.backward.Keys
  {
    if trips != [] {
      TripsRemoveOnly(d, trips[..|trips| - 1]);
    }
  }

  lemma UpdateSpeaksOfLive(api: Api, id: nat, mode: nat, given: nat)
    requires Sound(api.dict) && given != 0 && given !in api.dict.backward
    ensures var o := Update(api, id, mode, given);
      && o.api.dict.backward.Keys <= api.dict.backward.Keys + Given(o.calls)
      && (forall c :: c in o.calls ==> c.session in api.dict.backward || c.session in Given(o.calls))
      && Given(o.calls) <= {given}
      && o.api.tracking == api.tracking && o.api.ni == api.ni
  {
    var o := Update(api, id, mode, given);
    assert o.api.tracking == api.tracking && o.api.ni == api.ni;
    if id in api.dict.forward {
      UpdateAsks(api, id, mode, given);
      UpdateMoves(api, id, mode, given);
      hide Update, Given, Switches, Truthful;
    } else {
      assert o.calls == [];
    }
  }

  /** The sessions that a call speaks of are live or just given out, and no others come alive. */
  lemma CallsSpeakOfLive(api: Api, op: Op)
    requires Sound(api.dict) && GivesFresh(api, op) && !op.Answer?
    ensures var o := OutcomeOf(api, op);
      && o.api.dict.backward.Keys <= api.dict.backward.Keys + Given(o.calls)
      && (forall c :: c in o.calls ==> c.session in api.dict.backward || c.session in Given(o.calls))
      && (forall t :: t in Given(o.calls) ==> (op.StartSession? || op.UpdateSession?) && t == op.given)
      && o.api.tracking.session == api.tracking.session && o.api.ni.session == api.ni.session
  {
    match op {
      case UpdateSession(id, mode, given) => UpdateSpeaksOfLive(api, id, mode, given);
      case Completed(trips) => TripsRemoveOnly(api.dict, trips);
      case StartSession(id, mode, given) =>
        var calls := OutcomeOf(api, op).calls;
        assert calls != [] ==> calls[0].session in Given(calls);
      case _ =>
        hide Inverse;
    }
  }

  lemma DoKeepsStanding(w: World, op: Op)
    requires Standing(w) && Proper(w, Do(op))
    ensures Standing(Proceed(w, Do(op)))
    ensures forall a :: IsOrphan(w, a) ==> IsOrphan(Proceed(w, Do(op)), a)
  {
    CallsSpeakOfLive(w.api, op);
    StepKeepsSound(w.api, op);
    var o := OutcomeOf(w.api, op);
    assert o.api == Step(w.api, op);
    var queue := o.api.sessions.requests;
    AwaitedForCalls(o.calls, if queue == [] then None else Some(queue[|queue| - 1]));
    hide Sound, Step, OutcomeOf, Given, AwaitedFor;
  }

  lemma AwaitedForCalls(calls: seq<Call>, kind: Found)
    ensures forall a :: a in AwaitedFor(calls, kind) ==> exists c :: c in calls && a.session == c.session
  {
    if |calls| == 1 {
      assert calls[0] in calls;
    } else if |calls| > 1 {
      assert calls[0] in calls && calls[1] in calls;
    }
  }

  lemma DeliverKeepsStanding(w: World, ok: bool)
    requires Standing(w)
    ensures Standing(Proceed(w, Deliver(ok)))
    ensures forall a :: IsOrphan(w, a) ==> (w.awaiting[0] == a && !Meets(w)) || IsOrphan(Proceed(w, Deliver(ok)), a)
  {
    if w.awaiting != [] {
      var s := w.awaiting[0].session;
      assert w.awaiting[0] in w.awaiting;
      StepKeepsSound(w.api, Answer(ok, s));
      assert forall a :: a in w.awaiting <==> a == w.awaiting[0] || a in w.awaiting[1..];
      hide Sound;
    }
  }

  /** An answer that has lost its session stays that way, until it comes and meets no request. */
  lemma {:induction false} OrphanShows(w: World, moves: seq<Move>, a: Awaited)
    requires Standing(w) && IsOrphan(w, a) && AllProper(w, moves) && Play(w, moves).awaiting == []
    ensures !AllMeet(w, moves)
    decreases |moves|
  {
    if moves != [] {
      hide Standing, Proceed, Proper, IsOrphan, Meets;
      match moves[0] {
        case Do(op) =>
          DoKeepsStanding(w, op);
          OrphanShows(Proceed(w, moves[0]), moves[1..], a);
        case Deliver(ok) =>
          DeliverKeepsStanding(w, ok);
          if IsOrphan(Proceed(w, moves[0]), a) {
            OrphanShows(Proceed(w, moves[0]), moves[1..], a);
          }
      }
    }
  }

  lemma OrphansLeaveOrphan(w: World, move: Move)
    requires Matched(w) && Proper(w, move) && Orphans(w, move)
    ensures Standing(w) && Standing(Proceed(w, move))
    ensures exists a :: IsOrphan(Proceed(w, move), a)
  {
    match move {
      case Deliver(ok) =>
        DeliverKeepsStanding(w, ok);
        AnswerMeetsItsRequest(w);
        var s := w.awaiting[0].session;
        var a :| a in w.awaiting[1..] && a.kind.Some? && a.session == s;
        assert w.awaiting[0] in w.awaiting && s in w.api.dict.backward;
        DictAfterAnswer(w.api.dict, w.awaiting[0].kind.value, ok, s);
        assert IsOrphan(Proceed(w, move), a);
      case Do(UpdateSession(id, mode, given)) =>
        DoKeepsStanding(w, move.op);
        var a :| a in w.awaiting && a.kind.Some? && a.session == w.api.dict.forward[id];
        UpdateMoves(w.api, id, mode, given);
        assert IsOrphan(Proceed(w, move), a);
      case Do(Completed(trips)) =>
        DoKeepsStanding(w, move.op);
        var t :| t in trips && IsTrip(w.api.dict, t) && t in Pending(w.awaiting);
        var a :| a in w.awaiting && a.kind.Some? && a.session == t;
        TripsReportTheirClients(w.api.dict, trips);
        assert IsOrphan(Proceed(w, move), a);
    }
  }

  /** The exact condition: over a run at whose end no answer is outstanding, each answer meets the
      request it is for if and only if no move orphaned one. */
  lemma {:induction false} AllMeetIff(w: World, moves: seq<Move>)
    requires Matched(w) && AllProper(w, moves) && Play(w, moves).awaiting == []
    ensures AllMeet(w, moves) <==> NoneOrphans(w, moves)
    decreases |moves|
  {
    AnswerMeetsItsRequest(w);
    if moves != [] {
      hide Matched, Standing, Proceed, Proper, Orphans, Meets, IsOrphan;
      ProceedMatchesIff(w, moves[0]);
      if Orphans(w, moves[0]) {
        OrphansLeaveOrphan(w, moves[0]);
        var a :| IsOrphan(Proceed(w, moves[0]), a);
        OrphanShows(Proceed(w, moves[0]), moves[1..], a);
      } else {
        AllMeetIff(Proceed(w, moves[0]), moves[1..]);
      }
    }
  }

  /** No two answers to come are for one session. */
  predicate OneEach(awaiting: seq<Awaited>) {
    forall i, j :: 0 <= i < j < |awaiting| && awaiting[i].kind.Some? && awaiting[j].kind.Some? ==>
      awaiting[i].session != awaiting[j].session
  }

  /** A client that waits for an answer before it calls for the same id again, and an interface
      that does not complete a trip while a call for it is open. */
  predicate Patient(w: World, move: Move) {
    move.Do? ==>
      match move.op
      case StopSession(id) => At(w.api.dict.forward, id) !in Pending(w.awaiting)
      case UpdateSession(id, _, _) => At(w.api.dict.forward, id) !in Pending(w.awaiting)
      case GetBatch(id) => At(w.api.dict.forward, id) !in Pending(w.awaiting)
      case Completed(trips) => forall t :: t in trips ==> t !in Pending(w.awaiting)
      case _ => true
  }

  predicate AllPatient(w: World, moves: seq<Move>)
    decreases |moves|
  {
    moves != [] ==> Patient(w, moves[0]) && AllPatient(Proceed(w, moves[0]), moves[1..])
  }

  /** A patient call is for a session without an open answer. */
  lemma PatientCall(w: World, op: Op)
    requires Matched(w) && Proper(w, Do(op)) && Patient(w, Do(op))
    ensures var o := OutcomeOf(w.api, op);
      && |o.calls| <= 2
      && (o.calls != [] ==> o.calls[|o.calls| - 1].session !in Pending(w.awaiting))
  {
    if op.UpdateSession? && op.id in w.api.dict.forward {
      UpdateAsks(w.api, op.id, op.mode, op.given);
    }
    assert AllLive(w.awaiting, w.api.dict, w.issued);
    assert (op.StartSession? || op.UpdateSession?) ==> op.given !in Pending(w.awaiting);
  }

  lemma PatientOrphansNone(w: World, move: Move)
    requires Matched(w) && OneEach(w.awaiting) && Proper(w, move) && Patient(w, move)
    ensures !Orphans(w, move) && OneEach(Proceed(w, move).awaiting)
  {
    match move {
      case Deliver(ok) =>
        if w.awaiting != [] {
          assert forall a :: a in w.awaiting[1..] ==> exists i :: 0 < i < |w.awaiting| && w.awaiting[i] == a;
        }
      case Do(op) =>
        PatientCall(w, op);
        hide OutcomeOf, Matched, Proper;
        var more := Proceed(w, move).awaiting;
        forall i, j | 0 <= i < j < |more| && more[i].kind.Some? && more[j].kind.Some?
          ensures more[i].session != more[j].session
        {
          assert i < |w.awaiting| && more[i] == w.awaiting[i] && w.awaiting[i] in w.awaiting;
        }
    }
  }

  /** A patient client's answers all meet their requests, over every run. */
  lemma {:induction false} PatientAnswersMeet(w: World, moves: seq<Move>)
    requires Matched(w) && OneEach(w.awaiting) && AllProper(w, moves) && AllPatient(w, moves)
    ensures NoneOrphans(w, moves) && AllMeet(w, moves)
    decreases |moves|
  {
    AnswerMeetsItsRequest(w);
    if moves != [] {
      hide Matched, OneEach, Proceed, Proper, Patient, Orphans, Meets;
      PatientOrphansNone(w, moves[0]);
      ProceedMatchesIff(w, moves[0]);
      PatientAnswersMeet(Proceed(w, moves[0]), moves[1..]);
    }
  }

  lemma StopTwice(w: World, id: nat)
    requires Matched(w) && w.awaiting == [] && id in w.api.dict.forward
    ensures var s := w.api.dict.forward[id];
      var w' := Proceed(Proceed(w, Do(StopSession(id))), Do(StopSession(id)));
      exists kind: RequestKind :: (kind.StopTrackingRequest? || kind.StopBatchingRequest?)
        && w'.api == w.api.(sessions := w.api.sessions.(requests := [kind, kind]))
        && w'.awaiting == [Awaited(s, Some(kind)), Awaited(s, Some(kind))]
  {
  }

  lemma BothStopsAnswered(w: World, s: nat, kind: RequestKind)
    requires Matched(w.(awaiting := [], api := w.api.(sessions := w.api.sessions.(requests := []))))
    requires s in w.api.dict.backward
    requires kind.StopTrackingRequest? || kind.StopBatchingRequest?
    requires w.api.sessions.requests == [kind, kind]
    requires w.awaiting == [Awaited(s, Some(kind)), Awaited(s, Some(kind))]
    ensures var w' := Proceed(Proceed(w, Deliver(true)), Deliver(true));
      w' == World(
        w.api.(dict := RemovedSession(w.api.dict, s), sessions := w.api.sessions.(requests := [kind])), [], w.issued)
  {
  }

  lemma LeftOverEndsSession(w: World, kind: RequestKind, next: nat, mode: nat, given: nat)
    requires kind.StopTrackingRequest? || kind.StopBatchingRequest?
    requires w.api.sessions.requests == [kind] && w.awaiting == [] && w.api.tracking.session == 0 == w.api.ni.session
    requires next !in w.api.dict.forward && given != 0
    ensures var started := Proceed(w, Do(StartSession(next, mode, given)));
      && next in started.api.dict.forward && |started.awaiting| == 1
      && next !in Proceed(started, Deliver(true)).api.dict.forward
  {
    var started := Proceed(w, Do(StartSession(next, mode, given)));
    assert started.awaiting[0].session == given && started.api.dict.backward[given] == next;
    assert started.api.sessions.requests[0] == kind;
  }

  /** Patience is needed: after two stops of one session and their two answers a stop request is
      left over, and the answer that a new session did start ends that session for the client. */
  lemma SecondStopEndsNextSession(w: World, id: nat, next: nat, mode: nat, given: nat)
    requires Matched(w) && w.awaiting == [] && id in w.api.dict.forward
    requires next !in w.api.dict.forward && given != 0 && given !in w.issued
    ensures var asked := Proceed(Proceed(w, Do(StopSession(id))), Do(StopSession(id)));
      var stopped := Proceed(Proceed(asked, Deliver(true)), Deliver(true));
      var started := Proceed(stopped, Do(StartSession(next, mode, given)));
      && stopped.awaiting == [] && |stopped.api.sessions.requests| == 1
      && next in started.api.dict.forward && |started.awaiting| == 1
      && next !in Proceed(started, Deliver(true)).api.dict.forward
  {
    StopTwice(w, id);
    var s := w.api.dict.forward[id];
    var w2 := Proceed(Proceed(w, Do(StopSession(id))), Do(StopSession(id)));
    var kind: RequestKind :| (kind.StopTrackingRequest? || kind.StopBatchingRequest?)
      && w2.api == w.api.(sessions := w.api.sessions.(requests := [kind, kind]))
      && w2.awaiting == [Awaited(s, Some(kind)), Awaited(s, Some(kind))];
    hide Proceed, Truthful;
    assert w.(awaiting := []) == w && w.api.sessions.requests == [];
    BothStopsAnswered(w2, s, kind);
    LeftOverEndsSession(Proceed(Proceed(w2, Deliver(true)), Deliver(true)), kind, next, mode, given);
  }

  // ------------------------------------------------------------------------------------------
  // The objects

  class RequestQueue {
    var session: nat
    var queue: seq<RequestKind>

    constructor ()
      ensures View() == Queue(0, [])
    {
      session, queue := 0, [];
    }

    function View(): Queue
      reads this
    {
      Queue(session, queue)
    }

    method SetSession(session: nat)
      modifies this
      ensures View() == old(View()).(session := session)
    {
      this.session := session;
    }

    method Reset(session: nat)
      modifies this
      ensures View() == Queue(session, [])
    {
      while queue != []
        decreases |queue|
      {
        queue := queue[1..];
      }
      this.session := session;
    }

    method Push(request: RequestKind)
      modifies this
      ensures View() == Pushed(old(View()), request)
    {
      queue := queue + [request];
    }

    method Pop() returns (request: Found)
      modifies this
      ensures View() == Popped(old(View())) && request == First(old(View()))
    {
      request := None;
      if queue != [] {
        request := Some(queue[0]);
        queue := queue[1..];
      }
    }
  }

  class LocationAPIClientBase {
    const sessionBiDict: BiDict<Entity>
    const sessionRequests: RequestQueue
    const trackingRequests: RequestQueue
    const niRequests: RequestQueue

    constructor ()
      ensures Separate() && fresh({sessionBiDict} + Queues())
      ensures View() == Api(Dict(map[], map[], map[]), Queue(0, []), Queue(0, []), Queue(0, []))
    {
      sessionBiDict := new BiDict();
      sessionRequests := new RequestQueue();
      trackingRequests := new RequestQueue();
      niRequests := new RequestQueue();
    }

    predicate Separate() {
      sessionRequests != trackingRequests && sessionRequests != niRequests && trackingRequests != niRequests
    }

    function Queues(): set<object> {
      {sessionRequests, trackingRequests, niRequests}
    }

    ghost function View(): Api
      reads sessionBiDict, Queues()
    {
      Api(sessionBiDict.View(), sessionRequests.View(), trackingRequests.View(), niRequests.View())
    }

    method LocAPIStartSession(id: nat, sessionMode: nat, given: nat) returns (calls: seq<Call>, status: Status)
      requires Separate()
      modifies sessionBiDict, sessionRequests
      ensures Outcome(View(), calls, status) == Start(old(View()), id, sessionMode, given)
    {
      var known := sessionBiDict.HasId(id);
      if known {
        return [], AlreadyStarted;
      }
      var trackingSession, batchingSession := 0, 0;
      if sessionMode == SESSION_MODE_ON_FIX {
        trackingSession := given;
        calls := [StartTracking(trackingSession)];
        sessionRequests.Push(StartTrackingRequest);
      } else {
        batchingSession := given;
        calls := [StartBatching(batchingSession, BatchingModeOf(sessionMode))];
        sessionRequests.SetSession(batchingSession);
        sessionRequests.Push(StartBatchingRequest);
      }
      var session := if sessionMode != SESSION_MODE_ON_FIX then batchingSession else trackingSession;
      sessionBiDict.Set(id, session, Entity(id, trackingSession, batchingSession, sessionMode));
      status := Success;
    }

    method LocAPIStopSession(id: nat) returns (calls: seq<Call>, status: Status)
      requires Separate()
      modifies sessionBiDict, sessionRequests
      ensures Outcome(View(), calls, status) == Stop(old(View()), id)
    {
      var known := sessionBiDict.HasId(id);
      if !known {
        return [], IdUnknown;
      }
      var entity := sessionBiDict.GetExtById(id, Entity(0, 0, 0, 0));
      if entity.sessionMode == SESSION_MODE_ON_FIX {
        sessionRequests.Push(StopTrackingRequest);
        calls := [StopTracking(entity.trackingSession)];
      } else {
        sessionRequests.Push(StopBatchingRequest);
        calls := [StopBatching(entity.batchingSession)];
      }
      status := Success;
    }

    method LocAPIUpdateSessionOptions(id: nat, sessionMode: nat, given: nat) returns (calls: seq<Call>, status: Status)
      requires Separate()
      modifies sessionBiDict, sessionRequests
      ensures Outcome(View(), calls, status) == Update(old(View()), id, sessionMode, given)
    {
      var known := sessionBiDict.HasId(id);
      if !known {
        return [], IdUnknown;
      }
      var entity := sessionBiDict.GetExtById(id, Entity(0, 0, 0, 0));
      var trackingSession, batchingSession := entity.trackingSession, entity.batchingSession;
      if sessionMode == SESSION_MODE_ON_FIX {
        sessionRequests.Push(UpdateTrackingOptionsRequest);
        if entity.sessionMode == SESSION_MODE_ON_FIX {
          calls := [UpdateTracking(trackingSession)];
        } else {
          calls := [StopBatching(batchingSession)];
          batchingSession := 0;
          sessionRequests.SetSession(batchingSession);
          trackingSession := given;
          calls := calls + [StartTracking(trackingSession)];
        }
      } else {
        sessionRequests.Push(UpdateBatchingOptionsRequest);
        if entity.sessionMode == SESSION_MODE_ON_FIX {
          calls := [StopTracking(trackingSession)];
          trackingSession := 0;
          batchingSession := given;
          calls := calls + [StartBatching(batchingSession, BatchingModeOf(sessionMode))];
          sessionRequests.SetSession(batchingSession);
        } else {
          calls := [UpdateBatching(batchingSession, BatchingModeOf(sessionMode))];
        }
      }
      var session := if sessionMode != SESSION_MODE_ON_FIX then batchingSession else trackingSession;
      entity := entity.(
        trackingSession := trackingSession, batchingSession := batchingSession, sessionMode := sessionMode);
      sessionBiDict.RmById(id);
      sessionBiDict.Set(id, session, entity);
      status := Success;
    }

    method LocAPIGetBatchedLocations(id: nat) returns (calls: seq<Call>, status: Status)
      requires Separate()
      modifies sessionBiDict, sessionRequests
      ensures Outcome(View(), calls, status) == GetBatched(old(View()), id)
    {
      var known := sessionBiDict.HasId(id);
      if !known {
        return [], IdUnknown;
      }
      var entity := sessionBiDict.GetExtById(id, Entity(0, 0, 0, 0));
      if entity.sessionMode == SESSION_MODE_ON_FIX {
        return [], NotSupported;
      }
      sessionRequests.Push(GetBatchedLocationsRequest);
      return [GetBatchedLocations(entity.batchingSession)], Success;
    }

    method RemoveSession(session: nat)
      modifies sessionBiDict
      ensures sessionBiDict.View() == Removed(old(sessionBiDict.View()), session)
    {
      var known := sessionBiDict.HasSession(session);
      if known {
        sessionBiDict.RmBySession(session);
      }
    }

    method GetRequestBySession(session: nat) returns (request: Found)
      requires Separate()
      modifies Queues()
      ensures (View(), request) == TakeRequest(old(View()), session)
    {
      request := None;
      if trackingRequests.session == session {
        request := trackingRequests.Pop();
      } else if niRequests.session == session {
        request := niRequests.Pop();
      }
      if request == None {
        var known := sessionBiDict.HasSession(session);
        if known {
          request := sessionRequests.Pop();
        }
      }
    }

    method OnResponseCb(ok: bool, session: nat)
      requires Separate()
      modifies Queues(), sessionBiDict
      ensures View() == Response(old(View()), ok, session)
    {
      var request := GetRequestBySession(session);
      match request
      case None =>
      case Some(kind) =>
        match kind
        case StartTrackingRequest => if !ok { RemoveSession(session); }
        case StartBatchingRequest => if !ok { RemoveSession(session); }
        case StopTrackingRequest => if ok { RemoveSession(session); }
        case StopBatchingRequest => if ok { RemoveSession(session); }
        case _ =>
    }

    method BeforeBatchingStatusCb(tripCompletedList: seq<nat>) returns (tripCompletedClientIdList: seq<nat>)
      modifies sessionBiDict
      ensures (sessionBiDict.View(), tripCompletedClientIdList) ==
        TripsCompleted(old(sessionBiDict.View()), tripCompletedList)
    {
      tripCompletedClientIdList := [];
      for i := 0 to |tripCompletedList|
        invariant (sessionBiDict.View(), tripCompletedClientIdList) ==
          TripsCompleted(old(sessionBiDict.View()), tripCompletedList[..i])
      {
        assert tripCompletedList[..i + 1][..i] == tripCompletedList[..i];
        var session := tripCompletedList[i];
        var known := sessionBiDict.HasSession(session);
        if known {
          var entity := sessionBiDict.GetExtBySession(session, Entity(0, 0, 0, 0));
          if entity.sessionMode == SESSION_MODE_ON_TRIP_COMPLETED {
            tripCompletedClientIdList := tripCompletedClientIdList + [entity.id];
            sessionBiDict.RmBySession(session);
          }
        }
      }
      assert tripCompletedList[..|tripCompletedList|] == tripCompletedList;
    }
  }
}
