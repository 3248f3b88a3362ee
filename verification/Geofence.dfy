/** GeofenceAdapter.cpp: the fences by the number the engine gave them, and those numbers by the
    client's own key. */
module Geofence {
  import opened Wrappers

  type Client = nat
  type HwId = nat

  datatype Key = Key(client: Client, id: nat)
  datatype Options = Options(breachMask: nat, responsiveness: nat, dwellTime: nat, confidence: nat)
  datatype Info = Info(latitude: real, longitude: real, radius: real)
  datatype Fence = Fence(key: Key, options: Options, info: Info, paused: bool)

  datatype Table = Table(fences: map<HwId, Fence>, ids: map<Key, HwId>)

  // ------------------------------------------------------------------------------------------
  // The steps

  function Saved(t: Table, key: Key, hwId: HwId, options: Options, info: Info): Table {
    Table(t.fences[hwId := Fence(key, options, info, false)], t.ids[key := hwId])
  }

  /** removeGeofenceItem: nothing happens to a fence that its key no longer leads to. */
  function Removed(t: Table, hwId: HwId): Table {
    if hwId in t.fences && t.fences[hwId].key in t.ids
    then Table(t.fences - {hwId}, t.ids - {t.fences[hwId].key})
    else t
  }

  function WithPaused(t: Table, hwId: HwId, paused: bool): Table {
    if hwId in t.fences then t.(fences := t.fences[hwId := t.fences[hwId].(paused := paused)]) else t
  }

  function WithOptions(t: Table, hwId: HwId, options: Options): Table {
    if hwId in t.fences then t.(fences := t.fences[hwId := t.fences[hwId].(options := options)]) else t
  }

  /** stopClientSessions: the keys go at once, the fences when the engine has removed them. */
  function Deserted(t: Table, client: Client): Table {
    t.(ids := map key | key in t.ids && key.client != client :: t.ids[key])
  }

  function LeftBy(t: Table, client: Client): set<HwId> {
    set key | key in t.ids && key.client == client :: t.ids[key]
  }

  function Erased(t: Table, hwId: HwId): Table {
    t.(fences := t.fences - {hwId})
  }

  // ------------------------------------------------------------------------------------------
  // The double index

  /** Every key leads to a fence that carries it. */
  predicate Indexed(t: Table) {
    forall key :: key in t.ids ==> t.ids[key] in t.fences && t.fences[t.ids[key]].key == key
  }

  /** A table, the fences that clients left behind, and the numbers under which the engine was asked
      to remove such a fence and has yet to answer, each as often as it was asked. */
  datatype World = World(table: Table, left: set<HwId>, pending: multiset<HwId>)

  predicate KeysApart(fences: map<HwId, Fence>) {
    forall h, k :: h in fences && k in fences && fences[h].key == fences[k].key ==> h == k
  }

  /** The keys lead to the fences that no client has left behind, and to no others. */
  predicate Sound(w: World) {
    && Indexed(w.table) && KeysApart(w.table.fences) && w.left <= w.table.fences.Keys
    && (forall h :: h in w.table.fences ==> (h !in w.left <==> w.table.fences[h].key in w.table.ids))
  }

  datatype Step =
    | Save(key: Key, hwId: HwId, options: Options, info: Info)
    | Remove(hwId: HwId)
    | Pause(hwId: HwId, paused: bool)
    | Modify(hwId: HwId, options: Options)
    | StopClient(client: Client)
    | RemovalAnswered(hwId: HwId, ok: bool)
    | Restart(order: seq<HwId>, answers: seq<Numbering>)

  function After(w: World, step: Step): World
    requires Proper(w, step)
  {
    match step
    case Save(key, hwId, options, info) => w.(table := Saved(w.table, key, hwId, options, info))
    case Remove(hwId) => w.(table := Removed(w.table, hwId))
    case Pause(hwId, paused) => w.(table := WithPaused(w.table, hwId, paused))
    case Modify(hwId, options) => w.(table := WithOptions(w.table, hwId, options))
    case StopClient(client) =>
      World(Deserted(w.table, client), w.left + LeftBy(w.table, client), w.pending + multiset(LeftBy(w.table, client)))
    case RemovalAnswered(hwId, ok) =>
      if hwId !in w.pending then w
      else if ok then World(Erased(w.table, hwId), w.left - {hwId}, w.pending - multiset{hwId})
      else w.(pending := w.pending - multiset{hwId})
    case Restart(order, answers) => World(Readded(w.table.fences, order, answers), {}, w.pending)
  }

  /** The engine numbers the stored fences apart, and no key is made twice. */
  ghost predicate Proper(w: World, step: Step) {
    match step
    case Save(key, hwId, _, _) =>
      hwId !in w.table.fences && forall h :: h in w.table.fences ==> w.table.fences[h].key != key
    case Restart(order, answers) => Lists(order, w.table.fences) && |order| == |answers| && GivenApart(answers)
    case _ => true
  }

  /** A late answer that hits a fence which is not left behind: the engine has given its number out
      again, after a restart. */
  predicate Strikes(w: World, step: Step) {
    step.RemovalAnswered? && step.ok && step.hwId in w.pending && step.hwId in w.table.fences && step.hwId !in w.left
  }

  /** Saving keeps the index exactly when no other key leads to that number. */
  lemma SaveKeepsIndexed(t: Table, key: Key, hwId: HwId, options: Options, info: Info)
    requires Indexed(t)
    ensures Indexed(Saved(t, key, hwId, options, info)) <==> forall k :: k in t.ids && t.ids[k] == hwId ==> k == key
  {
    var t' := Saved(t, key, hwId, options, info);
    if k :| k in t.ids && t.ids[k] == hwId && k != key {
      assert t'.ids[k] == hwId;
    }
  }

  lemma StopKeepsSound(w: World, client: Client)
    requires Sound(w)
    ensures Sound(After(w, StopClient(client)))
  {
    var t := Deserted(w.table, client);
    forall h | h in t.fences
      ensures h !in w.left + LeftBy(w.table, client) <==> t.fences[h].key in t.ids
    {
      var key := t.fences[h].key;
      assert key in w.table.ids ==> w.table.ids[key] == h;
    }
  }

  lemma AnswerSoundIff(w: World, hwId: HwId, ok: bool)
    requires Sound(w)
    ensures Sound(After(w, RemovalAnswered(hwId, ok))) <==> !Strikes(w, RemovalAnswered(hwId, ok))
  {
    if Strikes(w, RemovalAnswered(hwId, ok)) {
      var key := w.table.fences[hwId].key;
      assert key in w.table.ids && w.table.ids[key] == hwId;
      assert key in After(w, RemovalAnswered(hwId, ok)).table.ids;
    }
  }

  lemma RestartKeepsSound(w: World, order: seq<HwId>, answers: seq<Numbering>)
    requires Sound(w) && Proper(w, Restart(order, answers))
    ensures Sound(After(w, Restart(order, answers)))
  {
    RestartBringsBack(w.table.fences, order, answers);
    OriginNamesOnce(order, answers);
    BackIsIndexed(w.table.fences, Origin(order, answers), Readded(w.table.fences, order, answers));
    hide Readded, Origin, BroughtBack;
  }

  /** Every step, engine restarts included, keeps the keys leading to exactly the fences that no
      client has left, unless a late answer strikes another fence. */
  lemma StepSoundIff(w: World, step: Step)
    requires Sound(w) && Proper(w, step)
    ensures Sound(After(w, step)) <==> !Strikes(w, step)
  {
    match step {
      case StopClient(client) => StopKeepsSound(w, client);
      case RemovalAnswered(hwId, ok) => AnswerSoundIff(w, hwId, ok);
      case Restart(order, answers) => RestartKeepsSound(w, order, answers);
      case Remove(hwId) => RemoveKeepsSound(w, hwId);
      case _ =>
    }
  }

  lemma RemoveKeepsSound(w: World, hwId: HwId)
    requires Sound(w)
    ensures Sound(After(w, Remove(hwId)))
  {
    if hwId in w.table.fences && w.table.fences[hwId].key in w.table.ids {
      assert w.table.ids[w.table.fences[hwId].key] == hwId;
    }
  }

  ghost predicate AllProper(w: World, steps: seq<Step>)
    decreases |steps|
  {
    steps != [] ==> Proper(w, steps[0]) && AllProper(After(w, steps[0]), steps[1..])
  }

  ghost predicate NoneStrikes(w: World, steps: seq<Step>)
    requires AllProper(w, steps)
    decreases |steps|
  {
    steps != [] ==> !Strikes(w, steps[0]) && NoneStrikes(After(w, steps[0]), steps[1..])
  }

  function Run(w: World, steps: seq<Step>): World
    requires AllProper(w, steps)
    decreases |steps|
  {
    if steps == [] then w else Run(After(w, steps[0]), steps[1..])
  }

  lemma {:induction false} RunKeepsSound(w: World, steps: seq<Step>)
    requires Sound(w) && AllProper(w, steps) && NoneStrikes(w, steps)
    ensures Sound(Run(w, steps))
    decreases |steps|
  {
    hide Sound, After, Strikes, Proper;
    if steps != [] {
      StepSoundIff(w, steps[0]);
      RunKeepsSound(After(w, steps[0]), steps[1..]);
    }
  }

  /** What a strike does: the key of a live fence leads nowhere from then on. */
  lemma StruckKeyLeadsNowhere(w: World, hwId: HwId)
    requires Sound(w) && Strikes(w, RemovalAnswered(hwId, true))
    ensures var t, key := After(w, RemovalAnswered(hwId, true)).table, w.table.fences[hwId].key;
      key in t.ids && t.ids[key] !in t.fences
  {
    assert w.table.fences[hwId].key in w.table.ids;
  }

  // ------------------------------------------------------------------------------------------
  // What each step does, fence by fence

  /** A removal takes out the fence and its key, and nothing else; a number that is not stored, or
      whose fence was left behind, changes nothing. */
  lemma RemovalTakesOut(w: World, hwId: HwId)
    requires Sound(w)
    ensures var t, t' := w.table, After(w, Remove(hwId)).table;
      if hwId in t.fences && hwId !in w.left then
        && t'.fences.Keys == t.fences.Keys - {hwId} && t'.ids.Keys == t.ids.Keys - {t.fences[hwId].key}
        && (forall h :: h in t'.fences ==> t'.fences[h] == t.fences[h])
        && (forall key :: key in t'.ids ==> t'.ids[key] == t.ids[key])
      else t' == t
  {
  }

  /** A pause, a resume and a change of options touch the one field of the one fence. */
  lemma ChangesTouchOneFence(w: World, hwId: HwId, paused: bool, options: Options)
    requires hwId in w.table.fences
    ensures var t, t1, t2 := w.table, After(w, Pause(hwId, paused)).table, After(w, Modify(hwId, options)).table;
      && t1.fences.Keys == t2.fences.Keys == t.fences.Keys && t1.ids == t2.ids == t.ids
      && t1.fences[hwId] == Fence(t.fences[hwId].key, t.fences[hwId].options, t.fences[hwId].info, paused)
      && t2.fences[hwId] == Fence(t.fences[hwId].key, options, t.fences[hwId].info, t.fences[hwId].paused)
      && forall h :: h in t.fences && h != hwId ==> t1.fences[h] == t2.fences[h] == t.fences[h]
  {
  }

  /** When a client stops, its keys are gone at once and its fences stay until the engine answers. */
  lemma StopLeaves(w: World, client: Client)
    requires Sound(w)
    ensures var t, w' := w.table, After(w, StopClient(client));
      && w'.table.fences == t.fences
      && (forall key :: key in w'.table.ids <==> key in t.ids && key.client != client)
      && (forall key :: key in w'.table.ids ==> w'.table.ids[key] == t.ids[key])
      && (forall h :: h in w'.left <==> h in w.left || (h in t.fences && t.fences[h].key.client == client))
      && w'.pending == w.pending + multiset(w'.left - w.left)
  {
    var w' := After(w, StopClient(client));
    forall h | h in w.table.fences && w.table.fences[h].key.client == client
      ensures h in w'.left
    {
      var key := w.table.fences[h].key;
      assert key in w.table.ids ==> w.table.ids[key] == h && h in LeftBy(w.table, client);
    }
    forall h | h in LeftBy(w.table, client)
      ensures h !in w.left
    {
      var key :| key in w.table.ids && w.table.ids[key] == h;
      assert w.table.fences[h].key == key;
    }
    assert w'.left - w.left == LeftBy(w.table, client);
  }

  /** An answer is taken once for each time it was asked for; a success erases the fence, whatever
      key it carries, and nothing else, and anything else erases nothing. */
  lemma AnswerErases(w: World, hwId: HwId, ok: bool, h: HwId)
    ensures var w' := After(w, RemovalAnswered(hwId, ok));
      && w'.pending == w.pending - multiset{hwId} && w'.table.ids == w.table.ids
      && (h in w'.table.fences <==> h in w.table.fences && !(h == hwId && hwId in w.pending && ok))
      && (h in w'.table.fences ==> w'.table.fences[h] == w.table.fences[h])
      && (h in w'.left <==> h in w.left && !(h == hwId && hwId in w.pending && ok))
  {
    assert hwId !in w.pending ==> w.pending - multiset{hwId} == w.pending;
  }

  /** The fence that a key leads to. */
  function FenceAt(t: Table, key: Key): Option<Fence> {
    if key in t.ids && t.ids[key] in t.fences then Some(t.fences[t.ids[key]]) else None
  }

  predicate LeadsTo(t: Table, key: Key, hwId: HwId) {
    key in t.ids && t.ids[key] == hwId
  }

  /** A fence that the engine takes back at a restart. */
  predicate TakenBack(fences: map<HwId, Fence>, order: seq<HwId>, answers: seq<Numbering>, i: nat, key: Key) {
    i < |order| && i < |answers| && answers[i].Given? && order[i] in fences && fences[order[i]].key == key
  }

  /** What a client wants of its fence, step by step: it is as it was saved, with the options of the
      last change, and paused if the last word on it since the save was a pause; a restart brings it
      back without the pause. */
  ghost function FenceAfter(w: World, step: Step, key: Key, f: Option<Fence>): Option<Fence>
    requires Proper(w, step)
  {
    match step
    case Save(k, _, options, info) => if k == key then Some(Fence(key, options, info, false)) else f
    case Remove(hwId) => if LeadsTo(w.table, key, hwId) then None else f
    case Pause(hwId, paused) =>
      if LeadsTo(w.table, key, hwId) && f.Some? then Some(f.value.(paused := paused)) else f
    case Modify(hwId, options) =>
      if LeadsTo(w.table, key, hwId) && f.Some? then Some(f.value.(options := options)) else f
    case StopClient(client) => if key.client == client then None else f
    case RemovalAnswered(_, _) => f
    case Restart(order, answers) =>
      if exists i: nat :: TakenBack(w.table.fences, order, answers, i, key) then
        var i: nat :| TakenBack(w.table.fences, order, answers, i, key);
        Some(w.table.fences[order[i]].(paused := false))
      else None
  }

  lemma RestartBringsBackKey(was: map<HwId, Fence>, order: seq<HwId>, answers: seq<Numbering>, key: Key)
    requires Lists(order, was) && |order| == |answers| && KeysApart(was) && GivenApart(answers)
    ensures var t := Readded(was, order, answers);
      && (FenceAt(t, key).Some? <==> exists i: nat :: TakenBack(was, order, answers, i, key))
      && forall i: nat :: TakenBack(was, order, answers, i, key) ==>
           FenceAt(t, key) == Some(was[order[i]].(paused := false))
  {
    RestartBringsBack(was, order, answers);
    OriginNamesOnce(order, answers);
    var t, origin := Readded(was, order, answers), Origin(order, answers);
    hide Readded, Origin, Distinct, GivenApart, Injective;
    if FenceAt(t, key).Some? {
      var h := t.ids[key];
      assert Given(h) in answers;
      var i: nat :| i < |answers| && answers[i] == Given(h);
      assert TakenBack(was, order, answers, i, key);
    }
    forall i: nat | TakenBack(was, order, answers, i, key)
      ensures FenceAt(t, key) == Some(was[order[i]].(paused := false))
    {
      var h := answers[i].hwId;
      assert origin[h] == order[i];
    }
  }

  lemma StepFence(w: World, step: Step, key: Key)
    requires Sound(w) && Proper(w, step) && !Strikes(w, step)
    ensures FenceAt(After(w, step).table, key) == FenceAfter(w, step, key, FenceAt(w.table, key))
  {
    match step {
      case Restart(order, answers) =>
        RestartBringsBackKey(w.table.fences, order, answers, key);
        hide Readded, FenceAt, Sound, Lists, GivenApart;
      case RemovalAnswered(hwId, ok) =>
        assert key in w.table.ids ==> w.table.ids[key] !in w.left;
      case _ =>
    }
  }

  ghost function FenceRun(w: World, steps: seq<Step>, key: Key, f: Option<Fence>): Option<Fence>
    requires AllProper(w, steps)
    decreases |steps|
  {
    if steps == [] then f else FenceRun(After(w, steps[0]), steps[1..], key, FenceAfter(w, steps[0], key, f))
  }

  /** Over every run in which no late answer strikes a live fence, every key leads to the fence that
      its client wants. */
  lemma {:induction false} RunKeepsFences(w: World, steps: seq<Step>, key: Key)
    requires Sound(w) && AllProper(w, steps) && NoneStrikes(w, steps)
    ensures FenceAt(Run(w, steps).table, key) == FenceRun(w, steps, key, FenceAt(w.table, key))
    decreases |steps|
  {
    hide Sound, After, Strikes, Proper, FenceAt, FenceAfter;
    if steps != [] {
      StepSoundIff(w, steps[0]);
      StepFence(w, steps[0], key);
      RunKeepsFences(After(w, steps[0]), steps[1..], key);
    }
  }

  /** So a restart at the end of such a run asks the engine to pause the fence of a key, under its
      new number, exactly if the last word on it since it was saved, or brought back, was a pause. */
  lemma RestartPausesAsWanted(
    w: World, steps: seq<Step>, key: Key, order: seq<HwId>, answers: seq<Numbering>, i: nat)
    requires Sound(w) && AllProper(w, steps) && NoneStrikes(w, steps)
    requires Proper(Run(w, steps), Restart(order, answers))
    requires i < |order| && answers[i].Given? && LeadsTo(Run(w, steps).table, key, order[i])
    ensures var f := FenceRun(w, steps, key, FenceAt(w.table, key));
      f.Some? && (PauseGeofence(answers[i].hwId, key.id) in PausesSent(Run(w, steps).table.fences, order, answers)
                  <==> f.value.paused)
  {
    RunKeepsSound(w, steps);
    RunKeepsFences(w, steps, key);
    var end := Run(w, steps);
    hide Run, FenceRun, After, PausesSent, NoneStrikes, AllProper;
    assert end.table.fences[order[i]].key == key;
    RestartPausesAgain(end.table.fences, order, answers, answers[i].hwId, key.id);
  }

  // ------------------------------------------------------------------------------------------
  // Engine restart

  datatype Numbering = Refused | Given(hwId: HwId)

  /** What the engine is asked to do. */
  datatype Request =
    | AddGeofence(id: nat, options: Options, info: Info)
    | RemoveGeofence(hwId: HwId, id: nat)
    | PauseGeofence(hwId: HwId, id: nat)

  /** The fences again, one by one in this order, each with the answer to its add. */
  function Readded(was: map<HwId, Fence>, order: seq<HwId>, answers: seq<Numbering>): Table
    requires |order| == |answers| && forall h :: h in order ==> h in was
  {
    if order == [] then Table(map[], map[])
    else
      var n := |order| - 1;
      var before := Readded(was, order[..n], answers[..n]);
      var f := was[order[n]];
      match answers[n]
      case Refused => before
      case Given(hwId) => Saved(before, f.key, hwId, f.options, f.info)
  }

  lemma NothingAnswered(was: map<HwId, Fence>)
    ensures Readded(was, [], []) == Table(map[], map[]) && PausesSent(was, [], []) == [] == AddsSent(was, [])
  {
  }

  /** One more turn of the loop over the old fences. */
  lemma OneMoreAnswered(was: map<HwId, Fence>, order: seq<HwId>, answers: seq<Numbering>, i: nat)
    requires i < |order| == |answers| && forall h :: h in order ==> h in was
    ensures var f := was[order[i]];
      && AddsSent(was, order[..i + 1]) == AddsSent(was, order[..i]) + [AddGeofence(f.key.id, f.options, f.info)]
      && Readded(was, order[..i + 1], answers[..i + 1]) ==
         (var before := Readded(was, order[..i], answers[..i]);
          match answers[i]
          case Refused => before
          case Given(hwId) => Saved(before, f.key, hwId, f.options, f.info))
      && PausesSent(was, order[..i + 1], answers[..i + 1]) == PausesSent(was, order[..i], answers[..i]) +
         if answers[i].Given? && f.paused then [PauseGeofence(answers[i].hwId, f.key.id)] else []
  {
    assert order[..i + 1][..i] == order[..i] && answers[..i + 1][..i] == answers[..i];
  }

  function AddsSent(was: map<HwId, Fence>, order: seq<HwId>): (sent: seq<Request>)
    requires forall h :: h in order ==> h in was
    ensures |sent| == |order|
    ensures forall i :: 0 <= i < |order| ==>
      sent[i] == AddGeofence(was[order[i]].key.id, was[order[i]].options, was[order[i]].info)
  {
    if order == [] then []
    else
      var f := was[order[|order| - 1]];
      AddsSent(was, order[..|order| - 1]) + [AddGeofence(f.key.id, f.options, f.info)]
  }

  function PausesSent(was: map<HwId, Fence>, order: seq<HwId>, answers: seq<Numbering>): seq<Request>
    requires |order| == |answers| && forall h :: h in order ==> h in was
  {
    if order == [] then []
    else
      var n := |order| - 1;
      var before := PausesSent(was, order[..n], answers[..n]);
      var f := was[order[n]];
      if answers[n].Given? && f.paused then before + [PauseGeofence(answers[n].hwId, f.key.id)] else before
  }

  /** All fences, each once. */
  ghost predicate Lists(order: seq<HwId>, fences: map<HwId, Fence>) {
    (forall h :: h in order <==> h in fences) && Distinct(order)
  }

  predicate GivenApart(answers: seq<Numbering>) {
    forall i, j :: 0 <= i < j < |answers| && answers[i].Given? && answers[j].Given? ==> answers[i] != answers[j]
  }

  predicate Distinct(order: seq<HwId>) {
    forall i, j :: 0 <= i < j < |order| ==> order[i] != order[j]
  }

  /** The old number of each fence that the engine took back, by its new one. */
  function Origin(order: seq<HwId>, answers: seq<Numbering>): map<HwId, HwId>
    requires |order| == |answers|
  {
    if order == [] then map[]
    else
      var n := |order| - 1;
      var before := Origin(order[..n], answers[..n]);
      match answers[n]
      case Refused => before
      case Given(hwId) => before[hwId := order[n]]
  }

  lemma ListsNothing(order: seq<HwId>, fences: map<HwId, Fence>)
    requires Lists(order, fences)
    ensures order == [] <==> fences.Keys == {}
  {
    if order != [] {
      assert order[0] in fences.Keys;
    }
  }

  predicate Injective(origin: map<HwId, HwId>) {
    forall g, h :: g in origin && h in origin && origin[g] == origin[h] ==> g == h
  }

  lemma {:induction false} OriginNamesOnce(order: seq<HwId>, answers: seq<Numbering>)
    requires |order| == |answers| && Distinct(order) && GivenApart(answers)
    ensures forall i :: 0 <= i < |order| && answers[i].Given? ==>
      answers[i].hwId in Origin(order, answers) && Origin(order, answers)[answers[i].hwId] == order[i]
    ensures forall h :: h in Origin(order, answers) ==> Given(h) in answers && Origin(order, answers)[h] in order
    ensures Injective(Origin(order, answers))
  {
    if order != [] {
      var n := |order| - 1;
      OriginNamesOnce(order[..n], answers[..n]);
      assert order == order[..n] + [order[n]] && answers == answers[..n] + [answers[n]];
      assert order[n] !in order[..n];
      assert answers[n].Given? ==> answers[n] !in answers[..n];
    }
  }

  ghost predicate BroughtBack(was: map<HwId, Fence>, origin: map<HwId, HwId>, t: Table)
    requires origin.Values <= was.Keys
  {
    && t.fences.Keys == origin.Keys
    && (forall h :: h in origin ==> t.fences[h] == was[origin[h]].(paused := false))
    && (forall h :: h in origin ==> was[origin[h]].key in t.ids && t.ids[was[origin[h]].key] == h)
    && (forall key :: key in t.ids ==> t.ids[key] in origin && was[origin[t.ids[key]]].key == key)
  }

  /** After a restart the table holds exactly the fences that the engine took back, each under its
      new number with its key, options, position and radius, and leads to each of them by its key.
      The paused flag is cleared. */
  lemma {:induction false} RestartBringsBack(was: map<HwId, Fence>, order: seq<HwId>, answers: seq<Numbering>)
    requires |order| == |answers| && (forall h :: h in order ==> h in was)
    requires KeysApart(was) && Distinct(order) && GivenApart(answers)
    ensures Origin(order, answers).Values <= was.Keys
    ensures BroughtBack(was, Origin(order, answers), Readded(was, order, answers))
  {
    OriginNamesOnce(order, answers);
    if order != [] {
      var n := |order| - 1;
      RestartBringsBack(was, order[..n], answers[..n]);
      OriginNamesOnce(order[..n], answers[..n]);
      if answers[n].Given? {
        OneMoreBack(
          was, Origin(order[..n], answers[..n]), Readded(was, order[..n], answers[..n]), order[n], answers[n].hwId);
      }
    }
  }

  lemma OneMoreBack(was: map<HwId, Fence>, origin: map<HwId, HwId>, t: Table, h: HwId, hwId: HwId)
    requires h in was && KeysApart(was) && origin.Values <= was.Keys && BroughtBack(was, origin, t)
    requires hwId !in origin && h !in origin.Values
    ensures origin[hwId := h].Values <= was.Keys
    ensures BroughtBack(was, origin[hwId := h], Saved(t, was[h].key, hwId, was[h].options, was[h].info))
  {
    var more := origin[hwId := h];
    var t' := Saved(t, was[h].key, hwId, was[h].options, was[h].info);
    forall g | g in origin
      ensures origin[g] in was && was[origin[g]].key != was[h].key
    {
      assert origin[g] in origin.Values;
    }
    assert more.Values <= was.Keys;
  }

  lemma BackIsIndexed(was: map<HwId, Fence>, origin: map<HwId, HwId>, t: Table)
    requires origin.Values <= was.Keys && BroughtBack(was, origin, t) && KeysApart(was)
    requires Injective(origin)
    ensures Indexed(t) && KeysApart(t.fences)
    ensures forall h :: h in t.fences ==> t.fences[h].key in t.ids && !t.fences[h].paused
  {
  }

  lemma FenceComesBack(was: map<HwId, Fence>, order: seq<HwId>, answers: seq<Numbering>, h: HwId)
    requires Lists(order, was) && |order| == |answers| && (forall i :: 0 <= i < |answers| ==> answers[i].Given?)
    requires KeysApart(was) && GivenApart(answers) && h in was
    ensures var t := Readded(was, order, answers);
      was[h].key in t.ids && t.ids[was[h].key] in t.fences && t.fences[t.ids[was[h].key]] == was[h].(paused := false)
  {
    RestartBringsBack(was, order, answers);
    OriginNamesOnce(order, answers);
    hide Readded, Origin;
    var i :| 0 <= i < |order| && order[i] == h;
    assert Origin(order, answers)[answers[i].hwId] == h;
  }

  /** Where a key leads after the restart, it led to a fence before it. */
  lemma KeyWasCarried(was: map<HwId, Fence>, order: seq<HwId>, answers: seq<Numbering>, key: Key)
    requires Lists(order, was) && |order| == |answers| && KeysApart(was) && GivenApart(answers)
    requires key in Readded(was, order, answers).ids
    ensures exists h :: h in was && was[h].key == key
  {
    RestartBringsBack(was, order, answers);
    hide Readded, Origin;
    var g := Origin(order, answers)[Readded(was, order, answers).ids[key]];
    assert g in Origin(order, answers).Values;
    assert was[g].key == key;
  }

  /** When the engine takes every fence back, each key leads to the same fence again, only not
      paused. */
  lemma RestartPreserves(w: World, order: seq<HwId>, answers: seq<Numbering>)
    requires Sound(w) && Lists(order, w.table.fences)
    requires |order| == |answers| && (forall i :: 0 <= i < |answers| ==> answers[i].Given?) && GivenApart(answers)
    ensures var t, t' := w.table, Readded(w.table.fences, order, answers);
      && Sound(World(t', {}, w.pending))
      && (forall key :: key in t.ids ==>
            && key in t'.ids && t'.ids[key] in t'.fences
            && t'.fences[t'.ids[key]] == t.fences[t.ids[key]].(paused := false))
  {
    var t, t' := w.table, Readded(w.table.fences, order, answers);
    RestartKeepsSound(w, order, answers);
    assert World(t', {}, w.pending) == After(w, Restart(order, answers));
    hide Readded, Distinct, GivenApart, After;
    forall key | key in t.ids
      ensures key in t'.ids && t'.ids[key] in t'.fences &&
        t'.fences[t'.ids[key]] == t.fences[t.ids[key]].(paused := false)
    {
      FenceComesBack(t.fences, order, answers, t.ids[key]);
    }
  }

  /** The keys after such a restart are the ones before it exactly when no fence of a departed
      client was left: such a fence comes back with its key. */
  lemma RestartKeysAreOld(w: World, order: seq<HwId>, answers: seq<Numbering>)
    requires Sound(w) && Lists(order, w.table.fences)
    requires |order| == |answers| && (forall i :: 0 <= i < |answers| ==> answers[i].Given?) && GivenApart(answers)
    ensures Readded(w.table.fences, order, answers).ids.Keys == w.table.ids.Keys <==> w.left == {}
  {
    var t, t' := w.table, Readded(w.table.fences, order, answers);
    RestartPreserves(w, order, answers);
    hide Readded, Distinct, GivenApart;
    if h :| h in w.left {
      FenceComesBack(t.fences, order, answers, h);
      assert t.fences[h].key !in t.ids;
    } else {
      forall key | key in t'.ids
        ensures key in t.ids
      {
        KeyWasCarried(t.fences, order, answers, key);
      }
      assert t'.ids.Keys == t.ids.Keys;
    }
  }

  /** The engine is asked to pause exactly the fences it took back that were paused. */
  lemma {:induction false} RestartPausesAgain(
    was: map<HwId, Fence>, order: seq<HwId>, answers: seq<Numbering>, hwId: HwId, id: nat)
    requires |order| == |answers| && forall h :: h in order ==> h in was
    ensures PauseGeofence(hwId, id) in PausesSent(was, order, answers) <==>
      exists i :: 0 <= i < |order| && answers[i] == Given(hwId) && was[order[i]].paused && was[order[i]].key.id == id
  {
    if order != [] {
      var n := |order| - 1;
      RestartPausesAgain(was, order[..n], answers[..n], hwId, id);
      if i :| 0 <= i < n && answers[i] == Given(hwId) && was[order[i]].paused && was[order[i]].key.id == id {
        assert order[..n][i] == order[i] && answers[..n][i] == answers[i];
      }
    }
  }

  lemma {:induction false} NothingToPause(was: map<HwId, Fence>, order: seq<HwId>, answers: seq<Numbering>)
    requires |order| == |answers| && (forall h :: h in order ==> h in was && !was[h].paused)
    ensures PausesSent(was, order, answers) == []
  {
    if order != [] {
      NothingToPause(was, order[..|order| - 1], answers[..|order| - 1]);
    }
  }

  /** The second restart forgets the pause: it asks for none of the fences that the first brought
      back. */
  lemma SecondRestartForgetsPauses(
    was: map<HwId, Fence>, order: seq<HwId>, answers: seq<Numbering>, order2: seq<HwId>, answers2: seq<Numbering>)
    requires |order| == |answers| && |order2| == |answers2|
    requires Lists(order, was) && KeysApart(was) && GivenApart(answers)
    requires Lists(order2, Readded(was, order, answers).fences)
    ensures PausesSent(Readded(was, order, answers).fences, order2, answers2) == []
  {
    RestartBringsBack(was, order, answers);
    OriginNamesOnce(order, answers);
    BackIsIndexed(was, Origin(order, answers), Readded(was, order, answers));
    NothingToPause(Readded(was, order, answers).fences, order2, answers2);
  }

  // ------------------------------------------------------------------------------------------
  // Breaches

  /** The ids for one client, as the loop over the reported numbers collects them. */
  function Breached(fences: map<HwId, Fence>, hwIds: seq<HwId>, client: Client): seq<nat> {
    if hwIds == [] then []
    else
      var before := Breached(fences, hwIds[..|hwIds| - 1], client);
      var h := hwIds[|hwIds| - 1];
      if h in fences && fences[h].key.client == client then before + [fences[h].key.id] else before
  }

  predicate Owns(fences: map<HwId, Fence>, client: Client, h: HwId) {
    h in fences && fences[h].key.client == client
  }

  /** Each reported number of the client's own stands in its list after those reported earlier. */
  lemma {:induction false} BreachedInOrder(fences: map<HwId, Fence>, hwIds: seq<HwId>, client: Client, i: nat)
    requires i < |hwIds| && Owns(fences, client, hwIds[i])
    ensures var place := |Breached(fences, hwIds[..i], client)|;
      place < |Breached(fences, hwIds, client)| && Breached(fences, hwIds, client)[place] == fences[hwIds[i]].key.id
  {
    var n := |hwIds| - 1;
    if i < n {
      BreachedInOrder(fences, hwIds[..n], client, i);
      assert hwIds[..n][..i] == hwIds[..i];
    }
  }

  /** How many of the numbers belong to one of these clients. */
  function OwnedBy(fences: map<HwId, Fence>, hwIds: seq<HwId>, clients: set<Client>): nat {
    if hwIds == [] then 0
    else
      var h := hwIds[|hwIds| - 1];
      OwnedBy(fences, hwIds[..|hwIds| - 1], clients) + if h in fences && fences[h].key.client in clients then 1 else 0
  }

  function TotalBreached(fences: map<HwId, Fence>, hwIds: seq<HwId>, clients: seq<Client>): nat {
    if clients == [] then 0
    else TotalBreached(fences, hwIds, clients[..|clients| - 1]) + |Breached(fences, hwIds, clients[|clients| - 1])|
  }

  lemma {:induction false} OwnedByOneMore(fences: map<HwId, Fence>, hwIds: seq<HwId>, clients: set<Client>, c: Client)
    requires c !in clients
    ensures OwnedBy(fences, hwIds, clients + {c}) == OwnedBy(fences, hwIds, clients) + |Breached(fences, hwIds, c)|
  {
    if hwIds != [] {
      OwnedByOneMore(fences, hwIds[..|hwIds| - 1], clients, c);
    }
  }

  lemma {:induction false} OwnedByNone(fences: map<HwId, Fence>, hwIds: seq<HwId>)
    ensures OwnedBy(fences, hwIds, {}) == 0
  {
    if hwIds != [] {
      OwnedByNone(fences, hwIds[..|hwIds| - 1]);
    }
  }

  function AllOf(clients: seq<Client>): (all: set<Client>)
    ensures forall c :: c in all <==> c in clients
  {
    if clients == [] then {} else AllOf(clients[..|clients| - 1]) + {clients[|clients| - 1]}
  }

  /** The lists of all clients together hold each reported number whose client is registered. */
  lemma {:induction false} BreachesArePartitioned(fences: map<HwId, Fence>, hwIds: seq<HwId>, clients: seq<Client>)
    requires forall i, j :: 0 <= i < j < |clients| ==> clients[i] != clients[j]
    ensures TotalBreached(fences, hwIds, clients) == OwnedBy(fences, hwIds, AllOf(clients))
  {
    if clients == [] {
      OwnedByNone(fences, hwIds);
    } else {
      var n := |clients| - 1;
      BreachesArePartitioned(fences, hwIds, clients[..n]);
      OwnedByOneMore(fences, hwIds, AllOf(clients[..n]), clients[n]);
    }
  }

  /** The removal of a fence that one of the client's keys, outside these, leads to. */
  ghost predicate IsRemoval(ids: map<Key, HwId>, outside: set<Key>, client: Client, r: Request) {
    exists key :: key in ids && key !in outside && key.client == client && r == RemoveGeofence(ids[key], key.id)
  }

  datatype Registration = Registration(client: Client, hasBreachCb: bool)
  datatype Notification = Notification(client: Client, ids: seq<nat>)

  /** Who is told of a breach: the registered clients with a callback and a fence of their own. */
  function Notifications(fences: map<HwId, Fence>, hwIds: seq<HwId>, clients: seq<Registration>): seq<Notification> {
    if clients == [] then []
    else
      var before := Notifications(fences, hwIds, clients[..|clients| - 1]);
      var last := clients[|clients| - 1];
      var ids := Breached(fences, hwIds, last.client);
      if ids != [] && last.hasBreachCb then before + [Notification(last.client, ids)] else before
  }

  /** A client is notified with a list of ids exactly when it is registered with a callback, and the
      list is that of its breached fences, which is not empty. */
  lemma {:induction false} NotifiedIff(
    fences: map<HwId, Fence>, hwIds: seq<HwId>, clients: seq<Registration>, n: Notification)
    ensures n in Notifications(fences, hwIds, clients) <==>
      Registration(n.client, true) in clients && n.ids == Breached(fences, hwIds, n.client) != []
  {
    if clients != [] {
      NotifiedIff(fences, hwIds, clients[..|clients| - 1], n);
      assert clients == clients[..|clients| - 1] + [clients[|clients| - 1]];
    }
  }

  /** An id is in the list exactly when a reported number is that of the client's fence with it. */
  lemma {:induction false} BreachedIff(fences: map<HwId, Fence>, hwIds: seq<HwId>, client: Client, id: nat)
    ensures id in Breached(fences, hwIds, client) <==>
      exists h :: h in hwIds && h in fences && fences[h].key == Key(client, id)
  {
    if hwIds != [] {
      var front, last := hwIds[..|hwIds| - 1], hwIds[|hwIds| - 1];
      assert hwIds == front + [last];
      BreachedIff(fences, front, client, id);
    }
  }

  predicate ClientsApart(told: seq<Notification>) {
    forall i, j :: 0 <= i < j < |told| ==> told[i].client != told[j].client
  }

  lemma OneMoreApart(told: seq<Notification>, n: Notification)
    requires ClientsApart(told) && forall m :: m in told ==> m.client != n.client
    ensures ClientsApart(told + [n])
  {
  }

  /** No client is notified twice of one breach. */
  lemma {:induction false} NotifiedOnce(fences: map<HwId, Fence>, hwIds: seq<HwId>, clients: seq<Registration>)
    requires forall i, j :: 0 <= i < j < |clients| ==> clients[i].client != clients[j].client
    ensures ClientsApart(Notifications(fences, hwIds, clients))
  {
    if clients != [] {
      var front, last := clients[..|clients| - 1], clients[|clients| - 1];
      NotifiedOnce(fences, hwIds, front);
      var before := Notifications(fences, hwIds, front);
      forall m | m in before
        ensures m.client != last.client
      {
        NotifiedIff(fences, hwIds, front, m);
        var k :| 0 <= k < |front| && front[k] == Registration(m.client, true);
        assert clients[k] == front[k];
      }
      OneMoreApart(before, Notification(last.client, Breached(fences, hwIds, last.client)));
    }
  }

  // ------------------------------------------------------------------------------------------
  // The object

  class GeofenceAdapter {
    var geofences: map<HwId, Fence>
    var geofenceIds: map<Key, HwId>
    var clientData: seq<Registration>

    constructor ()
      ensures View() == Table(map[], map[]) && Indexed(View())
    {
      geofences, geofenceIds, clientData := map[], map[], [];
    }

    function View(): Table
      reads this
    {
      Table(geofences, geofenceIds)
    }

    method GetHwIdFromClient(client: Client, clientId: nat) returns (known: bool, hwId: HwId)
      ensures known <==> Key(client, clientId) in View().ids
      ensures known ==> hwId == View().ids[Key(client, clientId)]
      ensures known && Indexed(View()) ==> hwId in View().fences && View().fences[hwId].key == Key(client, clientId)
    {
      known, hwId := false, 0;
      var key := Key(client, clientId);
      if key in geofenceIds {
        known, hwId := true, geofenceIds[key];
      }
    }

    method GetGeofenceKeyFromHwId(hwId: HwId) returns (known: bool, key: Key)
      ensures known <==> hwId in View().fences
      ensures known ==> key == View().fences[hwId].key
    {
      known, key := false, Key(0, 0);
      if hwId in geofences {
        known, key := true, geofences[hwId].key;
      }
    }

    method SaveGeofenceItem(client: Client, clientId: nat, hwId: HwId, options: Options, info: Info)
      modifies this`geofences, this`geofenceIds
      ensures View() == Saved(old(View()), Key(client, clientId), hwId, options, info)
    {
      var key := Key(client, clientId);
      geofences := geofences[hwId := Fence(key, options, info, false)];
      geofenceIds := geofenceIds[key := hwId];
    }

    method RemoveGeofenceItem(hwId: HwId)
      modifies this`geofences, this`geofenceIds
      ensures View() == Removed(old(View()), hwId)
    {
      var known, key := GetGeofenceKeyFromHwId(hwId);
      if known && key in geofenceIds {
        geofenceIds := geofenceIds - {key};
        if hwId in geofences {
          geofences := geofences - {hwId};
        }
      }
    }

    method PauseGeofenceItem(hwId: HwId)
      modifies this`geofences
      ensures View() == WithPaused(old(View()), hwId, true)
    {
      if hwId in geofences {
        geofences := geofences[hwId := geofences[hwId].(paused := true)];
      }
    }

    method ResumeGeofenceItem(hwId: HwId)
      modifies this`geofences
      ensures View() == WithPaused(old(View()), hwId, false)
    {
      if hwId in geofences {
        geofences := geofences[hwId := geofences[hwId].(paused := false)];
      }
    }

    method ModifyGeofenceItem(hwId: HwId, options: Options)
      modifies this`geofences
      ensures View() == WithOptions(old(View()), hwId, options)
    {
      if hwId in geofences {
        geofences := geofences[hwId := geofences[hwId].(options := options)];
      }
    }

    /** stopClientSessions: every key of the client goes, and the engine is asked to remove its
        fence. */
    method StopClientSessions(client: Client) returns (asked: seq<Request>)
      modifies this`geofenceIds
      ensures View() == Deserted(old(View()), client)
      ensures forall r :: r in asked <==> IsRemoval(old(geofenceIds), {}, client, r)
    {
      asked := [];
      ghost var before := geofenceIds;
      var rest := geofenceIds.Keys;
      while rest != {}
        invariant rest <= before.Keys
        invariant forall key :: key in geofenceIds <==> key in before && (key in rest || key.client != client)
        invariant forall key :: key in geofenceIds ==> geofenceIds[key] == before[key]
        invariant forall r :: r in asked <==> IsRemoval(before, rest, client, r)
      {
        var key :| key in rest;
        rest := rest - {key};
        if key.client == client {
          ghost var was := asked;
          asked := asked + [RemoveGeofence(geofenceIds[key], key.id)];
          geofenceIds := geofenceIds - {key};
        }
      }
    }

    /** The engine's answer to such a removal. */
    method OnRemovedForDeparted(hwId: HwId, success: bool)
      modifies this`geofences
      ensures View() == if success then Erased(old(View()), hwId) else old(View())
    {
      if success && hwId in geofences {
        geofences := geofences - {hwId};
      }
      assert hwId !in old(geofences) ==> old(geofences) - {hwId} == old(geofences);
    }

    /** restartGeofences with the engine's answers, in the order of the old numbers. */
    method RestartGeofences(order: seq<HwId>, answers: seq<Numbering>)
      returns (asked: seq<Request>, added: seq<Request>)
      requires Lists(order, geofences) && |order| == |answers|
      modifies this`geofences, this`geofenceIds
      ensures View() == if order == [] then old(View()) else Readded(old(geofences), order, answers)
      ensures asked == PausesSent(old(geofences), order, answers)
      ensures added == AddsSent(old(geofences), order)
    {
      hide Distinct;
      ListsNothing(order, geofences);
      NothingAnswered(geofences);
      hide Readded, PausesSent, AddsSent;
      asked, added := [], [];
      if geofences.Keys == {} {
        return;
      }
      var oldGeofences := geofences;
      geofences, geofenceIds := map[], map[];
      assert order[..0] == [] && answers[..0] == [];
      for i := 0 to |order|
        invariant View() == Readded(oldGeofences, order[..i], answers[..i])
        invariant asked == PausesSent(oldGeofences, order[..i], answers[..i])
        invariant added == AddsSent(oldGeofences, order[..i])
      {
        OneMoreAnswered(oldGeofences, order, answers, i);
        var fence := oldGeofences[order[i]];
        added := added + [AddGeofence(fence.key.id, fence.options, fence.info)];
        match answers[i]
        case Refused =>
        case Given(hwId) =>
          if fence.paused {
            asked := asked + [PauseGeofence(hwId, fence.key.id)];
          }
          SaveGeofenceItem(fence.key.client, fence.key.id, hwId, fence.options, fence.info);
      }
      assert order[..|order|] == order && answers[..|order|] == answers;
    }

    method ClientIds(hwIds: seq<HwId>, client: Client) returns (clientIds: seq<nat>)
      ensures clientIds == Breached(geofences, hwIds, client)
    {
      clientIds := [];
      for i := 0 to |hwIds|
        invariant clientIds == Breached(geofences, hwIds[..i], client)
      {
        assert hwIds[..i + 1][..i] == hwIds[..i];
        var known, key := GetGeofenceKeyFromHwId(hwIds[i]);
        if known && key.client == client {
          clientIds := clientIds + [key.id];
        }
      }
      assert hwIds[..|hwIds|] == hwIds;
    }

    method GeofenceBreach(hwIds: seq<HwId>) returns (notified: seq<Notification>)
      ensures notified == Notifications(geofences, hwIds, clientData)
    {
      notified := [];
      for i := 0 to |clientData|
        invariant notified == Notifications(geofences, hwIds, clientData[..i])
      {
        assert clientData[..i + 1][..i] == clientData[..i];
        var registered := clientData[i];
        var clientIds := ClientIds(hwIds, registered.client);
        if |clientIds| > 0 && registered.hasBreachCb {
          notified := notified + [Notification(registered.client, clientIds)];
        }
      }
      assert clientData[..|clientData|] == clientData;
    }
  }
}
