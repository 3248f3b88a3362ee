/** The bounded change history that SystemStatus.cpp keeps for every kind of item. */
module ItemReport {
  const MAX_ITEM := 5

  /** What one kind of item overrides: how a new item is completed from the latest one, when two
      items say the same, which items are not recorded, and the overwriting of the report time. */
  datatype Rules<!T> = Rules(
    collate: (T, T) -> T,
    same: (T, T) -> bool,
    ignored: T -> bool,
    restamp: (T, T) -> T)

  datatype Event<T> = Update(item: T) | Default(item: T)

  function Last<T>(s: seq<T>): T
    requires s != []
  {
    s[|s| - 1]
  }

  function LastFew<T>(s: seq<T>): (few: seq<T>)
    ensures |few| == if |s| < MAX_ITEM then |s| else MAX_ITEM
    ensures s != [] ==> few != [] && Last(few) == Last(s)
  {
    if |s| <= MAX_ITEM then s else s[|s| - MAX_ITEM..]
  }

  /** push_back and the trimming after it */
  function Pushed<T>(report: seq<T>, item: T): (r: seq<T>)
    ensures r != [] && Last(r) == item
  {
    var longer := report + [item];
    if |longer| > MAX_ITEM then longer[1..] else longer
  }

  /** The item completed from the latest one says the same as the latest one. */
  predicate IsUnchanged<T>(rules: Rules<T>, report: seq<T>, s: T) {
    report != [] && rules.same(Last(report), rules.collate(s, Last(report)))
  }

  /** setIteminReport and setDefaultIteminReport */
  function Stored<T>(rules: Rules<T>, report: seq<T>, e: Event<T>): seq<T> {
    match e
    case Default(s) => Pushed(report, s)
    case Update(s) =>
      if rules.ignored(s) then report
      else if report == [] then Pushed(report, s)
      else
        var collated := rules.collate(s, Last(report));
        if rules.same(Last(report), collated)
        then report[|report| - 1 := rules.restamp(Last(report), collated)]
        else Pushed(report, collated)
  }

  /** Everything that was ever worth recording. */
  function Recorded<T>(rules: Rules<T>, history: seq<T>, e: Event<T>): seq<T> {
    match e
    case Default(s) => history + [s]
    case Update(s) =>
      if rules.ignored(s) then history
      else if history == [] then [s]
      else
        var collated := rules.collate(s, Last(history));
        if rules.same(Last(history), collated)
        then history[|history| - 1 := rules.restamp(Last(history), collated)]
        else history + [collated]
  }

  function Report<T>(rules: Rules<T>, events: seq<Event<T>>): seq<T> {
    if events == [] then [] else Stored(rules, Report(rules, events[..|events| - 1]), Last(events))
  }

  function History<T>(rules: Rules<T>, events: seq<Event<T>>): seq<T> {
    if events == [] then [] else Recorded(rules, History(rules, events[..|events| - 1]), Last(events))
  }

  lemma PushedKeepsLatest<T>(history: seq<T>, item: T)
    ensures Pushed(LastFew(history), item) == LastFew(history + [item])
  {
  }

  lemma RestampKeepsLatest<T>(history: seq<T>, item: T)
    requires history != []
    ensures LastFew(history)[|LastFew(history)| - 1 := item] == LastFew(history[|history| - 1 := item])
  {
  }

  lemma StoredKeepsLatest<T>(rules: Rules<T>, history: seq<T>, e: Event<T>)
    ensures Stored(rules, LastFew(history), e) == LastFew(Recorded(rules, history, e))
  {
    hide Pushed, LastFew;
    PushedKeepsLatest(history, e.item);
    if history == [] {
      assert LastFew(history) == [] && history + [e.item] == [e.item];
    } else {
      var collated := rules.collate(e.item, Last(history));
      PushedKeepsLatest(history, collated);
      RestampKeepsLatest(history, rules.restamp(Last(history), collated));
    }
  }

  /** Over every run the report is the newest few entries of the unbounded history. */
  lemma {:induction false} ReportIsLatestHistory<T>(rules: Rules<T>, events: seq<Event<T>>)
    ensures Report(rules, events) == LastFew(History(rules, events))
  {
    hide Stored, Recorded, LastFew;
    if events == [] {
      assert LastFew<T>([]) == [];
    } else {
      var before := events[..|events| - 1];
      ReportIsLatestHistory(rules, before);
      StoredKeepsLatest(rules, History(rules, before), Last(events));
    }
  }

  /** getIteminReport */
  function Latest<T>(report: seq<T>): seq<T> {
    if report == [] then [] else [Last(report)]
  }

  lemma LatestAgreesWithHistory<T>(rules: Rules<T>, events: seq<Event<T>>)
    ensures Latest(Report(rules, events)) == Latest(History(rules, events))
  {
    ReportIsLatestHistory(rules, events);
  }

  ghost predicate StampsAreNotCompared<T(!new)>(rules: Rules<T>) {
    forall a: T, b: T, s: T ::
      && rules.same(rules.restamp(a, s), b) == rules.same(a, b)
      && rules.same(b, rules.restamp(a, s)) == rules.same(b, a)
  }

  predicate NeighboursDiffer<T>(rules: Rules<T>, items: seq<T>) {
    forall i :: 0 < i < |items| ==> !rules.same(items[i - 1], items[i])
  }

  lemma RecordingKeepsNeighbours<T(!new)>(rules: Rules<T>, history: seq<T>, s: T)
    requires StampsAreNotCompared(rules) && NeighboursDiffer(rules, history)
    ensures NeighboursDiffer(rules, Recorded(rules, history, Update(s)))
  {
    if history != [] {
      var last := Last(history);
      var stamped := rules.restamp(last, rules.collate(s, last));
      assert |history| > 1 ==> rules.same(history[|history| - 2], stamped) == rules.same(history[|history| - 2], last);
    }
  }

  lemma LatestNeighbours<T>(rules: Rules<T>, history: seq<T>)
    requires NeighboursDiffer(rules, history)
    ensures NeighboursDiffer(rules, LastFew(history))
  {
    assert |history| > MAX_ITEM ==>
      forall i :: 0 <= i < MAX_ITEM ==> LastFew(history)[i] == history[|history| - MAX_ITEM + i];
  }

  /** Without default pushes no two neighbours in the report say the same. */
  lemma {:induction false} UpdatesNeverRepeat<T(!new)>(rules: Rules<T>, events: seq<Event<T>>)
    requires StampsAreNotCompared(rules)
    requires forall e :: e in events ==> e.Update?
    ensures NeighboursDiffer(rules, History(rules, events))
    ensures NeighboursDiffer(rules, Report(rules, events))
  {
    if events != [] {
      var before := events[..|events| - 1];
      assert Last(events) in events;
      UpdatesNeverRepeat(rules, before);
      hide Recorded, Stored, NeighboursDiffer, StampsAreNotCompared, LastFew;
      RecordingKeepsNeighbours(rules, History(rules, before), Last(events).item);
    } else {
      assert History(rules, events) == [];
    }
    ReportIsLatestHistory(rules, events);
    LatestNeighbours(rules, History(rules, events));
  }

  /** The part of an item that collate reads and equals compares. */
  ghost predicate Decides<T(!new), C>(rules: Rules<T>, core: T -> C) {
    && (forall a: T, b: T :: rules.same(a, b) <==> core(a) == core(b))
    && (forall a: T, s: T :: core(rules.restamp(a, s)) == core(a))
    && (forall s: T, a: T, b: T :: core(a) == core(b) ==> core(rules.collate(s, a)) == core(rules.collate(s, b)))
  }

  /** What the latest item would be if every item that is not ignored were collated and kept. */
  function Collated<T>(rules: Rules<T>, events: seq<Event<T>>): seq<T> {
    if events == [] then []
    else
      var before := Collated(rules, events[..|events| - 1]);
      match Last(events)
      case Default(s) => [s]
      case Update(s) =>
        if rules.ignored(s) then before
        else if before == [] then [s]
        else [rules.collate(s, Last(before))]
  }

  /** Dropping the items that bring no change loses nothing of what collate and equals look at. */
  lemma {:induction false} DroppedUpdatesAreNotMissed<T(!new), C>(rules: Rules<T>, core: T -> C, events: seq<Event<T>>)
    requires Decides(rules, core)
    ensures Report(rules, events) == [] <==> Collated(rules, events) == []
    ensures Report(rules, events) != [] ==> core(Last(Report(rules, events))) == core(Last(Collated(rules, events)))
  {
    hide Pushed;
    if events != [] {
      var before := events[..|events| - 1];
      DroppedUpdatesAreNotMissed(rules, core, before);
    }
  }

  /** When collating twice says what collating once does, a repeated item is not recorded. */
  lemma RepeatIsDropped<T(!new), C>(rules: Rules<T>, core: T -> C, report: seq<T>, s: T)
    requires Decides(rules, core) && report != [] && !rules.ignored(s)
    requires core(rules.collate(s, rules.collate(s, Last(report)))) == core(rules.collate(s, Last(report)))
    ensures var once := Stored(rules, report, Update(s));
      && once != []
      && |Stored(rules, once, Update(s))| == |once|
      && core(Last(Stored(rules, once, Update(s)))) == core(Last(once))
  {
    hide Pushed;
    var collated := rules.collate(s, Last(report));
    var once := Stored(rules, report, Update(s));
    assert core(Last(once)) == core(collated);
    assert core(rules.collate(s, Last(once))) == core(rules.collate(s, collated));
    assert rules.same(Last(once), rules.collate(s, Last(once)));
  }

  class ItemStore<T> {
    const rules: Rules<T>
    var report: seq<T>

    constructor (rules: Rules<T>)
      ensures this.rules == rules && report == []
    {
      this.rules := rules;
      report := [];
    }

    method PushBack(s: T)
      modifies this`report
      ensures report == Pushed(old(report), s)
    {
      report := report + [s];
      if |report| > MAX_ITEM {
        report := report[1..];
      }
    }

    method SetItemInReport(s: T) returns (updated: bool)
      modifies this`report
      ensures report == Stored(rules, old(report), Update(s))
      ensures !updated <==> rules.ignored(s) || IsUnchanged(rules, old(report), s)
    {
      if rules.ignored(s) {
        return false;
      }
      if report != [] {
        var last := Last(report);
        var collated := rules.collate(s, last);
        if rules.same(last, collated) {
          report := report[|report| - 1 := rules.restamp(last, collated)];
          return false;
        }
        PushBack(collated);
        return true;
      }
      PushBack(s);
      updated := true;
    }

    method SetDefaultItemInReport(s: T)
      modifies this`report
      ensures report == Stored(rules, old(report), Default(s))
    {
      PushBack(s);
    }

    method GetItemInReport() returns (out: seq<T>)
      ensures out == Latest(report)
    {
      out := [];
      if |report| >= 1 {
        out := out + [report[|report| - 1]];
      }
    }
  }
}

/** SystemStatusNetworkInfo of SystemStatus.h: the table of network handles and the mask of their
    types that each network event carries on. */
module NetworkInfo {
  import opened ItemReport

  const MAX_HANDLES := 10
  const UNKNOWN: nat := 0xFFFF_FFFF_FFFF_FFFF
  const TYPE_MOBILE := 0
  const TYPE_UNKNOWN := 10

  datatype Slot = Slot(handle: nat, kind: int)

  const Free := Slot(UNKNOWN, TYPE_UNKNOWN)

  /** The mask of types is a set of bit positions. */
  datatype Info = Info(
    allTypes: set<int>, kind: int, connected: bool, handles: seq<Slot>, handle: nat, apn: string, reported: int)

  predicate Valid(kind: int) {
    TYPE_MOBILE <= kind < TYPE_UNKNOWN
  }

  function TypeBit(kind: int): set<int> {
    if Valid(kind) then {kind} else {}
  }

  function NewInfo(kind: int, connected: bool, handle: nat, apn: string, reported: int): Info {
    Info(TypeBit(kind), kind, connected, [Slot(handle, kind)] + seq(MAX_HANDLES - 1, _ => Free), handle, apn, reported)
  }

  // ------------------------------------------------------------------------------------------
  // What collate and equals do

  /** The first slot, from i on, that is free or holds the handle. */
  function Landing(slots: seq<Slot>, handle: nat, i: nat): (at: nat)
    requires i <= |slots|
    ensures i <= at <= |slots|
    ensures forall j :: i <= j < at ==> slots[j].handle != handle && slots[j].handle != UNKNOWN
    ensures at < |slots| ==> slots[at].handle == handle || slots[at].handle == UNKNOWN
    decreases |slots| - i
  {
    if i == |slots| || slots[i].handle == handle || slots[i].handle == UNKNOWN then i else Landing(slots, handle, i + 1)
  }

  function Connected(slots: seq<Slot>, handle: nat, kind: int): seq<Slot> {
    var at := Landing(slots, handle, 0);
    if at < |slots| && slots[at].handle != handle then slots[at := Slot(handle, kind)] else slots
  }

  /** How many slots there are before the first free one. */
  function Used(slots: seq<Slot>): nat {
    Landing(slots, UNKNOWN, 0)
  }

  /** The last used slot that holds the handle under the type, or the length if there is none. */
  function Doomed(slots: seq<Slot>, handle: nat, kind: int, n: nat): (at: nat)
    requires n <= |slots|
    ensures at == |slots| || (at < n && slots[at] == Slot(handle, kind))
    ensures at == |slots| ==> forall j :: 0 <= j < n ==> slots[j] != Slot(handle, kind)
  {
    if n == 0 then |slots| else if slots[n - 1] == Slot(handle, kind) then n - 1 else Doomed(slots, handle, kind, n - 1)
  }

  /** How many of the first n slots hold another handle under the type. */
  function Others(slots: seq<Slot>, handle: nat, kind: int, n: nat): (count: nat)
    requires n <= |slots|
    ensures count == 0 <==> forall j :: 0 <= j < n && slots[j].kind == kind ==> slots[j].handle == handle
  {
    if n == 0 then 0
    else
      Others(slots, handle, kind, n - 1) +
        if slots[n - 1].kind == kind && slots[n - 1].handle != handle then 1 else 0
  }

  function Disconnected(slots: seq<Slot>, handle: nat, kind: int): seq<Slot> {
    var used := Used(slots);
    var at := Doomed(slots, handle, kind, used);
    if at == |slots| then slots else slots[at := slots[used - 1]][used - 1 := Free]
  }

  function CollateInfo(s: Info, last: Info): Info {
    var named := if s.kind != TYPE_MOBILE && last.apn != "" then s.(apn := last.apn) else s;
    if s.connected then
      named.(allTypes := s.allTypes + last.allTypes, handles := Connected(last.handles, s.handle, s.kind))
    else if s.allTypes != {} then
      named.(allTypes := if Others(last.handles, s.handle, s.kind, Used(last.handles)) == 0
                         then last.allTypes - s.allTypes
                         else s.allTypes,
             handles := Disconnected(last.handles, s.handle, s.kind))
    else
      named.(handles := last.handles)
  }

  predicate Same(a: Info, b: Info) {
    a.allTypes == b.allTypes && a.connected == b.connected && a.handles == b.handles && a.apn == b.apn
  }

  // ------------------------------------------------------------------------------------------
  // The map that the table stands for

  predicate NoHoles(slots: seq<Slot>) {
    forall i, j :: 0 <= i < j < |slots| && slots[i].handle == UNKNOWN ==> slots[j].handle == UNKNOWN
  }

  predicate NoDuplicates(slots: seq<Slot>) {
    forall i, j :: 0 <= i < j < |slots| && slots[i].handle == slots[j].handle ==> slots[i].handle == UNKNOWN
  }

  predicate WellFormed(slots: seq<Slot>) {
    |slots| == MAX_HANDLES && NoHoles(slots) && NoDuplicates(slots)
  }

  ghost predicate Holds(slots: seq<Slot>, handle: nat, kind: int) {
    handle != UNKNOWN && Slot(handle, kind) in slots
  }

  ghost predicate SlotsInTable(slots: seq<Slot>, table: map<nat, int>) {
    forall i :: 0 <= i < |slots| && slots[i].handle != UNKNOWN ==>
      slots[i].handle in table && table[slots[i].handle] == slots[i].kind
  }

  ghost predicate TableInSlots(slots: seq<Slot>, table: map<nat, int>) {
    forall h :: h in table ==> Holds(slots, h, table[h])
  }

  /** The slots agree with the map, both ways. */
  ghost predicate Represents(slots: seq<Slot>, table: map<nat, int>) {
    && WellFormed(slots)
    && |table| == Used(slots)
    && SlotsInTable(slots, table)
    && TableInSlots(slots, table)
  }

  /** Connecting adds a new handle while there is room; disconnecting removes a handle only under
      the valid type it was connected with. */
  function TableStep(table: map<nat, int>, e: Info): map<nat, int> {
    if e.connected then
      if e.handle == UNKNOWN || e.handle in table || |table| == MAX_HANDLES then table else table[e.handle := e.kind]
    else
      if Valid(e.kind) && e.handle in table && table[e.handle] == e.kind then table - {e.handle} else table
  }

  predicate Fresh(e: Info) {
    e == NewInfo(e.kind, e.connected, e.handle, e.apn, e.reported)
  }

  lemma UsedIsPrefix(slots: seq<Slot>)
    requires NoHoles(slots)
    ensures forall i :: 0 <= i < |slots| ==> (slots[i].handle != UNKNOWN <==> i < Used(slots))
  {
  }

  lemma InsertKeepsForm(slots: seq<Slot>, handle: nat, kind: int)
    requires WellFormed(slots)
    requires Landing(slots, handle, 0) < |slots| && slots[Landing(slots, handle, 0)].handle != handle
    ensures WellFormed(Connected(slots, handle, kind))
    ensures Used(Connected(slots, handle, kind)) == Used(slots) + 1 && Used(slots) == Landing(slots, handle, 0)
  {
    hide Landing;
    UsedIsPrefix(slots);
    var at := Landing(slots, handle, 0);
    var after := Connected(slots, handle, kind);
    UsedIsPrefix(after);
    assert at + 1 < |after| ==> after[at + 1].handle == UNKNOWN;
    assert after[at].handle != UNKNOWN;
  }

  lemma InsertKeepsEntries(slots: seq<Slot>, table: map<nat, int>, at: nat, s: Slot)
    requires at < |slots| && slots[at].handle == UNKNOWN && s.handle != UNKNOWN && s.handle !in table
    requires SlotsInTable(slots, table) && TableInSlots(slots, table)
    ensures SlotsInTable(slots[at := s], table[s.handle := s.kind])
    ensures TableInSlots(slots[at := s], table[s.handle := s.kind])
  {
    var after, more := slots[at := s], table[s.handle := s.kind];
    forall h | h in more
      ensures Holds(after, h, more[h])
    {
      if h == s.handle {
        assert after[at] == s;
      } else {
        assert Holds(slots, h, table[h]);
        var i :| 0 <= i < |slots| && slots[i] == Slot(h, table[h]);
        assert after[i] == slots[i];
      }
    }
  }

  lemma ConnectStep(slots: seq<Slot>, table: map<nat, int>, e: Info)
    requires Represents(slots, table) && Fresh(e) && e.connected
    ensures Represents(Connected(slots, e.handle, e.kind), TableStep(table, e))
  {
    UsedIsPrefix(slots);
    var at := Landing(slots, e.handle, 0);
    if at < |slots| && slots[at].handle != e.handle {
      hide Landing;
      assert e.handle in table ==> Holds(slots, e.handle, table[e.handle]);
      InsertKeepsForm(slots, e.handle, e.kind);
      InsertKeepsEntries(slots, table, at, Slot(e.handle, e.kind));
      hide WellFormed, Used, SlotsInTable, TableInSlots;
    } else {
      hide Landing, NoHoles, NoDuplicates;
      assert at < |slots| ==> slots[at].handle == e.handle;
    }
  }

  lemma SwapWithLast(slots: seq<Slot>, handle: nat, kind: int)
    requires WellFormed(slots)
    requires Doomed(slots, handle, kind, Used(slots)) < |slots|
    ensures WellFormed(Disconnected(slots, handle, kind))
    ensures Used(Disconnected(slots, handle, kind)) == Used(slots) - 1
  {
  }

  lemma SwapKeepsEntries(slots: seq<Slot>, table: map<nat, int>, at: nat, used: nat)
    requires at < used <= |slots| && NoDuplicates(slots) && NoHoles(slots)
    requires forall i :: 0 <= i < |slots| ==> (slots[i].handle != UNKNOWN <==> i < used)
    requires SlotsInTable(slots, table) && TableInSlots(slots, table)
    ensures SlotsInTable(slots[at := slots[used - 1]][used - 1 := Free], table - {slots[at].handle})
    ensures TableInSlots(slots[at := slots[used - 1]][used - 1 := Free], table - {slots[at].handle})
  {
    var after := slots[at := slots[used - 1]][used - 1 := Free];
    forall h | h in table - {slots[at].handle}
      ensures Holds(after, h, table[h])
    {
      assert Holds(slots, h, table[h]);
      var i :| 0 <= i < |slots| && slots[i] == Slot(h, table[h]);
      assert after[if i == used - 1 then at else i] == slots[i];
    }
  }

  lemma DisconnectStep(slots: seq<Slot>, table: map<nat, int>, e: Info)
    requires Represents(slots, table) && Fresh(e) && !e.connected && Valid(e.kind)
    ensures Represents(Disconnected(slots, e.handle, e.kind), TableStep(table, e))
  {
    UsedIsPrefix(slots);
    var used := Used(slots);
    var at := Doomed(slots, e.handle, e.kind, used);
    if at == |slots| {
      assert e.handle in table && table[e.handle] == e.kind ==> Holds(slots, e.handle, e.kind);
    } else {
      hide WellFormed, Used, Landing;
      SwapWithLast(slots, e.handle, e.kind);
      SwapKeepsEntries(slots, table, at, used);
    }
  }

  /** One collated event does to the table what it does to the map. */
  lemma CollateRefinesMap(s: Info, last: Info, table: map<nat, int>)
    requires Fresh(s) && Represents(last.handles, table)
    ensures Represents(CollateInfo(s, last).handles, TableStep(table, s))
  {
    if s.connected {
      ConnectStep(last.handles, table, s);
    } else if Valid(s.kind) {
      DisconnectStep(last.handles, table, s);
    }
  }

  // ------------------------------------------------------------------------------------------
  // Collating again

  lemma ConnectTwice(slots: seq<Slot>, handle: nat, kind: int)
    ensures Connected(Connected(slots, handle, kind), handle, kind) == Connected(slots, handle, kind)
  {
  }

  lemma DisconnectTwice(slots: seq<Slot>, handle: nat, kind: int)
    requires WellFormed(slots)
    ensures WellFormed(Disconnected(slots, handle, kind))
    ensures Disconnected(Disconnected(slots, handle, kind), handle, kind) == Disconnected(slots, handle, kind)
    ensures var after := Disconnected(slots, handle, kind);
      Others(after, handle, kind, Used(after)) == 0 <==> Others(slots, handle, kind, Used(slots)) == 0
  {
    UsedIsPrefix(slots);
    var used := Used(slots);
    var at := Doomed(slots, handle, kind, used);
    if at < |slots| {
      SwapWithLast(slots, handle, kind);
      var after := Disconnected(slots, handle, kind);
      forall j | 0 <= j < used - 1
        ensures after[j] == slots[if j == at then used - 1 else j] && after[j].handle != handle
      {
      }
      forall j | 0 <= j < used && j != at
        ensures slots[j] == after[if j == used - 1 then at else j]
      {
      }
    }
  }

  /** Collating an event twice compares equal to collating it once. */
  lemma CollateTwice(s: Info, last: Info)
    requires WellFormed(last.handles)
    ensures Same(CollateInfo(s, CollateInfo(s, last)), CollateInfo(s, last))
  {
    hide Connected, Disconnected, Others, Used, WellFormed;
    ConnectTwice(last.handles, s.handle, s.kind);
    DisconnectTwice(last.handles, s.handle, s.kind);
  }

  // ------------------------------------------------------------------------------------------
  // The mask of types

  /** A handle of the type other than this one is in the table. */
  ghost predicate OtherOfType(table: map<nat, int>, handle: nat, kind: int) {
    exists h :: h in table && h != handle && table[h] == kind
  }

  lemma OthersCountTable(slots: seq<Slot>, table: map<nat, int>, handle: nat, kind: int)
    requires Represents(slots, table)
    ensures Others(slots, handle, kind, Used(slots)) == 0 <==> !OtherOfType(table, handle, kind)
  {
  }

  lemma StillLive(table: map<nat, int>, s: Info)
    requires !s.connected && Valid(s.kind)
    ensures OtherOfType(table, s.handle, s.kind) <==> s.kind in TableStep(table, s).Values
  {
    if OtherOfType(table, s.handle, s.kind) {
      var h :| h in table && h != s.handle && table[h] == s.kind;
      assert h in TableStep(table, s) && TableStep(table, s)[h] == s.kind;
    }
  }

  predicate MaskIsSound(mask: set<int>, table: map<nat, int>) {
    mask <= table.Values
  }

  predicate MaskIsComplete(mask: set<int>, table: map<nat, int>) {
    forall h :: h in table && Valid(table[h]) ==> table[h] in mask
  }

  /** A connect that the table can show: its type is not a known one, or is there already, or its
      handle is new and there is room for it. */
  predicate Showable(table: map<nat, int>, e: Info) {
    !Valid(e.kind) || e.kind in table.Values || (e.handle != UNKNOWN && e.handle !in table && |table| < MAX_HANDLES)
  }

  /** Every type in the mask keeps a live handle, except after a connect that cannot be shown. */
  lemma SoundnessStep(s: Info, last: Info, table: map<nat, int>)
    requires Fresh(s) && Represents(last.handles, table) && MaskIsSound(last.allTypes, table)
    ensures MaskIsSound(CollateInfo(s, last).allTypes, TableStep(table, s)) <==> !s.connected || Showable(table, s)
  {
    OthersCountTable(last.handles, table, s.handle, s.kind);
    var after := TableStep(table, s);
    if s.connected {
      if after != table {
        assert after[s.handle] == s.kind;
        forall k | k in table.Values
          ensures k in after.Values
        {
          var h :| h in table && table[h] == k;
          assert after[h] == k;
        }
      }
    } else {
      forall k | k in table.Values && k != s.kind
        ensures k in after.Values
      {
        var h :| h in table && table[h] == k;
        assert h in after && after[h] == k;
      }
      if OtherOfType(table, s.handle, s.kind) {
        var h :| h in table && h != s.handle && table[h] == s.kind;
        assert h in after && after[h] == s.kind;
      }
    }
  }

  /** A disconnect that drops the bit of a live type: its own type is not a known one, or is
      still live, and another known type is live too. */
  predicate Forgets(table: map<nat, int>, e: Info) {
    var after := TableStep(table, e);
    && !e.connected
    && (Valid(e.kind) ==> e.kind in after.Values)
    && exists h :: h in after && Valid(after[h]) && after[h] != e.kind
  }

  /** Every live type keeps its bit in the mask, except exactly at the disconnects that forget. */
  lemma CompletenessStep(s: Info, last: Info, table: map<nat, int>)
    requires Fresh(s) && Represents(last.handles, table) && MaskIsComplete(last.allTypes, table)
    ensures MaskIsComplete(CollateInfo(s, last).allTypes, TableStep(table, s)) <==> !Forgets(table, s)
  {
    OthersCountTable(last.handles, table, s.handle, s.kind);
    hide Represents, Connected, Disconnected, Others, Used;
    if !s.connected {
      if Valid(s.kind) {
        StillLive(table, s);
      }
      KindsStay(table, s);
      hide TableStep, OtherOfType;
    }
  }

  lemma KindsStay(table: map<nat, int>, s: Info)
    requires !s.connected
    ensures forall h :: h in TableStep(table, s) ==> h in table && TableStep(table, s)[h] == table[h]
  {
  }

  /** The mask says of this type whether it has a live handle. */
  predicate MaskKnows(mask: set<int>, table: map<nat, int>, kind: int) {
    kind in mask <==> kind in table.Values
  }

  /** The events that make the mask wrong about this type: a connect of it that cannot be shown, and
      a disconnect of another type while this one is live, unless that was the last of its known
      type. */
  predicate Misjudges(table: map<nat, int>, e: Info, kind: int) {
    var after := TableStep(table, e);
    if e.connected then e.kind == kind && !Showable(table, e)
    else e.kind != kind && kind in after.Values && (Valid(e.kind) ==> e.kind in after.Values)
  }

  lemma ConnectKeepsOthers(table: map<nat, int>, s: Info, kind: int)
    requires s.connected
    ensures kind in TableStep(table, s).Values <==>
      kind in table.Values ||
      (s.kind == kind && s.handle != UNKNOWN && s.handle !in table && |table| != MAX_HANDLES)
  {
    var after := TableStep(table, s);
    if after != table {
      assert after[s.handle] == s.kind;
      if h :| h in table && table[h] == kind {
        assert after[h] == kind;
      }
    }
  }

  lemma DisconnectKeepsOthers(table: map<nat, int>, s: Info, kind: int)
    requires !s.connected && s.kind != kind
    ensures kind in TableStep(table, s).Values <==> kind in table.Values
  {
    if h :| h in table && table[h] == kind {
      assert h in TableStep(table, s) && TableStep(table, s)[h] == kind;
    }
  }

  /** The mask stays right about a known type exactly unless the event makes it wrong. */
  lemma KnowledgeStep(s: Info, last: Info, table: map<nat, int>, kind: int)
    requires Fresh(s) && Represents(last.handles, table) && Valid(kind) && MaskKnows(last.allTypes, table, kind)
    ensures MaskKnows(CollateInfo(s, last).allTypes, TableStep(table, s), kind) <==> !Misjudges(table, s, kind)
  {
    OthersCountTable(last.handles, table, s.handle, s.kind);
    assert |table| <= MAX_HANDLES;
    hide Represents, Connected, Disconnected, Others, Used;
    if s.connected {
      ConnectKeepsOthers(table, s, kind);
      hide TableStep;
    } else {
      if Valid(s.kind) {
        StillLive(table, s);
      }
      if s.kind != kind {
        DisconnectKeepsOthers(table, s, kind);
      }
      hide TableStep, OtherOfType;
    }
  }

  // ------------------------------------------------------------------------------------------
  // Runs

  const NetworkRules: Rules<Info> :=
    Rules(CollateInfo, Same, (_: Info) => false, (last: Info, s: Info) => last.(reported := s.reported))

  function Core(i: Info): (set<int>, bool, seq<Slot>, string) {
    (i.allTypes, i.connected, i.handles, i.apn)
  }

  lemma RulesDecide()
    ensures Decides(NetworkRules, Core)
  {
  }

  predicate FromNetwork(events: seq<Event<Info>>) {
    forall e :: e in events ==> e.Update? && Fresh(e.item)
  }

  /** The map after a run.  The first event is recorded as it is, even a disconnect. */
  function TableOf(events: seq<Event<Info>>): map<nat, int> {
    if events == [] then map[]
    else
      var s := Last(events).item;
      if |events| > 1 then TableStep(TableOf(events[..|events| - 1]), s)
      else if s.handle == UNKNOWN then map[]
      else map[s.handle := s.kind]
  }

  lemma FirstTable(s: Info)
    requires Fresh(s)
    ensures Represents(s.handles, if s.handle == UNKNOWN then map[] else map[s.handle := s.kind])
  {
    assert s.handles[0] == Slot(s.handle, s.kind);
    assert s.handles[1].handle == UNKNOWN;
  }

  lemma {:induction false} CollatedRefinesMap(events: seq<Event<Info>>)
    requires events != [] && FromNetwork(events)
    ensures Collated(NetworkRules, events) != []
    ensures Represents(Last(Collated(NetworkRules, events)).handles, TableOf(events))
  {
    hide CollateInfo, Represents, TableStep, Fresh;
    var before := events[..|events| - 1];
    var s := Last(events).item;
    assert Last(events) in events;
    if before == [] {
      assert |events| == 1;
      FirstTable(s);
    } else {
      CollatedRefinesMap(before);
      CollateRefinesMap(s, Last(Collated(NetworkRules, before)), TableOf(before));
    }
  }

  /** Over every run of network events the latest report holds the table of the map. */
  lemma ReportRefinesMap(events: seq<Event<Info>>)
    requires events != [] && FromNetwork(events)
    ensures Report(NetworkRules, events) != []
    ensures Represents(Last(Report(NetworkRules, events)).handles, TableOf(events))
  {
    CollatedRefinesMap(events);
    RulesDecide();
    DroppedUpdatesAreNotMissed(NetworkRules, Core, events);
  }

  /** The access point name after a run: one event after the other leaves the name that is there,
      unless there is none, or the event is about the mobile network and brings its own. */
  function NameOf(events: seq<Event<Info>>): string {
    if events == [] then ""
    else
      var s, before := Last(events).item, NameOf(events[..|events| - 1]);
      if s.kind == TYPE_MOBILE || before == "" then s.apn else before
  }

  lemma {:induction false} CollatedName(events: seq<Event<Info>>)
    requires events != [] && FromNetwork(events)
    ensures Collated(NetworkRules, events) != []
    ensures Last(Collated(NetworkRules, events)).apn == NameOf(events)
  {
    assert Last(events) in events;
    var before := events[..|events| - 1];
    if before == [] {
      assert |events| == 1;
    } else {
      CollatedName(before);
      hide Connected, Disconnected, Others, Used;
    }
  }

  predicate Nameless(events: seq<Event<Info>>, k: nat, n: nat) {
    forall j :: k <= j < n && j < |events| ==> events[j].item.apn == ""
  }

  /** The first event from k on that brings a name. */
  predicate NamesFirst(events: seq<Event<Info>>, k: nat, f: nat) {
    k <= f < |events| && events[f].item.apn != "" && Nameless(events, k, f)
  }

  lemma {:induction false} NameIsFirstNamed(events: seq<Event<Info>>, k: nat)
    requires k < |events| && (k == 0 || events[k].item.kind == TYPE_MOBILE)
    requires forall j :: k < j < |events| ==> events[j].item.kind != TYPE_MOBILE
    ensures Nameless(events, k, |events|) ==> NameOf(events) == ""
    ensures forall f: nat :: NamesFirst(events, k, f) ==> NameOf(events) == events[f].item.apn
  {
    var n := |events| - 1;
    if k < n {
      var before := events[..n];
      NameIsFirstNamed(before, k);
      hide Nameless, NamesFirst;
      if Nameless(before, k, n) {
        OneMoreNameless(events, k, n);
      } else {
        var f := FirstNamed(before, k);
        FirstStays(events, k, f);
      }
    }
  }

  lemma OneMoreNameless(events: seq<Event<Info>>, k: nat, n: nat)
    requires k < n == |events| - 1 && Nameless(events[..n], k, n)
    ensures Nameless(events, k, |events|) <==> events[n].item.apn == ""
    ensures forall f: nat :: NamesFirst(events, k, f) ==> f == n && events[n].item.apn != ""
  {
    forall j | k <= j < n
      ensures events[j].item.apn == ""
    {
      assert events[..n][j] == events[j];
    }
  }

  lemma FirstStays(events: seq<Event<Info>>, k: nat, f: nat)
    requires k < |events| - 1 && NamesFirst(events[..|events| - 1], k, f)
    ensures !Nameless(events, k, |events|)
    ensures events[..|events| - 1][f].item.apn == events[f].item.apn != ""
    ensures forall g: nat :: NamesFirst(events, k, g) ==> g == f
  {
    assert events[f] == events[..|events| - 1][f];
    forall j | k <= j < f
      ensures events[j].item.apn == ""
    {
      assert events[..|events| - 1][j] == events[j];
    }
  }

  lemma {:induction false} FirstNamed(events: seq<Event<Info>>, k: nat) returns (f: nat)
    requires k < |events| && !Nameless(events, k, |events|)
    ensures NamesFirst(events, k, f)
    decreases |events| - k
  {
    if events[k].item.apn != "" {
      f := k;
    } else {
      f := FirstNamed(events, k + 1);
    }
  }

  /** Over every run, counted from the last mobile event, or from the beginning where there is none,
      the reported name is the first non-empty one that an event brought. */
  lemma ReportedName(events: seq<Event<Info>>, k: nat)
    requires FromNetwork(events) && k < |events| && (k == 0 || events[k].item.kind == TYPE_MOBILE)
    requires forall j :: k < j < |events| ==> events[j].item.kind != TYPE_MOBILE
    ensures Report(NetworkRules, events) != []
    ensures var name := Last(Report(NetworkRules, events)).apn;
      && (Nameless(events, k, |events|) ==> name == "")
      && (forall f: nat :: NamesFirst(events, k, f) ==> name == events[f].item.apn)
  {
    CollatedName(events);
    RulesDecide();
    DroppedUpdatesAreNotMissed(NetworkRules, Core, events);
    NameIsFirstNamed(events, k);
    hide Report, Collated, NameOf;
  }

  /** Every connect of the run can be shown when it comes. */
  predicate AllShowable(events: seq<Event<Info>>) {
    events != [] ==>
      var s := Last(events).item;
      AllShowable(events[..|events| - 1]) &&
      if |events| > 1 then !s.connected || Showable(TableOf(events[..|events| - 1]), s)
      else !Valid(s.kind) || s.handle != UNKNOWN
  }

  /** No disconnect of the run forgets a live type. */
  predicate NoneForgets(events: seq<Event<Info>>) {
    |events| > 1 ==>
      NoneForgets(events[..|events| - 1]) && !Forgets(TableOf(events[..|events| - 1]), Last(events).item)
  }

  lemma {:induction false} CollatedMaskIsComplete(events: seq<Event<Info>>)
    requires events != [] && FromNetwork(events) && NoneForgets(events)
    ensures Collated(NetworkRules, events) != []
    ensures MaskIsComplete(Last(Collated(NetworkRules, events)).allTypes, TableOf(events))
  {
    hide CollateInfo, Represents, TableStep, Forgets;
    var before := events[..|events| - 1];
    var s := Last(events).item;
    assert Last(events) in events;
    if before == [] {
      assert |events| == 1;
    } else {
      CollatedMaskIsComplete(before);
      CollatedRefinesMap(before);
      CompletenessStep(s, Last(Collated(NetworkRules, before)), TableOf(before));
    }
  }

  /** Over every run that forgets nothing, each known type with a live handle is in the reported
      mask. */
  lemma LiveTypesAreReported(events: seq<Event<Info>>, handle: nat, kind: int)
    requires events != [] && FromNetwork(events) && NoneForgets(events) && Valid(kind)
    ensures Report(NetworkRules, events) != []
    ensures var info := Last(Report(NetworkRules, events)); Holds(info.handles, handle, kind) ==> kind in info.allTypes
  {
    CollatedMaskIsComplete(events);
    ReportRefinesMap(events);
    RulesDecide();
    DroppedUpdatesAreNotMissed(NetworkRules, Core, events);
    var info, table := Last(Report(NetworkRules, events)), TableOf(events);
    hide Report, Collated, TableOf;
    if Holds(info.handles, handle, kind) {
      var i :| 0 <= i < |info.handles| && info.handles[i] == Slot(handle, kind);
      assert table[handle] == kind;
    }
  }

  /** No event of the run makes the mask wrong about this type; the first one is recorded as it
      is. */
  predicate NoneMisjudges(events: seq<Event<Info>>, kind: int) {
    events != [] ==>
      var s := Last(events).item;
      if |events| == 1 then !(s.kind == kind && s.handle == UNKNOWN)
      else NoneMisjudges(events[..|events| - 1], kind) && !Misjudges(TableOf(events[..|events| - 1]), s, kind)
  }

  lemma {:induction false} CollatedMaskKnows(events: seq<Event<Info>>, kind: int)
    requires events != [] && FromNetwork(events) && NoneMisjudges(events, kind) && Valid(kind)
    ensures Collated(NetworkRules, events) != []
    ensures MaskKnows(Last(Collated(NetworkRules, events)).allTypes, TableOf(events), kind)
  {
    hide CollateInfo, Represents, TableStep, Misjudges;
    var before := events[..|events| - 1];
    var s := Last(events).item;
    assert Last(events) in events;
    if before == [] {
      assert |events| == 1;
      assert s.handle != UNKNOWN ==> TableOf(events)[s.handle] == s.kind;
    } else {
      CollatedMaskKnows(before, kind);
      CollatedRefinesMap(before);
      KnowledgeStep(s, Last(Collated(NetworkRules, before)), TableOf(before), kind);
    }
  }

  /** Over every such run the reported mask has the type exactly while it has a live handle. */
  lemma ReportedIffLive(events: seq<Event<Info>>, kind: int)
    requires events != [] && FromNetwork(events) && NoneMisjudges(events, kind) && Valid(kind)
    ensures Report(NetworkRules, events) != []
    ensures var info := Last(Report(NetworkRules, events));
      kind in info.allTypes <==> exists h :: Holds(info.handles, h, kind)
  {
    CollatedMaskKnows(events, kind);
    ReportRefinesMap(events);
    RulesDecide();
    DroppedUpdatesAreNotMissed(NetworkRules, Core, events);
    var info, table := Last(Report(NetworkRules, events)), TableOf(events);
    hide Report, Collated, TableOf;
    if h :| h in table && table[h] == kind {
      assert Holds(info.handles, h, kind);
    }
    if h :| Holds(info.handles, h, kind) {
      var i :| 0 <= i < |info.handles| && info.handles[i] == Slot(h, kind);
      assert table[h] == kind;
    }
  }

  /** Runs that are right about all types are right about each. */
  lemma {:induction false} RightRunsMisjudgeNone(events: seq<Event<Info>>, kind: int)
    requires AllShowable(events) && NoneForgets(events) && Valid(kind)
    ensures NoneMisjudges(events, kind)
  {
    if |events| > 1 {
      var before, s := events[..|events| - 1], Last(events).item;
      RightRunsMisjudgeNone(before, kind);
      MisjudgingIsWrong(TableOf(before), s, kind);
    }
  }

  lemma MisjudgingIsWrong(table: map<nat, int>, s: Info, kind: int)
    requires Valid(kind)
    ensures Misjudges(table, s, kind) ==> if s.connected then !Showable(table, s) else Forgets(table, s)
  {
  }

  lemma {:induction false} CollatedMaskIsSound(events: seq<Event<Info>>)
    requires events != [] && FromNetwork(events) && AllShowable(events)
    ensures Collated(NetworkRules, events) != []
    ensures MaskIsSound(Last(Collated(NetworkRules, events)).allTypes, TableOf(events))
  {
    hide CollateInfo, Represents, TableStep, Showable;
    var before := events[..|events| - 1];
    var s := Last(events).item;
    assert Last(events) in events;
    if before == [] {
      assert |events| == 1;
      assert s.handle != UNKNOWN ==> TableOf(events)[s.handle] == s.kind;
    } else {
      CollatedMaskIsSound(before);
      CollatedRefinesMap(before);
      SoundnessStep(s, Last(Collated(NetworkRules, before)), TableOf(before));
    }
  }

  /** Over every run whose connects can be shown, each type in the reported mask has a live
      handle. */
  lemma ReportedTypesAreLive(events: seq<Event<Info>>)
    requires events != [] && FromNetwork(events) && AllShowable(events)
    ensures Report(NetworkRules, events) != []
    ensures forall k :: k in Last(Report(NetworkRules, events)).allTypes ==>
      exists h :: Holds(Last(Report(NetworkRules, events)).handles, h, k)
  {
    CollatedMaskIsSound(events);
    ReportRefinesMap(events);
    RulesDecide();
    DroppedUpdatesAreNotMissed(NetworkRules, Core, events);
    var info := Last(Report(NetworkRules, events));
    forall k | k in info.allTypes
      ensures exists h :: Holds(info.handles, h, k)
    {
      assert k in TableOf(events).Values;
      var h :| h in TableOf(events) && TableOf(events)[h] == k;
      assert Holds(info.handles, h, k);
    }
  }

  lemma Grown(events: seq<Event<Info>>, s: Info)
    requires Fresh(s) && FromNetwork(events)
    ensures FromNetwork(events + [Update(s)])
    ensures events == [] && s.handle != UNKNOWN ==> TableOf(events + [Update(s)]) == map[s.handle := s.kind]
    ensures events != [] ==> TableOf(events + [Update(s)]) == TableStep(TableOf(events), s)
    ensures events != [] ==> Collated(NetworkRules, events) != []
    ensures events != [] ==>
      Collated(NetworkRules, events + [Update(s)]) == [CollateInfo(s, Last(Collated(NetworkRules, events)))]
  {
  }

  lemma OneOther(table: map<nat, int>, handle: nat, other: nat)
    requires handle in table && other in table && handle != other && table[handle] == table[other]
    ensures OtherOfType(table, handle, table[handle])
  {
  }

  lemma OneForgotten(last: Info, s: Info, table: map<nat, int>)
    requires Fresh(s) && Represents(last.handles, table)
    requires !s.connected && Valid(s.kind) && OtherOfType(table, s.handle, s.kind)
    ensures CollateInfo(s, last).allTypes == {s.kind}
  {
  }

  /** Three connects under two types and one disconnect: the first type is still live in the
      table, the other too, and the mask names only the first. */
  lemma LiveTypeForgotten(a: Info, b: Info, c: Info, a': Info)
    requires Fresh(a) && Fresh(b) && Fresh(c) && Fresh(a')
    requires a.connected && b.connected && c.connected && !a'.connected
    requires UNKNOWN !in {a.handle, b.handle, c.handle} && a.handle != b.handle && b.handle != c.handle &&
      a.handle != c.handle
    requires Valid(a.kind) && Valid(c.kind) && a.kind == b.kind == a'.kind != c.kind && a.handle == a'.handle
    ensures var run := [Update(a)] + [Update(b)] + [Update(c)] + [Update(a')];
      && FromNetwork(run)
      && TableOf(run) == map[b.handle := b.kind, c.handle := c.kind]
      && Collated(NetworkRules, run) != []
      && Last(Collated(NetworkRules, run)).allTypes == {a.kind}
  {
    hide Fresh, Represents, Connected, Disconnected, Collated, TableOf, Used, Others;
    Grown([], a);
    assert [] + [Update(a)] == [Update(a)];
    Grown([Update(a)], b);
    var two := [Update(a)] + [Update(b)];
    assert TableOf(two) == map[a.handle := a.kind, b.handle := b.kind];
    Grown(two, c);
    var three := two + [Update(c)];
    assert TableOf(three) == map[a.handle := a.kind, b.handle := b.kind, c.handle := c.kind];
    Grown(three, a');
    CollatedRefinesMap(three);
    var last := Last(Collated(NetworkRules, three));
    OneOther(TableOf(three), a.handle, b.handle);
    OneForgotten(last, a', TableOf(three));
  }

  /** An event reported twice in a row is recorded at most once. */
  lemma NetworkRepeatIsDropped(report: seq<Info>, s: Info)
    requires report != [] && WellFormed(Last(report).handles)
    ensures var once := Stored(NetworkRules, report, Update(s));
      && once != []
      && |Stored(NetworkRules, once, Update(s))| == |once|
      && Core(Last(Stored(NetworkRules, once, Update(s)))) == Core(Last(once))
  {
    hide CollateInfo, WellFormed, Stored;
    CollateTwice(s, Last(report));
    RulesDecide();
    RepeatIsDropped(NetworkRules, Core, report, s);
  }

  // ------------------------------------------------------------------------------------------
  // The object

  class SystemStatusNetworkInfo {
    var allTypes: set<int>
    const kind: int
    const connected: bool
    const allNetworkHandles: array<Slot>
    const networkHandle: nat
    var apn: string
    const reported: int

    constructor (kind: int, connected: bool, networkHandle: nat, apn: string, reported: int)
      ensures View() == NewInfo(kind, connected, networkHandle, apn, reported)
      ensures fresh(allNetworkHandles)
    {
      this.allTypes := TypeBit(kind);
      this.kind := kind;
      this.connected := connected;
      this.networkHandle := networkHandle;
      this.apn := apn;
      this.reported := reported;
      var slots := new Slot[MAX_HANDLES](_ => Free);
      slots[0] := Slot(networkHandle, kind);
      allNetworkHandles := slots;
    }

    ghost function View(): Info
      reads this, allNetworkHandles
    {
      Info(allTypes, kind, connected, allNetworkHandles[..], networkHandle, apn, reported)
    }

    method Equals(peer: SystemStatusNetworkInfo) returns (rtv: bool)
      requires allNetworkHandles.Length == MAX_HANDLES == peer.allNetworkHandles.Length
      ensures rtv <==> Same(View(), peer.View())
    {
      rtv := allTypes == peer.allTypes && connected == peer.connected;
      var i := 0;
      while rtv && i < MAX_HANDLES
        invariant 0 <= i <= MAX_HANDLES
        invariant rtv ==> allTypes == peer.allTypes && connected == peer.connected
        invariant rtv ==> allNetworkHandles[..i] == peer.allNetworkHandles[..i]
        invariant !rtv ==> !Same(View(), peer.View())
      {
        rtv := allNetworkHandles[i] == peer.allNetworkHandles[i];
        assert !rtv ==> View().handles[i] != peer.View().handles[i];
        i := i + 1;
      }
      rtv := rtv && peer.apn == apn;
      assert allNetworkHandles[..MAX_HANDLES] == allNetworkHandles[..];
      assert peer.allNetworkHandles[..MAX_HANDLES] == peer.allNetworkHandles[..];
    }

    /** The walk of a connected event over the table it took from the latest one. */
    method Insert()
      modifies allNetworkHandles
      ensures allNetworkHandles[..] == Connected(old(allNetworkHandles[..]), networkHandle, kind)
    {
      ghost var before := allNetworkHandles[..];
      for i := 0 to allNetworkHandles.Length
        invariant allNetworkHandles[..] == before
        invariant Landing(before, networkHandle, 0) == Landing(before, networkHandle, i)
      {
        if networkHandle == allNetworkHandles[i].handle {
          return;
        }
        if allNetworkHandles[i].handle == UNKNOWN {
          allNetworkHandles[i] := Slot(networkHandle, kind);
          return;
        }
      }
    }

    /** The walk of a disconnected event: the slot to delete, the number of used slots and the
        number of other handles of the type. */
    method Survey() returns (deletedIndex: nat, used: nat, typeCount: nat)
      ensures used == Used(allNetworkHandles[..])
      ensures deletedIndex == Doomed(allNetworkHandles[..], networkHandle, kind, used)
      ensures typeCount == Others(allNetworkHandles[..], networkHandle, kind, used)
    {
      var slots := allNetworkHandles[..];
      deletedIndex, used, typeCount := allNetworkHandles.Length, 0, 0;
      while used < allNetworkHandles.Length && allNetworkHandles[used].handle != UNKNOWN
        invariant used <= allNetworkHandles.Length
        invariant Used(slots) == Landing(slots, UNKNOWN, used)
        invariant deletedIndex == Doomed(slots, networkHandle, kind, used)
        invariant typeCount == Others(slots, networkHandle, kind, used)
      {
        if kind == allNetworkHandles[used].kind {
          if networkHandle == allNetworkHandles[used].handle {
            deletedIndex := used;
          } else {
            typeCount := typeCount + 1;
          }
        }
        used := used + 1;
      }
    }

    method Collate(cur: SystemStatusNetworkInfo)
      requires cur != this && cur.allNetworkHandles != allNetworkHandles
      requires allNetworkHandles.Length == cur.allNetworkHandles.Length == MAX_HANDLES
      modifies this, allNetworkHandles
      ensures View() == CollateInfo(old(View()), old(cur.View()))
    {
      forall i | 0 <= i < MAX_HANDLES {
        allNetworkHandles[i] := cur.allNetworkHandles[i];
      }
      assert allNetworkHandles[..] == old(cur.allNetworkHandles[..]);
      if kind != TYPE_MOBILE && cur.apn != "" {
        apn := cur.apn;
      }
      if connected {
        allTypes := allTypes + cur.allTypes;
        Insert();
      } else if allTypes != {} {
        var deletedIndex, used, typeCount := Survey();
        if deletedIndex != MAX_HANDLES {
          allNetworkHandles[deletedIndex] := allNetworkHandles[used - 1];
          allNetworkHandles[used - 1] := Free;
        }
        if typeCount == 0 {
          allTypes := cur.allTypes - allTypes;
        }
      }
    }
  }
}
