/** The object of NativeAgpsHandler.cpp: how it learns of the network, and how it answers the
    commands of the state machine. */
module NativeAgpsHandler {
  import Agps
  import AgpsClosedLoop
  import opened NetworkInfo
  import ItemReport

  datatype DataItem = Network(info: Info) | Other

  datatype Knowledge = Knowledge(connected: bool, apn: string)

  /** The last network item among those heard decides. */
  function Learned(known: Knowledge, items: seq<DataItem>): Knowledge {
    if items == [] then known
    else
      match items[|items| - 1]
      case Other => Learned(known, items[..|items| - 1])
      case Network(info) => Knowledge(TYPE_MOBILE in info.allTypes, info.apn)
  }

  class Handler {
    var connected: bool
    var apn: string
    /** The events put at the end of the adapter's queue, and the access point names of those
        that open a connection. */
    var queue: seq<Agps.Op>
    var apnsOpened: seq<string>

    constructor ()
      ensures !connected && queue == [] && apnsOpened == []
    {
      connected, apn, queue, apnsOpened := false, "", [], [];
    }

    method Notify(items: seq<DataItem>)
      modifies this`connected, this`apn
      ensures Knowledge(connected, apn) == Learned(old(Knowledge(connected, apn)), items)
    {
      for i := 0 to |items|
        invariant Knowledge(connected, apn) == Learned(old(Knowledge(connected, apn)), items[..i])
      {
        assert items[..i + 1][..i] == items[..i];
        match items[i]
        case Network(info) =>
          connected := TYPE_MOBILE in info.allTypes;
          apn := info.apn;
        case Other =>
      }
      assert items[..|items|] == items;
    }

    method ProcessATLRequestRelease(c: Agps.Command)
      modifies this`queue, this`apnsOpened
      ensures queue == old(queue) + AgpsClosedLoop.Answer(c, connected)
      ensures apnsOpened ==
        old(apnsOpened) + if Agps.ReportOpen in AgpsClosedLoop.Answer(c, connected) then [apn] else []
    {
      if c.agpsType == Agps.WWAN_ANY {
        match c
        case Connect(_) =>
          if connected {
            queue, apnsOpened := queue + [Agps.ReportOpen], apnsOpened + [apn];
          } else {
            queue := queue + [Agps.ReportFailed];
          }
        case Disconnect(_) =>
          queue := queue + [Agps.ReportClosed];
      }
    }
  }

  /** What the handler knows and what is live can part: after a wifi connection, a second one, a
      mobile connection and the end of the first, the table still holds the mobile handle, but the
      mask that the handler reads does not, and it answers a request with a failure.  Of what it
      hears only the mask matters here. */
  lemma LiveMobileIsRefused(a: Info, b: Info, c: Info, a': Info, known: Knowledge, heard: Info)
    requires Fresh(a) && Fresh(b) && Fresh(c) && Fresh(a')
    requires a.connected && b.connected && c.connected && !a'.connected
    requires UNKNOWN !in {a.handle, b.handle, c.handle} && a.handle != b.handle && b.handle != c.handle &&
      a.handle != c.handle
    requires Valid(a.kind) && a.kind == b.kind == a'.kind != TYPE_MOBILE && c.kind == TYPE_MOBILE &&
      a.handle == a'.handle
    ensures var three := [ItemReport.Update(a)] + [ItemReport.Update(b)] + [ItemReport.Update(c)];
      var run := three + [ItemReport.Update(a')];
      && ItemReport.Report(NetworkRules, run) != []
      && (var info := ItemReport.Last(ItemReport.Report(NetworkRules, run));
          && Holds(info.handles, c.handle, TYPE_MOBILE)
          && (heard.allTypes == info.allTypes ==>
                var connected := Learned(known, [Network(heard)]).connected;
                AgpsClosedLoop.Answer(Agps.Connect(Agps.WWAN_ANY), connected) == [Agps.ReportFailed]))
  {
    LiveTypeForgotten(a, b, c, a');
    var run := [ItemReport.Update(a)] + [ItemReport.Update(b)] + [ItemReport.Update(c)] + [ItemReport.Update(a')];
    ReportRefinesMap(run);
    RulesDecide();
    ItemReport.DroppedUpdatesAreNotMissed(NetworkRules, Core, run);
    var info := ItemReport.Last(ItemReport.Report(NetworkRules, run));
    assert TableOf(run)[c.handle] == TYPE_MOBILE;
    assert Learned(known, [Network(heard)]) == Knowledge(TYPE_MOBILE in heard.allTypes, heard.apn);
  }

  /** Over every run of network events that does not misjudge the mobile type, the handler that was
      told the latest mask, under whatever name, takes itself for connected exactly while a mobile
      handle is live. */
  lemma KnowsOfMobile(events: seq<ItemReport.Event<Info>>, known: Knowledge, heard: Info)
    requires events != [] && FromNetwork(events) && NoneMisjudges(events, TYPE_MOBILE)
    requires var report := ItemReport.Report(NetworkRules, events);
      report != [] ==> heard.allTypes == ItemReport.Last(report).allTypes
    ensures ItemReport.Report(NetworkRules, events) != []
    ensures var info := ItemReport.Last(ItemReport.Report(NetworkRules, events));
      Learned(known, [Network(heard)]).connected <==> exists h :: Holds(info.handles, h, TYPE_MOBILE)
    ensures Learned(known, [Network(heard)]).apn == heard.apn
  {
    ReportedIffLive(events, TYPE_MOBILE);
    assert Learned(known, [Network(heard)]) == Knowledge(TYPE_MOBILE in heard.allTypes, heard.apn);
  }

  /** One more event leaves it so exactly unless it misjudges the mobile type. */
  lemma StillKnowsOfMobileIff(s: Info, last: Info, table: map<nat, int>, known: Knowledge, heard: Info)
    requires Fresh(s) && Represents(last.handles, table) && MaskKnows(last.allTypes, table, TYPE_MOBILE)
    requires heard.allTypes == CollateInfo(s, last).allTypes
    ensures (Learned(known, [Network(heard)]).connected <==>
             exists h :: Holds(CollateInfo(s, last).handles, h, TYPE_MOBILE)) <==>
      !Misjudges(table, s, TYPE_MOBILE)
  {
    KnowledgeStep(s, last, table, TYPE_MOBILE);
    CollateRefinesMap(s, last, table);
    assert Learned(known, [Network(heard)]) == Knowledge(TYPE_MOBILE in heard.allTypes, heard.apn);
    hide CollateInfo, TableStep, Misjudges;
    var slots, after := CollateInfo(s, last).handles, TableStep(table, s);
    if h :| h in after && after[h] == TYPE_MOBILE {
      assert Holds(slots, h, TYPE_MOBILE);
    }
    if h :| Holds(slots, h, TYPE_MOBILE) {
      var i :| 0 <= i < |slots| && slots[i] == Slot(h, TYPE_MOBILE);
      assert after[h] == TYPE_MOBILE;
    }
  }
}
