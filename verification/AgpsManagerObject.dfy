/** The AgpsManager object: its entry points do to the values of its machines what module
    AgpsManager says. */
module AgpsManagerObject {
  import Agps
  import opened AgpsObjects
  import M = AgpsManager
  import opened Wrappers

  class AgpsManager {
    var agnssNif: AgpsStateMachine?
    var internetNif: AgpsStateMachine?
    const useEmergencyPdn: bool
    /** The handles whose request found no machine, each told by an open-failed callback. */
    var refused: seq<int>

    constructor (useEmergencyPdn: bool)
      ensures Valid() && View() == M.Manager(None, None, useEmergencyPdn, [])
      ensures agnssNif == null == internetNif
    {
      this.useEmergencyPdn := useEmergencyPdn;
      agnssNif, internetNif, refused := null, null, [];
    }

    ghost function ObjectsOf(sm: AgpsStateMachine?): set<object>
      reads sm
    {
      if sm == null then {} else {sm} + set s: AgpsSubscriber | s in sm.subscriberList
    }

    ghost function Objects(): set<object>
      reads this, agnssNif, internetNif
    {
      ObjectsOf(agnssNif) + ObjectsOf(internetNif)
    }

    ghost predicate Apart()
      reads this, agnssNif, internetNif
    {
      agnssNif != null && internetNif != null ==>
        agnssNif != internetNif && forall s :: s in agnssNif.subscriberList ==> s !in internetNif.subscriberList
    }

    ghost predicate Valid()
      reads this, Objects()
    {
      && Apart()
      && (agnssNif != null ==> Agps.ListRight(agnssNif.Model()))
      && (internetNif != null ==> Agps.ListRight(internetNif.Model()))
    }

    ghost function ViewOf(sm: AgpsStateMachine?): Option<Agps.Machine>
      reads sm, ObjectsOf(sm)
    {
      if sm == null then None else Some(sm.Model())
    }

    ghost function View(): M.Manager
      reads this, Objects()
    {
      M.Manager(ViewOf(agnssNif), ViewOf(internetNif), useEmergencyPdn, refused)
    }

    method CreateInternetNif()
      requires Valid()
      modifies this`internetNif
      ensures Valid() && View() == old(View()).(internet := M.Created(old(View()).internet, Agps.WWAN_ANY))
    {
      hide Agps.ListRight, Views;
      if internetNif == null {
        FreshIsRight(Agps.WWAN_ANY);
        internetNif := new AgpsStateMachine(Agps.WWAN_ANY);
      }
    }

    method CreateAgnssNif()
      requires Valid()
      modifies this`agnssNif
      ensures Valid() && View() == old(View()).(agnss := M.Created(old(View()).agnss, Agps.SUPL))
    {
      hide Agps.ListRight, Views;
      if agnssNif == null {
        FreshIsRight(Agps.SUPL);
        agnssNif := new AgpsStateMachine(Agps.SUPL);
      }
    }

    /** createAgpsStateMachines, for these types of callback and capabilities. */
    method CreateAgpsStateMachines(wwan: bool, supl: bool, suplEs: bool, agpsCapable: bool)
      requires Valid()
      modifies this`agnssNif, this`internetNif
      ensures Valid() && View() == M.CallStep(old(View()), M.CreateMachines(wwan, supl, suplEs, agpsCapable))
    {
      hide Agps.ListRight, Views;
      if wwan {
        CreateInternetNif();
      }
      if agpsCapable && supl && suplEs {
        CreateAgnssNif();
      }
    }

    lemma FreshIsRight(agpsType: int)
      ensures Agps.ListRight(Agps.Fresh(agpsType))
    {
    }

    method GetAgpsStateMachine(agpsType: int) returns (sm: AgpsStateMachine?)
      ensures sm == if M.ToAgnss(agpsType) then agnssNif else internetNif
    {
      if agpsType == -1 || agpsType == Agps.SUPL || agpsType == Agps.SUPL_ES {
        sm := agnssNif;
      } else {
        sm := internetNif;
      }
    }

    method RequestATL(connHandle: int, givenType: int)
      requires Valid()
      modifies this`refused, Objects()
      ensures Valid() && View() == M.CallStep(old(View()), M.RequestAtl(connHandle, givenType))
    {
      hide Agps.Step, Agps.ListRight, Views;
      var agpsType := givenType;
      if !useEmergencyPdn && agpsType == Agps.SUPL_ES {
        agpsType := Agps.SUPL;
      }
      var sm := GetAgpsStateMachine(agpsType);
      if sm == null {
        refused := refused + [connHandle];
        return;
      }
      Agps.StepKeepsList(sm.Model(), Agps.Request(connHandle, true, agpsType));
      sm.Request(connHandle, agpsType);
    }

    method ReleaseATL(connHandle: int)
      requires Valid()
      modifies Objects()
      ensures Valid() && View() == M.CallStep(old(View()), M.ReleaseAtl(connHandle))
    {
      hide Agps.Step, Views, Agps.Listed, Agps.Distinct;
      var sm: AgpsStateMachine? := null;
      if agnssNif != null {
        var subscriber := agnssNif.GetSubscriber(connHandle);
        if subscriber != null {
          sm := agnssNif;
        }
      }
      if sm == null && internetNif != null {
        var subscriber := internetNif.GetSubscriber(connHandle);
        if subscriber != null {
          sm := internetNif;
        }
      }
      if sm != null {
        Agps.StepKeepsList(sm.Model(), Agps.Release(connHandle));
        sm.Release(connHandle);
      }
    }

    method ReportAtlOpenSuccess(agpsType: int)
      requires Valid()
      modifies Objects()
      ensures Valid() && View() == M.CallStep(old(View()), M.ReportAtl(Agps.ReportOpen, agpsType))
    {
      hide Agps.ListRight, Agps.Granted, Views;
      var sm := GetAgpsStateMachine(agpsType);
      if sm != null {
        Agps.StepKeepsList(sm.Model(), Agps.ReportOpen);
        sm.ProcessAgpsEventGranted();
      }
    }

    method ReportAtlOpenFailed(agpsType: int)
      requires Valid()
      modifies Objects()
      ensures Valid() && View() == M.CallStep(old(View()), M.ReportAtl(Agps.ReportFailed, agpsType))
    {
      hide Agps.ListRight, Agps.Denied, Views;
      var sm := GetAgpsStateMachine(agpsType);
      if sm != null {
        Agps.StepKeepsList(sm.Model(), Agps.ReportFailed);
        sm.ProcessAgpsEventDenied();
      }
    }

    method ReportAtlClosed(agpsType: int)
      requires Valid()
      modifies Objects()
      ensures Valid() && View() == M.CallStep(old(View()), M.ReportAtl(Agps.ReportClosed, agpsType))
    {
      hide Agps.ListRight, Agps.ReleasedEvent, Views;
      var sm := GetAgpsStateMachine(agpsType);
      if sm != null {
        Agps.StepKeepsList(sm.Model(), Agps.ReportClosed);
        sm.ProcessAgpsEventReleased();
      }
    }

    method HandleModemSSR()
      requires Valid()
      modifies Objects()
      ensures Valid() && View() == M.CallStep(old(View()), M.HandleModemSSR)
    {
      hide Agps.ListRight, Agps.DropAll, Views;
      if agnssNif != null {
        Agps.StepKeepsList(agnssNif.Model(), Agps.ModemRestart);
        agnssNif.DropAllSubscribers();
      }
      if internetNif != null {
        Agps.StepKeepsList(internetNif.Model(), Agps.ModemRestart);
        internetNif.DropAllSubscribers();
      }
    }
  }
}
