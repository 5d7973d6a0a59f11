/** Whole runs of the GitHub backend: any number of adapters over one issue store, started,
    abandoned and restarted at any point, taking any calls in any order, with any failures. */
module GitHubRuns {
  import opened Records
  import opened MemoryStore
  import opened GitHubStore
  import opened GitHubClient
  import opened GitHubAdapter

  /** A restart is a new adapter that is used from then on. */
  datatype Event =
    | Start(cfg: Config)
    | Invoke(which: nat, now: Time, call: Call, gate: Option<AuthorizationContext>)
    | SeedChangeSet(which: nat, changeSet: ChangeSet)
    | SeedApproval(which: nat, id: string, approval: Approval)

  ghost predicate FleetOk(hub: Hub, fleet: seq<Adapter>)
    reads hub, fleet
  {
    && hub.Valid()
    && (forall i | 0 <= i < |fleet| :: fleet[i].hub == hub && fleet[i].Valid())
    && (forall i, j | 0 <= i < j < |fleet| :: fleet[i] != fleet[j])
  }

  /** One event on one adapter. */
  method Step(hub: Hub, fleet: seq<Adapter>, which: nat, e: Event)
    requires FleetOk(hub, fleet) && which < |fleet| && !e.Start?
    requires e.SeedApproval? ==> hub.gate(e.id) == (e.approval.projectId, e.approval.requestId)
    modifies hub, fleet[which]
    ensures FleetOk(hub, fleet) && old(hub.log) <= hub.log
  {
    hide CallKept, ItemIndexOk, RequestIndexOk, BindingsOk, ApprovalsOk, Entitled, After;
    ghost var log, issues := hub.log, hub.issues;
    match e {
      case Invoke(_, now, call, gate) =>
        var _ := fleet[which].Run(now, call, gate);
      case SeedChangeSet(_, changeSet) =>
        var _ := fleet[which].SeedChange(changeSet);
      case SeedApproval(_, id, approval) =>
        var _ := fleet[which].SeedGateApproval(id, approval);
    }
    forall i | 0 <= i < |fleet| && i != which
      ensures fleet[i].Valid()
    {
      assert old(fleet[i].Valid());
      fleet[i].StillValid(log, issues);
    }
  }

  /** Every run leaves a log of entitled writes, so everything proved of such logs holds of
      every run; and every adapter, busy or idle, stays right about the store. */
  method Operate(hub: Hub, events: seq<Event>) returns (fleet: seq<Adapter>)
    requires hub.Valid()
    requires forall e | e in events && e.SeedApproval? :: hub.gate(e.id) == (e.approval.projectId, e.approval.requestId)
    modifies hub
    ensures FleetOk(hub, fleet)
    ensures Entitled(hub.gate, hub.log) && hub.issues == After(hub.log) && old(hub.log) <= hub.log
  {
    hide Hub.Valid, Adapter.Valid;
    fleet := [];
    for i := 0 to |events|
      invariant FleetOk(hub, fleet) && old(hub.log) <= hub.log
      invariant forall k | 0 <= k < |fleet| :: fresh(fleet[k])
    {
      var e := events[i];
      if e.Start? {
        var adapter := new Adapter(e.cfg, hub);
        fleet := fleet + [adapter];
      } else if e.which < |fleet| {
        Step(hub, fleet, e.which, e);
      }
    }
    ValidLog(hub);
  }

  lemma ValidLog(hub: Hub)
    requires hub.Valid()
    ensures Entitled(hub.gate, hub.log) && hub.issues == After(hub.log)
  {
  }
}
