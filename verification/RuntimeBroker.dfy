/** One runtime session of the broker: its leases, the provisioning in progress, tier stops and the session
    stop, as steps between awaits. Every map of the broker is keyed by the session, so the state is one
    session's slice of them. */
module RuntimeBroker {
  import opened Options

  type Bot = Option<string>
  datatype Tier = Headless | Desktop

  /** `id` is the lease object's identity; `endpoint`: a user's own machine, not provisioned by the broker. */
  datatype Lease = Lease(id: nat, endpoint: bool, ready: bool, bot: Bot, workspace: Option<string>)

  datatype ProvisionPhase =
    | Starting(replace: bool)
    | Replacing(lease: nat)
    | Placing
    | Provisioning(workspace: Option<string>)
    | Checking
    | Undoing(lease: nat)
    | Settled
  datatype Provision = Provision(tier: Tier, bot: Bot, phase: ProvisionPhase)

  /** A running `stop(id, tier)`. */
  datatype TierStop = AwaitingProvision(tier: Tier) | ClosingLease(tier: Tier, lease: nat)

  datatype SessionStop = Requested | CodexFirst | AwaitingTier | Codex | Before(tier: Tier) | Closing(tier: Tier, lease: nat)

  /** `open`: the provisioned leases that neither closed nor exited before they were ready. */
  datatype State = State(
    present: bool, leases: map<Tier, Lease>, provisioning: Option<Provision>, tierStops: map<nat, TierStop>,
    stopping: Option<SessionStop>, open: set<nat>, issued: nat)

  const STARTED := State(true, map[], None, map[], None, {}, 0)

  datatype Placement = Placed(workspace: Option<string>, same: bool) | Unplaced

  datatype Event =
    | Ensure(tier: Tier, bot: Bot, refused: bool)
    | Begun
    | Replaced(closed: bool)
    | PlacedAt(placement: Placement)
    | Provisioned(exited: bool)
    | NotProvisioned
    | Checked(same: bool)
    | Undone(closed: bool)
    | Finished
    | Attach(bot: Bot)
    | DetachEndpoint(lease: nat)
    | StopTier(stop: nat, tier: Tier, refused: bool)
    | TierWaited(stop: nat, refused: bool)
    | TierClosed(stop: nat, closed: bool)
    | StopSession
    | SessionStep(ok: bool, scheduled: bool)

  predicate Provided(leases: map<Tier, Lease>, tier: Tier) {
    tier in leases && !leases[tier].endpoint
  }

  function Other(tier: Tier): Tier {
    if tier.Headless? then Desktop else Headless
  }

  function InPhase(s: State, phase: ProvisionPhase): State
    requires s.provisioning.Some?
  {
    s.(provisioning := Some(s.provisioning.value.(phase := phase)))
  }

  /** `stopTier` up to its await: the lease is no longer ready. */
  function Unready(s: State, tier: Tier): State
    requires tier in s.leases
  {
    s.(leases := s.leases[tier := s.leases[tier].(ready := false)])
  }

  /** `stopTier` after its await. */
  function AfterClose(s: State, tier: Tier, lease: nat, closed: bool): State {
    if !closed then
      if tier in s.leases && s.leases[tier].id == lease then s.(leases := s.leases[tier := s.leases[tier].(ready := true)]) else s
    else
      var shut := s.(open := s.open - {lease});
      if tier in s.leases && s.leases[tier].id == lease then shut.(leases := s.leases - {tier}) else shut
  }

  function OnEnsure(s: State, tier: Tier, bot: Bot, refused: bool): State {
    if refused || s.stopping.Some? || !s.present then s
    else if tier in s.leases && s.leases[tier].endpoint then s
    else if s.provisioning.Some? || Provided(s.leases, Other(tier)) then s
    else s.(provisioning := Some(Provision(tier, bot, Starting(tier in s.leases && s.leases[tier].bot != bot))))
  }

  function OnBegun(s: State): State {
    if s.provisioning.None? || !s.provisioning.value.phase.Starting? then s
    else
      var p := s.provisioning.value;
      if !p.phase.replace || p.tier !in s.leases then InPhase(s, Placing)
      else InPhase(Unready(s, p.tier), Replacing(s.leases[p.tier].id))
  }

  function OnReplaced(s: State, closed: bool): State {
    if s.provisioning.None? || !s.provisioning.value.phase.Replacing? then s
    else
      var p := s.provisioning.value;
      InPhase(AfterClose(s, p.tier, p.phase.lease, closed), if closed then Placing else Settled)
  }

  /** `acquireTier` once the workspace is known. */
  function OnPlaced(s: State, placement: Placement): State {
    if s.provisioning.None? || !s.provisioning.value.phase.Placing? then s
    else
      var p := s.provisioning.value;
      if placement.Unplaced? || p.tier in s.leases || Provided(s.leases, Other(p.tier)) || !placement.same then InPhase(s, Settled)
      else InPhase(s, Provisioning(placement.workspace))
  }

  /** The provider has answered with a desktop; `exited`: it had already exited. */
  function OnProvisioned(s: State, exited: bool): State {
    if s.provisioning.None? || !s.provisioning.value.phase.Provisioning? then s
    else
      var p := s.provisioning.value;
      var named := s.(issued := s.issued + 1);
      if exited then InPhase(named, Settled)
      else if !s.present then InPhase(named.(open := s.open + {s.issued}), Settled)
      else InPhase(named.(leases := s.leases[p.tier := Lease(s.issued, false, true, p.bot, p.phase.workspace)], open := s.open + {s.issued}), Checking)
  }

  /** The workspace is looked at again after the provisioning. */
  function OnChecked(s: State, same: bool): State {
    if s.provisioning.None? || !s.provisioning.value.phase.Checking? then s
    else
      var tier := s.provisioning.value.tier;
      if same || tier !in s.leases then InPhase(s, Settled) else InPhase(Unready(s, tier), Undoing(s.leases[tier].id))
  }

  function OnUndone(s: State, closed: bool): State {
    if s.provisioning.None? || !s.provisioning.value.phase.Undoing? then s
    else
      var p := s.provisioning.value;
      InPhase(if closed then s.(open := s.open - {p.phase.lease}, leases := s.leases - {p.tier}) else s, Settled)
  }

  function StartClose(s: State, stop: nat, tier: Tier): State {
    if tier !in s.leases then s.(tierStops := s.tierStops - {stop})
    else Unready(s, tier).(tierStops := s.tierStops[stop := ClosingLease(tier, s.leases[tier].id)])
  }

  function OnStopTier(s: State, stop: nat, tier: Tier, refused: bool): State {
    if stop in s.tierStops || !s.present then s
    else if s.provisioning.Some? then s.(tierStops := s.tierStops[stop := AwaitingProvision(tier)])
    else if refused then s
    else StartClose(s, stop, tier)
  }

  /** The session stop after its tier `tier`: the other tier, or the removal. */
  function NextTier(s: State, tier: Tier): State {
    if tier.Desktop? then s.(stopping := Some(Before(Headless))) else s.(stopping := None, present := false)
  }

  predicate Quiet(s: State) {
    s.provisioning.None? || s.provisioning.value.phase.Settled?
  }

  /** `ok`: what the stop awaits succeeded, and none of its own checks throws. */
  function OnSessionStep(s: State, ok: bool, scheduled: bool): State {
    if s.stopping.None? then s
    else
      match s.stopping.value
      case Requested => if !s.present then s.(stopping := None) else s.(stopping := Some(if scheduled then CodexFirst else AwaitingTier))
      case CodexFirst => s.(stopping := if ok then Some(AwaitingTier) else None)
      case AwaitingTier => if !Quiet(s) then s else s.(stopping := if ok then Some(Codex) else None)
      case Codex => s.(stopping := if ok then Some(Before(Desktop)) else None)
      case Before(tier) =>
        if tier in s.leases then Unready(s, tier).(stopping := Some(Closing(tier, s.leases[tier].id)))
        else if ok then NextTier(s, tier) else s.(stopping := None)
      case Closing(tier, lease) =>
        var after := AfterClose(s, tier, lease, ok);
        if ok then NextTier(after, tier) else after.(stopping := None)
  }

  function Step(s: State, e: Event): State {
    match e
    case Ensure(tier, bot, refused) => OnEnsure(s, tier, bot, refused)
    case Begun => OnBegun(s)
    case Replaced(closed) => OnReplaced(s, closed)
    case PlacedAt(placement) => OnPlaced(s, placement)
    case Provisioned(exited) => OnProvisioned(s, exited)
    case NotProvisioned => if s.provisioning.Some? && s.provisioning.value.phase.Provisioning? then InPhase(s, Settled) else s
    case Checked(same) => OnChecked(s, same)
    case Undone(closed) => OnUndone(s, closed)
    case Finished => if s.provisioning.Some? && s.provisioning.value.phase.Settled? then s.(provisioning := None) else s
    case Attach(bot) =>
      if !s.present || Headless in s.leases || s.provisioning.Some? then s
      else s.(leases := s.leases[Headless := Lease(s.issued, true, true, bot, None)], issued := s.issued + 1)
    case DetachEndpoint(lease) =>
      if s.present && Headless in s.leases && s.leases[Headless].endpoint && s.leases[Headless].id == lease then s.(leases := s.leases - {Headless}) else s
    case StopTier(stop, tier, refused) => OnStopTier(s, stop, tier, refused)
    case TierWaited(stop, refused) =>
      if stop !in s.tierStops || !s.tierStops[stop].AwaitingProvision? then s
      else if refused then s.(tierStops := s.tierStops - {stop})
      else StartClose(s, stop, s.tierStops[stop].tier)
    case TierClosed(stop, closed) =>
      if stop !in s.tierStops || !s.tierStops[stop].ClosingLease? then s
      else AfterClose(s, s.tierStops[stop].tier, s.tierStops[stop].lease, closed).(tierStops := s.tierStops - {stop})
    case StopSession => if s.stopping.Some? then s else s.(stopping := Some(Requested))
    case SessionStep(ok, scheduled) => OnSessionStep(s, ok, scheduled)
  }

  // ---------- the class ----------

  class Broker {
    var present: bool
    var leases: map<Tier, Lease>
    var tierProvisioning: Option<Provision>
    var tierStops: map<nat, TierStop>
    var stopping: Option<SessionStop>
    ghost var open: set<nat>
    var issued: nat

    ghost function Now(): State
      reads this
    {
      State(present, leases, tierProvisioning, tierStops, stopping, open, issued)
    }

    constructor ()
      ensures Now() == STARTED
    {
      present, leases, tierProvisioning, tierStops, stopping, open, issued := true, map[], None, map[], None, {}, 0;
    }

    method EnsureTier(tier: Tier, bot: Bot, refused: bool)
      modifies this`tierProvisioning
      ensures Now() == Step(old(Now()), Ensure(tier, bot, refused))
    {
      if refused || stopping.Some? || !present { return; }
      if tier in leases && leases[tier].endpoint { return; }
      if tierProvisioning.Some? { return; }
      if Provided(leases, Other(tier)) { return; }
      var replaceCurrent := tier in leases && leases[tier].bot != bot;
      tierProvisioning := Some(Provision(tier, bot, Starting(replaceCurrent)));
    }

    method SetPhase(phase: ProvisionPhase)
      requires tierProvisioning.Some?
      modifies this`tierProvisioning
      ensures Now() == InPhase(old(Now()), phase)
    {
      tierProvisioning := Some(tierProvisioning.value.(phase := phase));
    }

    /** `stopTier` after `lease.close()`. */
    method LeaseClosed(tier: Tier, lease: nat, closed: bool)
      modifies this`leases, this`open
      ensures Now() == AfterClose(old(Now()), tier, lease, closed)
    {
      if !closed {
        if tier in leases && leases[tier].id == lease { leases := leases[tier := leases[tier].(ready := true)]; }
        return;
      }
      open := open - {lease};
      if tier !in leases || leases[tier].id != lease { return; }
      leases := leases - {tier};
    }

    /** `acquireTier`, up to the call of the provider. */
    method AcquireTier(placement: Placement)
      requires tierProvisioning.Some? && tierProvisioning.value.phase.Placing?
      modifies this`tierProvisioning
      ensures Now() == Step(old(Now()), PlacedAt(placement))
    {
      var tier := tierProvisioning.value.tier;
      if placement.Unplaced? { SetPhase(Settled); return; }
      if tier in leases || Provided(leases, Other(tier)) { SetPhase(Settled); return; }
      if !placement.same { SetPhase(Settled); return; }
      SetPhase(Provisioning(placement.workspace));
    }

    /** `provisionTier` after the provider's answer. */
    method ProvisionTier(exited: bool)
      requires tierProvisioning.Some? && tierProvisioning.value.phase.Provisioning?
      modifies this`tierProvisioning, this`leases, this`open, this`issued
      ensures Now() == Step(old(Now()), Provisioned(exited))
    {
      var p := tierProvisioning.value;
      var desktop := issued;
      issued := issued + 1;
      if exited { SetPhase(Settled); return; }
      open := open + {desktop};
      if !present { SetPhase(Settled); return; }
      leases := leases[p.tier := Lease(desktop, false, true, p.bot, p.phase.workspace)];
      SetPhase(Checking);
    }

    method AttachEndpoint(bot: Bot) returns (attached: bool)
      modifies this`leases, this`issued
      ensures Now() == Step(old(Now()), Attach(bot))
      ensures attached <==> old(present) && Headless !in old(leases) && old(tierProvisioning).None?
    {
      attached := present && Headless !in leases && tierProvisioning.None?;
      if attached {
        leases := leases[Headless := Lease(issued, true, true, bot, None)];
        issued := issued + 1;
      }
    }

    /** One await of `stopSession` has ended. */
    method StopSessionStep(ok: bool, scheduled: bool)
      requires stopping.Some?
      modifies this`stopping, this`leases, this`open, this`present
      ensures Now() == Step(old(Now()), SessionStep(ok, scheduled))
    {
      match stopping.value {
        case Requested => stopping := if !present then None else Some(if scheduled then CodexFirst else AwaitingTier);
        case CodexFirst => stopping := if ok then Some(AwaitingTier) else None;
        case AwaitingTier => if tierProvisioning.None? || tierProvisioning.value.phase.Settled? { stopping := if ok then Some(Codex) else None; }
        case Codex => stopping := if ok then Some(Before(Desktop)) else None;
        case Before(tier) =>
          if tier in leases {
            stopping := Some(Closing(tier, leases[tier].id));
            leases := leases[tier := leases[tier].(ready := false)];
          } else if ok { TierStopped(tier); } else { stopping := None; }
        case Closing(tier, lease) =>
          LeaseClosed(tier, lease, ok);
          if ok { TierStopped(tier); } else { stopping := None; }
      }
    }

    method TierStopped(tier: Tier)
      modifies this`stopping, this`present
      ensures Now() == NextTier(old(Now()), tier)
    {
      if tier.Desktop? { stopping := Some(Before(Headless)); } else { stopping, present := None, false; }
    }
  }
}
