/** Every interleaving of ensures, attachments, tier stops and session stops of one session. */
module BrokerTheorems {
  import opened Options
  import opened RuntimeBroker

  /** At most one lease that the broker provisioned, across both tiers. */
  predicate OneLease(s: State) {
    !(Provided(s.leases, Headless) && Provided(s.leases, Desktop))
  }

  predicate Stored(leases: map<Tier, Lease>, lease: nat) {
    || (Provided(leases, Headless) && leases[Headless].id == lease)
    || (Provided(leases, Desktop) && leases[Desktop].id == lease)
  }

  /** Every open provisioned lease is stored, so some stop will find it. */
  predicate OpenStored(s: State) {
    forall lease :: lease in s.open ==> Stored(s.leases, lease)
  }

  predicate IdsIssued(s: State) {
    forall tier :: tier in s.leases ==> s.leases[tier].id < s.issued
  }

  /** What the provisioning in progress may rely on while it waits. */
  predicate ProvisionRight(s: State) {
    s.provisioning.Some? ==>
      var p := s.provisioning.value;
      && (p.phase.Settled? || (s.present && !Provided(s.leases, Other(p.tier))))
      && (p.phase.Provisioning? ==> p.tier !in s.leases)
      && (p.phase.Checking? || p.phase.Undoing? ==> p.tier in s.leases ==> !s.leases[p.tier].endpoint)
      && (p.phase.Undoing? ==> p.tier in s.leases ==> s.leases[p.tier].id == p.phase.lease)
  }

  /** Once the stop has waited for it, no provisioning is in progress, and what has been stopped stays stopped. */
  predicate StopRight(s: State) {
    s.stopping.Some? ==>
      var stop := s.stopping.value;
      && (stop.Requested? || s.present)
      && (stop.Codex? || stop.Before? || stop.Closing? ==> Quiet(s))
      && ((stop.Before? || stop.Closing?) && stop.tier.Headless? ==> Desktop !in s.leases)
      && (stop.Closing? && Provided(s.leases, stop.tier) ==> s.leases[stop.tier].id == stop.lease)
  }

  /** A removed session has no provisioned lease and no provisioning. */
  predicate RemovedRight(s: State) {
    !s.present ==> s.open == {} && Quiet(s)
  }

  predicate DesktopProvisioned(s: State) {
    Desktop in s.leases ==> !s.leases[Desktop].endpoint
  }

  predicate Good(s: State) {
    OneLease(s) && OpenStored(s) && IdsIssued(s) && ProvisionRight(s) && StopRight(s) && RemovedRight(s) && DesktopProvisioned(s)
  }

  // ---------- one step ----------

  lemma UnreadyGood(s: State, tier: Tier)
    requires Good(s) && tier in s.leases
    ensures Good(Unready(s, tier))
  {
  }

  lemma AfterCloseGood(s: State, tier: Tier, lease: nat, closed: bool)
    requires Good(s)
    ensures Good(AfterClose(s, tier, lease, closed))
  {
  }

  lemma ProvisionStepGood(s: State, e: Event)
    requires Good(s)
    requires e.Ensure? || e.PlacedAt? || e.Provisioned? || e.NotProvisioned? || e.Undone? || e.Finished?
    ensures Good(Step(s, e))
  {
  }

  lemma BegunGood(s: State)
    requires Good(s)
    ensures Good(OnBegun(s))
  {
    if s.provisioning.Some? && s.provisioning.value.tier in s.leases {
      UnreadyGood(s, s.provisioning.value.tier);
    }
  }

  lemma ReplacedGood(s: State, closed: bool)
    requires Good(s)
    ensures Good(OnReplaced(s, closed))
  {
    if s.provisioning.Some? && s.provisioning.value.phase.Replacing? {
      AfterCloseGood(s, s.provisioning.value.tier, s.provisioning.value.phase.lease, closed);
    }
  }

  lemma CheckedGood(s: State, same: bool)
    requires Good(s)
    ensures Good(OnChecked(s, same))
  {
    if s.provisioning.Some? && s.provisioning.value.tier in s.leases {
      UnreadyGood(s, s.provisioning.value.tier);
    }
  }

  lemma EndpointGood(s: State, e: Event)
    requires Good(s) && (e.Attach? || e.DetachEndpoint?)
    ensures Good(Step(s, e))
  {
  }

  lemma StopsIrrelevant(s: State, tierStops: map<nat, TierStop>)
    requires Good(s)
    ensures Good(s.(tierStops := tierStops))
  {
  }

  lemma StartCloseGood(s: State, stop: nat, tier: Tier)
    requires Good(s)
    ensures Good(StartClose(s, stop, tier))
  {
    if tier in s.leases {
      UnreadyGood(s, tier);
      StopsIrrelevant(Unready(s, tier), s.tierStops[stop := ClosingLease(tier, s.leases[tier].id)]);
    }
  }

  lemma TierStopGood(s: State, e: Event)
    requires Good(s) && (e.StopTier? || e.TierWaited? || e.TierClosed?)
    ensures Good(Step(s, e))
  {
    match e
    case StopTier(stop, tier, _) => StartCloseGood(s, stop, tier);
    case TierWaited(stop, _) =>
      if stop in s.tierStops && s.tierStops[stop].AwaitingProvision? {
        StartCloseGood(s, stop, s.tierStops[stop].tier);
      }
    case TierClosed(stop, closed) =>
      if stop in s.tierStops && s.tierStops[stop].ClosingLease? {
        AfterCloseGood(s, s.tierStops[stop].tier, s.tierStops[stop].lease, closed);
      }
  }

  /** The removal comes when neither tier holds a provisioned lease. */
  lemma NextTierGood(s: State, tier: Tier)
    requires Good(s) && Quiet(s) && s.present && (tier.Desktop? ==> Desktop !in s.leases)
    requires tier.Headless? ==> Desktop !in s.leases && !Provided(s.leases, Headless)
    ensures Good(NextTier(s, tier))
  {
  }

  lemma SessionStepGood(s: State, ok: bool, scheduled: bool)
    requires Good(s)
    ensures Good(OnSessionStep(s, ok, scheduled))
  {
    if s.stopping.Some? {
      var stop := s.stopping.value;
      match stop
      case Before(tier) =>
        if tier in s.leases {
          UnreadyGood(s, tier);
        } else {
          NextTierGood(s, tier);
        }
      case Closing(tier, lease) =>
        AfterCloseGood(s, tier, lease, ok);
        if ok {
          NextTierGood(AfterClose(s, tier, lease, ok), tier);
        }
      case _ =>
    }
  }

  lemma StepGood(s: State, e: Event)
    requires Good(s)
    ensures Good(Step(s, e))
  {
    match e
    case Begun => BegunGood(s);
    case Replaced(closed) => ReplacedGood(s, closed);
    case Checked(same) => CheckedGood(s, same);
    case Attach(_) => EndpointGood(s, e);
    case DetachEndpoint(_) => EndpointGood(s, e);
    case StopTier(_, _, _) => TierStopGood(s, e);
    case TierWaited(_, _) => TierStopGood(s, e);
    case TierClosed(_, _) => TierStopGood(s, e);
    case StopSession =>
    case SessionStep(ok, scheduled) => SessionStepGood(s, ok, scheduled);
    case Ensure(_, _, _) => ProvisionStepGood(s, e);
    case PlacedAt(_) => ProvisionStepGood(s, e);
    case Provisioned(_) => ProvisionStepGood(s, e);
    case NotProvisioned => ProvisionStepGood(s, e);
    case Undone(_) => ProvisionStepGood(s, e);
    case Finished => ProvisionStepGood(s, e);
  }

  // ---------- whole runs ----------

  function Run(events: seq<Event>): State {
    if events == [] then STARTED else Step(Run(events[..|events| - 1]), events[|events| - 1])
  }

  lemma {:induction false} EveryRunGood(events: seq<Event>)
    ensures Good(Run(events))
    decreases |events|
  {
    if events != [] {
      EveryRunGood(events[..|events| - 1]);
      StepGood(Run(events[..|events| - 1]), events[|events| - 1]);
    }
  }

  /** The provider is asked. */
  predicate AsksProvider(events: seq<Event>, j: nat) {
    && j < |events| && events[j].PlacedAt?
    && Run(events[..j + 1]).provisioning.Some? && Run(events[..j + 1]).provisioning.value.phase.Provisioning?
    && !(Run(events[..j]).provisioning.Some? && Run(events[..j]).provisioning.value.phase.Provisioning?)
  }

  predicate FinishedIn(events: seq<Event>, i: nat, j: nat) {
    exists k :: i < k < j && k < |events| && events[k].Finished?
  }

  /** The provider has been asked, and the request has not finished. */
  predicate Asked(s: State) {
    s.provisioning.Some? && var phase := s.provisioning.value.phase; phase.Provisioning? || phase.Checking? || phase.Undoing? || phase.Settled?
  }

  lemma AskedStep(s: State, e: Event)
    requires Asked(s) && !e.Finished?
    ensures Asked(Step(s, e))
  {
  }

  lemma {:induction false} StillAsked(events: seq<Event>, i: nat, j: nat)
    requires AsksProvider(events, i) && i < j <= |events| && !FinishedIn(events, i, j)
    ensures Asked(Run(events[..j]))
    decreases j
  {
    assert events[..j][..j - 1] == events[..j - 1];
    if j > i + 1 {
      assert !FinishedIn(events, i, j - 1);
      StillAsked(events, i, j - 1);
      AskedStep(Run(events[..j - 1]), events[j - 1]);
    }
  }

  lemma NotPlacing(s: State, e: Event)
    requires Asked(s) && e.PlacedAt?
    ensures Step(s, e) == s
  {
  }

  /** The provider is never asked again before the provisioning of the last request has finished. */
  lemma OneProvisioningAtATime(events: seq<Event>, i: nat, j: nat)
    requires i < j && AsksProvider(events, i) && AsksProvider(events, j)
    ensures FinishedIn(events, i, j)
  {
    assert events[..j + 1][..j] == events[..j];
    if !FinishedIn(events, i, j) {
      StillAsked(events, i, j);
      NotPlacing(Run(events[..j]), events[j]);
    }
  }

  /** In every reachable state the session holds at most one provisioned lease and every open one is stored; once
      the session is removed none is open, none is being provisioned, and the branch that discards a desktop
      provisioned for a removed session is never taken. */
  lemma LeasesAccountedFor(events: seq<Event>)
    ensures var s := Run(events);
            && OneLease(s)
            && (forall lease :: lease in s.open ==> Stored(s.leases, lease))
            && (!s.present ==> s.open == {} && Quiet(s))
            && (s.provisioning.Some? && s.provisioning.value.phase.Provisioning? ==> s.present)
  {
    EveryRunGood(events);
  }

  lemma {:induction false} RemovedForGood(events: seq<Event>, k: nat)
    requires k <= |events| && !Run(events[..k]).present
    ensures !Run(events).present && Run(events).open == {}
    decreases |events|
  {
    EveryRunGood(events);
    if k == |events| {
      assert events[..k] == events;
    } else {
      var init := events[..|events| - 1];
      assert init[..k] == events[..k];
      RemovedForGood(init, k);
      EveryRunGood(init);
      RemovedStep(Run(init), events[|events| - 1]);
    }
  }

  lemma RemovedStep(s: State, e: Event)
    requires Good(s) && !s.present
    ensures !Step(s, e).present
  {
  }

  // ---------- what the operations achieve ----------

  /** The session lives, is not stopping and provisions nothing. */
  predicate Ready(s: State) {
    s.present && s.stopping.None? && s.provisioning.None?
  }

  /** A provisioning is started exactly when the caller may, the session is ready, the tier is not a user's own machine
      and the other tier holds no provisioned lease; it first replaces a lease of another bot. */
  lemma EnsureStarts(s: State, tier: Tier, bot: Bot, refused: bool)
    ensures var after := Step(s, Ensure(tier, bot, refused));
            if !refused && Ready(s) && !(tier in s.leases && s.leases[tier].endpoint) && !Provided(s.leases, Other(tier))
            then after == s.(provisioning := Some(Provision(tier, bot, Starting(tier in s.leases && s.leases[tier].bot != bot))))
            else after == s
  {
  }

  /** The session waits for its provider. */
  function Asking(s: State, tier: Tier, bot: Bot, workspace: Option<string>): State {
    Step(Step(Step(s, Ensure(tier, bot, false)), Begun), PlacedAt(Placed(workspace, true)))
  }

  lemma EnsureAsks(s: State, tier: Tier, bot: Bot, workspace: Option<string>)
    requires Ready(s) && tier !in s.leases && !Provided(s.leases, Other(tier))
    ensures Asking(s, tier, bot, workspace) == s.(provisioning := Some(Provision(tier, bot, Provisioning(workspace))))
  {
    EnsureStarts(s, tier, bot, false);
    assert Step(Step(s, Ensure(tier, bot, false)), Begun) == s.(provisioning := Some(Provision(tier, bot, Placing)));
  }

  /** The provider answers with a desktop, and the workspace is still the same. */
  lemma ProviderAnswers(s: State, tier: Tier, bot: Bot, workspace: Option<string>)
    requires s.present && s.provisioning == Some(Provision(tier, bot, Provisioning(workspace)))
    ensures Step(Step(Step(s, Provisioned(false)), Checked(true)), Finished) ==
            s.(provisioning := None, leases := s.leases[tier := Lease(s.issued, false, true, bot, workspace)],
               open := s.open + {s.issued}, issued := s.issued + 1)
  {
    var stored := Step(s, Provisioned(false));
    assert stored.provisioning == Some(Provision(tier, bot, Checking));
    assert Step(stored, Checked(true)) == InPhase(stored, Settled);
  }

  /** Asked for a free tier, with a provider that answers, the session gets its desktop: one ready lease for the bot on
      the workspace it was placed on. */
  lemma ProvisioningDelivers(s: State, tier: Tier, bot: Bot, workspace: Option<string>)
    requires Ready(s) && tier !in s.leases && !Provided(s.leases, Other(tier))
    ensures Step(Step(Step(Asking(s, tier, bot, workspace), Provisioned(false)), Checked(true)), Finished) ==
            s.(leases := s.leases[tier := Lease(s.issued, false, true, bot, workspace)], open := s.open + {s.issued}, issued := s.issued + 1)
  {
    EnsureAsks(s, tier, bot, workspace);
    ProviderAnswers(s.(provisioning := Some(Provision(tier, bot, Provisioning(workspace)))), tier, bot, workspace);
  }

  /** A provider that has nothing, or a desktop that is already gone, leaves the leases as they were. */
  lemma FailedProvisioning(s: State)
    requires s.provisioning.Some? && s.provisioning.value.phase.Provisioning?
    ensures var none, gone := Step(s, NotProvisioned), Step(s, Provisioned(true));
            && none == s.(provisioning := none.provisioning) && none.provisioning.value.phase.Settled?
            && gone == s.(provisioning := gone.provisioning, issued := s.issued + 1) && gone.provisioning.value.phase.Settled?
  {
  }

  /** An endpoint is attached exactly to a live session with no headless lease and nothing being provisioned, and is
      detached only by its own id. */
  lemma EndpointsComeAndGo(s: State, bot: Bot, lease: nat)
    ensures Step(s, Attach(bot)) ==
            if s.present && Headless !in s.leases && s.provisioning.None?
            then s.(leases := s.leases[Headless := Lease(s.issued, true, true, bot, None)], issued := s.issued + 1) else s
    ensures Step(s, DetachEndpoint(lease)) ==
            if s.present && Headless in s.leases && s.leases[Headless].endpoint && s.leases[Headless].id == lease
            then s.(leases := map tier | tier in s.leases && tier != Headless :: s.leases[tier]) else s
  {
    assert s.leases - {Headless} == map tier | tier in s.leases && tier != Headless :: s.leases[tier];
  }

  /** Stopping a tier of a session that provisions nothing closes its lease and removes it; if the close fails, the
      lease is ready as before. */
  lemma TierStopCloses(s: State, stop: nat, tier: Tier, closed: bool)
    requires s.present && s.provisioning.None? && stop !in s.tierStops && tier in s.leases && s.leases[tier].ready
    ensures var after := Step(Step(s, StopTier(stop, tier, false)), TierClosed(stop, closed));
            if closed then after == s.(leases := s.leases - {tier}, open := s.open - {s.leases[tier].id}) else after == s
  {
    var lease := s.leases[tier];
    assert s.leases[tier := lease.(ready := false)][tier := lease] == s.leases;
    assert s.leases[tier := lease.(ready := false)] - {tier} == s.leases - {tier};
    assert s.tierStops[stop := ClosingLease(tier, lease.id)] - {stop} == s.tierStops;
  }

  /** Once the provisioning it waits for has settled, a session stop whose awaits all succeed closes both tiers, desktop
      first, and removes the session. */
  lemma SessionStopRemoves(s: State, scheduled: bool)
    requires Good(s) && s.present && s.stopping.None? && Quiet(s)
    ensures exists n: nat :: n <= 8 && !Stopped(s, n, scheduled).present && Stopped(s, n, scheduled).open == {} && Stopped(s, n, scheduled).stopping.None?
  {
    var n := StopSteps(s, scheduled);
    StopRuns(s, scheduled);
    StopGood(s, n, scheduled);
  }

  /** The stop, and then n of its steps, each successful. */
  function Stopped(s: State, n: nat, scheduled: bool): State {
    if n == 0 then Step(s, StopSession) else Step(Stopped(s, n - 1, scheduled), SessionStep(true, scheduled))
  }

  function StopSteps(s: State, scheduled: bool): nat {
    5 + (if scheduled then 1 else 0) + (if Desktop in s.leases then 1 else 0) + if Headless in s.leases then 1 else 0
  }

  lemma {:induction false} StopGood(s: State, n: nat, scheduled: bool)
    requires Good(s)
    ensures Good(Stopped(s, n, scheduled))
  {
    if n == 0 {
      StepGood(s, StopSession);
    } else {
      StopGood(s, n - 1, scheduled);
      StepGood(Stopped(s, n - 1, scheduled), SessionStep(true, scheduled));
    }
  }

  /** The stop up to its first tier. */
  lemma StopReachesTiers(s: State, scheduled: bool)
    requires s.present && s.stopping.None? && Quiet(s)
    ensures Stopped(s, if scheduled then 4 else 3, scheduled) == s.(stopping := Some(Before(Desktop)))
  {
    assert Stopped(s, 0, scheduled) == s.(stopping := Some(Requested));
    if scheduled {
      assert Stopped(s, 1, scheduled) == s.(stopping := Some(CodexFirst));
      assert Stopped(s, 2, scheduled) == s.(stopping := Some(AwaitingTier));
      assert Stopped(s, 3, scheduled) == s.(stopping := Some(Codex));
    } else {
      assert Stopped(s, 1, scheduled) == s.(stopping := Some(AwaitingTier));
      assert Stopped(s, 2, scheduled) == s.(stopping := Some(Codex));
    }
  }

  /** One tier of the stop: one step when it is empty, two when it holds a lease. */
  lemma StopTierNext(s: State, tier: Tier, scheduled: bool)
    requires s.stopping == Some(Before(tier))
    ensures var one := Step(s, SessionStep(true, scheduled));
            && (tier !in s.leases ==> one == NextTier(s, tier))
            && (tier in s.leases ==>
                  var two := Step(one, SessionStep(true, scheduled));
                  && two.stopping == NextTier(s, tier).stopping && two.present == NextTier(s, tier).present
                  && two.leases == s.leases - {tier} && two.provisioning == s.provisioning)
  {
    if tier in s.leases {
      var lease := s.leases[tier];
      assert s.leases[tier := lease.(ready := false)] - {tier} == s.leases - {tier};
    }
  }

  lemma StopRuns(s: State, scheduled: bool)
    requires s.present && s.stopping.None? && Quiet(s)
    ensures !Stopped(s, StopSteps(s, scheduled), scheduled).present && Stopped(s, StopSteps(s, scheduled), scheduled).stopping.None?
  {
    var n := if scheduled then 4 else 3;
    StopReachesTiers(s, scheduled);
    StopTierNext(Stopped(s, n, scheduled), Desktop, scheduled);
    var m := if Desktop in s.leases then n + 2 else n + 1;
    assert Stopped(s, n + 1, scheduled) == Step(Stopped(s, n, scheduled), SessionStep(true, scheduled));
    assert Stopped(s, n + 2, scheduled) == Step(Stopped(s, n + 1, scheduled), SessionStep(true, scheduled));
    var t := Stopped(s, m, scheduled);
    assert t.stopping == Some(Before(Headless)) && (Headless in t.leases <==> Headless in s.leases);
    StopTierNext(t, Headless, scheduled);
    assert Stopped(s, m + 1, scheduled) == Step(t, SessionStep(true, scheduled));
    assert Stopped(s, m + 2, scheduled) == Step(Stopped(s, m + 1, scheduled), SessionStep(true, scheduled));
  }
}
