/** The reconciler over all bots: its maps and the registry tables, each step changing one bot's view. */
module DeletionReconciler {
  import opened Options
  import opened PendingDeletion

  type BotId = string
  type Key = (BotId, Token)

  function Tokens(keys: set<Key>, bot: BotId): set<Token> {
    set k | k in keys && k.0 == bot :: k.1
  }

  lemma TokensAdd(keys: set<Key>, bot: BotId, token: Token)
    ensures Tokens(keys + {(bot, token)}, bot) == Tokens(keys, bot) + {token}
    ensures forall other :: other != bot ==> Tokens(keys + {(bot, token)}, other) == Tokens(keys, other)
  {
    var more := keys + {(bot, token)};
    forall t | t in Tokens(keys, bot) + {token} ensures t in Tokens(more, bot) {
      assert (bot, t) in more;
    }
    forall other | other != bot ensures Tokens(more, other) == Tokens(keys, other) {
      forall t | t in Tokens(keys, other) ensures t in Tokens(more, other) {
        assert (other, t) in more;
      }
    }
  }

  lemma TokensRemove(keys: set<Key>, bot: BotId, token: Token)
    ensures Tokens(keys - {(bot, token)}, bot) == Tokens(keys, bot) - {token}
    ensures forall other :: other != bot ==> Tokens(keys - {(bot, token)}, other) == Tokens(keys, other)
  {
    var less := keys - {(bot, token)};
    forall t | t in Tokens(keys, bot) - {token} ensures t in Tokens(less, bot) {
      assert (bot, t) in less;
    }
    forall other | other != bot ensures Tokens(less, other) == Tokens(keys, other) {
      forall t | t in Tokens(keys, other) ensures t in Tokens(less, other) {
        assert (other, t) in less;
      }
    }
  }

  lemma TokensIn(keys: set<Key>, bot: BotId, token: Token)
    ensures (bot, token) in keys <==> token in Tokens(keys, bot)
  {
    assert (bot, token) in keys ==> (bot, token).1 == token;
  }

  function Lookup<V>(m: map<BotId, V>, bot: BotId): Option<V> {
    if bot in m then Some(m[bot]) else None
  }

  class BotDeletionReconciler {
    var bots: map<BotId, bool>
    var pendingDeletions: map<BotId, Row>
    var batches: map<BotId, Batch>
    var inFlight: set<Key>
    var rejectedTokens: set<Key>

    function View(bot: BotId): State
      reads this
    {
      State(Lookup(bots, bot), Lookup(pendingDeletions, bot), Lookup(batches, bot), Tokens(inFlight, bot), Tokens(rejectedTokens, bot))
    }

    /** Nothing but `bot`'s own rows, batch and tokens changed. */
    twostate predicate OnlyFor(bot: BotId)
      reads this
    {
      forall other :: other != bot ==> View(other) == old(View(other))
    }

    constructor ()
      ensures forall bot :: View(bot) == State(None, None, None, {}, {})
    {
      bots, pendingDeletions, batches, inFlight, rejectedTokens := map[], map[], map[], {}, {};
    }

    method Create(bot: BotId)
      requires View(bot) == State(None, None, None, {}, {})
      modifies this`bots
      ensures View(bot) == CREATED && OnlyFor(bot)
    {
      bots := bots[bot := false];
    }

    /** A new process on the same database. */
    method Restart()
      modifies this
      ensures forall bot :: View(bot) == Step(old(View(bot)), Crash)
    {
      batches, inFlight, rejectedTokens := map[], {}, {};
    }

    method BeginPendingDeletion(bot: BotId) returns (created: Option<bool>)
      modifies this`bots, this`pendingDeletions
      ensures View(bot) == Step(old(View(bot)), Begin) && OnlyFor(bot)
      ensures created.Some? <==> old(View(bot)).archived.Some? && (old(View(bot)).archived.value ==> old(View(bot)).row.Some?)
      ensures created.Some? ==> (created.value <==> old(View(bot)).row.None?)
    {
      if bot !in bots { return None; }
      if bots[bot] && bot !in pendingDeletions { return None; }
      created := Some(bot !in pendingDeletions);
      if bot !in pendingDeletions { pendingDeletions := pendingDeletions[bot := Row(0, 0)]; }
      if !bots[bot] { bots := bots[bot := true]; }
    }

    method ClaimPendingDeletionAttempt(bot: BotId) returns (generation: Option<nat>)
      modifies this`pendingDeletions
      ensures bot !in old(pendingDeletions) ==> generation.None? && pendingDeletions == old(pendingDeletions)
      ensures bot in old(pendingDeletions) ==> var row := old(pendingDeletions)[bot];
                && generation == Some(row.generation + 1)
                && pendingDeletions == old(pendingDeletions)[bot := Row(row.generation + 1, row.unresolved + 1)]
    {
      if bot !in pendingDeletions { return None; }
      var row := pendingDeletions[bot];
      pendingDeletions := pendingDeletions[bot := Row(row.generation + 1, row.unresolved + 1)];
      generation := Some(row.generation + 1);
    }

    method SettlePendingDeletionAttempt(bot: BotId)
      modifies this`pendingDeletions
      ensures OnlyFor(bot)
      ensures View(bot) == old(View(bot)).(row :=
                if old(View(bot)).row.Some? && old(View(bot)).row.value.unresolved > 0
                then Some(Row(old(View(bot)).row.value.generation, old(View(bot)).row.value.unresolved - 1)) else old(View(bot)).row)
    {
      if bot in pendingDeletions && pendingDeletions[bot].unresolved > 0 {
        pendingDeletions := pendingDeletions[bot := pendingDeletions[bot].(unresolved := pendingDeletions[bot].unresolved - 1)];
      }
    }

    method RollbackPendingDeletion(bot: BotId, generation: nat) returns (restored: bool)
      modifies this`bots, this`pendingDeletions
      ensures OnlyFor(bot) && View(bot) == Rollback(old(View(bot)), generation)
      ensures restored <==> old(View(bot)).row == Some(Row(generation, 0))
    {
      if bot !in pendingDeletions || pendingDeletions[bot] != Row(generation, 0) { return false; }
      pendingDeletions := pendingDeletions - {bot};
      if bot in bots { bots := bots[bot := false]; }
      restored := true;
    }

    /** The first part of `attempt`: the claim and the registration, up to the platform call, or the
        whole of it when the workspace is busy. */
    method Attempt(bot: BotId, token: Token, idle: bool)
      modifies this
      ensures View(bot) == Step(old(View(bot)), Event.Attempt(token, idle)) && OnlyFor(bot)
    {
      TokensIn(inFlight, bot, token);
      if (bot, token) in inFlight { return; }
      var claimed := ClaimPendingDeletionAttempt(bot);
      if claimed.None? { return; }
      var generation := claimed.value;
      var batch := if bot in batches then batches[bot] else Batch({}, generation, false, false);
      batch := batch.(pending := batch.pending + {token},
                      latestGeneration := if batch.latestGeneration < generation then generation else batch.latestGeneration);
      batches := batches[bot := batch];
      TokensAdd(inFlight, bot, token);
      inFlight := inFlight + {(bot, token)};
      if !idle {
        batches := batches[bot := batch.(ambiguous := true)];
        Finally(bot, token);
      }
    }

    /** One token of the periodic sweep: refused tokens are not tried again. */
    method Reconcile(bot: BotId, token: Token, idle: bool)
      modifies this
      ensures View(bot) == Step(old(View(bot)), Sweep(token, idle)) && OnlyFor(bot)
    {
      TokensIn(rejectedTokens, bot, token);
      if bot in pendingDeletions && (bot, token) !in rejectedTokens {
        Attempt(bot, token, idle);
      }
    }

    method Mark(bot: BotId, definitive: bool, ambiguous: bool)
      modifies this`batches
      ensures View(bot) == Marked(old(View(bot)), definitive, ambiguous) && OnlyFor(bot)
    {
      if bot in batches {
        var batch := batches[bot];
        batches := batches[bot := batch.(definitive := batch.definitive || definitive, ambiguous := batch.ambiguous || ambiguous)];
      }
    }

    /** The resumption of an attempt after its platform call. */
    method Resume(bot: BotId, token: Token, result: Result)
      requires (bot, token) in inFlight
      modifies this
      ensures View(bot) == Step(old(View(bot)), Outcome(token, result)) && OnlyFor(bot)
    {
      TokensIn(inFlight, bot, token);
      SettleResult(bot, token, result);
      Finally(bot, token);
    }

    method SettleResult(bot: BotId, token: Token, result: Result)
      modifies this`bots, this`pendingDeletions, this`batches, this`rejectedTokens
      ensures View(bot) == Settle(old(View(bot)), token, result) && OnlyFor(bot)
    {
      match result {
        case Cancelled(idle, stored) =>
          if !idle { Mark(bot, false, true); return; }
          if bot !in pendingDeletions { return; }
          if bot !in bots || !bots[bot] || !stored { Mark(bot, false, true); return; }
          bots := bots - {bot};
          pendingDeletions := pendingDeletions - {bot};
        case Refused(stored) =>
          if !stored { Mark(bot, false, true); return; }
          SettlePendingDeletionAttempt(bot);
          Mark(bot, true, false);
          TokensAdd(rejectedTokens, bot, token);
          rejectedTokens := rejectedTokens + {(bot, token)};
        case Failed => Mark(bot, false, true);
      }
    }

    method Finally(bot: BotId, token: Token)
      modifies this
      ensures View(bot) == Finish(old(View(bot)), token) && OnlyFor(bot)
    {
      TokensRemove(inFlight, bot, token);
      if bot in batches {
        var batch := batches[bot].(pending := batches[bot].pending - {token});
        batches := batches[bot := batch];
        assert OnlyFor(bot);
        if batch.pending == {} {
          if batch.definitive && !batch.ambiguous {
            var _ := RollbackPendingDeletion(bot, batch.latestGeneration);
            assert OnlyFor(bot);
          }
          batches := batches - {bot};
          assert OnlyFor(bot);
        }
      }
      inFlight := inFlight - {(bot, token)};
    }

    method Delete(bot: BotId) returns (found: bool)
      modifies this`bots
      ensures View(bot) == Step(old(View(bot)), Event.Delete) && OnlyFor(bot)
      ensures found <==> old(View(bot)).archived == Some(false)
    {
      found := bot in bots && !bots[bot];
      if found { bots := bots - {bot}; }
    }
  }
}
