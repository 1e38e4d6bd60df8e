// The shared key store as one process sees it, updated in place.
module ClaimStore {
  import opened Options
  import opened EntryProtocol

  class SignalStore {
    var claims: map<Signal, Instant>

    constructor ()
      ensures claims == map[]
    {
      claims := map[];
    }

    /**
     * SET key NX EX.  Returns None when the store cannot be asked (`reachable`
     * false) or its reply is lost, in which case the key may have been set.
     */
    method ClaimEntrySignal(sig: Signal, now: Instant, reachable: bool, replyLost: bool) returns (claimed: Option<bool>)
      modifies this
      ensures claimed == Some(true) ==> !Live(old(claims), sig, now) && claims == old(claims)[sig := now + CLAIM_TTL]
      ensures claimed == Some(false) ==> Live(old(claims), sig, now) && claims == old(claims)
      ensures claimed == None <==> !reachable || replyLost
      ensures claims == old(claims) || (!Live(old(claims), sig, now) && claims == old(claims)[sig := now + CLAIM_TTL])
      ensures Live(old(claims), sig, now) ==> Live(claims, sig, now)
    {
      if !reachable {
        return None;
      }
      var free := !Live(claims, sig, now);
      if free {
        claims := claims[sig := now + CLAIM_TTL];
      }
      claimed := if replyLost then None else Some(free);
    }

    /** SET key EX, without NX: records an outcome and renews the key. */
    method MarkEntrySignal(sig: Signal, now: Instant, reachable: bool) returns (recorded: bool)
      modifies this
      ensures recorded == reachable
      ensures claims == if reachable then old(claims)[sig := now + CLAIM_TTL] else old(claims)
      ensures forall other :: Live(old(claims), other, now) ==> Live(claims, other, now)
    {
      if reachable {
        claims := claims[sig := now + CLAIM_TTL];
      }
      recorded := reachable;
    }
  }

  predicate Live(claims: map<Signal, Instant>, sig: Signal, now: Instant) {
    sig in claims && now < claims[sig]
  }

  function AnswerOf(claimed: Option<bool>, applied: bool): Answer {
    if claimed.None? then Unreachable(applied) else if claimed.value then Won else Lost
  }

  /** Every outcome of a claim on the store is a claim step the protocol allows, with the same keys after it. */
  method ClaimIsAProtocolStep(cfg: Config, w: World, e: EngineId, store: SignalStore, reachable: bool, replyLost: bool)
    returns (s: Step)
    requires cfg.shared && e in w.engines && w.engines[e].phase.Cleared?
    requires w.now - w.engines[e].phase.checkedAt <= cfg.maxDelay && store.claims == w.claims
    modifies store
    ensures s.Claim? && s.e == e && Enabled(cfg, w, s) && Next(cfg, w, s).claims == store.claims
  {
    var sig := w.engines[e].phase.sig;
    var claimed := store.ClaimEntrySignal(sig, w.now, reachable, replyLost);
    s := Claim(e, AnswerOf(claimed, store.claims != w.claims));
    assert claimed.None? && store.claims != w.claims ==> !Held(w, sig);
  }

  /** Every outcome of marking is a mark step the protocol allows, with the same keys after it. */
  method MarkIsAProtocolStep(cfg: Config, w: World, e: EngineId, store: SignalStore, reachable: bool) returns (s: Step)
    requires cfg.shared && e in w.engines && w.engines[e].phase.Replied? && store.claims == w.claims
    modifies store
    ensures s == Mark(e, reachable) && Enabled(cfg, w, s) && Next(cfg, w, s).claims == store.claims
  {
    var recorded := store.MarkEntrySignal(w.engines[e].phase.sig, w.now, reachable);
    s := Mark(e, recorded);
  }
}
