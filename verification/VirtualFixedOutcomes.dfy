/** Virtual apps with a fixed outcome: their players are numbered addresses of the users, while uninstalling credits
    the users' 0th addresses (engine/install-virtual-app.ts, engine/uninstall-virtual-app.ts). */
module VirtualFixedOutcomes {
  import opened AppInstances
  import opened Outcomes
  import opened Results
  import opened VirtualAgreement
  import opened VirtualApps
  import opened VirtualConservation
  import opened VirtualLifecycle
  import opened VirtualProgress

  /** The number of the pass-through app of a lifetime: the counter of the three-party channel at install. */
  function PassThroughNumber(t: Lifetime): nat {
    GetOrCreate(t.env.kth, t.initiator, [t.install.initiatorXpub, t.install.responderXpub, t.install.intermediaryXpub]).monotonicNumProposedApps
  }

  /** The players of the app with number n. */
  function Players(t: Lifetime, n: nat): TwoPartyParams {
    TwoPartyParams(t.env.kth(t.install.initiatorXpub, n), t.env.kth(t.install.responderXpub, n),
                   t.install.initiatorBalanceDecrement + t.install.responderBalanceDecrement, t.install.tokenAddress)
  }

  /** What a fixed outcome pays to the 0th addresses of initiator and responder, by the players with number n. */
  function Shares(t: Lifetime, value: nat, n: nat): (int, int) {
    (FixedShare(value, Players(t, n), t.env.kth(t.install.initiatorXpub, 0)), FixedShare(value, Players(t, n), t.env.kth(t.install.responderXpub, 0)))
  }

  lemma InstalledTerms(t: Lifetime)
    requires t.I().Ok? && t.install.outcomeType == TWO_PARTY_FIXED_OUTCOME
    ensures t.I().value.virtualApp.interpreterParams == TwoParty(Players(t, t.install.appSeqNo))
    ensures t.I().value.passThrough.interpreterParams == TwoParty(Players(t, PassThroughNumber(t)))
  {
  }

  lemma InstalledTransfer(t: Lifetime)
    requires t.I().Ok? && t.install.outcomeType != TWO_PARTY_FIXED_OUTCOME
    ensures t.I().value.virtualApp.interpreterParams == t.I().value.passThrough.interpreterParams
    ensures t.I().value.virtualApp.interpreterParams.SingleAsset?
  {
  }

  /** Neither user's 0th address is a player with number n. */
  predicate PlayersApart(t: Lifetime, n: nat) {
    var kth := t.env.kth;
    var zeroth := {kth(t.install.initiatorXpub, 0), kth(t.install.responderXpub, 0)};
    kth(t.install.initiatorXpub, n) !in zeroth && kth(t.install.responderXpub, n) !in zeroth
  }

  /** Key derivation separates the users' 0th addresses from all their others; the virtual app comes from a
      proposal, and the three-party channel has counted from one. */
  ghost predicate Numbered(t: Lifetime) {
    && (forall n: nat :: n > 0 ==> PlayersApart(t, n))
    && t.install.appSeqNo > 0 && PassThroughNumber(t) > 0
  }

  lemma ApartSharesNothing(t: Lifetime, value: nat, n: nat)
    requires PlayersApart(t, n)
    ensures Shares(t, value, n) == (0, 0)
  {
  }

  /** What decides whether the roles agree on an uninstall: nothing for coin transfers; for a fixed outcome, that
      both apps' players make the same shares of the users' 0th addresses. */
  predicate SharesAgree(t: Lifetime) {
    t.install.outcomeType == TWO_PARTY_FIXED_OUTCOME && t.uninstall.targetOutcome.FixedOutcome?
      && t.uninstall.targetOutcome.value <= MAX_SAFE_INTEGER ==>
        Shares(t, t.uninstall.targetOutcome.value, t.install.appSeqNo) == Shares(t, t.uninstall.targetOutcome.value, PassThroughNumber(t))
  }

  lemma SharesAgreeMeans(t: Lifetime, basis: Basis)
    requires t.I().Ok? && t.uninstall.initiatorXpub == t.install.initiatorXpub && t.uninstall.responderXpub == t.install.responderXpub
    requires basis.passThrough == t.I().value.passThrough
    requires basis.virtualApp.interpreterParams == t.I().value.virtualApp.interpreterParams
    ensures SharesAgree(t) <==> SameShares(t.env.kth, t.uninstall, basis)
  {
    if t.install.outcomeType == TWO_PARTY_FIXED_OUTCOME {
      InstalledTerms(t);
    } else {
      InstalledTransfer(t);
    }
  }

  /** However a lifetime ends, and whatever its outcome pays to whom: the three uninstalls agree when the shares do.
      When all three go through, they agree only then. */
  lemma LifetimeAgreesIff(t: Lifetime)
    requires t.Starts() && AsksForLast(t)
    ensures t.R().Ok? && t.BetweenUsers().Ok?
    ensures var i := UninstallForInitiating(AtBlock(t.env, t.blocks.0), t.InitiatorLater(), t.uninstall);
            var m := UninstallForIntermediary(AtBlock(t.env, t.blocks.1), t.IntermediaryLater(), t.uninstall);
            var r := UninstallForResponding(AtBlock(t.env, t.blocks.2), t.ResponderLater(), t.uninstall);
            && (SharesAgree(t) ==> UninstalledTogether(i, m, r))
            && (i.Ok? && m.Ok? && r.Ok? ==> (UninstalledTogether(i, m, r) <==> SharesAgree(t)))
  {
    LifetimeReady(t, t.blocks.0);
    LifetimeReady(t, t.blocks.1);
    LifetimeReady(t, t.blocks.2);
    SharesAgreeMeans(t, BasisOf(t.SharedLater(), t.uninstall.targetAppIdentityHash));
    UninstallAgreementIff(t.env, t.blocks, t.InitiatorLater(), t.IntermediaryLater(), t.ResponderLater(), t.uninstall, t.SharedLater());
    if SharesAgree(t) {
      UninstallAgreement(t.env, t.blocks, t.InitiatorLater(), t.IntermediaryLater(), t.ResponderLater(), t.uninstall, t.SharedLater());
    }
  }

  /** Numbered keys make them agree on every outcome. */
  lemma NumberedSharesAgree(t: Lifetime)
    requires Numbered(t)
    ensures SharesAgree(t)
  {
    if t.uninstall.targetOutcome.FixedOutcome? {
      ApartSharesNothing(t, t.uninstall.targetOutcome.value, t.install.appSeqNo);
      ApartSharesNothing(t, t.uninstall.targetOutcome.value, PassThroughNumber(t));
    }
  }

  /** A lifetime with a fixed outcome ends by paying the shares of the users' 0th addresses. */
  lemma FixedEnds(t: Lifetime, value: nat)
    requires t.Starts() && AsksForLast(t) && SharesAgree(t) && t.install.outcomeType == TWO_PARTY_FIXED_OUTCOME
    requires t.uninstall.targetOutcome == FixedOutcome(value) && value <= MAX_SAFE_INTEGER
    ensures EndsWith(t, Shares(t, value, PassThroughNumber(t)).0, Shares(t, value, PassThroughNumber(t)).1)
  {
    InstalledTerms(t);
  }

  lemma SharesNonNegative(t: Lifetime, value: nat, n: nat)
    requires t.install.initiatorBalanceDecrement + t.install.responderBalanceDecrement >= 0
    ensures Shares(t, value, n).0 >= 0 && Shares(t, value, n).1 >= 0
  {
  }

  /** With a fixed outcome all three uninstalls go through, whether they agree or not; they agree exactly when both
      apps' players make the same shares. */
  lemma FixedOutcomesAgreeIff(t: Lifetime, value: nat)
    requires t.Starts() && AsksForLast(t) && BothSolvent(t.env.kth, t.intermediary, t.install)
    requires t.install.outcomeType == TWO_PARTY_FIXED_OUTCOME
    requires t.install.initiatorBalanceDecrement + t.install.responderBalanceDecrement >= 0
    requires t.uninstall.targetOutcome == FixedOutcome(value) && value <= MAX_SAFE_INTEGER
    ensures t.R().Ok? && t.BetweenUsers().Ok?
    ensures var i := UninstallForInitiating(AtBlock(t.env, t.blocks.0), t.InitiatorLater(), t.uninstall);
            var m := UninstallForIntermediary(AtBlock(t.env, t.blocks.1), t.IntermediaryLater(), t.uninstall);
            var r := UninstallForResponding(AtBlock(t.env, t.blocks.2), t.ResponderLater(), t.uninstall);
            && i.Ok? && m.Ok? && r.Ok?
            && (UninstalledTogether(i, m, r) <==> Shares(t, value, t.install.appSeqNo) == Shares(t, value, PassThroughNumber(t)))
  {
    LifetimeReady(t, t.blocks.0);
    LifetimeReady(t, t.blocks.1);
    LifetimeReady(t, t.blocks.2);
    InstalledSolvent(t);
    InstalledTerms(t);
    var s, kth, u := t.SharedLater(), t.env.kth, t.uninstall;
    RolesCompute(t.env, t.blocks, t.InitiatorLater(), t.IntermediaryLater(), t.ResponderLater(), u, s);
    FixedGoesThrough(t, value, s,
                     UninstallForInitiating(AtBlock(t.env, t.blocks.0), t.InitiatorLater(), u),
                     UninstallForIntermediary(AtBlock(t.env, t.blocks.1), t.IntermediaryLater(), u),
                     UninstallForResponding(AtBlock(t.env, t.blocks.2), t.ResponderLater(), u));
    LifetimeAgreesIff(t);
  }

  lemma FixedGoesThrough(t: Lifetime, value: nat, s: Shared,
                         i: Result<EndpointUninstall>, m: Result<IntermediaryUninstall>, r: Result<EndpointUninstall>)
    requires ReadyToUninstall(s, t.uninstall.targetAppIdentityHash, t.blocks.1)
    requires ResultsOf(t.env.kth, t.uninstall, s, BasisOf(s, t.uninstall.targetAppIdentityHash), i, m, r)
    requires DistinctParties(t.env.kth, t.uninstall.initiatorXpub, t.uninstall.intermediaryXpub, t.uninstall.responderXpub)
    requires t.uninstall.initiatorXpub == t.install.initiatorXpub && t.uninstall.responderXpub == t.install.responderXpub
    requires Solvent(s.withInitiating) && Solvent(s.withResponding)
    requires BasisOf(s, t.uninstall.targetAppIdentityHash).virtualApp.interpreterParams == TwoParty(Players(t, t.install.appSeqNo))
    requires BasisOf(s, t.uninstall.targetAppIdentityHash).passThrough.interpreterParams == TwoParty(Players(t, PassThroughNumber(t)))
    requires t.install.initiatorBalanceDecrement + t.install.responderBalanceDecrement >= 0
    requires t.uninstall.targetOutcome == FixedOutcome(value) && value <= MAX_SAFE_INTEGER
    ensures i.Ok? && m.Ok? && r.Ok?
  {
    var kth, u := t.env.kth, t.uninstall;
    SharesNonNegative(t, value, t.install.appSeqNo);
    SharesNonNegative(t, value, PassThroughNumber(t));
    var (x, y) := Shares(t, value, t.install.appSeqNo);
    EndpointsGoThrough(kth, u, s, t.blocks.1, x, y, i, m, r);
    var (x', y') := Shares(t, value, PassThroughNumber(t));
    RolesGoThrough(kth, u, s, t.blocks.1, x', y', i, m, r);
    NothingTaken(kth, s.withInitiating, s.withResponding, u, BasisOf(s, u.targetAppIdentityHash).token, x', y');
  }
}
