/** The three roles agree: each computes with its own function and from its own store, and they reach equal
    channels. The intermediary ends with the money it started with. */
module VirtualAgreement {
  import opened Amounts
  import opened AppInstances
  import opened Dictionaries
  import opened FreeBalances
  import opened Outcomes
  import opened Primitives
  import opened Results
  import opened Sorting
  import opened StateChannels
  import opened VirtualApps

  /** Two stores hold the same channel, or none, for these owners. */
  predicate SameCopy(kth: Derivation, s: Channels, s': Channels, xpubs: seq<Xpub>) {
    GetChannel(kth, s, xpubs) == GetChannel(kth, s', xpubs)
  }

  /** The copies of initiator, intermediary and responder agree on every channel that two of them share. */
  predicate CopiesAgree(kth: Derivation, initiator: Channels, intermediary: Channels, responder: Channels,
                        i: Xpub, m: Xpub, r: Xpub)
  {
    && SameCopy(kth, initiator, intermediary, [i, m])
    && SameCopy(kth, intermediary, responder, [r, m])
    && SameCopy(kth, initiator, responder, [i, r])
    && SameCopy(kth, initiator, intermediary, [i, r, m])
    && SameCopy(kth, intermediary, responder, [i, r, m])
  }

  lemma GetOrCreateAgrees(kth: Derivation, s: Channels, s': Channels, xpubs: seq<Xpub>)
    requires SameCopy(kth, s, s', xpubs)
    ensures GetOrCreate(kth, s, xpubs) == GetOrCreate(kth, s', xpubs)
  {
  }

  /** What the initiator sends the intermediary in the first message. */
  function IntermediaryView(env: Environment, channels: Channels, p: InstallVirtualAppParams, virtualApp: AppInstance): Result<IntermediaryInstall> {
    InstallForIntermediary(env, channels, p, virtualApp.IdentityHash(), ComputeOutcome(virtualApp, env.provider))
  }

  lemma InstallEndpointsAgree(env: Environment, initiator: Channels, responder: Channels, p: InstallVirtualAppParams)
    requires SameCopy(env.kth, initiator, responder, [p.initiatorXpub, p.responderXpub])
    requires SameCopy(env.kth, initiator, responder, [p.initiatorXpub, p.responderXpub, p.intermediaryXpub])
    requires InstallForInitiating(env, initiator, p).Ok? && InstallForResponding(env, responder, p).Ok?
    ensures var i, r := InstallForInitiating(env, initiator, p).value, InstallForResponding(env, responder, p).value;
            && i.threeParty == r.threeParty && i.passThrough == r.passThrough
            && i.betweenUsers == r.betweenUsers && i.virtualApp == r.virtualApp
  {
    GetOrCreateAgrees(env.kth, initiator, responder, [p.initiatorXpub, p.responderXpub]);
    GetOrCreateAgrees(env.kth, initiator, responder, [p.initiatorXpub, p.responderXpub, p.intermediaryXpub]);
  }

  lemma InstallInitiatorSide(env: Environment, initiator: Channels, intermediary: Channels, p: InstallVirtualAppParams)
    requires SameCopy(env.kth, initiator, intermediary, [p.initiatorXpub, p.intermediaryXpub])
    requires SameCopy(env.kth, initiator, intermediary, [p.initiatorXpub, p.responderXpub, p.intermediaryXpub])
    requires InstallForInitiating(env, initiator, p).Ok?
    ensures var i := InstallForInitiating(env, initiator, p).value;
            var m := IntermediaryView(env, intermediary, p, i.virtualApp);
            m.Ok? ==> m.value.threeParty == i.threeParty && m.value.passThrough == i.passThrough
                      && m.value.withInitiating == i.withIntermediary
  {
    GetOrCreateAgrees(env.kth, initiator, intermediary, [p.initiatorXpub, p.responderXpub, p.intermediaryXpub]);
  }

  lemma InstallResponderSide(env: Environment, initiator: Channels, intermediary: Channels, responder: Channels, p: InstallVirtualAppParams)
    requires CopiesAgree(env.kth, initiator, intermediary, responder, p.initiatorXpub, p.intermediaryXpub, p.responderXpub)
    requires InstallForInitiating(env, initiator, p).Ok?
    ensures var virtualApp := InstallForInitiating(env, initiator, p).value.virtualApp;
            var m := IntermediaryView(env, intermediary, p, virtualApp);
            var r := InstallForResponding(env, responder, p);
            && (m.Ok? <==> r.Ok?)
            && (m.Ok? ==> m.value.withResponding == r.value.withIntermediary)
  {
    GetOrCreateAgrees(env.kth, initiator, intermediary, [p.initiatorXpub, p.responderXpub, p.intermediaryXpub]);
    GetOrCreateAgrees(env.kth, intermediary, responder, [p.initiatorXpub, p.responderXpub, p.intermediaryXpub]);
  }

  /** What the three roles computed agrees, for every channel and app that two of them share. */
  predicate InstalledAlike(i: EndpointInstall, m: IntermediaryInstall, r: EndpointInstall) {
    && i.threeParty == m.threeParty == r.threeParty
    && i.passThrough == m.passThrough == r.passThrough
    && i.withIntermediary == m.withInitiating && r.withIntermediary == m.withResponding
    && i.betweenUsers == r.betweenUsers && i.virtualApp == r.virtualApp
  }

  /** Installing: from agreeing copies, and with the identity and default outcome that the initiator sends, the
      three roles compute equal channels pairwise and one pass-through app. If the initiator gets
      through, the intermediary does exactly when the responder does. */
  lemma InstallAgreement(env: Environment, initiator: Channels, intermediary: Channels, responder: Channels, p: InstallVirtualAppParams)
    requires CopiesAgree(env.kth, initiator, intermediary, responder, p.initiatorXpub, p.intermediaryXpub, p.responderXpub)
    requires InstallForInitiating(env, initiator, p).Ok?
    ensures var i := InstallForInitiating(env, initiator, p).value;
            var m := IntermediaryView(env, intermediary, p, i.virtualApp);
            var r := InstallForResponding(env, responder, p);
            && (m.Ok? <==> r.Ok?)
            && (m.Ok? ==> InstalledAlike(i, m.value, r.value))
  {
    InstallInitiatorSide(env, initiator, intermediary, p);
    InstallResponderSide(env, initiator, intermediary, responder, p);
    if InstallForResponding(env, responder, p).Ok? {
      InstallEndpointsAgree(env, initiator, responder, p);
    }
  }

  /** The two apps pay out the same money, in this token; of a fixed outcome the players may differ. */
  predicate SameTerms(virtualApp: AppInstance, passThrough: AppInstance, token: Token) {
    && virtualApp.outcomeType == passThrough.outcomeType
    && match (virtualApp.interpreterParams, passThrough.interpreterParams)
       case (SingleAsset(p), SingleAsset(q)) =>
         virtualApp.outcomeType == SINGLE_ASSET_TWO_PARTY_COIN_TRANSFER && p == q && p.tokenAddress == token
       case (TwoParty(p), TwoParty(q)) =>
         virtualApp.outcomeType == TWO_PARTY_FIXED_OUTCOME && p.amount == q.amount && p.tokenAddress == q.tokenAddress == token
       case _ => false
  }

  /** An agreement, its pass-through app and the virtual app it targets fit together, as installing leaves them. */
  predicate Linked(agreement: Agreement, threeParty: StateChannel, betweenUsers: StateChannel, target: Hash) {
    && Has(threeParty.appInstances, agreement.timeLockedPassThroughIdentityHash)
    && Has(betweenUsers.appInstances, target)
    && var passThrough := Lookup(threeParty.appInstances, agreement.timeLockedPassThroughIdentityHash).value;
       var virtualApp := Lookup(betweenUsers.appInstances, target).value;
       && passThrough.IdentityHash() == agreement.timeLockedPassThroughIdentityHash
       && passThrough.latestState.PassThroughState?
       && passThrough.latestState.targetAppIdentityHash == target
       && virtualApp.IdentityHash() == target
       && !virtualApp.latestState.RefundState?
       && SameTerms(virtualApp, passThrough, agreement.tokenAddress)
  }

  /** The copies that take part in uninstalling, seen from one agreeing set of stores. */
  datatype Shared = Shared(threeParty: StateChannel, withInitiating: StateChannel, withResponding: StateChannel, betweenUsers: StateChannel)

  ghost predicate StoresShare(kth: Derivation, initiator: Channels, intermediary: Channels, responder: Channels,
                              p: UninstallVirtualAppParams, s: Shared)
  {
    var (i, m, r) := (p.initiatorXpub, p.intermediaryXpub, p.responderXpub);
    && GetChannel(kth, initiator, [i, r, m]) == GetChannel(kth, intermediary, [i, r, m]) == GetChannel(kth, responder, [i, r, m]) == Ok(s.threeParty)
    && GetChannel(kth, initiator, [i, m]) == GetChannel(kth, intermediary, [i, m]) == Ok(s.withInitiating)
    && GetChannel(kth, intermediary, [r, m]) == GetChannel(kth, responder, [r, m]) == Ok(s.withResponding)
    && GetChannel(kth, initiator, [i, r]) == GetChannel(kth, responder, [i, r]) == Ok(s.betweenUsers)
  }

  /** Both agreements for the target exist and are linked to the same pass-through app, which has not expired. */
  ghost predicate ReadyToUninstall(s: Shared, target: Hash, blockNumber: nat) {
    && Has(s.withInitiating.agreements, target) && Has(s.withResponding.agreements, target)
    && var agreementI := Lookup(s.withInitiating.agreements, target).value;
       var agreementR := Lookup(s.withResponding.agreements, target).value;
       && agreementI.timeLockedPassThroughIdentityHash == agreementR.timeLockedPassThroughIdentityHash
       && agreementI.tokenAddress == agreementR.tokenAddress
       && Linked(agreementI, s.threeParty, s.betweenUsers, target)
       && Lookup(s.threeParty.appInstances, agreementI.timeLockedPassThroughIdentityHash).value.latestState.switchesOutcomeAt > blockNumber
  }

  lemma OwnersInAnyOrder(kth: Derivation, x: Xpub, y: Xpub)
    ensures MultisigOf(kth, [x, y]) == MultisigOf(kth, [y, x])
  {
    var a, b := KthAddresses(kth, [x, y], 0), KthAddresses(kth, [y, x], 0);
    assert a == [kth(x, 0), kth(y, 0)] && b == [kth(y, 0), kth(x, 0)];
    SortAddressesCanonical(a, b);
  }

  /** What the roles compute from, when they share their copies. */
  datatype Basis = Basis(passThrough: AppInstance, virtualApp: AppInstance, token: Token)

  function BasisOf(s: Shared, target: Hash): Basis
    requires Has(s.withInitiating.agreements, target)
    requires Linked(Lookup(s.withInitiating.agreements, target).value, s.threeParty, s.betweenUsers, target)
  {
    var agreement := Lookup(s.withInitiating.agreements, target).value;
    Basis(Lookup(s.threeParty.appInstances, agreement.timeLockedPassThroughIdentityHash).value,
          Lookup(s.betweenUsers.appInstances, target).value, agreement.tokenAddress)
  }

  /** Each role's result, in terms of what is shared: the endpoints go by the virtual app, the intermediary by the
      pass-through app. */
  ghost predicate ResultsOf(kth: Derivation, p: UninstallVirtualAppParams, s: Shared, basis: Basis,
                            i: Result<EndpointUninstall>, m: Result<IntermediaryUninstall>, r: Result<EndpointUninstall>)
    requires basis.passThrough.latestState.PassThroughState?
  {
    var target := p.targetAppIdentityHash;
    var threeParty := RemoveAppInstance(s.threeParty, basis.passThrough.IdentityHash());
    var betweenUsers := RemoveAppInstance(s.betweenUsers, target);
    var switched := Switched(basis.passThrough, p.targetOutcome);
    var (byUsers, byIntermediary) := (ComputeIncrements(basis.virtualApp, p.targetOutcome), ComputeIncrements(basis.passThrough, p.targetOutcome));
    && (if byUsers.Err? then i.Err? && r.Err? else
        var settledI := SettleWithInitiator(kth, s.withInitiating, p, target, byUsers.value, basis.token);
        var settledR := SettleWithResponder(kth, s.withResponding, p, target, byUsers.value, basis.token);
        && (i.Ok? <==> settledI.Ok?) && (i.Ok? ==> i.value == EndpointUninstall(threeParty, settledI.value, betweenUsers, switched))
        && (r.Ok? <==> settledR.Ok?) && (r.Ok? ==> r.value == EndpointUninstall(threeParty, settledR.value, betweenUsers, switched)))
    && (if byIntermediary.Err? then m.Err? else
        var settledI := SettleWithInitiator(kth, s.withInitiating, p, target, byIntermediary.value, basis.token);
        var settledR := SettleWithResponder(kth, s.withResponding, p, target, byIntermediary.value, basis.token);
        && (m.Ok? <==> settledI.Ok? && settledR.Ok?)
        && (m.Ok? ==> m.value == IntermediaryUninstall(threeParty, settledI.value, settledR.value, switched)))
  }

  lemma RolesCompute(env: Environment, blocks: (nat, nat, nat), initiator: Channels, intermediary: Channels, responder: Channels,
                     p: UninstallVirtualAppParams, s: Shared)
    requires StoresShare(env.kth, initiator, intermediary, responder, p, s)
    requires ReadyToUninstall(s, p.targetAppIdentityHash, blocks.0)
    requires ReadyToUninstall(s, p.targetAppIdentityHash, blocks.1)
    requires ReadyToUninstall(s, p.targetAppIdentityHash, blocks.2)
    requires p.targetOutcome == ComputeOutcome(Lookup(s.betweenUsers.appInstances, p.targetAppIdentityHash).value, env.provider)
    ensures ResultsOf(env.kth, p, s, BasisOf(s, p.targetAppIdentityHash),
                      UninstallForInitiating(AtBlock(env, blocks.0), initiator, p),
                      UninstallForIntermediary(AtBlock(env, blocks.1), intermediary, p),
                      UninstallForResponding(AtBlock(env, blocks.2), responder, p))
  {
    OwnersInAnyOrder(env.kth, p.intermediaryXpub, p.responderXpub);
  }

  // ---- Whether endpoints and intermediary pay out alike ----

  /** To this address, a fixed outcome pays the same by the players of either app; other outcomes name their recipients. */
  predicate SameShare(basis: Basis, outcome: Outcome, to: Address) {
    match (basis.virtualApp.interpreterParams, basis.passThrough.interpreterParams, outcome)
    case (TwoParty(p), TwoParty(q), FixedOutcome(value)) => value <= MAX_SAFE_INTEGER ==> FixedShare(value, p, to) == FixedShare(value, q, to)
    case _ => true
  }

  /** Both users are due the same by either app. */
  predicate SameShares(kth: Derivation, p: UninstallVirtualAppParams, basis: Basis) {
    SameShare(basis, p.targetOutcome, kth(p.initiatorXpub, 0)) && SameShare(basis, p.targetOutcome, kth(p.responderXpub, 0))
  }

  /** The apps pay out together, and to one address the same exactly when its shares are. */
  lemma PayOutAlike(basis: Basis, outcome: Outcome, to: Address)
    requires SameTerms(basis.virtualApp, basis.passThrough, basis.token)
    requires !basis.virtualApp.latestState.RefundState? && !basis.passThrough.latestState.RefundState?
    ensures var (r, r') := (ComputeIncrements(basis.virtualApp, outcome), ComputeIncrements(basis.passThrough, outcome));
            && (r.Ok? <==> r'.Ok?)
            && (r.Ok? ==>
                  && Has(r.value, basis.token) && Has(r'.value, basis.token)
                  && (SameShare(basis, outcome, to) <==>
                        Amount(IncrementsOf(r.value, basis.token), to) == Amount(IncrementsOf(r'.value, basis.token), to)))
  {
    match (basis.virtualApp.interpreterParams, basis.passThrough.interpreterParams, outcome)
    case (TwoParty(p), TwoParty(q), FixedOutcome(value)) =>
      if value <= MAX_SAFE_INTEGER {
        FixedSharesPaid(value, p);
        FixedSharesPaid(value, q);
      }
    case _ =>
  }

  lemma SettleAlike(kth: Derivation, s: Shared, p: UninstallVirtualAppParams, target: Hash,
                    increments: TokenIndexedCoinTransferMap, increments': TokenIndexedCoinTransferMap, token: Token)
    requires Has(increments, token) && Has(increments', token)
    requires forall to :: to in {kth(p.initiatorXpub, 0), kth(p.responderXpub, 0)} ==>
               Amount(IncrementsOf(increments, token), to) == Amount(IncrementsOf(increments', token), to)
    ensures SettleWithInitiator(kth, s.withInitiating, p, target, increments, token) == SettleWithInitiator(kth, s.withInitiating, p, target, increments', token)
    ensures SettleWithResponder(kth, s.withResponding, p, target, increments, token) == SettleWithResponder(kth, s.withResponding, p, target, increments', token)
  {
  }

  lemma ResultsAgree(kth: Derivation, p: UninstallVirtualAppParams, s: Shared, blockNumber: nat,
                     i: Result<EndpointUninstall>, m: Result<IntermediaryUninstall>, r: Result<EndpointUninstall>)
    requires ReadyToUninstall(s, p.targetAppIdentityHash, blockNumber)
    requires ResultsOf(kth, p, s, BasisOf(s, p.targetAppIdentityHash), i, m, r)
    requires SameShares(kth, p, BasisOf(s, p.targetAppIdentityHash))
    ensures UninstalledTogether(i, m, r)
  {
    var basis, outcome := BasisOf(s, p.targetAppIdentityHash), p.targetOutcome;
    PayOutAlike(basis, outcome, kth(p.initiatorXpub, 0));
    PayOutAlike(basis, outcome, kth(p.responderXpub, 0));
    var byUsers, byIntermediary := ComputeIncrements(basis.virtualApp, outcome), ComputeIncrements(basis.passThrough, outcome);
    if byUsers.Ok? {
      SettleAlike(kth, s, p, p.targetAppIdentityHash, byUsers.value, byIntermediary.value, basis.token);
    }
  }

  /** Uninstalling: from agreeing copies, when the target outcome is the outcome of the virtual app and, if that is a
      fixed one, pays both users alike by the players of either app, the three roles compute equal channels
      pairwise and one final pass-through app, and the intermediary gets through exactly when both endpoints
      do. Each reads the chain at its own block. */
  lemma UninstallAgreement(env: Environment, blocks: (nat, nat, nat), initiator: Channels, intermediary: Channels, responder: Channels,
                           p: UninstallVirtualAppParams, s: Shared)
    requires StoresShare(env.kth, initiator, intermediary, responder, p, s)
    requires ReadyToUninstall(s, p.targetAppIdentityHash, blocks.0)
    requires ReadyToUninstall(s, p.targetAppIdentityHash, blocks.1)
    requires ReadyToUninstall(s, p.targetAppIdentityHash, blocks.2)
    requires p.targetOutcome == ComputeOutcome(Lookup(s.betweenUsers.appInstances, p.targetAppIdentityHash).value, env.provider)
    requires SameShares(env.kth, p, BasisOf(s, p.targetAppIdentityHash))
    ensures UninstalledTogether(UninstallForInitiating(AtBlock(env, blocks.0), initiator, p),
                                UninstallForIntermediary(AtBlock(env, blocks.1), intermediary, p),
                                UninstallForResponding(AtBlock(env, blocks.2), responder, p))
  {
    RolesCompute(env, blocks, initiator, intermediary, responder, p, s);
    ResultsAgree(env.kth, p, s, blocks.1,
                 UninstallForInitiating(AtBlock(env, blocks.0), initiator, p),
                 UninstallForIntermediary(AtBlock(env, blocks.1), intermediary, p),
                 UninstallForResponding(AtBlock(env, blocks.2), responder, p));
  }

  /** The three roles' uninstalls agree pairwise, and the intermediary's goes through exactly when both endpoints' do. */
  ghost predicate UninstalledTogether(i: Result<EndpointUninstall>, m: Result<IntermediaryUninstall>, r: Result<EndpointUninstall>) {
    && (m.Ok? <==> i.Ok? && r.Ok?)
    && (m.Ok? ==>
          && m.value.threeParty == i.value.threeParty == r.value.threeParty
          && m.value.passThrough == i.value.passThrough == r.value.passThrough
          && m.value.withInitiating == i.value.withIntermediary
          && m.value.withResponding == r.value.withIntermediary
          && i.value.betweenUsers == r.value.betweenUsers)
  }

  function AtBlock(env: Environment, blockNumber: nat): Environment {
    env.(provider := env.provider.(blockNumber := blockNumber))
  }
}
