/** Mirrored proposals at the two parties, and installing from them
    (engine/propose.ts, methods/app-instance/install/operation.ts). */
module ProposeTransitions {
  import opened AppInstances
  import opened Dictionaries
  import opened FreeBalances
  import opened InstallTransitions
  import opened Primitives
  import opened Results
  import opened StateChannels

  datatype ProposeParams = ProposeParams(
    initiatorXpub: Xpub,
    responderXpub: Xpub,
    appInterface: AppInterface,
    initialState: AppState,
    outcomeType: OutcomeType,
    timeout: nat,
    initiatorDeposit: int,
    initiatorDepositTokenAddress: Option<Token>,
    responderDeposit: int,
    responderDepositTokenAddress: Option<Token>)

  function NextIdentity(kth: Derivation, channel: StateChannel): Hash {
    var n := channel.monotonicNumProposedApps + 1;
    AppHash(n, SigningKeysFor(kth, channel, n))
  }

  /** The proposal as the proposing party stores it. */
  function InitiatorProposal(kth: Derivation, channel: StateChannel, p: ProposeParams): Proposal {
    Proposal(NextIdentity(kth, channel), channel.monotonicNumProposedApps + 1, p.appInterface, p.initialState,
             p.outcomeType, p.timeout,
             p.initiatorDeposit, p.initiatorDepositTokenAddress.GetOr(CONVENTION_FOR_ETH_TOKEN_ADDRESS),
             p.responderDeposit, p.responderDepositTokenAddress.GetOr(CONVENTION_FOR_ETH_TOKEN_ADDRESS),
             p.initiatorXpub, p.responderXpub)
  }

  /** The proposal as the other party stores it: it will be the initiator of the install. */
  function ResponderProposal(kth: Derivation, channel: StateChannel, p: ProposeParams): Proposal {
    Proposal(NextIdentity(kth, channel), channel.monotonicNumProposedApps + 1, p.appInterface, p.initialState,
             p.outcomeType, p.timeout,
             p.responderDeposit, p.responderDepositTokenAddress.GetOr(CONVENTION_FOR_ETH_TOKEN_ADDRESS),
             p.initiatorDeposit, p.initiatorDepositTokenAddress.GetOr(CONVENTION_FOR_ETH_TOKEN_ADDRESS),
             p.initiatorXpub, p.responderXpub)
  }

  /** `install`: protocol parameters from a stored proposal. */
  function InstallParamsOf(kth: Derivation, channel: StateChannel, proposal: Proposal): InstallParams {
    InstallParams(proposal.proposedToIdentifier, proposal.proposedByIdentifier,
                  proposal.initiatorDepositTokenAddress, proposal.responderDepositTokenAddress,
                  proposal.initiatorDeposit, proposal.responderDeposit,
                  SigningKeysFor(kth, channel, proposal.appSeqNo), proposal.initialState, proposal.appInterface,
                  proposal.timeout, proposal.appSeqNo, proposal.outcomeType, false)
  }

  /** The app that was proposed: its state, interface and timeouts, with the next number and the keys of that number, and
      as its terms what the two parties put in; its first player is the party that was asked. */
  ghost predicate AsProposed(kth: Derivation, channel: StateChannel, p: ProposeParams, app: AppInstance) {
    var n := channel.monotonicNumProposedApps + 1;
    var (tokenP, tokenO) := (p.initiatorDepositTokenAddress.GetOr(CONVENTION_FOR_ETH_TOKEN_ADDRESS), p.responderDepositTokenAddress.GetOr(CONVENTION_FOR_ETH_TOKEN_ADDRESS));
    && app.appSeqNo == n && app.participants == SortedKthAddresses(kth, channel.userNeuteredExtendedKeys, n)
    && app.latestState == p.initialState && app.appInterface == p.appInterface
    && app.latestVersionNumber == 0 && app.defaultTimeout == app.latestTimeout == p.timeout
    && app.outcomeType == p.outcomeType && !app.isVirtualApp
    && match p.outcomeType
       case TWO_PARTY_FIXED_OUTCOME =>
         tokenP == tokenO
         && app.interpreterParams == TwoParty(TwoPartyParams(kth(p.responderXpub, 0), kth(p.initiatorXpub, 0), p.initiatorDeposit + p.responderDeposit, tokenO))
       case SINGLE_ASSET_TWO_PARTY_COIN_TRANSFER =>
         tokenP == tokenO && app.interpreterParams == SingleAsset(SingleAssetParams(p.initiatorDeposit + p.responderDeposit, tokenO))
       case MULTI_ASSET_MULTI_PARTY_COIN_TRANSFER =>
         app.interpreterParams == MultiAsset(if tokenP == tokenO then MultiAssetParams([p.initiatorDeposit + p.responderDeposit], [tokenO])
                                             else MultiAssetParams([p.responderDeposit, p.initiatorDeposit], [tokenO, tokenP]))
  }

  lemma TermsProposed(kth: Derivation, channel: StateChannel, proposed: StateChannel, p: ProposeParams, app: AppInstance)
    requires proposed.userNeuteredExtendedKeys == channel.userNeuteredExtendedKeys
    requires var params := InstallParamsOf(kth, proposed, ResponderProposal(kth, channel, p));
             && app.participants == params.participants && app.appInterface == params.appInterface && app.appSeqNo == params.appSeqNo
             && app.latestState == params.initialState && app.latestVersionNumber == 0
             && app.defaultTimeout == app.latestTimeout == params.defaultTimeout
             && !app.isVirtualApp && app.outcomeType == params.outcomeType
             && TermsOf(params, kth(params.initiatorXpub, 0), kth(params.responderXpub, 0), app.interpreterParams)
    ensures AsProposed(kth, channel, p, app)
  {
  }

  lemma ProposedApp(kth: Derivation, channel: StateChannel, proposed: StateChannel, p: ProposeParams)
    requires proposed == AddProposal(channel, ResponderProposal(kth, channel, p))
    requires ComputeTransition(kth, proposed, InstallParamsOf(kth, proposed, ResponderProposal(kth, channel, p))).Ok?
    ensures var (post, app) := ComputeTransition(kth, proposed, InstallParamsOf(kth, proposed, ResponderProposal(kth, channel, p))).value;
            && Lookup(post.appInstances, app.IdentityHash()) == Some(app) && AsProposed(kth, channel, p, app)
  {
    var params := InstallParamsOf(kth, proposed, ResponderProposal(kth, channel, p));
    InstalledApp(kth, proposed, params);
    TermsProposed(kth, channel, proposed, p, ComputeTransition(kth, proposed, params).value.1);
  }

  /** After both parties stored the proposal, the proposed-to party finds its mirrored copy under the identity
      of the app that installing it creates, which is the one proposed; the install debits the proposer exactly its own proposed
      deposit in its own token and the other party exactly its own, whether the tokens are equal or not. */
  lemma ProposeThenInstall(kth: Derivation, channel: StateChannel, p: ProposeParams, token: Token)
    requires kth(p.initiatorXpub, 0) != kth(p.responderXpub, 0)
    ensures var proposal := ResponderProposal(kth, channel, p);
            var proposed := AddProposal(channel, proposal);
            var params := InstallParamsOf(kth, proposed, proposal);
            var (proposer, other) := (kth(p.initiatorXpub, 0), kth(p.responderXpub, 0));
            && Lookup(proposed.proposedAppInstances, proposal.identityHash) == Some(proposal)
            && (ComputeTransition(kth, proposed, params).Ok? ==>
                  var (post, app) := ComputeTransition(kth, proposed, params).value;
                  && app.IdentityHash() == proposal.identityHash
                  && Lookup(post.appInstances, proposal.identityHash) == Some(app)
                  && AsProposed(kth, channel, p, app)
                  && GetFreeBalance(channel).Ok? && GetFreeBalance(post).Ok?
                  && (forall to :: Balance(View(post).balances, token, to) ==
                        Balance(View(channel).balances, token, to)
                          - (if to == proposer && token == p.initiatorDepositTokenAddress.GetOr(CONVENTION_FOR_ETH_TOKEN_ADDRESS) then p.initiatorDeposit else 0)
                          - (if to == other && token == p.responderDepositTokenAddress.GetOr(CONVENTION_FOR_ETH_TOKEN_ADDRESS) then p.responderDeposit else 0)))
  {
    var proposal := ResponderProposal(kth, channel, p);
    var proposed := AddProposal(channel, proposal);
    var params := InstallParamsOf(kth, proposed, proposal);
    assert SigningKeysFor(kth, proposed, proposal.appSeqNo) == SigningKeysFor(kth, channel, proposal.appSeqNo);
    if ComputeTransition(kth, proposed, params).Ok? {
      InstallDebits(kth, proposed, params, token);
      ProposedApp(kth, channel, proposed, p);
    }
  }

  /** From equal copies the two parties store proposals of one identity that mirror each other, and move on
      to the same next number. Both install the same way exactly when the two deposits and tokens coincide. */
  lemma ProposalsMirror(kth: Derivation, channel: StateChannel, p: ProposeParams)
    ensures var mine := InitiatorProposal(kth, channel, p);
            var theirs := ResponderProposal(kth, channel, p);
            && mine.identityHash == theirs.identityHash && mine.appSeqNo == theirs.appSeqNo
            && theirs == mine.(initiatorDeposit := mine.responderDeposit, responderDeposit := mine.initiatorDeposit,
                               initiatorDepositTokenAddress := mine.responderDepositTokenAddress,
                               responderDepositTokenAddress := mine.initiatorDepositTokenAddress)
            && NextIdentity(kth, AddProposal(channel, mine)) == NextIdentity(kth, AddProposal(channel, theirs))
            && (InstallParamsOf(kth, channel, mine) == InstallParamsOf(kth, channel, theirs) <==>
                  mine.initiatorDeposit == mine.responderDeposit &&
                  mine.initiatorDepositTokenAddress == mine.responderDepositTokenAddress)
  {
  }
}
