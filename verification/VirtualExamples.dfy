/** Virtual apps that are installed and uninstalled: for any stakes, updates and payments there is one, and there are
    ones in which the intermediary loses its capital, or the roles disagree. */
module VirtualExamples {
  import opened Amounts
  import opened AppInstances
  import opened Commitments
  import opened Dictionaries
  import opened Engine
  import opened FreeBalances
  import opened Outcomes
  import opened Primitives
  import opened Results
  import opened StateChannels
  import opened VirtualAgreement
  import opened VirtualApps
  import opened VirtualEndToEnd
  import opened VirtualFixedOutcomes
  import opened VirtualLifecycle
  import opened VirtualProgress
  import Install = InstallVirtualProtocol

  /** A channel from setup whose owners have deposited. */
  function Funded(kth: Derivation, user: Xpub, intermediary: Xpub, token: Token, ofUser: nat, ofIntermediary: nat): StateChannel {
    var xpubs := [user, intermediary];
    SetFreeBalance(SetupChannel(kth, 0, MultisigOf(kth, xpubs), xpubs),
                   FreeBalance(Nil, Singleton(token, Entries(Pair(kth(user, 0), ofUser, kth(intermediary, 0), ofIntermediary)))))
  }

  lemma FundedAffords(kth: Derivation, user: Xpub, intermediary: Xpub, token: Token, ofUser: nat, ofIntermediary: nat)
    requires kth(user, 0) != kth(intermediary, 0)
    ensures var channel := Funded(kth, user, intermediary, token, ofUser, ofIntermediary);
            && Solvent(channel) && Affords(channel, token, kth(user, 0), ofUser, kth(intermediary, 0), ofIntermediary)
            && channel.multisigAddress == MultisigOf(kth, [user, intermediary]) && Install.OwnedBy(channel, user, intermediary)
  {
    var channel := Funded(kth, user, intermediary, token, ofUser, ofIntermediary);
    var pair := Pair(kth(user, 0), ofUser, kth(intermediary, 0), ofIntermediary);
    var balances := View(channel).balances;
    EntriesRoundTrip(pair);
    assert TokenMap(balances, token) == pair;
    forall t, to ensures Balance(balances, t, to) >= 0 {
      if t == token {
        assert Amount(pair, to) >= 0;
      } else {
        assert Lookup(balances, t) == None;
      }
    }
  }

  function InstallOf(i: Xpub, m: Xpub, r: Xpub, token: Token, a: nat, b: nat, appSeqNo: nat, outcomeType: OutcomeType): InstallVirtualAppParams {
    InstallVirtualAppParams(i, r, m, 100, AppInterface(0, "", None), OtherState([]), a, b, token, appSeqNo, outcomeType)
  }

  function StoreOf(kth: Derivation, i: Xpub, m: Xpub, r: Xpub, token: Token, a: nat, b: nat): Channels {
    map[MultisigOf(kth, [i, m]) := Funded(kth, i, m, token, a, b)][MultisigOf(kth, [r, m]) := Funded(kth, r, m, token, b, a)]
  }

  lemma StoreHolds(kth: Derivation, i: Xpub, m: Xpub, r: Xpub, token: Token, a: nat, b: nat)
    requires DistinctParties(kth, i, m, r)
    ensures var store := StoreOf(kth, i, m, r, token, a, b);
            && StoreKeyed(store)
            && GetChannel(kth, store, [i, m]) == Ok(Funded(kth, i, m, token, a, b))
            && GetChannel(kth, store, [r, m]) == Ok(Funded(kth, r, m, token, b, a))
            && GetOrCreate(kth, store, [i, r]).userNeuteredExtendedKeys == [i, r]
            && GetOrCreate(kth, store, [i, r, m]).monotonicNumProposedApps == 1
  {
    FourChannels(kth, i, m, r);
    FundedAffords(kth, i, m, token, a, b);
    FundedAffords(kth, r, m, token, b, a);
  }

  lemma StoreInstalls(env: Environment, i: Xpub, m: Xpub, r: Xpub, token: Token, a: nat, b: nat, appSeqNo: nat, outcomeType: OutcomeType)
    requires DistinctParties(env.kth, i, m, r) && outcomeType != MULTI_ASSET_MULTI_PARTY_COIN_TRANSFER
    ensures var store, p := StoreOf(env.kth, i, m, r, token, a, b), InstallOf(i, m, r, token, a, b, appSeqNo, outcomeType);
            && BothSolvent(env.kth, store, p)
            && InstallForInitiating(env, store, p).Ok?
            && IntermediaryView(env, store, p, InstallForInitiating(env, store, p).value.virtualApp).Ok?
  {
    StoreHolds(env.kth, i, m, r, token, a, b);
    FundedAffords(env.kth, i, m, token, a, b);
    FundedAffords(env.kth, r, m, token, b, a);
    var store := StoreOf(env.kth, i, m, r, token, a, b);
    InstallGoesThrough(env, store, store, store, InstallOf(i, m, r, token, a, b, appSeqNo, outcomeType));
  }

  lemma StoreListsOwners(t: Lifetime, i: Xpub, m: Xpub, r: Xpub, token: Token, a: nat, b: nat)
    requires DistinctParties(t.env.kth, i, m, r)
    requires t.install.initiatorXpub == i && t.install.intermediaryXpub == m && t.install.responderXpub == r
    requires t.initiator == t.intermediary == StoreOf(t.env.kth, i, m, r, token, a, b)
    ensures OwnersListed(t) && PassThroughNumber(t) == 1
  {
    StoreHolds(t.env.kth, i, m, r, token, a, b);
    FundedAffords(t.env.kth, i, m, token, a, b);
    FundedAffords(t.env.kth, r, m, token, b, a);
  }

  /** An app contract that always answers the same. */
  lemma AlwaysAsksForLast(t: Lifetime)
    requires t.Starts()
    requires forall app: AppInstance :: ComputeOutcome(app, t.env.provider) == t.uninstall.targetOutcome
    ensures AsksForLast(t)
  {
    LifetimeReady(t, 0);
  }

  lemma OneStoreAgrees(kth: Derivation, store: Channels, i: Xpub, m: Xpub, r: Xpub)
    ensures CopiesAgree(kth, store, store, store, i, m, r)
  {
  }

  /** Three parties with one and the same store, from which the install goes through. */
  lemma StartsFrom(env: Environment, store: Channels, p: InstallVirtualAppParams, states: seq<AppState>, outcome: Outcome) returns (t: Lifetime)
    requires StoreKeyed(store) && DistinctParties(env.kth, p.initiatorXpub, p.intermediaryXpub, p.responderXpub)
    requires !p.initialState.RefundState?
    requires forall state :: state in states ==> !state.RefundState?
    requires InstallForInitiating(env, store, p).Ok?
    requires IntermediaryView(env, store, p, InstallForInitiating(env, store, p).value.virtualApp).Ok?
    ensures t.Starts() && t.env == env && t.install == p && t.states == states && t.uninstall.targetOutcome == outcome
    ensures t.initiator == t.intermediary == t.responder == store
  {
    OneStoreAgrees(env.kth, store, p.initiatorXpub, p.intermediaryXpub, p.responderXpub);
    var virtualApp := InstallForInitiating(env, store, p).value.virtualApp.IdentityHash();
    t := Lifetime(env, store, store, store, p, states,
                  UninstallVirtualAppParams(p.initiatorXpub, p.responderXpub, p.intermediaryXpub, virtualApp, outcome), (0, 0, 0));
  }

  /** A lifetime with these stakes, of which the app contract always answers with this outcome. */
  lemma AnyLifetime(kth: Derivation, i: Xpub, m: Xpub, r: Xpub, token: Token, a: nat, b: nat, appSeqNo: nat, outcomeType: OutcomeType,
                    outcome: Outcome, states: seq<AppState>) returns (t: Lifetime)
    requires DistinctParties(kth, i, m, r) && outcomeType != MULTI_ASSET_MULTI_PARTY_COIN_TRANSFER
    requires forall state :: state in states ==> !state.RefundState?
    ensures t.Starts() && t.states == states && t.env.kth == kth && t.install == InstallOf(i, m, r, token, a, b, appSeqNo, outcomeType)
    ensures OwnersListed(t) && AsksForLast(t) && BothSolvent(kth, t.intermediary, t.install)
    ensures t.uninstall.targetOutcome == outcome && PassThroughNumber(t) == 1
  {
    var env := Environment(kth, 0, Provider(0, (_, _) => outcome));
    var store, p := StoreOf(kth, i, m, r, token, a, b), InstallOf(i, m, r, token, a, b, appSeqNo, outcomeType);
    StoreInstalls(env, i, m, r, token, a, b, appSeqNo, outcomeType);
    StoreHolds(kth, i, m, r, token, a, b);
    t := StartsFrom(env, store, p, states, outcome);
    StoreListsOwners(t, i, m, r, token, a, b);
    AlwaysAsksForLast(t);
  }

  /** Whatever the parties stake, whatever updates they make and whatever the outcome pays: there is a lifetime
      for it, and so, by `WholeLife`, a run of both protocols. */
  lemma LifetimesExist(kth: Derivation, i: Xpub, m: Xpub, r: Xpub, token: Token, a: nat, b: nat, x: nat, y: nat, states: seq<AppState>)
      returns (t: Lifetime)
    requires DistinctParties(kth, i, m, r) && forall state :: state in states ==> !state.RefundState?
    ensures t.Starts() && t.states == states && t.env.kth == kth
    ensures t.install == InstallOf(i, m, r, token, a, b, 2, SINGLE_ASSET_TWO_PARTY_COIN_TRANSFER)
    ensures OwnersListed(t) && EndsWith(t, x, y) && BothSolvent(kth, t.intermediary, t.install)
  {
    t := AnyLifetime(kth, i, m, r, token, a, b, 2, SINGLE_ASSET_TWO_PARTY_COIN_TRANSFER,
                     TwoTransfers(Entry(kth(i, 0), x), Entry(kth(r, 0), y)), states);
    InstalledTransfer(t);
  }

  /** An example of key derivation: no two of the addresses in use are the same. */
  function ExampleKeys(): Derivation {
    (x: Xpub, n: nat) => x.id + 10 * n
  }

  lemma ExampleNumbered(t: Lifetime)
    requires t.env.kth == ExampleKeys() && t.install.initiatorXpub == Xpub(1) && t.install.responderXpub == Xpub(3)
    requires t.install.appSeqNo > 0 && PassThroughNumber(t) > 0
    ensures Numbered(t)
  {
  }

  /** A lifetime with numbered keys and a fixed outcome, in which both users stake one. */
  lemma FixedExample(value: nat) returns (t: Lifetime)
    ensures t.Starts() && OwnersListed(t) && AsksForLast(t) && BothSolvent(t.env.kth, t.intermediary, t.install)
    ensures t.install.outcomeType == TWO_PARTY_FIXED_OUTCOME && t.uninstall.targetOutcome == FixedOutcome(value)
    ensures t.install.initiatorBalanceDecrement == t.install.responderBalanceDecrement == 1 && Numbered(t)
  {
    t := AnyLifetime(ExampleKeys(), Xpub(1), Xpub(2), Xpub(3), 0, 1, 1, 2, TWO_PARTY_FIXED_OUTCOME, FixedOutcome(value), []);
    ExampleNumbered(t);
  }

  /** Where an outcome in full of one player leaves the intermediary: out of two tokens, of which it had lent one to
      either side, both are gone, after runs of both protocols in which every check passed. */
  lemma IntermediaryLosesTwo(keys: Keys)
      returns (t: Lifetime, installing: System, first: seq<Event>, uninstalling: System, second: seq<Event>)
    ensures t.Starts() && t.install.outcomeType == TWO_PARTY_FIXED_OUTCOME && t.uninstall.targetOutcome == FixedOutcome(0)
    ensures t.install.initiatorBalanceDecrement == t.install.responderBalanceDecrement == 1
    ensures t.R().Ok? && t.BetweenUsers().Ok? && t.(states := []).BetweenUsers().Ok?
    ensures Installs(installing, t) && Installed(installing, first, t) && Uninstalls(uninstalling, t)
    ensures UninstalledTogether(EndI(t), EndM(t), EndR(t)) && Uninstalled(uninstalling, second, t)
    ensures LifeI(t).Ok? && LifeI(t).value.Readable() && LifeR(t).Ok? && LifeR(t).value.Readable()
    ensures CapitalLost(t) && !IntermediaryRestored(t)
  {
    t := FixedExample(0);
    NumberedSharesAgree(t);
    installing, first, uninstalling, second := FixedLife(t, 0, keys);
  }

  /** Where an app with the number 0, whose players are the users' 0th addresses themselves, leaves the three roles:
      the endpoints credit the initiator, the intermediary, by the pass-through app with number 1, nobody.
      Each gets through on its own, but they do not agree. */
  lemma RolesDisagree() returns (t: Lifetime)
    ensures t.Starts() && AsksForLast(t) && t.install.outcomeType == TWO_PARTY_FIXED_OUTCOME && t.install.appSeqNo == 0
    ensures t.R().Ok? && t.BetweenUsers().Ok? && EndI(t).Ok? && EndM(t).Ok? && EndR(t).Ok?
    ensures !UninstalledTogether(EndI(t), EndM(t), EndR(t))
  {
    t := AnyLifetime(ExampleKeys(), Xpub(1), Xpub(2), Xpub(3), 0, 1, 1, 0, TWO_PARTY_FIXED_OUTCOME, FixedOutcome(0), []);
    ExampleShares(t);
    FixedOutcomesAgreeIff(t, 0);
  }

  lemma ExampleShares(t: Lifetime)
    requires t.env.kth == ExampleKeys() && t.install.initiatorXpub == Xpub(1) && t.install.responderXpub == Xpub(3)
    requires t.install.initiatorBalanceDecrement == t.install.responderBalanceDecrement == 1
    ensures Shares(t, 0, 0) != Shares(t, 0, 1)
  {
  }
}
