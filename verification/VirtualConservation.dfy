/** Money over the life of a virtual app: what each party gains and loses between install and uninstall, and
    when the intermediary ends with exactly what it started with. */
module VirtualConservation {
  import opened Amounts
  import opened AppInstances
  import opened Dictionaries
  import opened FreeBalances
  import opened Outcomes
  import opened Primitives
  import opened Results
  import opened StateChannels
  import opened VirtualAgreement
  import opened VirtualApps

  /** The balance of a beneficiary in a channel. */
  function Held(channel: StateChannel, token: Token, to: Address): int
    requires GetFreeBalance(channel).Ok?
  {
    Balance(View(channel).balances, token, to)
  }

  function HeldTotal(channel: StateChannel, token: Token): int
    requires GetFreeBalance(channel).Ok?
  {
    FreeTotal(View(channel).balances, token)
  }

  /** Between two states of a channel, `user` and `intermediary` moved by the given amounts in one token, and
      nothing else did. */
  ghost predicate Moved(before: StateChannel, after: StateChannel, token: Token,
                        user: Address, userChange: int, intermediary: Address, intermediaryChange: int)
  {
    && GetFreeBalance(before).Ok? && GetFreeBalance(after).Ok?
    && (forall t, to :: Held(after, t, to) == Held(before, t, to) +
          if t != token then 0 else if to == user then userChange else if to == intermediary then intermediaryChange else 0)
    && (forall t :: HeldTotal(after, t) == HeldTotal(before, t) + if t == token then userChange + intermediaryChange else 0)
  }

  lemma AddAgreementMoves(channel: StateChannel, target: Hash, agreement: Agreement, token: Token,
                          to1: Address, amount1: int, to2: Address, amount2: int)
    requires to1 != to2
    requires AddAgreement(channel, target, agreement, Pair(to1, amount1, to2, amount2), token).Ok?
    ensures Moved(channel, AddAgreement(channel, target, agreement, Pair(to1, amount1, to2, amount2), token).value,
                  token, to1, -amount1, to2, -amount2)
    ensures Moved(channel, AddAgreement(channel, target, agreement, Pair(to1, amount1, to2, amount2), token).value,
                  token, to2, -amount2, to1, -amount1)
  {
    var pair := Pair(to1, amount1, to2, amount2);
    var increments := SingleToken(token, Flip(pair));
    var recorded := channel.(agreements := Put(channel.agreements, target, agreement));
    assert GetFreeBalance(recorded) == GetFreeBalance(channel);
    AddActiveSpec(recorded, target, increments);
    PairTotal(to1, amount1, to2, amount2);
    IncrementMoves(channel, AddAgreement(channel, target, agreement, pair, token).value, increments, token, to1, -amount1, to2, -amount2);
    IncrementMoves(channel, AddAgreement(channel, target, agreement, pair, token).value, increments, token, to2, -amount2, to1, -amount1);
  }

  lemma RemoveAgreementMoves(channel: StateChannel, target: Hash, token: Token, to1: Address, amount1: int, to2: Address, amount2: int)
    requires to1 != to2
    requires RemoveAgreement(channel, target, Pair(to1, amount1, to2, amount2), token).Ok?
    ensures Moved(channel, RemoveAgreement(channel, target, Pair(to1, amount1, to2, amount2), token).value,
                  token, to2, amount2, to1, amount1)
  {
    var pair := Pair(to1, amount1, to2, amount2);
    var increments := SingleToken(token, pair);
    var without := channel.(agreements := Delete(channel.agreements, target));
    assert GetFreeBalance(without) == GetFreeBalance(channel);
    RemoveActiveSpec(without, target, increments);
    PairTotal(to1, amount1, to2, amount2);
    IncrementMoves(channel, RemoveAgreement(channel, target, pair, token).value, increments, token, to2, amount2, to1, amount1);
  }

  lemma IncrementMoves(before: StateChannel, after: StateChannel, increments: TokenIndexedCoinTransferMap, token: Token,
                       to1: Address, change1: int, to2: Address, change2: int)
    requires GetFreeBalance(before).Ok? && GetFreeBalance(after).Ok?
    requires Increment(View(before).balances, increments) == Ok(View(after).balances)
    requires forall t :: t != token ==> IncrementsOf(increments, t) == Nil
    requires forall to :: Amount(IncrementsOf(increments, token), to) == if to == to1 then change1 else if to == to2 then change2 else 0
    requires Total(IncrementsOf(increments, token)) == change1 + change2
    ensures Moved(before, after, token, to1, change1, to2, change2)
  {
    forall t, to
      ensures Held(after, t, to) == Held(before, t, to) +
                if t != token then 0 else if to == to1 then change1 else if to == to2 then change2 else 0
    {
      IncrementAdds(View(before).balances, increments, t);
    }
    forall t
      ensures HeldTotal(after, t) == HeldTotal(before, t) + if t == token then change1 + change2 else 0
    {
      IncrementAdds(View(before).balances, increments, t);
    }
  }

  /** Installing a virtual app, as the intermediary computes it: it locks the responder's stake towards the
      initiator and the initiator's stake towards the responder. */
  lemma InstallMoves(env: Environment, channels: Channels, p: InstallVirtualAppParams, virtualApp: Hash, defaultOutcome: Outcome)
    requires InstallForIntermediary(env, channels, p, virtualApp, defaultOutcome).Ok?
    requires env.kth(p.intermediaryXpub, 0) != env.kth(p.initiatorXpub, 0)
    requires env.kth(p.intermediaryXpub, 0) != env.kth(p.responderXpub, 0)
    ensures var m := InstallForIntermediary(env, channels, p, virtualApp, defaultOutcome).value;
            var channelI := GetChannel(env.kth, channels, [p.initiatorXpub, p.intermediaryXpub]);
            var channelR := GetChannel(env.kth, channels, [p.responderXpub, p.intermediaryXpub]);
            && channelI.Ok? && channelR.Ok?
            && Moved(channelI.value, m.withInitiating, p.tokenAddress,
                     env.kth(p.initiatorXpub, 0), -p.initiatorBalanceDecrement, env.kth(p.intermediaryXpub, 0), -p.responderBalanceDecrement)
            && Moved(channelR.value, m.withResponding, p.tokenAddress,
                     env.kth(p.responderXpub, 0), -p.responderBalanceDecrement, env.kth(p.intermediaryXpub, 0), -p.initiatorBalanceDecrement)
  {
    var m := InstallForIntermediary(env, channels, p, virtualApp, defaultOutcome).value;
    var (i, im, r) := (env.kth(p.initiatorXpub, 0), env.kth(p.intermediaryXpub, 0), env.kth(p.responderXpub, 0));
    AddAgreementMoves(GetChannel(env.kth, channels, [p.initiatorXpub, p.intermediaryXpub]).value, virtualApp,
                      AgreementWith(env.kth, p, m.passThrough, p.initiatorXpub), p.tokenAddress,
                      i, p.initiatorBalanceDecrement, im, p.responderBalanceDecrement);
    AddAgreementMoves(GetChannel(env.kth, channels, [p.responderXpub, p.intermediaryXpub]).value, virtualApp,
                      AgreementWith(env.kth, p, m.passThrough, p.responderXpub), p.tokenAddress,
                      im, p.initiatorBalanceDecrement, r, p.responderBalanceDecrement);
  }

  /** Uninstalling, as the intermediary computes it: in each channel it receives what the other endpoint is due. */
  lemma UninstallMoves(env: Environment, channels: Channels, p: UninstallVirtualAppParams)
    requires UninstallForIntermediary(env, channels, p).Ok?
    requires env.kth(p.intermediaryXpub, 0) != env.kth(p.initiatorXpub, 0)
    requires env.kth(p.intermediaryXpub, 0) != env.kth(p.responderXpub, 0)
    ensures var m := UninstallForIntermediary(env, channels, p).value;
            var channelI := GetChannel(env.kth, channels, [p.initiatorXpub, p.intermediaryXpub]);
            var channelR := GetChannel(env.kth, channels, [p.intermediaryXpub, p.responderXpub]);
            && channelI.Ok? && channelR.Ok?
            && var due := Due(env, channels, p);
               var token := TokenOf(env, channels, p);
               && Moved(channelI.value, m.withInitiating, token,
                        env.kth(p.initiatorXpub, 0), due.0, env.kth(p.intermediaryXpub, 0), due.1)
               && Moved(channelR.value, m.withResponding, token,
                        env.kth(p.responderXpub, 0), due.1, env.kth(p.intermediaryXpub, 0), due.0)
  {
    var (i, im, r) := (env.kth(p.initiatorXpub, 0), env.kth(p.intermediaryXpub, 0), env.kth(p.responderXpub, 0));
    var due := Due(env, channels, p);
    var channelI := GetChannel(env.kth, channels, [p.initiatorXpub, p.intermediaryXpub]).value;
    var target := UninstallTarget(env, channels, p);
    RemoveAgreementMoves(channelI, target, TokenOf(env, channels, p), im, due.1, i, due.0);
    RemoveAgreementMoves(GetChannel(env.kth, channels, [p.intermediaryXpub, p.responderXpub]).value, target, TokenOf(env, channels, p), im, due.0, r, due.1);
  }

  /** The agreement with the initiator that an uninstall goes by. */
  function UninstallAgreementOf(env: Environment, channels: Channels, p: UninstallVirtualAppParams): Result<Agreement> {
    var withInitiating :- GetChannel(env.kth, channels, [p.initiatorXpub, p.intermediaryXpub]);
    GetAgreement(withInitiating, p.targetAppIdentityHash)
  }

  function UninstallPassThrough(env: Environment, channels: Channels, p: UninstallVirtualAppParams): Result<AppInstance> {
    var agreement :- UninstallAgreementOf(env, channels, p);
    var threeParty :- GetChannel(env.kth, channels, [p.initiatorXpub, p.responderXpub, p.intermediaryXpub]);
    PassThroughOf(threeParty, agreement)
  }

  function TokenOf(env: Environment, channels: Channels, p: UninstallVirtualAppParams): Token {
    var agreement := UninstallAgreementOf(env, channels, p);
    if agreement.Ok? then agreement.value.tokenAddress else 0
  }

  function UninstallTarget(env: Environment, channels: Channels, p: UninstallVirtualAppParams): Hash {
    var passThrough := UninstallPassThrough(env, channels, p);
    if passThrough.Ok? && passThrough.value.latestState.PassThroughState? then passThrough.value.latestState.targetAppIdentityHash
    else p.targetAppIdentityHash
  }

  /** What the outcome pays to the 0th addresses of initiator and responder. */
  function Due(env: Environment, channels: Channels, p: UninstallVirtualAppParams): (int, int) {
    var passThrough := UninstallPassThrough(env, channels, p);
    if passThrough.Err? || !passThrough.value.latestState.PassThroughState? then (0, 0) else
    var outcome := if Expired(passThrough.value, env.provider) then passThrough.value.latestState.defaultOutcome else p.targetOutcome;
    var increments := ComputeIncrements(passThrough.value, outcome);
    if increments.Err? then (0, 0) else
    var amounts := IncrementsOf(increments.value, TokenOf(env, channels, p));
    (Amount(amounts, env.kth(p.initiatorXpub, 0)), Amount(amounts, env.kth(p.responderXpub, 0)))
  }

  /** One channel before and after the install, and before and after the uninstall. */
  datatype Life = Life(beforeInstall: StateChannel, installed: StateChannel, beforeUninstall: StateChannel, ended: StateChannel)
  {
    predicate Readable() {
      && GetFreeBalance(beforeInstall).Ok? && GetFreeBalance(installed).Ok?
      && GetFreeBalance(beforeUninstall).Ok? && GetFreeBalance(ended).Ok?
    }

    /** What a party gained over install and uninstall together. */
    function Net(token: Token, to: Address): int
      requires Readable()
    {
      Held(installed, token, to) - Held(beforeInstall, token, to) + Held(ended, token, to) - Held(beforeUninstall, token, to)
    }

    function NetTotal(token: Token): int
      requires Readable()
    {
      HeldTotal(installed, token) - HeldTotal(beforeInstall, token) + HeldTotal(ended, token) - HeldTotal(beforeUninstall, token)
    }
  }

  /** The intermediary's two channels over an install and a later uninstall of one virtual app. */
  ghost predicate Lives(env: Environment, before: Channels, p: InstallVirtualAppParams, virtualApp: Hash, defaultOutcome: Outcome,
                        env': Environment, later: Channels, u: UninstallVirtualAppParams, lifeI: Life, lifeR: Life)
  {
    var (i, m, r) := (p.initiatorXpub, p.intermediaryXpub, p.responderXpub);
    var installed := InstallForIntermediary(env, before, p, virtualApp, defaultOutcome);
    var ended := UninstallForIntermediary(env', later, u);
    && env'.kth == env.kth && u.initiatorXpub == i && u.intermediaryXpub == m && u.responderXpub == r
    && TokenOf(env', later, u) == p.tokenAddress
    && installed.Ok? && ended.Ok?
    && GetChannel(env.kth, before, [i, m]) == Ok(lifeI.beforeInstall) && installed.value.withInitiating == lifeI.installed
    && GetChannel(env.kth, before, [r, m]) == Ok(lifeR.beforeInstall) && installed.value.withResponding == lifeR.installed
    && GetChannel(env.kth, later, [i, m]) == Ok(lifeI.beforeUninstall) && ended.value.withInitiating == lifeI.ended
    && GetChannel(env.kth, later, [m, r]) == Ok(lifeR.beforeUninstall) && ended.value.withResponding == lifeR.ended
  }

  /** The user and the intermediary of a channel moved by these amounts at install and at uninstall. */
  ghost predicate MovesOf(life: Life, token: Token, user: Address, im: Address, user1: int, im1: int, user2: int, im2: int) {
    && Moved(life.beforeInstall, life.installed, token, user, user1, im, im1)
    && Moved(life.beforeUninstall, life.ended, token, user, user2, im, im2)
  }

  /** The endpoints, who staked a and b and are due x and y, net the difference; the intermediary, its two
      channels taken together, loses exactly what x and y fall short of the two stakes, and so does the
      total of each channel. It is restored exactly when x and y pay out both stakes. */
  ghost predicate Settled(lifeI: Life, lifeR: Life, token: Token, i: Address, im: Address, r: Address, a: int, b: int, x: int, y: int) {
    && lifeI.Readable() && lifeR.Readable()
    && lifeI.Net(token, i) == x - a
    && lifeR.Net(token, r) == y - b
    && lifeI.Net(token, im) + lifeR.Net(token, im) == x + y - (a + b)
    && lifeI.NetTotal(token) == lifeR.NetTotal(token) == x + y - (a + b)
    && (lifeI.Net(token, im) + lifeR.Net(token, im) == 0 <==> x + y == a + b)
  }

  lemma SettledByMoves(lifeI: Life, lifeR: Life, token: Token, i: Address, im: Address, r: Address, a: int, b: int, x: int, y: int)
    requires i != im && r != im
    requires MovesOf(lifeI, token, i, im, -a, -b, x, y)
    requires MovesOf(lifeR, token, r, im, -b, -a, y, x)
    ensures Settled(lifeI, lifeR, token, i, im, r, a, b, x, y)
  {
  }

  lemma LivesMove(env: Environment, before: Channels, p: InstallVirtualAppParams, virtualApp: Hash, defaultOutcome: Outcome,
                  env': Environment, later: Channels, u: UninstallVirtualAppParams, lifeI: Life, lifeR: Life)
    requires Lives(env, before, p, virtualApp, defaultOutcome, env', later, u, lifeI, lifeR)
    requires env.kth(p.intermediaryXpub, 0) != env.kth(p.initiatorXpub, 0)
    requires env.kth(p.intermediaryXpub, 0) != env.kth(p.responderXpub, 0)
    ensures var (im, due) := (env.kth(p.intermediaryXpub, 0), Due(env', later, u));
            && MovesOf(lifeI, p.tokenAddress, env.kth(p.initiatorXpub, 0), im, -p.initiatorBalanceDecrement, -p.responderBalanceDecrement, due.0, due.1)
            && MovesOf(lifeR, p.tokenAddress, env.kth(p.responderXpub, 0), im, -p.responderBalanceDecrement, -p.initiatorBalanceDecrement, due.1, due.0)
  {
    InstallMoves(env, before, p, virtualApp, defaultOutcome);
    UninstallMoves(env', later, u);
  }

  /** Over installing a virtual app and uninstalling it later, whatever happened to the two channels in between,
      the accounts settle: the intermediary is restored, and each channel's money conserved, exactly when the
      outcome pays out the capital provided. */
  lemma IntermediaryNeutral(env: Environment, before: Channels, p: InstallVirtualAppParams, virtualApp: Hash, defaultOutcome: Outcome,
                            env': Environment, later: Channels, u: UninstallVirtualAppParams, lifeI: Life, lifeR: Life)
    requires Lives(env, before, p, virtualApp, defaultOutcome, env', later, u, lifeI, lifeR)
    requires env.kth(p.intermediaryXpub, 0) != env.kth(p.initiatorXpub, 0)
    requires env.kth(p.intermediaryXpub, 0) != env.kth(p.responderXpub, 0)
    ensures Settled(lifeI, lifeR, p.tokenAddress,
                    env.kth(p.initiatorXpub, 0), env.kth(p.intermediaryXpub, 0), env.kth(p.responderXpub, 0),
                    p.initiatorBalanceDecrement, p.responderBalanceDecrement, Due(env', later, u).0, Due(env', later, u).1)
  {
    LivesMove(env, before, p, virtualApp, defaultOutcome, env', later, u, lifeI, lifeR);
    SettledByMoves(lifeI, lifeR, p.tokenAddress,
                   env.kth(p.initiatorXpub, 0), env.kth(p.intermediaryXpub, 0), env.kth(p.responderXpub, 0),
                   p.initiatorBalanceDecrement, p.responderBalanceDecrement, Due(env', later, u).0, Due(env', later, u).1);
  }

  // ---- Endpoints and intermediary agree exactly when they pay out alike ----

  /** What a channel with the intermediary looks like after settling determines what its user and, by the other
      amount, the other user were due. */
  lemma SettledAlikeOnly(kth: Derivation, channel: StateChannel, p: UninstallVirtualAppParams, target: Hash,
                         increments: TokenIndexedCoinTransferMap, increments': TokenIndexedCoinTransferMap, token: Token)
    requires kth(p.initiatorXpub, 0) != kth(p.intermediaryXpub, 0)
    requires Has(increments, token) && Has(increments', token)
    requires SettleWithInitiator(kth, channel, p, target, increments, token).Ok?
    requires SettleWithInitiator(kth, channel, p, target, increments, token) == SettleWithInitiator(kth, channel, p, target, increments', token)
    ensures forall to :: to in {kth(p.initiatorXpub, 0), kth(p.responderXpub, 0)} ==>
              Amount(IncrementsOf(increments, token), to) == Amount(IncrementsOf(increments', token), to)
  {
    var (i, im, r) := (kth(p.initiatorXpub, 0), kth(p.intermediaryXpub, 0), kth(p.responderXpub, 0));
    var amounts, amounts' := IncrementsOf(increments, token), IncrementsOf(increments', token);
    RemoveAgreementMoves(channel, target, token, im, Amount(amounts, r), i, Amount(amounts, i));
    RemoveAgreementMoves(channel, target, token, im, Amount(amounts', r), i, Amount(amounts', i));
    var settled := SettleWithInitiator(kth, channel, p, target, increments, token).value;
    assert Held(settled, token, i) == Held(channel, token, i) + Amount(amounts, i) == Held(channel, token, i) + Amount(amounts', i);
    assert Held(settled, token, im) == Held(channel, token, im) + Amount(amounts, r) == Held(channel, token, im) + Amount(amounts', r);
  }

  lemma ResultsAgreeOnly(kth: Derivation, p: UninstallVirtualAppParams, s: Shared, blockNumber: nat,
                         i: Result<EndpointUninstall>, m: Result<IntermediaryUninstall>, r: Result<EndpointUninstall>)
    requires ReadyToUninstall(s, p.targetAppIdentityHash, blockNumber)
    requires ResultsOf(kth, p, s, BasisOf(s, p.targetAppIdentityHash), i, m, r)
    requires kth(p.initiatorXpub, 0) != kth(p.intermediaryXpub, 0)
    requires m.Ok? && UninstalledTogether(i, m, r)
    ensures SameShares(kth, p, BasisOf(s, p.targetAppIdentityHash))
  {
    var basis, outcome := BasisOf(s, p.targetAppIdentityHash), p.targetOutcome;
    PayOutAlike(basis, outcome, kth(p.initiatorXpub, 0));
    PayOutAlike(basis, outcome, kth(p.responderXpub, 0));
    SettledAlikeOnly(kth, s.withInitiating, p, p.targetAppIdentityHash,
                     ComputeIncrements(basis.virtualApp, outcome).value, ComputeIncrements(basis.passThrough, outcome).value, basis.token);
  }

  /** When all three uninstalls go through, from agreeing copies and for the outcome of the virtual app, they agree
      exactly when that outcome pays both users alike by the players of the virtual app and of the
      pass-through app. */
  lemma UninstallAgreementIff(env: Environment, blocks: (nat, nat, nat), initiator: Channels, intermediary: Channels, responder: Channels,
                              p: UninstallVirtualAppParams, s: Shared)
    requires StoresShare(env.kth, initiator, intermediary, responder, p, s)
    requires ReadyToUninstall(s, p.targetAppIdentityHash, blocks.0)
    requires ReadyToUninstall(s, p.targetAppIdentityHash, blocks.1)
    requires ReadyToUninstall(s, p.targetAppIdentityHash, blocks.2)
    requires p.targetOutcome == ComputeOutcome(Lookup(s.betweenUsers.appInstances, p.targetAppIdentityHash).value, env.provider)
    requires env.kth(p.initiatorXpub, 0) != env.kth(p.intermediaryXpub, 0)
    ensures var i := UninstallForInitiating(AtBlock(env, blocks.0), initiator, p);
            var m := UninstallForIntermediary(AtBlock(env, blocks.1), intermediary, p);
            var r := UninstallForResponding(AtBlock(env, blocks.2), responder, p);
            i.Ok? && m.Ok? && r.Ok? ==> (UninstalledTogether(i, m, r) <==> SameShares(env.kth, p, BasisOf(s, p.targetAppIdentityHash)))
  {
    var i := UninstallForInitiating(AtBlock(env, blocks.0), initiator, p);
    var m := UninstallForIntermediary(AtBlock(env, blocks.1), intermediary, p);
    var r := UninstallForResponding(AtBlock(env, blocks.2), responder, p);
    RolesCompute(env, blocks, initiator, intermediary, responder, p, s);
    if SameShares(env.kth, p, BasisOf(s, p.targetAppIdentityHash)) {
      ResultsAgree(env.kth, p, s, blocks.1, i, m, r);
    } else if m.Ok? && UninstalledTogether(i, m, r) {
      ResultsAgreeOnly(env.kth, p, s, blocks.1, i, m, r);
    }
  }
}
