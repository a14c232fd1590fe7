/** Runs of the channel ledger: which invariants every operation keeps, and that no run creates or
    destroys money. */
module LedgerRuns {
  import opened Amounts
  import opened AppInstances
  import opened Dictionaries
  import opened FreeBalances
  import opened Primitives
  import opened Results
  import opened Sorting
  import opened StateChannels

  datatype Op =
    | Propose(proposal: Proposal)
    | WithdrawProposal(id: Hash)
    | Install(app: AppInstance, decrements: TokenIndexedCoinTransferMap)
    | Uninstall(id: Hash, increments: TokenIndexedCoinTransferMap)
    | Agree(target: Hash, agreement: Agreement, provided: CoinTransferMap, token: Token)
    | Disagree(target: Hash, returned: CoinTransferMap, token: Token)
    | AddVirtual(app: AppInstance)
    | RemoveVirtual(id: Hash)
    | Update(id: Hash, state: AppState)

  function Apply(kth: Derivation, channel: StateChannel, op: Op): Result<StateChannel> {
    match op
    case Propose(proposal) => Ok(AddProposal(channel, proposal))
    case WithdrawProposal(id) => Ok(StateChannels.RemoveProposal(channel, id))
    case Install(app, decrements) => InstallApp(kth, channel, app, decrements)
    case Uninstall(id, increments) => UninstallApp(channel, id, increments)
    case Agree(target, agreement, provided, token) => AddAgreement(channel, target, agreement, provided, token)
    case Disagree(target, returned, token) => RemoveAgreement(channel, target, returned, token)
    case AddVirtual(app) => Ok(AddAppInstance(channel, app))
    case RemoveVirtual(id) => Ok(RemoveAppInstance(channel, id))
    case Update(id, state) => SetState(channel, id, state)
  }

  /** A channel together with what each active app or agreement has locked. */
  datatype Ledger = Ledger(channel: StateChannel, locked: Dict<Hash, TokenIndexedCoinTransferMap>)

  function Lock(op: Op, locked: Dict<Hash, TokenIndexedCoinTransferMap>): Dict<Hash, TokenIndexedCoinTransferMap> {
    match op
    case Install(app, decrements) => Put(locked, app.IdentityHash(), decrements)
    case Uninstall(id, _) => Delete(locked, id)
    case Agree(target, _, provided, token) => Put(locked, target, SingleToken(token, provided))
    case Disagree(target, _, _) => Delete(locked, target)
    case _ => locked
  }

  /** One operation; one that throws leaves everything as it was. */
  function Step(kth: Derivation, l: Ledger, op: Op): Ledger {
    match Apply(kth, l.channel, op)
    case Err(_) => l
    case Ok(channel) => Ledger(channel, Lock(op, l.locked))
  }

  function Run(kth: Derivation, l: Ledger, ops: seq<Op>): Ledger {
    if ops == [] then l else Step(kth, Run(kth, l, ops[..|ops| - 1]), ops[|ops| - 1])
  }

  // ---- Invariants ----

  /** The apps that lock money of this channel: those that are not virtual. */
  predicate LiveApp(channel: StateChannel, h: Hash) {
    Has(channel.appInstances, h) && !Lookup(channel.appInstances, h).value.isVirtualApp
  }

  /** Active are exactly the installed direct apps and the agreements, and nothing is both. */
  ghost predicate ActiveSet(channel: StateChannel) {
    && GetFreeBalance(channel).Ok?
    && (forall h :: Has(View(channel).activeApps, h) <==> LiveApp(channel, h) || Has(channel.agreements, h))
    && (forall h :: !(LiveApp(channel, h) && Has(channel.agreements, h)))
  }

  /** Everything is stored under its own identity hash. */
  ghost predicate Keyed(channel: StateChannel) {
    && (forall h :: Has(channel.appInstances, h) ==> Lookup(channel.appInstances, h).value.IdentityHash() == h)
    && (forall h :: Has(channel.proposedAppInstances, h) ==>
          var p := Lookup(channel.proposedAppInstances, h).value; p.identityHash == h && h.channelNonce == p.appSeqNo)
  }

  /** No sequence number is ahead of the counter. */
  ghost predicate Sequenced(channel: StateChannel) {
    && (forall h :: Has(channel.appInstances, h) ==> Lookup(channel.appInstances, h).value.appSeqNo <= channel.monotonicNumProposedApps)
    && (forall h :: Has(channel.proposedAppInstances, h) ==> Lookup(channel.proposedAppInstances, h).value.appSeqNo <= channel.monotonicNumProposedApps)
  }

  ghost predicate Valid(l: Ledger) {
    && ActiveSet(l.channel)
    && Keyed(l.channel)
    && Sequenced(l.channel)
    && NonNegative(View(l.channel).balances)
    && (forall h :: Has(l.locked, h) <==> Has(View(l.channel).activeApps, h))
  }

  /** What the callers of an operation see to: a new app, agreement or virtual app has an identity hash not
      in use, its number is not ahead of the counter, a proposal takes the next number, and direct and
      virtual apps are removed each in its own way. */
  ghost predicate Admissible(channel: StateChannel, op: Op) {
    match op
    case Propose(p) =>
      p.appSeqNo == channel.monotonicNumProposedApps + 1 && p.identityHash.channelNonce == p.appSeqNo
    case Install(app, _) =>
      && !app.isVirtualApp && app.appSeqNo <= channel.monotonicNumProposedApps
      && !Has(channel.appInstances, app.IdentityHash()) && !Has(channel.agreements, app.IdentityHash())
    case Uninstall(id, _) => Has(channel.appInstances, id) ==> LiveApp(channel, id)
    case Agree(target, _, _, _) => !LiveApp(channel, target) && !Has(channel.agreements, target)
    case AddVirtual(app) =>
      && app.isVirtualApp && app.appSeqNo <= channel.monotonicNumProposedApps
      && !Has(channel.appInstances, app.IdentityHash())
    case RemoveVirtual(id) => !LiveApp(channel, id)
    case _ => true
  }

  ghost predicate AdmissibleRun(kth: Derivation, l: Ledger, ops: seq<Op>) {
    forall i :: 0 <= i < |ops| ==> Admissible(Run(kth, l, ops[..i]).channel, ops[i])
  }

  /** What an operation does to the free balance: which apps it activates and which amounts it adds. */
  datatype Effect = Activate(id: Hash, increments: TokenIndexedCoinTransferMap)
                  | Deactivate(id: Hash, increments: TokenIndexedCoinTransferMap)
                  | NoEffect

  function EffectOf(op: Op): Effect {
    match op
    case Install(app, decrements) => Activate(app.IdentityHash(), FlipTokenIndexedBalances(decrements))
    case Uninstall(id, increments) => Deactivate(id, increments)
    case Agree(target, _, provided, token) => Activate(target, SingleToken(token, Flip(provided)))
    case Disagree(target, returned, token) => Deactivate(target, SingleToken(token, returned))
    case _ => NoEffect
  }

  ghost predicate EffectSeen(fb: FreeBalance, fb': FreeBalance, effect: Effect) {
    match effect
    case Activate(id, increments) =>
      fb'.activeApps == Put(fb.activeApps, id, ()) && Increment(fb.balances, increments) == Ok(fb'.balances)
    case Deactivate(id, increments) =>
      fb'.activeApps == Delete(fb.activeApps, id) && Increment(fb.balances, increments) == Ok(fb'.balances)
    case NoEffect => fb' == fb
  }

  /** An operation that goes through shows exactly its effect in the free balance. */
  lemma ApplyEffect(kth: Derivation, channel: StateChannel, op: Op)
    requires GetFreeBalance(channel).Ok?
    ensures Apply(kth, channel, op).Ok? ==>
            var channel' := Apply(kth, channel, op).value;
            GetFreeBalance(channel').Ok? && EffectSeen(View(channel), View(channel'), EffectOf(op))
  {
    match op
    case Install(app, decrements) =>
      var h := app.IdentityHash();
      AddActiveSpec(channel.(appInstances := Put(channel.appInstances, h, app)), h, FlipTokenIndexedBalances(decrements));
    case Uninstall(id, increments) =>
      RemoveActiveSpec(channel.(appInstances := Delete(channel.appInstances, id)), id, increments);
    case Agree(target, agreement, provided, token) =>
      AddActiveSpec(channel.(agreements := Put(channel.agreements, target, agreement)), target, SingleToken(token, Flip(provided)));
    case Disagree(target, returned, token) =>
      RemoveActiveSpec(channel.(agreements := Delete(channel.agreements, target)), target, SingleToken(token, returned));
    case _ =>
  }

  /** The installed apps, agreements, proposals and counter after an operation that goes through. */
  ghost predicate TablesSeen(channel: StateChannel, channel': StateChannel, op: Op) {
    match op
    case Propose(p) =>
      channel' == channel.(proposedAppInstances := Put(channel.proposedAppInstances, p.identityHash, p),
                           monotonicNumProposedApps := channel.monotonicNumProposedApps + 1)
    case WithdrawProposal(id) =>
      channel' == channel.(proposedAppInstances := Delete(channel.proposedAppInstances, id))
    case Install(app, _) =>
      SameTables(channel', channel.(appInstances := Put(channel.appInstances, app.IdentityHash(), app)))
    case Uninstall(id, _) =>
      Has(channel.appInstances, id) && SameTables(channel', channel.(appInstances := Delete(channel.appInstances, id)))
    case Agree(target, agreement, _, _) =>
      SameTables(channel', channel.(agreements := Put(channel.agreements, target, agreement)))
    case Disagree(target, _, _) =>
      Has(channel.agreements, target) && SameTables(channel', channel.(agreements := Delete(channel.agreements, target)))
    case AddVirtual(app) =>
      channel' == channel.(appInstances := Put(channel.appInstances, app.IdentityHash(), app),
                           monotonicNumProposedApps := channel.monotonicNumProposedApps + 1)
    case RemoveVirtual(id) =>
      channel' == channel.(appInstances := Delete(channel.appInstances, id))
    case Update(id, state) =>
      && Has(channel.appInstances, id)
      && channel' == channel.(appInstances := Put(channel.appInstances, id, Lookup(channel.appInstances, id).value.SetState(state)))
  }

  /** Equal but for the free balance. */
  ghost predicate SameTables(channel: StateChannel, channel': StateChannel) {
    channel == channel'.(freeBalanceAppInstance := channel.freeBalanceAppInstance)
  }

  /** When an operation goes through: its app or agreement exists, the participants are the channel's, and no
      balance would become negative. */
  lemma ApplySucceeds(kth: Derivation, channel: StateChannel, op: Op)
    requires GetFreeBalance(channel).Ok? && NonNegative(View(channel).balances)
    ensures Apply(kth, channel, op).Ok? <==>
            && (match op
                case Install(app, _) => SigningKeysFor(kth, channel, app.appSeqNo) <= app.participants
                case Uninstall(id, _) => Has(channel.appInstances, id) && Lookup(channel.appInstances, id).value.IdentityHash() == id
                case Disagree(target, _, _) => Has(channel.agreements, target)
                case Update(id, _) => Has(channel.appInstances, id)
                case _ => true)
            && (EffectOf(op) != NoEffect ==>
                  forall t, to :: Balance(View(channel).balances, t, to) + Amount(IncrementsOf(EffectOf(op).increments, t), to) >= 0)
  {
    if EffectOf(op) != NoEffect {
      IncrementNonNegative(View(channel).balances, EffectOf(op).increments);
    }
  }

  lemma ApplyTables(kth: Derivation, channel: StateChannel, op: Op)
    requires GetFreeBalance(channel).Ok?
    ensures Apply(kth, channel, op).Ok? ==> TablesSeen(channel, Apply(kth, channel, op).value, op)
  {
  }

  lemma StepKeepsActiveSet(kth: Derivation, l: Ledger, op: Op)
    requires Valid(l) && Admissible(l.channel, op)
    ensures ActiveSet(Step(kth, l, op).channel)
    ensures forall h :: Has(Step(kth, l, op).locked, h) <==> Has(View(Step(kth, l, op).channel).activeApps, h)
  {
    ApplyEffect(kth, l.channel, op);
    ApplyTables(kth, l.channel, op);
  }

  lemma StepKeepsTables(kth: Derivation, l: Ledger, op: Op)
    requires Valid(l) && Admissible(l.channel, op)
    ensures Keyed(Step(kth, l, op).channel)
    ensures Sequenced(Step(kth, l, op).channel)
  {
    ApplyTables(kth, l.channel, op);
  }

  lemma StepKeepsNonNegative(kth: Derivation, l: Ledger, op: Op)
    requires Valid(l)
    ensures GetFreeBalance(Step(kth, l, op).channel).Ok? && NonNegative(View(Step(kth, l, op).channel).balances)
  {
    ApplyEffect(kth, l.channel, op);
    var effect := EffectOf(op);
    if effect != NoEffect {
      IncrementNonNegative(View(l.channel).balances, effect.increments);
    }
  }

  lemma StepKeepsValid(kth: Derivation, l: Ledger, op: Op)
    requires Valid(l) && Admissible(l.channel, op)
    ensures Valid(Step(kth, l, op))
  {
    StepKeepsActiveSet(kth, l, op);
    StepKeepsTables(kth, l, op);
    StepKeepsNonNegative(kth, l, op);
  }

  lemma PrefixAdmissible(kth: Derivation, l: Ledger, ops: seq<Op>)
    requires ops != [] && AdmissibleRun(kth, l, ops)
    ensures AdmissibleRun(kth, l, ops[..|ops| - 1])
    ensures Admissible(Run(kth, l, ops[..|ops| - 1]).channel, ops[|ops| - 1])
  {
    var before := ops[..|ops| - 1];
    forall i | 0 <= i < |before|
      ensures before[..i] == ops[..i] && before[i] == ops[i]
    {
    }
  }

  /** Every run of admissible operations keeps the ledger valid, whether or not operations throw: the
      active set is exact, everything is stored under its own identity hash, no number is ahead of the
      counter, and no balance is negative. */
  lemma {:induction false} RunKeepsValid(kth: Derivation, l: Ledger, ops: seq<Op>)
    requires Valid(l) && AdmissibleRun(kth, l, ops)
    ensures Valid(Run(kth, l, ops))
  {
    if ops != [] {
      var n := |ops| - 1;
      var before := ops[..n];
      PrefixAdmissible(kth, l, ops);
      RunKeepsValid(kth, l, before);
      StepKeepsValid(kth, Run(kth, l, before), ops[n]);
    }
  }

  /** The number a proposal takes next is not used by any installed app or stored proposal, so its
      identity is fresh, and once stored it is the most recently proposed. */
  lemma NextProposalIsFresh(l: Ledger, p: Proposal)
    requires Valid(l) && Admissible(l.channel, Propose(p))
    ensures !Has(l.channel.appInstances, p.identityHash)
    ensures !Has(l.channel.proposedAppInstances, p.identityHash)
    ensures MostRecentlyProposedAppInstance(AddProposal(l.channel, p)) == Ok(p)
  {
    var proposals := Put(l.channel.proposedAppInstances, p.identityHash, p);
    forall h | Has(proposals, h) && h != p.identityHash
      ensures Lookup(proposals, h).value.appSeqNo < p.appSeqNo
    {
      assert Has(l.channel.proposedAppInstances, h);
    }
    assert Has(proposals, proposals.key) && Lookup(proposals, proposals.key) == Some(proposals.value);
    forall h | Has(proposals.rest, h)
      ensures Lookup(proposals.rest, h) == Some(p) || Lookup(proposals.rest, h).value.appSeqNo < p.appSeqNo
    {
      assert Has(proposals, h) && Lookup(proposals, h) == Lookup(proposals.rest, h);
    }
    LatestProposalIs(proposals.rest, proposals.value, p);
  }

  lemma {:induction false} LatestProposalIs(proposals: Dict<Hash, Proposal>, prev: Proposal, p: Proposal)
    requires forall h :: Has(proposals, h) ==> Lookup(proposals, h) == Some(p) || Lookup(proposals, h).value.appSeqNo < p.appSeqNo
    requires prev == p || (prev.appSeqNo < p.appSeqNo && Has(proposals, p.identityHash) && Lookup(proposals, p.identityHash) == Some(p))
    ensures LatestProposal(proposals, prev) == p
    decreases proposals
  {
    if proposals.Cons? {
      assert Has(proposals, proposals.key) && Lookup(proposals, proposals.key) == Some(proposals.value);
      forall h | Has(proposals.rest, h)
        ensures Lookup(proposals.rest, h) == Some(p) || Lookup(proposals.rest, h).value.appSeqNo < p.appSeqNo
      {
        assert Has(proposals, h) && Lookup(proposals, h) == Lookup(proposals.rest, h);
      }
      LatestProposalIs(proposals.rest, if proposals.value.appSeqNo > prev.appSeqNo then proposals.value else prev, p);
    }
  }

  // ---- Conservation ----

  /** All that is locked of one token. */
  function LockedTotal(locked: Assoc<Hash, TokenIndexedCoinTransferMap>, token: Token): int {
    if locked.Nil? then 0 else Total(IncrementsOf(locked.value, token)) + LockedTotal(locked.rest, token)
  }

  function LockedBy(locked: Dict<Hash, TokenIndexedCoinTransferMap>, h: Hash, token: Token): int {
    Total(IncrementsOf(Lookup(locked, h).GetOr(Nil), token))
  }

  lemma {:induction false} LockedPut(locked: Dict<Hash, TokenIndexedCoinTransferMap>, h: Hash, amounts: TokenIndexedCoinTransferMap, token: Token)
    ensures LockedTotal(Put(locked, h, amounts), token) ==
            LockedTotal(locked, token) - LockedBy(locked, h, token) + Total(IncrementsOf(amounts, token))
  {
    if locked.Cons? && locked.key != h {
      LockedPut(locked.rest, h, amounts, token);
    }
  }

  lemma {:induction false} LockedDelete(locked: Dict<Hash, TokenIndexedCoinTransferMap>, h: Hash, token: Token)
    ensures LockedTotal(Delete(locked, h), token) == LockedTotal(locked, token) - LockedBy(locked, h, token)
  {
    if locked.Cons? && locked.key != h {
      LockedDelete(locked.rest, h, token);
    }
  }

  /** Free and locked money of one token. */
  function Wealth(l: Ledger, token: Token): int
    requires GetFreeBalance(l.channel).Ok?
  {
    FreeTotal(View(l.channel).balances, token) + LockedTotal(l.locked, token)
  }

  /** What an operation that goes through brings in from outside: what is paid out beyond what was locked. */
  function Inflow(l: Ledger, effect: Effect, token: Token): int {
    match effect
    case Deactivate(id, paid) => Total(IncrementsOf(paid, token)) - LockedBy(l.locked, id, token)
    case Activate(id, _) => -LockedBy(l.locked, id, token)
    case NoEffect => 0
  }

  /** Every operation, on any ledger, changes the wealth by exactly its inflow. In particular installing
      under an identity hash already in use loses exactly what was locked under it. */
  lemma StepAccounts(kth: Derivation, l: Ledger, op: Op, token: Token)
    requires GetFreeBalance(l.channel).Ok?
    ensures GetFreeBalance(Step(kth, l, op).channel).Ok?
    ensures Wealth(Step(kth, l, op), token) ==
            Wealth(l, token) + if Apply(kth, l.channel, op).Ok? then Inflow(l, EffectOf(op), token) else 0
  {
    ApplyEffect(kth, l.channel, op);
    if Apply(kth, l.channel, op).Ok? && EffectOf(op) != NoEffect {
      IncrementAdds(View(l.channel).balances, EffectOf(op).increments, token);
      match op
      case Install(app, decrements) => LockedPut(l.locked, app.IdentityHash(), decrements, token);
      case Agree(target, _, provided, t) => LockedPut(l.locked, target, SingleToken(t, provided), token);
      case Uninstall(id, _) => LockedDelete(l.locked, id, token);
      case Disagree(target, _, _) => LockedDelete(l.locked, target, token);
    }
  }

  /** The inflow of a whole run. */
  function RunInflow(kth: Derivation, l: Ledger, ops: seq<Op>, token: Token): int {
    if ops == [] then 0 else
      var n := |ops| - 1;
      var before := Run(kth, l, ops[..n]);
      RunInflow(kth, l, ops[..n], token) +
      if Apply(kth, before.channel, ops[n]).Ok? then Inflow(before, EffectOf(ops[n]), token) else 0
  }

  /** Over every run, admissible or not, free and locked money of every token change only by the inflow. */
  lemma {:induction false} RunAccounts(kth: Derivation, l: Ledger, ops: seq<Op>, token: Token)
    requires GetFreeBalance(l.channel).Ok?
    ensures GetFreeBalance(Run(kth, l, ops).channel).Ok?
    ensures Wealth(Run(kth, l, ops), token) == Wealth(l, token) + RunInflow(kth, l, ops, token)
  {
    if ops != [] {
      var n := |ops| - 1;
      RunAccounts(kth, l, ops[..n], token);
      StepAccounts(kth, Run(kth, l, ops[..n]), ops[n], token);
    }
  }

  /** The operations of a run that end an app or agreement pay out, in this token, what it had locked. */
  ghost predicate PaysWhatWasLocked(kth: Derivation, l: Ledger, ops: seq<Op>, token: Token) {
    forall i :: 0 <= i < |ops| ==>
      match EffectOf(ops[i])
      case Deactivate(id, paid) => Total(IncrementsOf(paid, token)) == LockedBy(Run(kth, l, ops[..i]).locked, id, token)
      case _ => true
  }

  lemma PrefixPays(kth: Derivation, l: Ledger, ops: seq<Op>, token: Token)
    requires ops != [] && PaysWhatWasLocked(kth, l, ops, token)
    ensures PaysWhatWasLocked(kth, l, ops[..|ops| - 1], token)
  {
    var before := ops[..|ops| - 1];
    forall i | 0 <= i < |before|
      ensures before[..i] == ops[..i] && before[i] == ops[i]
    {
    }
  }

  /** With fresh identities and outcomes that total what was locked, no run creates or destroys money. */
  lemma {:induction false} RunConserves(kth: Derivation, l: Ledger, ops: seq<Op>, token: Token)
    requires Valid(l) && AdmissibleRun(kth, l, ops) && PaysWhatWasLocked(kth, l, ops, token)
    ensures GetFreeBalance(Run(kth, l, ops).channel).Ok?
    ensures Wealth(Run(kth, l, ops), token) == Wealth(l, token)
  {
    if ops != [] {
      var n := |ops| - 1;
      PrefixPays(kth, l, ops, token);
      PrefixAdmissible(kth, l, ops);
      RunConserves(kth, l, ops[..n], token);
      RunKeepsValid(kth, l, ops[..n]);
      StepConserves(kth, Run(kth, l, ops[..n]), ops[n], token);
    }
  }

  lemma StepConserves(kth: Derivation, l: Ledger, op: Op, token: Token)
    requires Valid(l) && Admissible(l.channel, op)
    requires EffectOf(op).Deactivate? ==> Total(IncrementsOf(EffectOf(op).increments, token)) == LockedBy(l.locked, EffectOf(op).id, token)
    ensures GetFreeBalance(Step(kth, l, op).channel).Ok?
    ensures Wealth(Step(kth, l, op), token) == Wealth(l, token)
  {
    StepAccounts(kth, l, op, token);
    FreshInflow(l, op, token);
  }

  lemma FreshInflow(l: Ledger, op: Op, token: Token)
    requires Valid(l) && Admissible(l.channel, op)
    ensures EffectOf(op).Activate? ==> Inflow(l, EffectOf(op), token) == 0
  {
  }

  /** A channel fresh from setup is valid and holds nothing. */
  lemma SetupValid(kth: Derivation, coinBucketAddress: Address, multisig: Multisig, xpubs: seq<Xpub>, token: Token)
    requires |xpubs| == 2
    ensures var l := Ledger(SetupChannel(kth, coinBucketAddress, multisig, xpubs), Nil);
            Valid(l) && Wealth(l, token) == 0
  {
    var channel := SetupChannel(kth, coinBucketAddress, multisig, xpubs);
    var keys := SortedKthAddresses(kth, xpubs, 0);
    SortPermutes(KthAddresses(kth, xpubs, 0), (a: Address) => a);
    assert |keys| == |multiset(keys)| == 2;
    var transfers: seq<CoinTransfer> := [Entry(keys[0], 0), Entry(keys[1], 0)];
    var balances := Singleton(CONVENTION_FOR_ETH_TOKEN_ADDRESS, transfers);
    var fb := FreeBalance(Nil, balances);
    assert BalanceLists(balances) == [transfers];
    assert TokenAddresses(balances) == [CONVENTION_FOR_ETH_TOKEN_ADDRESS];
    assert ActiveList(fb.activeApps) == [];
    SerializeRoundTrip(fb);
    assert GetFreeBalance(channel) == Ok(fb);
    AssignZeros(Nil, transfers);
    assert forall t :: TokenMap(balances, t) == if t == CONVENTION_FOR_ETH_TOKEN_ADDRESS then FromEntries(transfers) else Nil;
  }

  lemma {:induction false} AssignZeros(d: CoinTransferMap, transfers: seq<CoinTransfer>)
    requires Total(d) == 0 && forall a :: Amount(d, a) == 0
    requires forall i :: 0 <= i < |transfers| ==> transfers[i].value == 0
    ensures Total(Assign(d, transfers)) == 0
    ensures forall a :: Amount(Assign(d, transfers), a) == 0
    decreases |transfers|
  {
    if transfers != [] {
      TotalPut(d, transfers[0].key, 0);
      forall a
        ensures Amount(Put(d, transfers[0].key, 0), a) == 0
      {
        assert Amount(d, a) == 0;
      }
      AssignZeros(Put(d, transfers[0].key, 0), transfers[1..]);
    }
  }
}
