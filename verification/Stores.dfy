/** The store of a node (store.ts). */
module Stores {
  import opened AppInstances
  import opened Commitments
  import opened Dictionaries
  import opened Engine
  import opened Primitives
  import opened Results
  import opened StateChannels

  /** The channel has the app among its proposals or its apps, or as its free balance. */
  predicate Contains(channel: StateChannel, appInstanceId: Hash) {
    || Has(channel.proposedAppInstances, appInstanceId)
    || Has(channel.appInstances, appInstanceId)
    || (channel.freeBalanceAppInstance.Some? && channel.freeBalanceAppInstance.value.IdentityHash() == appInstanceId)
  }

  predicate ProposedIn(channels: Assoc<Multisig, StateChannel>, m: Multisig, appInstanceId: Hash, proposal: Proposal) {
    Has(channels, m) && Lookup(Lookup(channels, m).value.proposedAppInstances, appInstanceId) == Some(proposal)
  }

  class Store {
    var stateChannelsMap: Dict<Multisig, StateChannel>
    var commitments: set<Stored>
    var withdrawals: Dict<Multisig, SignedTransaction>

    constructor ()
      ensures stateChannelsMap == Nil && commitments == {} && withdrawals == Nil
    {
      stateChannelsMap := Nil;
      commitments := {};
      withdrawals := Nil;
    }

    method GetStateChannel(multisigAddress: Multisig) returns (r: Result<StateChannel>)
      ensures r == match Lookup(stateChannelsMap, multisigAddress) case None => Err(NoChannel) case Some(channel) => Ok(channel)
    {
      var found := Lookup(stateChannelsMap, multisigAddress);
      r := if found.None? then Err(NoChannel) else Ok(found.value);
    }

    /** The channel takes the place of the one stored under its multisig address; the others stay. */
    method SaveStateChannel(channel: StateChannel)
      modifies this`stateChannelsMap
      ensures stateChannelsMap == Put(old(stateChannelsMap), channel.multisigAddress, channel)
    {
      stateChannelsMap := Put(stateChannelsMap, channel.multisigAddress, channel);
    }

    /** Commitments are kept by what is signed in them, so none replaces another. */
    method SetCommitment(key: Key, transaction: SignedTransaction)
      modifies this`commitments
      ensures commitments == old(commitments) + {Stored(key, transaction)}
    {
      commitments := commitments + {Stored(key, transaction)};
    }

    /** The last withdrawal of a channel replaces the one before. */
    method StoreWithdrawalCommitment(multisigAddress: Multisig, transaction: SignedTransaction)
      modifies this`withdrawals
      ensures withdrawals == Put(old(withdrawals), multisigAddress, transaction)
    {
      withdrawals := Put(withdrawals, multisigAddress, transaction);
    }

    /** The first stored channel that has the app. */
    method GetMultisigAddressFromAppInstance(appInstanceId: Hash) returns (r: Result<Multisig>)
      ensures r == FirstWith(stateChannelsMap, appInstanceId)
    {
      var channels: Assoc<Multisig, StateChannel> := stateChannelsMap;
      while channels.Cons?
        invariant FirstWith(channels, appInstanceId) == FirstWith(stateChannelsMap, appInstanceId)
        decreases channels
      {
        if Contains(channels.value, appInstanceId) {
          return Ok(channels.value.multisigAddress);
        }
        channels := channels.rest;
      }
      return Err(AppDoesNotExist);
    }

    /** The first stored channel with the app decides: its proposal under that identity, or an error, also when only
        a later channel has such a proposal. */
    method GetAppInstanceProposal(appInstanceId: Hash) returns (r: Result<Proposal>)
      ensures r.Ok? <==> exists m, proposal :: FirstWith(stateChannelsMap, appInstanceId) == Ok(m)
                                               && ProposedIn(stateChannelsMap, m, appInstanceId, proposal)
      ensures r.Ok? ==> ProposedIn(stateChannelsMap, FirstWith(stateChannelsMap, appInstanceId).value, appInstanceId, r.value)
    {
      var multisig := GetMultisigAddressFromAppInstance(appInstanceId);
      if multisig.Err? {
        return Err(multisig.error);
      }
      var channel := GetStateChannel(multisig.value);
      if channel.Err? {
        return Err(channel.error);
      }
      var proposal := Lookup(channel.value.proposedAppInstances, appInstanceId);
      if proposal.None? {
        return Err(AppDoesNotExist);
      }
      assert ProposedIn(stateChannelsMap, multisig.value, appInstanceId, proposal.value);
      return Ok(proposal.value);
    }
  }

  function FirstWith(channels: Assoc<Multisig, StateChannel>, appInstanceId: Hash): Result<Multisig> {
    if channels.Nil? then Err(AppDoesNotExist)
    else if Contains(channels.value, appInstanceId) then Ok(channels.value.multisigAddress)
    else FirstWith(channels.rest, appInstanceId)
  }

  /** Every channel is stored under its own address. */
  ghost predicate StoreKeyed(channels: Assoc<Multisig, StateChannel>) {
    forall m :: Has(channels, m) ==> Lookup(channels, m).value.multisigAddress == m
  }

  /** In a store as saving leaves it, the lookup finds a channel with the app when there is one, and otherwise
      throws. */
  lemma {:induction false} FindsTheChannel(channels: Dict<Multisig, StateChannel>, appInstanceId: Hash)
    requires StoreKeyed(channels)
    ensures var r := FirstWith(channels, appInstanceId);
            && (r.Err? ==> forall m :: Has(channels, m) ==>
                  var channel := Lookup(channels, m).value;
                  && !Has(channel.proposedAppInstances, appInstanceId) && !Has(channel.appInstances, appInstanceId)
                  && (channel.freeBalanceAppInstance.Some? ==> channel.freeBalanceAppInstance.value.IdentityHash() != appInstanceId))
            && (r.Ok? ==> Has(channels, r.value))
            && (r.Ok? ==>
                  var channel := Lookup(channels, r.value).value;
                  || Has(channel.proposedAppInstances, appInstanceId)
                  || Has(channel.appInstances, appInstanceId)
                  || (channel.freeBalanceAppInstance.Some? && channel.freeBalanceAppInstance.value.IdentityHash() == appInstanceId))
  {
    if channels.Cons? {
      var rest: Dict<Multisig, StateChannel> := channels.rest;
      assert Has(channels, channels.key) && Lookup(channels, channels.key) == Some(channels.value);
      forall m | Has(rest, m)
        ensures Lookup(channels, m) == Lookup(rest, m) && Has(channels, m)
      {
      }
      forall m | Has(rest, m)
        ensures Lookup(rest, m).value.multisigAddress == m
      {
        assert Has(channels, m);
      }
      FindsTheChannel(rest, appInstanceId);
      var r := FirstWith(channels, appInstanceId);
      if r.Ok? {
        assert Has(channels, r.value) && Contains(Lookup(channels, r.value).value, appInstanceId);
      }
      if !Contains(channels.value, appInstanceId) && FirstWith(rest, appInstanceId).Err? {
        forall m | Has(channels, m)
          ensures !Contains(Lookup(channels, m).value, appInstanceId)
        {
          if m != channels.key {
            assert Has(rest, m) && Lookup(channels, m) == Lookup(rest, m);
          }
        }
      }
    }
  }

  /** The channels after a run of saves. */
  function Saved(saves: seq<StateChannel>): Dict<Multisig, StateChannel> {
    if saves == [] then Nil else
      var channel := saves[|saves| - 1];
      Put(Saved(saves[..|saves| - 1]), channel.multisigAddress, channel)
  }

  /** In every run of saves, every channel is stored under its own address, and under each address the channel that
      was saved for it last; so a lookup by an app finds the channel it was last saved in, if any has it. */
  lemma {:induction false} LastSaveCounts(saves: seq<StateChannel>, m: Multisig)
    ensures StoreKeyed(Saved(saves))
    ensures Has(Saved(saves), m) <==> exists j :: 0 <= j < |saves| && saves[j].multisigAddress == m
    ensures Has(Saved(saves), m) ==> exists i :: 0 <= i < |saves| && Lookup(Saved(saves), m) == Some(saves[i]) && saves[i].multisigAddress == m
                                                && forall j :: i < j < |saves| ==> saves[j].multisigAddress != m
  {
    if saves != [] {
      var n := |saves| - 1;
      LastSaveCounts(saves[..n], m);
      assert saves[..n] == saves[0..n];
      if saves[n].multisigAddress == m {
        assert Lookup(Saved(saves), m) == Some(saves[n]);
      } else if Has(Saved(saves), m) {
        var i :| 0 <= i < n && Lookup(Saved(saves[..n]), m) == Some(saves[..n][i]) && saves[..n][i].multisigAddress == m
                 && forall j :: i < j < n ==> saves[..n][j].multisigAddress != m;
        assert saves[i] == saves[..n][i];
        forall j | i < j < |saves|
          ensures saves[j].multisigAddress != m
        {
          if j < n { assert saves[j] == saves[..n][j]; }
        }
      }
    }
  }

  // ---- The stored form of a channel ----

  /** The Maps of a channel are stored as lists of their entries. */
  datatype StateChannelJson = StateChannelJson(
    multisigAddress: Multisig,
    userNeuteredExtendedKeys: seq<Xpub>,
    proposedAppInstances: seq<Entry<Hash, Proposal>>,
    appInstances: seq<Entry<Hash, AppInstance>>,
    freeBalanceAppInstance: Option<AppInstance>,
    monotonicNumProposedApps: nat,
    agreements: seq<Entry<Hash, Agreement>>)

  function ToJson(channel: StateChannel): StateChannelJson {
    StateChannelJson(channel.multisigAddress, channel.userNeuteredExtendedKeys, Entries(channel.proposedAppInstances),
                     Entries(channel.appInstances), channel.freeBalanceAppInstance, channel.monotonicNumProposedApps,
                     Entries(channel.agreements))
  }

  function FromJson(json: StateChannelJson): StateChannel {
    StateChannel(json.multisigAddress, json.userNeuteredExtendedKeys, FromEntries(json.proposedAppInstances),
                 FromEntries(json.appInstances), FromEntries(json.agreements), json.freeBalanceAppInstance,
                 json.monotonicNumProposedApps)
  }

  /** Storing a channel and reading it back gives the same channel, with everything in the same order; and only
      lists that name nothing twice are stored forms. */
  lemma JsonRoundTrip(channel: StateChannel, json: StateChannelJson)
    ensures FromJson(ToJson(channel)) == channel
    ensures ToJson(FromJson(json)) == json <==>
            DistinctKeys(json.proposedAppInstances) && DistinctKeys(json.appInstances) && DistinctKeys(json.agreements)
  {
    EntriesRoundTrip(channel.proposedAppInstances);
    EntriesRoundTrip(channel.appInstances);
    EntriesRoundTrip(channel.agreements);
    ListRoundTripIff(json.proposedAppInstances);
    ListRoundTripIff(json.appInstances);
    ListRoundTripIff(json.agreements);
  }
}
