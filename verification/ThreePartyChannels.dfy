/** The three-party channel over its whole life: virtual apps come and go, and every pass-through app gets a
    number of its own (engine/install-virtual-app.ts, engine/uninstall-virtual-app.ts). */
module ThreePartyChannels {
  import opened AppInstances
  import opened Dictionaries
  import opened Primitives
  import opened Results
  import opened StateChannels
  import opened VirtualApps

  datatype Event =
    | Installs(virtualApp: Hash, defaultOutcome: Outcome, params: InstallVirtualAppParams)
    | Uninstalls(passThrough: Hash)

  /** The pass-through app that an event installs into a channel, if any. */
  function PassThroughAt(env: Environment, channel: StateChannel, e: Event): Option<AppInstance> {
    match e
    case Uninstalls(_) => None
    case Installs(virtualApp, defaultOutcome, params) =>
      var passThrough := ConstructPassThrough(env, channel, virtualApp, defaultOutcome, params);
      if passThrough.Ok? then Some(passThrough.value) else None
  }

  function Happens(env: Environment, channel: StateChannel, e: Event): StateChannel {
    match e
    case Uninstalls(passThrough) => RemoveAppInstance(channel, passThrough)
    case Installs(_, _, _) =>
      match PassThroughAt(env, channel, e)
      case None => channel
      case Some(passThrough) => AddAppInstance(channel, passThrough)
  }

  function After(env: Environment, channel: StateChannel, events: seq<Event>): StateChannel {
    if events == [] then channel else
      Happens(env, After(env, channel, events[..|events| - 1]), events[|events| - 1])
  }

  /** Every app is stored under its identity and its number is below the counter. */
  ghost predicate NumbersBelow(channel: StateChannel) {
    forall h :: Has(channel.appInstances, h) ==>
      Lookup(channel.appInstances, h).value.IdentityHash() == h && h.channelNonce < channel.monotonicNumProposedApps
  }

  lemma {:induction false} AfterNumbersBelow(env: Environment, channel: StateChannel, events: seq<Event>)
    requires NumbersBelow(channel)
    ensures NumbersBelow(After(env, channel, events))
  {
    if events != [] {
      AfterNumbersBelow(env, channel, events[..|events| - 1]);
    }
  }

  /** A channel that began empty counts from one. */
  lemma {:induction false} CountsFromOne(env: Environment, multisig: Multisig, xpubs: seq<Xpub>, events: seq<Event>)
    ensures After(env, CreateEmptyChannel(multisig, xpubs), events).monotonicNumProposedApps > 0
  {
    if events != [] {
      CountsFromOne(env, multisig, xpubs, events[..|events| - 1]);
    }
  }

  /** In a channel that began empty, a new pass-through app never overwrites one that is live. */
  lemma PassThroughIsFresh(env: Environment, multisig: Multisig, xpubs: seq<Xpub>, events: seq<Event>, e: Event)
    ensures var channel := After(env, CreateEmptyChannel(multisig, xpubs), events);
            var passThrough := PassThroughAt(env, channel, e);
            passThrough.Some? ==> !Has(channel.appInstances, passThrough.value.IdentityHash())
  {
    AfterNumbersBelow(env, CreateEmptyChannel(multisig, xpubs), events);
  }

  lemma {:induction false} CounterGrows(env: Environment, channel: StateChannel, events: seq<Event>, i: nat)
    requires i < |events|
    ensures var before := After(env, channel, events[..i]);
            After(env, channel, events).monotonicNumProposedApps >=
            before.monotonicNumProposedApps + if PassThroughAt(env, before, events[i]).Some? then 1 else 0
  {
    var n := |events| - 1;
    if i < n {
      CounterGrows(env, channel, events[..n], i);
      assert events[..n][..i] == events[..i];
    }
  }

  /** No two pass-through apps ever installed in a channel have the same identity, not even after the first
      was uninstalled. */
  lemma PassThroughsDiffer(env: Environment, channel: StateChannel, events: seq<Event>, i: nat, j: nat)
    requires i < j < |events|
    ensures var first := PassThroughAt(env, After(env, channel, events[..i]), events[i]);
            var second := PassThroughAt(env, After(env, channel, events[..j]), events[j]);
            first.Some? && second.Some? ==> first.value.IdentityHash() != second.value.IdentityHash()
  {
    CounterGrows(env, channel, events[..j], i);
    assert events[..j][..i] == events[..i];
  }
}
