/** The engine that runs protocol scripts, and the network between the parties (engine/protocol-runner.ts,
    node.ts). A script is what a protocol generator yields and does, step by step. The network may drop,
    delay, duplicate and replay signatures and mix them into any messages; it cannot forge an honest
    party's signature. A party may stop anywhere: a wait times out, a check throws, a process crashes. */
module Engine {
  import opened Commitments
  import opened Primitives
  import opened Results
  import opened StateChannels
  import opened VirtualApps

  /** A signature that a script refers to: its own, or a field of the n-th message it received. */
  datatype Source =
    | Mine(keyIndex: nat, commitment: Commitment)
    | Received(message: nat, slot: nat)

  /** What a signed commitment is stored under. */
  datatype Key =
    | ForInstall(id: Hash)
    | ForUpdate(id: Hash)
    | ForUninstall(id: Hash)
    | ForInstallVirtualApp(id: Hash)
    | ForWithdrawal(multisig: Multisig)

  datatype Instr =
    | Sign(keyIndex: nat, commitment: Commitment)
    | Send(to: Xpub, fields: seq<Source>, seqNo: int := UNASSIGNED_SEQ_NO)
    | Receive
    | Verify(signer: Xpub, keyIndex: nat, commitment: Commitment, message: nat, slot: nat)
    | SetCommitment(key: Key, commitment: Commitment, sources: seq<Source>)
    | Save(channel: StateChannel)

  type Script = seq<Instr>

  /** The signature fields of a message; a field may be missing. */
  type Message = seq<Option<Signature>>

  datatype Stored = Stored(key: Key, transaction: SignedTransaction)

  datatype Node = Node(
    pc: nat,
    inbox: seq<Message>,
    signed: set<Signature>,
    verified: set<Signature>,
    commitments: set<Stored>,
    store: Channels,
    halted: bool)

  /** An honest party: its script, and its store when the protocol starts. */
  datatype Party = Party(script: Script, channels: Channels)

  /** The honest parties. All other xpubs are under control of the network, which also knows some signatures
      from before. */
  datatype System = System(keys: Keys, parties: map<Xpub, Party>, known: set<Signature>)

  datatype World = World(nodes: map<Xpub, Node>, sent: set<Signature>)

  datatype Event =
    | Runs(party: Xpub)
    | Delivers(party: Xpub, message: Message)
    | Stops(party: Xpub)

  function Slot(inbox: seq<Message>, message: nat, slot: nat): Option<Signature> {
    if message < |inbox| && slot < |inbox[message]| then inbox[message][slot] else None
  }

  function Resolve(self: Xpub, node: Node, source: Source): Option<Signature> {
    match source
    case Mine(keyIndex, commitment) =>
      if Signature(self, keyIndex, commitment) in node.signed then Some(Signature(self, keyIndex, commitment)) else None
    case Received(message, slot) => Slot(node.inbox, message, slot)
  }

  function ResolveAll(self: Xpub, node: Node, sources: seq<Source>): Message {
    seq(|sources|, i requires 0 <= i < |sources| => Resolve(self, node, sources[i]))
  }

  function Present(message: Message): seq<Signature> {
    if message == [] then [] else
      Present(message[..|message| - 1]) + match message[|message| - 1] case None => [] case Some(s) => [s]
  }

  /** One step of a script other than a wait. */
  function Execute(keys: Keys, self: Xpub, node: Node, instr: Instr): Node
    requires !instr.Receive?
  {
    var next := node.(pc := node.pc + 1);
    match instr
    case Sign(keyIndex, commitment) => next.(signed := node.signed + {Signature(self, keyIndex, commitment)})
    case Send(_, _, _) => next
    case Verify(signer, keyIndex, commitment, message, slot) =>
      var s := Signature(signer, keyIndex, commitment);
      if Slot(node.inbox, message, slot) == Some(s) then next.(verified := node.verified + {s}) else node.(halted := true)
    case SetCommitment(key, commitment, sources) =>
      var transaction := GetSignedTransaction(keys, commitment, Present(ResolveAll(self, node, sources)));
      next.(commitments := node.commitments + {Stored(key, transaction)})
    case Save(channel) => next.(store := node.store[channel.multisigAddress := channel])
  }

  /** The signatures that a step puts on the network. */
  function Emits(self: Xpub, node: Node, instr: Instr): set<Signature> {
    match instr
    case Send(_, fields, _) => set s | s in Present(ResolveAll(self, node, fields))
    case _ => {}
  }

  /** A message the network can deliver: honest signatures in it were sent or known before. */
  predicate Deliverable(sys: System, w: World, message: Message) {
    forall i :: 0 <= i < |message| && message[i].Some? ==>
      message[i].value in w.sent || message[i].value in sys.known || message[i].value.signer !in sys.parties
  }

  /** The party is at this instruction and has not stopped. */
  predicate At(sys: System, w: World, p: Xpub) {
    && p in sys.parties && p in w.nodes
    && !w.nodes[p].halted && w.nodes[p].pc < |sys.parties[p].script|
  }

  function Current(sys: System, w: World, p: Xpub): Instr
    requires At(sys, w, p)
  {
    sys.parties[p].script[w.nodes[p].pc]
  }

  /** One event; it changes nothing when it is not possible. */
  function Happen(sys: System, w: World, e: Event): World {
    var p := e.party;
    if !At(sys, w, p) then w else
    var node, instr := w.nodes[p], Current(sys, w, p);
    match e
    case Runs(_) =>
      if instr.Receive? then w
      else World(w.nodes[p := Execute(sys.keys, p, node, instr)], w.sent + Emits(p, node, instr))
    case Delivers(_, message) =>
      if !instr.Receive? || !Deliverable(sys, w, message) then w
      else w.(nodes := w.nodes[p := node.(pc := node.pc + 1, inbox := node.inbox + [message])])
    case Stops(_) => w.(nodes := w.nodes[p := node.(halted := true)])
  }

  function Start(sys: System): World {
    World(map p | p in sys.parties :: Node(0, [], {}, {}, {}, sys.parties[p].channels, false), {})
  }

  /** The world after a run: any sequence of events. */
  function WorldAfter(sys: System, events: seq<Event>): World {
    if events == [] then Start(sys) else Happen(sys, WorldAfter(sys, events[..|events| - 1]), events[|events| - 1])
  }

  // ---- What a party has done is what stands in its script before its program counter ----

  function SignedBy(p: Xpub, script: Script, n: nat): set<Signature>
    requires n <= |script|
  {
    if n == 0 then {} else
      SignedBy(p, script, n - 1) +
      match script[n - 1]
      case Sign(keyIndex, commitment) => {Signature(p, keyIndex, commitment)}
      case _ => {}
  }

  function VerifiedBy(script: Script, n: nat): set<Signature>
    requires n <= |script|
  {
    if n == 0 then {} else
      VerifiedBy(script, n - 1) +
      match script[n - 1]
      case Verify(signer, keyIndex, commitment, _, _) => {Signature(signer, keyIndex, commitment)}
      case _ => {}
  }

  /** The party's own signatures among what it sent. */
  function SentBy(p: Xpub, script: Script, n: nat): set<Signature>
    requires n <= |script|
  {
    if n == 0 then {} else
      SentBy(p, script, n - 1) +
      match script[n - 1]
      case Send(_, fields, _) => set f | f in fields && f.Mine? :: Signature(p, f.keyIndex, f.commitment)
      case _ => {}
  }

  /** The store after the first n steps. */
  function StoreAfter(script: Script, n: nat, channels: Channels): Channels
    requires n <= |script|
  {
    if n == 0 then channels else
      var before := StoreAfter(script, n - 1, channels);
      if script[n - 1].Save? then before[script[n - 1].channel.multisigAddress := script[n - 1].channel] else before
  }

  /** Where a signature can have come from: the network, which has it of its own, or its honest signer, who
      has already sent it. */
  predicate Sourced(sys: System, w: World, s: Signature) {
    s.signer in sys.parties && s !in sys.known ==>
      && s.signer in w.nodes
      && w.nodes[s.signer].pc <= |sys.parties[s.signer].script|
      && s in SentBy(s.signer, sys.parties[s.signer].script, w.nodes[s.signer].pc)
  }

  predicate NodeOk(p: Xpub, party: Party, node: Node) {
    && node.pc <= |party.script|
    && node.signed == SignedBy(p, party.script, node.pc)
    && node.verified == VerifiedBy(party.script, node.pc)
    && node.store == StoreAfter(party.script, node.pc, party.channels)
  }

  /** The network can account for all that a party received and verified. */
  ghost predicate NodeSourced(sys: System, w: World, node: Node) {
    && (forall m: nat, slot: nat :: Slot(node.inbox, m, slot).Some? ==> Sourced(sys, w, Slot(node.inbox, m, slot).value))
    && (forall s :: s in node.verified ==> Sourced(sys, w, s))
  }

  ghost predicate WorldOk(sys: System, w: World) {
    && w.nodes.Keys == sys.parties.Keys
    && (forall p :: p in sys.parties ==> NodeOk(p, sys.parties[p], w.nodes[p]))
    && (forall p :: p in sys.parties ==> NodeSourced(sys, w, w.nodes[p]))
    && (forall s :: s in w.sent ==> Sourced(sys, w, s))
  }

  lemma ExecuteKeepsNode(keys: Keys, p: Xpub, party: Party, node: Node)
    requires NodeOk(p, party, node) && node.pc < |party.script| && !party.script[node.pc].Receive?
    ensures NodeOk(p, party, Execute(keys, p, node, party.script[node.pc]))
  {
  }

  lemma ReceiveKeepsNode(p: Xpub, party: Party, node: Node, message: Message)
    requires NodeOk(p, party, node) && node.pc < |party.script| && party.script[node.pc].Receive?
    ensures NodeOk(p, party, node.(pc := node.pc + 1, inbox := node.inbox + [message]))
  {
  }

  /** Programs only move forward. */
  ghost predicate Later(sys: System, w: World, w': World) {
    && w.nodes.Keys == w'.nodes.Keys == sys.parties.Keys
    && forall p :: p in sys.parties ==> w.nodes[p].pc <= w'.nodes[p].pc <= |sys.parties[p].script|
  }

  lemma {:induction false} SentByGrows(p: Xpub, script: Script, n: nat, n': nat)
    requires n <= n' <= |script|
    ensures SentBy(p, script, n) <= SentBy(p, script, n')
  {
    if n < n' {
      SentByGrows(p, script, n, n' - 1);
    }
  }

  lemma SourcedLater(sys: System, w: World, w': World, s: Signature)
    requires Later(sys, w, w') && Sourced(sys, w, s)
    ensures Sourced(sys, w', s)
  {
    if s.signer in sys.parties && s !in sys.known {
      SentByGrows(s.signer, sys.parties[s.signer].script, w.nodes[s.signer].pc, w'.nodes[s.signer].pc);
    }
  }

  lemma {:induction false} PresentIn(message: Message)
    ensures forall s :: s in Present(message) <==> exists i :: 0 <= i < |message| && message[i] == Some(s)
  {
    if message != [] {
      var n := |message| - 1;
      PresentIn(message[..n]);
      forall s
        ensures s in Present(message) <==> exists i :: 0 <= i < |message| && message[i] == Some(s)
      {
        if s in Present(message[..n]) {
          var i :| 0 <= i < n && message[..n][i] == Some(s);
          assert message[i] == Some(s);
        }
        if i :| 0 <= i < |message| && message[i] == Some(s) {
          assert i < n ==> message[..n][i] == Some(s);
        }
      }
    }
  }

  lemma NodeSourcedLater(sys: System, w: World, w': World, node: Node)
    requires Later(sys, w, w') && NodeSourced(sys, w, node)
    ensures NodeSourced(sys, w', node)
  {
    forall m: nat, slot: nat | Slot(node.inbox, m, slot).Some?
      ensures Sourced(sys, w', Slot(node.inbox, m, slot).value)
    {
      SourcedLater(sys, w, w', Slot(node.inbox, m, slot).value);
    }
    forall s | s in node.verified
      ensures Sourced(sys, w', s)
    {
      SourcedLater(sys, w, w', s);
    }
  }

  lemma ExecuteMoves(keys: Keys, p: Xpub, node: Node, instr: Instr)
    requires !instr.Receive?
    ensures var node' := Execute(keys, p, node, instr);
            node.pc <= node'.pc && (instr.Send? ==> node'.pc == node.pc + 1) && node'.pc <= node.pc + 1
  {
  }

  predicate InInbox(inbox: seq<Message>, s: Signature) {
    exists m: nat, slot: nat | m < |inbox| && slot < |inbox[m]| :: Slot(inbox, m, slot) == Some(s)
  }

  /** A step that verifies only what was received, and sends only that and the party's own signatures. */
  ghost predicate Derives(p: Xpub, script: Script, node: Node, node': Node, emitted: set<Signature>) {
    && node'.inbox == node.inbox
    && node.pc <= node'.pc <= |script|
    && (forall s :: s in node'.verified ==> s in node.verified || InInbox(node.inbox, s))
    && (forall s :: s in emitted ==> InInbox(node.inbox, s) || (s.signer == p && s in SentBy(p, script, node'.pc)))
  }

  lemma ExecuteDerives(keys: Keys, p: Xpub, script: Script, node: Node)
    requires node.pc < |script| && !script[node.pc].Receive?
    ensures Derives(p, script, node, Execute(keys, p, node, script[node.pc]), Emits(p, node, script[node.pc]))
  {
    var instr := script[node.pc];
    var node' := Execute(keys, p, node, instr);
    if instr.Send? {
      var message := ResolveAll(p, node, instr.fields);
      PresentIn(message);
      forall s | s in Emits(p, node, instr)
        ensures InInbox(node.inbox, s) || (s.signer == p && s in SentBy(p, script, node'.pc))
      {
        var i :| 0 <= i < |message| && message[i] == Some(s);
        assert instr.fields[i] in instr.fields;
        match instr.fields[i] {
          case Mine(keyIndex, commitment) =>
          case Received(m, slot) =>
            assert Slot(node.inbox, m, slot) == Some(s);
        }
      }
    } else if instr.Verify? {
      assert node'.verified != node.verified ==>
        Slot(node.inbox, instr.message, instr.slot) == Some(Signature(instr.signer, instr.keyIndex, instr.commitment));
    }
  }

  lemma DerivedSourced(sys: System, w: World, p: Xpub, node: Node, node': Node, emitted: set<Signature>)
    requires p in sys.parties && p in w.nodes && w.nodes[p] == node' && Derives(p, sys.parties[p].script, node, node', emitted)
    requires NodeSourced(sys, w, node)
    ensures NodeSourced(sys, w, node')
    ensures forall s :: s in emitted ==> Sourced(sys, w, s)
  {
  }

  lemma ReceiveKeepsSourced(sys: System, w: World, node: Node, message: Message)
    requires NodeSourced(sys, w, node)
    requires forall i :: 0 <= i < |message| && message[i].Some? ==> Sourced(sys, w, message[i].value)
    ensures NodeSourced(sys, w, node.(pc := node.pc + 1, inbox := node.inbox + [message]))
  {
    var inbox: seq<Message> := node.inbox + [message];
    forall m: nat, slot: nat | Slot(inbox, m, slot).Some?
      ensures Sourced(sys, w, Slot(inbox, m, slot).value)
    {
      assert m < |node.inbox| ==> Slot(node.inbox, m, slot) == Slot(inbox, m, slot);
    }
  }

  /** Only one party has moved. */
  lemma OneMoves(sys: System, w: World, w': World, p: Xpub)
    requires WorldOk(sys, w) && p in sys.parties && Later(sys, w, w')
    requires w'.nodes == w.nodes[p := w'.nodes[p]]
    requires NodeOk(p, sys.parties[p], w'.nodes[p]) && NodeSourced(sys, w', w'.nodes[p])
    requires forall s :: s in w'.sent && s !in w.sent ==> Sourced(sys, w', s)
    ensures WorldOk(sys, w')
  {
    forall q | q in sys.parties && q != p
      ensures NodeSourced(sys, w', w'.nodes[q])
    {
      NodeSourcedLater(sys, w, w', w.nodes[q]);
    }
    forall s | s in w'.sent
      ensures Sourced(sys, w', s)
    {
      if s in w.sent {
        SourcedLater(sys, w, w', s);
      }
    }
  }

  lemma MovesLater(sys: System, w: World, w': World, p: Xpub)
    requires WorldOk(sys, w) && p in sys.parties && w'.nodes.Keys == w.nodes.Keys
    requires w'.nodes == w.nodes[p := w'.nodes[p]]
    requires w.nodes[p].pc <= w'.nodes[p].pc <= |sys.parties[p].script|
    ensures Later(sys, w, w')
    ensures NodeSourced(sys, w', w.nodes[p])
  {
    forall q | q in sys.parties
      ensures w.nodes[q].pc <= w'.nodes[q].pc <= |sys.parties[q].script|
    {
      assert NodeOk(q, sys.parties[q], w.nodes[q]);
    }
    NodeSourcedLater(sys, w, w', w.nodes[p]);
  }

  lemma RunsKeeps(sys: System, w: World, p: Xpub, node': Node, emitted: set<Signature>)
    requires WorldOk(sys, w) && p in sys.parties && NodeOk(p, sys.parties[p], node')
    requires Derives(p, sys.parties[p].script, w.nodes[p], node', emitted)
    ensures WorldOk(sys, World(w.nodes[p := node'], w.sent + emitted))
  {
    var w' := World(w.nodes[p := node'], w.sent + emitted);
    MovesLater(sys, w, w', p);
    DerivedSourced(sys, w', p, w.nodes[p], node', emitted);
    OneMoves(sys, w, w', p);
  }

  lemma DeliverableSourced(sys: System, w: World, w': World, message: Message)
    requires WorldOk(sys, w) && Later(sys, w, w') && Deliverable(sys, w, message)
    ensures forall i :: 0 <= i < |message| && message[i].Some? ==> Sourced(sys, w', message[i].value)
  {
    forall i | 0 <= i < |message| && message[i].Some?
      ensures Sourced(sys, w', message[i].value)
    {
      if message[i].value in w.sent {
        SourcedLater(sys, w, w', message[i].value);
      }
    }
  }

  lemma DeliveredKeeps(sys: System, w: World, p: Xpub, message: Message)
    requires WorldOk(sys, w) && At(sys, w, p) && Current(sys, w, p).Receive? && Deliverable(sys, w, message)
    ensures WorldOk(sys, w.(nodes := w.nodes[p := w.nodes[p].(pc := w.nodes[p].pc + 1, inbox := w.nodes[p].inbox + [message])]))
  {
    var w' := w.(nodes := w.nodes[p := w.nodes[p].(pc := w.nodes[p].pc + 1, inbox := w.nodes[p].inbox + [message])]);
    ReceiveKeepsNode(p, sys.parties[p], w.nodes[p], message);
    MovesLater(sys, w, w', p);
    DeliverableSourced(sys, w, w', message);
    ReceiveKeepsSourced(sys, w', w.nodes[p], message);
    OneMoves(sys, w, w', p);
  }

  lemma Delivered(sys: System, w: World, p: Xpub, message: Message)
    requires At(sys, w, p) && Current(sys, w, p).Receive? && Deliverable(sys, w, message)
    ensures Happen(sys, w, Delivers(p, message))
            == w.(nodes := w.nodes[p := w.nodes[p].(pc := w.nodes[p].pc + 1, inbox := w.nodes[p].inbox + [message])])
  {
  }

  lemma DeliversKeeps(sys: System, w: World, p: Xpub, message: Message)
    requires WorldOk(sys, w) && At(sys, w, p) && Current(sys, w, p).Receive? && Deliverable(sys, w, message)
    ensures WorldOk(sys, Happen(sys, w, Delivers(p, message)))
  {
    DeliveredKeeps(sys, w, p, message);
    Delivered(sys, w, p, message);
  }

  lemma StepKeeps(sys: System, w: World, e: Event)
    requires WorldOk(sys, w)
    ensures WorldOk(sys, Happen(sys, w, e))
  {
    var p := e.party;
    if At(sys, w, p) {
      match e {
        case Runs(_) => 
          var node, instr := w.nodes[p], Current(sys, w, p);
          if !instr.Receive? {
            ExecuteKeepsNode(sys.keys, p, sys.parties[p], node);
            ExecuteDerives(sys.keys, p, sys.parties[p].script, node);
            RunsKeeps(sys, w, p, Execute(sys.keys, p, node, instr), Emits(p, node, instr));
          }
        case Delivers(_, message) =>
          if Current(sys, w, p).Receive? && Deliverable(sys, w, message) { DeliversKeeps(sys, w, p, message); }
        case Stops(_) =>
          var w' := Happen(sys, w, e);
          MovesLater(sys, w, w', p);
          OneMoves(sys, w, w', p);
      }
    }
  }

  /** In every run, whatever the network does and wherever parties stop: each party has signed and verified
      exactly what stands in its script before its program counter, its store is as the saves so far left
      it, and every signature of an honest party that anybody has verified, unless it was known before,
      was sent by that party first. */
  lemma {:induction false} RunOk(sys: System, events: seq<Event>)
    ensures WorldOk(sys, WorldAfter(sys, events))
  {
    if events == [] {
      var w := Start(sys);
      forall p | p in sys.parties
        ensures NodeOk(p, sys.parties[p], w.nodes[p])
      {
      }
    } else {
      RunOk(sys, events[..|events| - 1]);
      StepKeeps(sys, WorldAfter(sys, events[..|events| - 1]), events[|events| - 1]);
    }
  }

  // ---- Reading a script ----

  lemma {:induction false} SignedAt(p: Xpub, script: Script, n: nat, s: Signature) returns (k: nat)
    requires n <= |script| && s in SignedBy(p, script, n)
    ensures k < n && script[k] == Sign(s.keyIndex, s.commitment) && s.signer == p
  {
    k := n - 1;
    if s in SignedBy(p, script, n - 1) {
      k := SignedAt(p, script, n - 1, s);
    }
  }

  lemma {:induction false} SignedOnce(p: Xpub, script: Script, n: nat, k: nat)
    requires k < n <= |script| && script[k].Sign?
    ensures Signature(p, script[k].keyIndex, script[k].commitment) in SignedBy(p, script, n)
  {
    if k < n - 1 {
      SignedOnce(p, script, n - 1, k);
    }
  }

  lemma {:induction false} VerifiedOnce(script: Script, n: nat, k: nat)
    requires k < n <= |script| && script[k].Verify?
    ensures Signature(script[k].signer, script[k].keyIndex, script[k].commitment) in VerifiedBy(script, n)
  {
    if k < n - 1 {
      VerifiedOnce(script, n - 1, k);
    }
  }

  lemma {:induction false} SentAt(p: Xpub, script: Script, n: nat, s: Signature) returns (k: nat)
    requires n <= |script| && s in SentBy(p, script, n)
    ensures k < n && script[k].Send? && Mine(s.keyIndex, s.commitment) in script[k].fields && s.signer == p
  {
    k := n - 1;
    if s in SentBy(p, script, n - 1) {
      k := SentAt(p, script, n - 1, s);
    }
  }

  /** A script that saves nowhere but from step k on leaves the store alone until then. */
  lemma {:induction false} StoreUntil(script: Script, n: nat, k: nat, channels: Channels)
    requires n <= k && n <= |script| && forall j :: 0 <= j < k && j < |script| ==> !script[j].Save?
    ensures StoreAfter(script, n, channels) == channels
  {
    if n > 0 {
      StoreUntil(script, n - 1, k, channels);
    }
  }

  /** Nor does it change any more after the last save. */
  lemma {:induction false} StoreFrom(script: Script, n: nat, k: nat, channels: Channels)
    requires k <= n <= |script| && forall j :: k <= j < |script| ==> !script[j].Save?
    ensures StoreAfter(script, n, channels) == StoreAfter(script, k, channels)
  {
    if n > k {
      StoreFrom(script, n - 1, k, channels);
    }
  }

  // ---- What holds of an honest party in every run ----

  function NodeOf(sys: System, events: seq<Event>, p: Xpub): Node
    requires p in sys.parties
  {
    RunOk(sys, events);
    WorldAfter(sys, events).nodes[p]
  }

  /** The store of a party whose script saves once, at step k, and what has been checked by then. */
  lemma SavesOnce(sys: System, events: seq<Event>, p: Xpub, k: nat)
    requires p in sys.parties && k < |sys.parties[p].script| && sys.parties[p].script[k].Save?
    requires forall j :: 0 <= j < |sys.parties[p].script| && sys.parties[p].script[j].Save? ==> j == k
    ensures var (party, node) := (sys.parties[p], NodeOf(sys, events, p));
            var post := party.script[k].channel;
            && node.store == (if node.pc <= k then party.channels else party.channels[post.multisigAddress := post])
            && (node.pc > k ==> forall j :: 0 <= j < k && party.script[j].Verify? ==>
                  Signature(party.script[j].signer, party.script[j].keyIndex, party.script[j].commitment) in node.verified)
  {
    RunOk(sys, events);
    var party, node := sys.parties[p], NodeOf(sys, events, p);
    assert NodeOk(p, party, node);
    if node.pc <= k {
      StoreUntil(party.script, node.pc, k, party.channels);
    } else {
      StoreUntil(party.script, k, k, party.channels);
      StoreFrom(party.script, node.pc, k + 1, party.channels);
      forall j | 0 <= j < k && party.script[j].Verify?
        ensures Signature(party.script[j].signer, party.script[j].keyIndex, party.script[j].commitment) in node.verified
      {
        VerifiedOnce(party.script, node.pc, j);
      }
    }
  }

  /** The store of a party whose script saves three times in a row, from step k on, and what has been checked
      by then. */
  lemma SavesThrice(sys: System, events: seq<Event>, p: Xpub, k: nat)
    requires p in sys.parties && k + 3 <= |sys.parties[p].script|
    requires forall j :: 0 <= j < |sys.parties[p].script| ==> (sys.parties[p].script[j].Save? <==> k <= j < k + 3)
    ensures var (party, node) := (sys.parties[p], NodeOf(sys, events, p));
            && node.pc <= |party.script|
            && (node.pc <= k ==> node.store == party.channels)
            && (node.pc >= k + 3 ==>
                  node.store == SaveAll(party.channels, party.script[k].channel, party.script[k + 1].channel, party.script[k + 2].channel))
            && (node.pc > k ==> forall j :: 0 <= j < k && party.script[j].Verify? ==>
                  Signature(party.script[j].signer, party.script[j].keyIndex, party.script[j].commitment) in node.verified)
  {
    RunOk(sys, events);
    var party, node := sys.parties[p], NodeOf(sys, events, p);
    assert NodeOk(p, party, node);
    if node.pc <= k {
      StoreUntil(party.script, node.pc, k, party.channels);
    } else {
      forall j | 0 <= j < k && party.script[j].Verify?
        ensures Signature(party.script[j].signer, party.script[j].keyIndex, party.script[j].commitment) in node.verified
      {
        VerifiedOnce(party.script, node.pc, j);
      }
      if node.pc >= k + 3 {
        StoreUntil(party.script, k, k, party.channels);
        StoreFrom(party.script, node.pc, k + 3, party.channels);
        assert StoreAfter(party.script, k + 1, party.channels) == party.channels[party.script[k].channel.multisigAddress := party.script[k].channel];
      }
    }
  }

  /** An honest party's signature that somebody verified, and that the network did not know before, stands in
      a message that the party has sent. */
  lemma VerifiedWasSent(sys: System, events: seq<Event>, p: Xpub, s: Signature) returns (k: nat)
    requires p in sys.parties && s in NodeOf(sys, events, p).verified
    requires s.signer in sys.parties && s !in sys.known
    ensures k < NodeOf(sys, events, s.signer).pc <= |sys.parties[s.signer].script|
    ensures var step := sys.parties[s.signer].script[k];
            step.Send? && Mine(s.keyIndex, s.commitment) in step.fields
    ensures s in SentBy(s.signer, sys.parties[s.signer].script, NodeOf(sys, events, s.signer).pc)
  {
    RunOk(sys, events);
    var w := WorldAfter(sys, events);
    assert NodeSourced(sys, w, w.nodes[p]);
    assert Sourced(sys, w, s);
    k := SentAt(s.signer, sys.parties[s.signer].script, w.nodes[s.signer].pc, s);
  }
}
