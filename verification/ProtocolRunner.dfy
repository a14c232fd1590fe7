/** The loop that drives one protocol script (engine/protocol-runner.ts). */
module ProtocolRunner {
  import opened Commitments
  import opened Engine
  import opened Primitives
  import opened VirtualApps

  function FreshNode(channels: Channels): Node {
    Node(0, [], {}, {}, {}, channels, false)
  }

  /** One turn of the loop: the script goes on, a wait takes the next reply, and one without a reply times out. */
  function TurnOf(keys: Keys, self: Xpub, script: Script, node: Node, replies: seq<Message>): Node
    requires node.pc < |script|
  {
    if script[node.pc].Receive? then
      if |node.inbox| < |replies| then node.(pc := node.pc + 1, inbox := node.inbox + [replies[|node.inbox|]])
      else node.(halted := true)
    else Execute(keys, self, node, script[node.pc])
  }

  /** The first n steps of a script, on these replies; a script that has thrown does nothing more. */
  function Played(keys: Keys, self: Xpub, script: Script, channels: Channels, replies: seq<Message>, n: nat): (node: Node)
    requires n <= |script|
    ensures node.pc <= n && (!node.halted ==> node.pc == n)
  {
    if n == 0 then FreshNode(channels) else
      var node := Played(keys, self, script, channels, replies, n - 1);
      if node.halted then node else TurnOf(keys, self, script, node, replies)
  }

  lemma TurnKeepsNode(keys: Keys, self: Xpub, script: Script, channels: Channels, node: Node, replies: seq<Message>)
    requires NodeOk(self, Party(script, channels), node) && node.pc < |script| && node.inbox <= replies
    ensures var node' := TurnOf(keys, self, script, node, replies);
            && NodeOk(self, Party(script, channels), node') && node'.inbox <= replies
            && (node'.halted || node'.pc == node.pc + 1)
  {
    if script[node.pc].Receive? {
      if |node.inbox| < |replies| {
        ReceiveKeepsNode(self, Party(script, channels), node, replies[|node.inbox|]);
      }
    } else {
      ExecuteKeepsNode(keys, self, Party(script, channels), node);
    }
  }

  /** `runProtocol`: it comes to the end of the script or to where it throws, having signed, verified and saved
      exactly what stands in the script up to there. */
  method RunProtocol(keys: Keys, self: Xpub, script: Script, channels: Channels, replies: seq<Message>) returns (node: Node)
    ensures node == Played(keys, self, script, channels, replies, |script|)
    ensures node.halted || node.pc == |script|
    ensures NodeOk(self, Party(script, channels), node)
    ensures node.inbox <= replies
  {
    node := FreshNode(channels);
    var i := 0;
    while i < |script| && !node.halted
      invariant i <= |script| && (!node.halted ==> node.pc == i)
      invariant NodeOk(self, Party(script, channels), node) && node.inbox <= replies
      invariant node == Played(keys, self, script, channels, replies, i)
    {
      TurnKeepsNode(keys, self, script, channels, node, replies);
      node := TurnOf(keys, self, script, node, replies);
      i := i + 1;
    }
    if node.halted {
      StaysHalted(keys, self, script, channels, replies, i, |script|);
    }
  }

  lemma {:induction false} StaysHalted(keys: Keys, self: Xpub, script: Script, channels: Channels, replies: seq<Message>, m: nat, n: nat)
    requires m <= n <= |script| && Played(keys, self, script, channels, replies, m).halted
    ensures Played(keys, self, script, channels, replies, n) == Played(keys, self, script, channels, replies, m)
  {
    if m < n {
      StaysHalted(keys, self, script, channels, replies, m, n - 1);
    }
  }

  lemma {:induction false} MoreReplies(keys: Keys, self: Xpub, script: Script, channels: Channels, replies: seq<Message>, more: seq<Message>, n: nat)
    requires n <= |script| && !Played(keys, self, script, channels, replies, n).halted
    ensures Played(keys, self, script, channels, replies + more, n) == Played(keys, self, script, channels, replies, n)
  {
    if n > 0 {
      MoreReplies(keys, self, script, channels, replies, more, n - 1);
      TurnWithMore(keys, self, script, Played(keys, self, script, channels, replies, n - 1), replies, more);
    }
  }

  lemma TurnWithMore(keys: Keys, self: Xpub, script: Script, node: Node, replies: seq<Message>, more: seq<Message>)
    requires node.pc < |script| && !TurnOf(keys, self, script, node, replies).halted
    ensures TurnOf(keys, self, script, node, replies + more) == TurnOf(keys, self, script, node, replies)
  {
  }

  /** In every run of a system, a party has got exactly as far as the runner gets on the messages that were
      delivered to it: the network, the other parties and the order of events reach it in no other way. */
  lemma {:induction false} OnlyMessagesMatter(sys: System, events: seq<Event>, p: Xpub)
    requires p in sys.parties
    ensures var (party, node) := (sys.parties[p], NodeOf(sys, events, p));
            && node.pc <= |party.script|
            && node.(halted := false) == Played(sys.keys, p, party.script, party.channels, node.inbox, node.pc)
  {
    RunOk(sys, events);
    var party := sys.parties[p];
    assert NodeOk(p, party, NodeOf(sys, events, p));
    if events != [] {
      var before, e := events[..|events| - 1], events[|events| - 1];
      OnlyMessagesMatter(sys, before, p);
      RunOk(sys, before);
      PlaysOn(sys, WorldAfter(sys, before), e, p);
    }
  }

  lemma PlaysOn(sys: System, w: World, e: Event, p: Xpub)
    requires p in sys.parties && p in w.nodes && p in Happen(sys, w, e).nodes
    requires w.nodes[p].pc <= |sys.parties[p].script|
    requires w.nodes[p].(halted := false) == Played(sys.keys, p, sys.parties[p].script, sys.parties[p].channels, w.nodes[p].inbox, w.nodes[p].pc)
    ensures var (party, node) := (sys.parties[p], Happen(sys, w, e).nodes[p]);
            && node.pc <= |party.script|
            && node.(halted := false) == Played(sys.keys, p, party.script, party.channels, node.inbox, node.pc)
  {
    if e.party == p && At(sys, w, p) {
      var party, node := sys.parties[p], w.nodes[p];
      if e.Delivers? && party.script[node.pc].Receive? {
        TakesReply(sys.keys, p, party.script, party.channels, node, e.message);
      } else if e.Runs? && !party.script[node.pc].Receive? {
        TakesStep(sys.keys, p, party.script, party.channels, node);
      }
    }
  }

  lemma TakesReply(keys: Keys, self: Xpub, script: Script, channels: Channels, node: Node, message: Message)
    requires node.pc < |script| && script[node.pc].Receive? && !node.halted
    requires node == Played(keys, self, script, channels, node.inbox, node.pc)
    ensures node.(pc := node.pc + 1, inbox := node.inbox + [message])
            == Played(keys, self, script, channels, node.inbox + [message], node.pc + 1)
  {
    MoreReplies(keys, self, script, channels, node.inbox, [message], node.pc);
  }

  lemma TakesStep(keys: Keys, self: Xpub, script: Script, channels: Channels, node: Node)
    requires node.pc < |script| && !script[node.pc].Receive? && !node.halted
    requires node == Played(keys, self, script, channels, node.inbox, node.pc)
    ensures var node' := Execute(keys, self, node, script[node.pc]);
            && node'.inbox == node.inbox && node'.pc <= |script|
            && (node'.halted ==> node' == node.(halted := true))
            && (!node'.halted ==> node'.pc == node.pc + 1 && node' == Played(keys, self, script, channels, node.inbox, node.pc + 1))
  {
  }
}
