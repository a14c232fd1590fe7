/** Runs in which nothing goes wrong: when every check finds what was sent, scripts come to their ends. */
module HonestRuns {
  import opened Commitments
  import opened Engine
  import opened Primitives
  import opened Results

  /** Step k sends no signature of the party's own that it has not made before. */
  ghost predicate SignsBefore(script: Script, k: nat)
    requires k < |script|
  {
    script[k].Send? ==>
      forall f :: f in script[k].fields && f.Mine? ==> exists j :: 0 <= j < k && script[j] == Sign(f.keyIndex, f.commitment)
  }

  /** None of the first n steps does. */
  ghost predicate SignsFirst(script: Script, n: nat)
    requires n <= |script|
  {
    n > 0 ==> SignsBefore(script, n - 1) && SignsFirst(script, n - 1)
  }

  lemma {:induction false} AllSignFirst(script: Script, n: nat)
    requires n <= |script| && forall k :: 0 <= k < n ==> SignsBefore(script, k)
    ensures SignsFirst(script, n)
  {
    if n > 0 {
      AllSignFirst(script, n - 1);
    }
  }

  lemma {:induction false} SignsFirstAt(script: Script, n: nat, k: nat)
    requires k < n <= |script| && SignsFirst(script, n)
    ensures SignsBefore(script, k)
  {
    if k < n - 1 {
      SignsFirstAt(script, n - 1, k);
    }
  }

  lemma SendsAll(p: Xpub, script: Script, node: Node)
    requires SignsFirst(script, |script|) && node.pc < |script| && script[node.pc].Send? && node.signed == SignedBy(p, script, node.pc)
    ensures forall s :: s in SentBy(p, script, node.pc + 1) && s !in SentBy(p, script, node.pc) ==> s in Emits(p, node, script[node.pc])
  {
    var fields := script[node.pc].fields;
    var message := ResolveAll(p, node, fields);
    PresentIn(message);
    forall s | s in SentBy(p, script, node.pc + 1) && s !in SentBy(p, script, node.pc)
      ensures s in Emits(p, node, script[node.pc])
    {
      SignsFirstAt(script, |script|, node.pc);
      var f :| f in fields && f.Mine? && s == Signature(p, f.keyIndex, f.commitment);
      var j :| 0 <= j < node.pc && script[j] == Sign(f.keyIndex, f.commitment);
      SignedOnce(p, script, node.pc, j);
      var i :| 0 <= i < |fields| && fields[i] == f;
      assert message[i] == Some(s);
    }
  }

  /** What a party has sent is on the network. */
  ghost predicate Out(sys: System, w: World, p: Xpub) {
    && p in sys.parties && p in w.nodes && w.nodes[p].pc <= |sys.parties[p].script|
    && SentBy(p, sys.parties[p].script, w.nodes[p].pc) <= w.sent
  }

  lemma ExecuteSends(keys: Keys, p: Xpub, script: Script, node: Node)
    requires SignsFirst(script, |script|) && node.pc < |script| && node.signed == SignedBy(p, script, node.pc) && !script[node.pc].Receive?
    ensures var node' := Execute(keys, p, node, script[node.pc]);
            node'.pc <= |script| && SentBy(p, script, node'.pc) <= SentBy(p, script, node.pc) + Emits(p, node, script[node.pc])
  {
    ExecuteMoves(keys, p, node, script[node.pc]);
    if script[node.pc].Send? {
      SendsAll(p, script, node);
    }
  }

  lemma StepSends(sys: System, w: World, e: Event, p: Xpub)
    requires Out(sys, w, p) && p in Happen(sys, w, e).nodes
    requires SignsFirst(sys.parties[p].script, |sys.parties[p].script|) && NodeOk(p, sys.parties[p], w.nodes[p])
    ensures Out(sys, Happen(sys, w, e), p)
  {
    if e.party == p && At(sys, w, p) && e.Runs? && !Current(sys, w, p).Receive? {
      ExecuteSends(sys.keys, p, sys.parties[p].script, w.nodes[p]);
    }
  }

  lemma {:induction false} AllSent(sys: System, events: seq<Event>, p: Xpub)
    requires p in sys.parties && SignsFirst(sys.parties[p].script, |sys.parties[p].script|)
    ensures Out(sys, WorldAfter(sys, events), p)
  {
    if events != [] {
      var before, e := events[..|events| - 1], events[|events| - 1];
      AllSent(sys, before, p);
      RunOk(sys, before);
      RunOk(sys, events);
      assert NodeOk(p, sys.parties[p], WorldAfter(sys, before).nodes[p]);
      StepSends(sys, WorldAfter(sys, before), e, p);
    }
  }

  /** The party has come to step n with these messages received. */
  predicate Reached(sys: System, events: seq<Event>, p: Xpub, n: nat, inbox: seq<Message>) {
    && p in sys.parties && p in WorldAfter(sys, events).nodes
    && var node := WorldAfter(sys, events).nodes[p];
       !node.halted && node.pc == n && node.inbox == inbox
  }

  /** Step k is no wait, and no check that fails on these messages. */
  predicate Passes(script: Script, k: nat, inbox: seq<Message>)
    requires k < |script|
  {
    && !script[k].Receive?
    && (script[k].Verify? ==>
          Slot(inbox, script[k].message, script[k].slot) == Some(Signature(script[k].signer, script[k].keyIndex, script[k].commitment)))
  }

  /** The party can go from step m to step n on its own. */
  predicate Passable(script: Script, m: nat, n: nat, inbox: seq<Message>) {
    && m <= n <= |script|
    && (m < n ==> Passes(script, n - 1, inbox) && Passable(script, m, n - 1, inbox))
  }

  lemma {:induction false} AllPass(script: Script, m: nat, n: nat, inbox: seq<Message>)
    requires m <= n <= |script| && forall k :: m <= k < n ==> Passes(script, k, inbox)
    ensures Passable(script, m, n, inbox)
  {
    if m < n {
      AllPass(script, m, n - 1, inbox);
    }
  }

  lemma {:induction false} PassableFrom(script: Script, m: nat, n: nat, inbox: seq<Message>)
    requires m < n && Passable(script, m, n, inbox)
    ensures Passes(script, m, inbox) && Passable(script, m + 1, n, inbox)
  {
    if m + 1 < n {
      PassableFrom(script, m, n - 1, inbox);
    }
  }

  /** What one party's events leave alone. */
  ghost predicate Beside(sys: System, events: seq<Event>, events': seq<Event>, p: Xpub) {
    var w, w' := WorldAfter(sys, events), WorldAfter(sys, events');
    && w.nodes.Keys == w'.nodes.Keys
    && (forall q :: q in w.nodes && q != p ==> w'.nodes[q] == w.nodes[q])
    && w.sent <= w'.sent
  }

  predicate Stays(sys: System, events: seq<Event>, events': seq<Event>, p: Xpub) {
    var w, w' := WorldAfter(sys, events), WorldAfter(sys, events');
    p in w.nodes && p in w'.nodes && w.nodes[p] == w'.nodes[p]
  }

  lemma {:induction false} Proceed(sys: System, events: seq<Event>, p: Xpub, m: nat, n: nat, inbox: seq<Message>) returns (events': seq<Event>)
    requires Reached(sys, events, p, m, inbox) && Passable(sys.parties[p].script, m, n, inbox)
    ensures Reached(sys, events', p, n, inbox)
    ensures Beside(sys, events, events', p)
    decreases n - m
  {
    events' := events;
    if m < n {
      PassableFrom(sys.parties[p].script, m, n, inbox);
      var next := events + [Runs(p)];
      assert next[..|next| - 1] == events;
      assert WorldAfter(sys, next) == Happen(sys, WorldAfter(sys, events), Runs(p));
      events' := Proceed(sys, next, p, m + 1, n, inbox);
    }
  }

  /** The network hands over a message. */
  lemma Hand(sys: System, events: seq<Event>, p: Xpub, n: nat, inbox: seq<Message>, message: Message) returns (events': seq<Event>)
    requires Reached(sys, events, p, n, inbox) && n < |sys.parties[p].script| && sys.parties[p].script[n].Receive?
    requires Deliverable(sys, WorldAfter(sys, events), message)
    ensures Reached(sys, events', p, n + 1, inbox + [message])
    ensures Beside(sys, events, events', p)
  {
    events' := events + [Delivers(p, message)];
    assert events'[..|events'| - 1] == events;
  }

  lemma {:induction false} SentOnce(p: Xpub, script: Script, n: nat, k: nat, f: Source)
    requires k < n <= |script| && script[k].Send? && f in script[k].fields && f.Mine?
    ensures Signature(p, f.keyIndex, f.commitment) in SentBy(p, script, n)
  {
    if k < n - 1 {
      SentOnce(p, script, n - 1, k, f);
    }
  }

  /** The message consists of some of these signatures. */
  predicate Within(message: Message, signatures: set<Signature>) {
    forall i :: 0 <= i < |message| && message[i].Some? ==> message[i].value in signatures
  }

  /** One party's turn: it goes on to step n and waits there, and the network hands the other party a message
      of signatures that are sent by then. */
  lemma Turn(sys: System, events: seq<Event>, p: Xpub, m: nat, n: nat, inbox: seq<Message>,
             q: Xpub, k: nat, box: seq<Message>, message: Message) returns (events': seq<Event>)
    requires p != q && Reached(sys, events, p, m, inbox) && SignsFirst(sys.parties[p].script, |sys.parties[p].script|) && Passable(sys.parties[p].script, m, n, inbox)
    requires Reached(sys, events, q, k, box) && k < |sys.parties[q].script| && sys.parties[q].script[k].Receive?
    requires Within(message, WorldAfter(sys, events).sent + SentBy(p, sys.parties[p].script, n))
    ensures Reached(sys, events', p, n, inbox) && Reached(sys, events', q, k + 1, box + [message])
    ensures forall x :: x in sys.parties && x != p && x != q ==> Stays(sys, events, events', x)
    ensures WorldAfter(sys, events).sent <= WorldAfter(sys, events').sent
    ensures SentBy(p, sys.parties[p].script, n) <= WorldAfter(sys, events').sent
  {
    RunOk(sys, events);
    var ran := Proceed(sys, events, p, m, n, inbox);
    AllSent(sys, ran, p);
    assert Out(sys, WorldAfter(sys, ran), p);
    assert Reached(sys, ran, q, k, box);
    events' := Hand(sys, ran, q, k, box, message);
  }
}
