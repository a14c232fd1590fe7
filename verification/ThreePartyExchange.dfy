/** The message pattern that both virtual app protocols follow: initiator to intermediary to responder and back,
    twice. When every check on the way finds what was sent, all three scripts run to their ends. */
module ThreePartyExchange {
  import opened Engine
  import opened HonestRuns
  import opened Primitives

  /** The eight messages. */
  datatype Messages = Messages(m1: Message, m2: Message, m3: Message, m4: Message, m5: Message, m6: Message, m7: Message, m8: Message)

  /** The steps at which each script waits for a message after its first, and its length. The initiator starts
      on its own, the other two by waiting. */
  datatype Waits = Waits(i4: nat, i8: nat, i: nat, m3: nat, m5: nat, m7: nat, m: nat, r6: nat, r: nat)

  ghost predicate InitiatorFits(script: Script, w: Waits, x: Messages) {
    && |script| == w.i && SignsFirst(script, w.i) && w.i4 < w.i8 < w.i && script[w.i4].Receive? && script[w.i8].Receive?
    && Passable(script, 0, w.i4, []) && Passable(script, w.i4 + 1, w.i8, [x.m4]) && Passable(script, w.i8 + 1, w.i, [x.m4, x.m8])
  }

  ghost predicate IntermediaryFits(script: Script, w: Waits, x: Messages) {
    && |script| == w.m && SignsFirst(script, w.m) && 0 < w.m3 < w.m5 < w.m7 < w.m
    && script[0].Receive? && script[w.m3].Receive? && script[w.m5].Receive? && script[w.m7].Receive?
    && Passable(script, 1, w.m3, [x.m1]) && Passable(script, w.m3 + 1, w.m5, [x.m1, x.m3])
    && Passable(script, w.m5 + 1, w.m7, [x.m1, x.m3, x.m5]) && Passable(script, w.m7 + 1, w.m, [x.m1, x.m3, x.m5, x.m7])
  }

  ghost predicate ResponderFits(script: Script, w: Waits, x: Messages) {
    && |script| == w.r && SignsFirst(script, w.r) && 0 < w.r6 < w.r && script[0].Receive? && script[w.r6].Receive?
    && Passable(script, 1, w.r6, [x.m2]) && Passable(script, w.r6 + 1, w.r, [x.m2, x.m6])
  }

  /** Each message holds only signatures that its sender, or somebody before it, has sent. */
  predicate MessagesSent(i: Xpub, m: Xpub, r: Xpub, si: Script, sm: Script, sr: Script, w: Waits, x: Messages)
    requires w.i4 <= w.i8 <= |si| == w.i && w.m3 <= w.m5 <= w.m7 <= |sm| == w.m && w.r6 <= |sr| == w.r
  {
    && Within(x.m1, SentBy(i, si, w.i4))
    && Within(x.m2, SentBy(i, si, w.i4) + SentBy(m, sm, w.m3))
    && Within(x.m3, SentBy(r, sr, w.r6))
    && Within(x.m4, SentBy(r, sr, w.r6) + SentBy(m, sm, w.m5))
    && Within(x.m5, SentBy(i, si, w.i8))
    && Within(x.m6, SentBy(i, si, w.i8) + SentBy(m, sm, w.m7))
    && Within(x.m7, SentBy(r, sr, w.r))
    && Within(x.m8, SentBy(r, sr, w.r) + SentBy(m, sm, w.m))
  }

  ghost predicate Ready(sys: System, i: Xpub, m: Xpub, r: Xpub, w: Waits, x: Messages) {
    && i != m && i != r && m != r
    && i in sys.parties && m in sys.parties && r in sys.parties
    && InitiatorFits(sys.parties[i].script, w, x)
    && IntermediaryFits(sys.parties[m].script, w, x)
    && ResponderFits(sys.parties[r].script, w, x)
    && MessagesSent(i, m, r, sys.parties[i].script, sys.parties[m].script, sys.parties[r].script, w, x)
  }

  lemma FirstTwoTurns(sys: System, i: Xpub, m: Xpub, r: Xpub, w: Waits, x: Messages) returns (events: seq<Event>)
    requires Ready(sys, i, m, r, w, x)
    ensures Reached(sys, events, i, w.i4, []) && Reached(sys, events, m, w.m3, [x.m1]) && Reached(sys, events, r, 1, [x.m2])
  {
    var first := Turn(sys, [], i, 0, w.i4, [], m, 0, [], x.m1);
    assert Stays(sys, [], first, r) && Reached(sys, first, r, 0, []);
    events := Turn(sys, first, m, 1, w.m3, [x.m1], r, 0, [], x.m2);
    assert Stays(sys, first, events, i);
  }

  lemma FirstHalf(sys: System, i: Xpub, m: Xpub, r: Xpub, w: Waits, x: Messages) returns (events: seq<Event>)
    requires Ready(sys, i, m, r, w, x)
    ensures Reached(sys, events, i, w.i4 + 1, [x.m4])
    ensures Reached(sys, events, m, w.m5, [x.m1, x.m3])
    ensures Reached(sys, events, r, w.r6, [x.m2])
    ensures SentBy(r, sys.parties[r].script, w.r6) <= WorldAfter(sys, events).sent
  {
    var before := FirstTwoTurns(sys, i, m, r, w, x);
    var next := Turn(sys, before, r, 1, w.r6, [x.m2], m, w.m3, [x.m1], x.m3);
    assert Stays(sys, before, next, i) && Reached(sys, next, i, w.i4, []);
    events := Turn(sys, next, m, w.m3 + 1, w.m5, [x.m1, x.m3], i, w.i4, [], x.m4);
    assert Stays(sys, next, events, r);
  }

  lemma SecondHalf(sys: System, i: Xpub, m: Xpub, r: Xpub, w: Waits, x: Messages, first: seq<Event>) returns (events: seq<Event>)
    requires Ready(sys, i, m, r, w, x)
    requires Reached(sys, first, i, w.i4 + 1, [x.m4]) && Reached(sys, first, m, w.m5, [x.m1, x.m3]) && Reached(sys, first, r, w.r6, [x.m2])
    ensures Reached(sys, events, i, w.i8 + 1, [x.m4, x.m8])
    ensures Reached(sys, events, m, w.m, [x.m1, x.m3, x.m5, x.m7])
    ensures Reached(sys, events, r, w.r, [x.m2, x.m6])
  {
    events := Turn(sys, first, i, w.i4 + 1, w.i8, [x.m4], m, w.m5, [x.m1, x.m3], x.m5);
    assert Stays(sys, first, events, r) && Reached(sys, events, r, w.r6, [x.m2]);
    var next := Turn(sys, events, m, w.m5 + 1, w.m7, [x.m1, x.m3, x.m5], r, w.r6, [x.m2], x.m6);
    assert Stays(sys, events, next, i) && Reached(sys, next, i, w.i8, [x.m4]);
    events := Turn(sys, next, r, w.r6 + 1, w.r, [x.m2, x.m6], m, w.m7, [x.m1, x.m3, x.m5], x.m7);
    assert Stays(sys, next, events, i) && Reached(sys, events, i, w.i8, [x.m4]);
    next := Turn(sys, events, m, w.m7 + 1, w.m, [x.m1, x.m3, x.m5, x.m7], i, w.i8, [x.m4], x.m8);
    assert Stays(sys, events, next, r);
    events := next;
  }

  /** A run in which all three scripts come to their ends. */
  lemma AllComplete(sys: System, i: Xpub, m: Xpub, r: Xpub, w: Waits, x: Messages) returns (events: seq<Event>)
    requires Ready(sys, i, m, r, w, x)
    ensures Reached(sys, events, i, w.i, [x.m4, x.m8])
    ensures Reached(sys, events, m, w.m, [x.m1, x.m3, x.m5, x.m7])
    ensures Reached(sys, events, r, w.r, [x.m2, x.m6])
  {
    events := FirstHalf(sys, i, m, r, w, x);
    events := SecondHalf(sys, i, m, r, w, x, events);
    var last := Proceed(sys, events, i, w.i8 + 1, w.i, [x.m4, x.m8]);
    assert Beside(sys, events, last, i);
    events := last;
  }
}
