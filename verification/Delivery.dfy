/** How messages find the wait or the step that they are meant for (node.ts, handle-protocol-message.ts). A node
    matches a message to an open wait by the process ID alone, and hands it to a fresh protocol step, by its
    sequence number, when there is none. This is about the messages of one process; the network
    delivers each at most once. */
module Delivery {
  import opened Primitives
  import opened Results

  /** The messages of a protocol, in order: message i goes from who[i] to who[i + 1], with its sequence number;
      the sender waits (IO_SEND_AND_WAIT) or not (IO_SEND). */
  datatype Route = Route(who: seq<nat>, seqNo: seq<int>, waits: seq<bool>) {
    predicate Sized() {
      |who| == |seqNo| + 1 == |waits| + 1
    }

    function Length(): nat {
      |waits|
    }
  }

  /** Where the step of a role is: not started, about to send a message, waiting after one with perhaps the
      reply at hand, at its end, or given up. */
  datatype Phase =
    | Fresh
    | Sending(next: nat)
    | Waiting(sent: nat, mail: Option<nat>)
    | Ended
    | Aborted

  /** `expecting` is whether the node has an entry for the process in `ioSendDeferrals`. */
  datatype Role = Role(phase: Phase, expecting: bool, starts: nat)

  datatype State = State(roles: map<nat, Role>, bag: multiset<nat>)

  datatype Event =
    | Initiate
    | Send(role: nat)
    | Resume(role: nat)
    | Fail(role: nat)
    | TimeOut(role: nat)
    | Deliver(message: nat)
    | Lose(message: nat)

  /** The first message from k on that a role sends, or the number of messages. */
  function NextOwn(route: Route, p: nat, k: nat): (j: nat)
    requires route.Sized() && k <= route.Length()
    ensures k <= j <= route.Length()
    ensures forall i :: k <= i < j ==> route.who[i] != p
    ensures j < route.Length() ==> route.who[j] == p
    decreases route.Length() - k
  {
    if k == route.Length() || route.who[k] == p then k else NextOwn(route, p, k + 1)
  }

  /** The step continues to its next message, or to its end. */
  function Onward(route: Route, p: nat, k: nat): Phase
    requires route.Sized() && k <= route.Length()
  {
    var j := NextOwn(route, p, k);
    if j < route.Length() then Sending(j) else Ended
  }

  // ---- What a node does ----

  /** Where a received message goes: to the open wait of its process, to nowhere, or to a fresh step. */
  datatype Dispatch = ToWait | ToNobody | ToStep(seqNo: int)

  /** `handleReceivedMessage`, then `handleReceivedProtocolMessage`. */
  function DispatchOf(expecting: bool, seqNo: int): Dispatch {
    if expecting then ToWait else if seqNo == UNASSIGNED_SEQ_NO then ToNobody else ToStep(seqNo)
  }

  /** A deferred promise takes the first message it is resolved with; one that timed out takes none. */
  function Receive(route: Route, role: Role, p: nat, m: nat): Role
    requires route.Sized() && m < route.Length()
  {
    match DispatchOf(role.expecting, route.seqNo[m])
    case ToWait =>
      if role.phase.Waiting? && role.phase.mail.None? then role.(phase := Waiting(role.phase.sent, Some(m))) else role
    case ToNobody => role
    case ToStep(_) => Role(Onward(route, p, 0), false, role.starts + 1)
  }

  function Sends(route: Route, role: Role, p: nat, k: nat): Role
    requires route.Sized() && k < route.Length()
  {
    if route.waits[k] then role.(phase := Waiting(k, None), expecting := true)
    else role.(phase := Onward(route, p, k + 1))
  }

  /** An event at a role, with the messages taken from and put on the network; none when it is not possible. */
  function Happens(route: Route, s: State, e: Event): State
    requires route.Sized()
  {
    match e
    case Initiate =>
      var p := route.who[0];
      if p !in s.roles || s.roles[p] != Role(Fresh, false, 0) then s
      else s.(roles := s.roles[p := Role(Onward(route, p, 0), false, 1)])
    case Send(p) =>
      if p !in s.roles || !s.roles[p].phase.Sending? || s.roles[p].phase.next >= route.Length() then s else
      var k := s.roles[p].phase.next;
      State(s.roles[p := Sends(route, s.roles[p], p, k)], s.bag + multiset{k})
    case Resume(p) =>
      if p !in s.roles || !s.roles[p].phase.Waiting? || s.roles[p].phase.mail.None? || s.roles[p].phase.sent >= route.Length() then s
      else s.(roles := s.roles[p := s.roles[p].(phase := Onward(route, p, s.roles[p].phase.sent + 1), expecting := false)])
    case Fail(p) =>
      if p !in s.roles || !s.roles[p].phase.Sending? then s
      else s.(roles := s.roles[p := s.roles[p].(phase := Aborted)])
    case TimeOut(p) =>
      if p !in s.roles || !s.roles[p].phase.Waiting? || s.roles[p].phase.mail.Some? then s
      else s.(roles := s.roles[p := s.roles[p].(phase := Aborted)])
    case Deliver(m) =>
      if m !in s.bag || m >= route.Length() || route.who[m + 1] !in s.roles then s else
      var p := route.who[m + 1];
      State(s.roles[p := Receive(route, s.roles[p], p, m)], s.bag - multiset{m})
    case Lose(m) => s.(bag := s.bag - multiset{m})
  }

  function Start(route: Route): State {
    State(map p | p in route.who :: Role(Fresh, false, 0), multiset{})
  }

  function After(route: Route, events: seq<Event>): State
    requires route.Sized()
  {
    if events == [] then Start(route) else Happens(route, After(route, events[..|events| - 1]), events[|events| - 1])
  }

  // ---- The discipline that every protocol keeps ----

  /** A role's first message carries the number of its step and later ones none; a sender waits exactly when another
      message will come to it. That who receives a message sends the next is how routes are written. */
  ghost predicate WellRouted(route: Route) {
    && route.Sized() && route.Length() > 0
    && (forall i, j :: 0 <= i < j < |route.who| && j == i + 1 ==> route.who[i] != route.who[j])
    && (forall i {:trigger route.seqNo[i]} :: 0 <= i < route.Length() ==> (route.seqNo[i] == UNASSIGNED_SEQ_NO <==> route.who[i + 1] in route.who[..i]))
    && (forall i {:trigger route.waits[i]} :: 0 <= i < route.Length() ==> (route.waits[i] <==> route.who[i] in route.who[i + 1..]))
  }

  // ---- The invariant: one token ----

  predicate Active(role: Role) {
    role.phase.Sending? || (role.phase.Waiting? && role.phase.mail.Some?)
  }

  /** A role when the messages before k have been sent; `flying` is whether the last of these is in flight. */
  predicate RoleOk(route: Route, p: nat, role: Role, k: nat, flying: bool)
    requires route.Sized() && k <= route.Length()
  {
    && role.starts == (if role.phase.Fresh? then 0 else 1)
    && (Active(role) ==> route.who[k] == p && !flying)
    && match role.phase
       case Fresh => !role.expecting && p !in route.who[..k]
       case Sending(j) => !role.expecting && j == k < route.Length()
       case Waiting(i, mail) =>
         && role.expecting && i < k && route.who[i] == p && route.waits[i]
         && p !in route.who[i + 1..k]
         && (mail.Some? ==> mail.value == k - 1)
       case Ended => !role.expecting && k > 0 && p !in route.who[k + 1..] && (route.who[k] == p ==> k == route.Length() && !flying)
       case Aborted => k > 0 || p == route.who[0]
  }

  /** Something is in flight, or somebody active. */
  predicate Alive(s: State) {
    s.bag != multiset{} || exists p :: p in s.roles && Active(s.roles[p])
  }

  /** Messages before k have been sent. Of these only the last can be in flight, and then nobody is active; whoever
      is active has the turn. As long as anything is in flight or anybody active, a role that gave up did so
      waiting. */
  ghost predicate Token(route: Route, s: State, k: nat)
    requires route.Sized()
  {
    && k <= route.Length()
    && s.roles.Keys == (set p | p in route.who)
    && (forall p :: p in s.roles ==> RoleOk(route, p, s.roles[p], k, s.bag != multiset{}))
    && (s.bag == multiset{} || (k > 0 && s.bag == multiset{k - 1}))
    && (Alive(s) ==> forall p :: p in s.roles && s.roles[p].phase.Aborted? ==> s.roles[p].expecting && k > 0)
  }

  lemma OthersAfterSend(route: Route, q: nat, role: Role, k: nat)
    requires WellRouted(route) && k < route.Length() && RoleOk(route, q, role, k, false) && route.who[k] != q
    ensures RoleOk(route, q, role, k + 1, true)
  {
  }

  lemma SenderAfterSend(route: Route, p: nat, role: Role, k: nat)
    requires WellRouted(route) && k < route.Length() && RoleOk(route, p, role, k, false) && role.phase == Sending(k)
    ensures RoleOk(route, p, Sends(route, role, p, k), k + 1, true) && !Active(Sends(route, role, p, k))
    ensures !Sends(route, role, p, k).phase.Aborted?
  {
    if !route.waits[k] {
      assert p !in route.who[k + 1..];
      assert route.who[k + 1..] == [route.who[k + 1]] + route.who[k + 2..];
    }
  }

  lemma SendKeepsToken(route: Route, s: State, p: nat, k: nat)
    requires WellRouted(route) && Token(route, s, k) && p in s.roles && s.roles[p].phase.Sending?
    ensures k < route.Length() && Token(route, Happens(route, s, Send(p)), k + 1)
  {
    var s' := Happens(route, s, Send(p));
    assert RoleOk(route, p, s.roles[p], k, s.bag != multiset{}) && Active(s.roles[p]);
    SenderAfterSend(route, p, s.roles[p], k);
    forall q | q in s'.roles
      ensures RoleOk(route, q, s'.roles[q], k + 1, true)
    {
      if q != p {
        assert RoleOk(route, q, s.roles[q], k, false);
        OthersAfterSend(route, q, s.roles[q], k);
      }
    }
    assert Alive(s);
  }

  lemma ResumeOk(route: Route, p: nat, role: Role, k: nat)
    requires WellRouted(route) && k <= route.Length() && RoleOk(route, p, role, k, false)
    requires role.phase.Waiting? && role.phase.mail.Some?
    ensures RoleOk(route, p, role.(phase := Onward(route, p, role.phase.sent + 1), expecting := false), k, false)
    ensures !Onward(route, p, role.phase.sent + 1).Aborted?
  {
    var i := role.phase.sent;
    assert forall x :: i + 1 <= x < k ==> route.who[x] == route.who[i + 1..k][x - i - 1];
  }

  lemma Replaced(route: Route, s: State, p: nat, role: Role, k: nat)
    requires WellRouted(route) && Token(route, s, k) && p in s.roles && Alive(s)
    requires RoleOk(route, p, role, k, s.bag != multiset{}) && !role.phase.Aborted?
    ensures Token(route, s.(roles := s.roles[p := role]), k)
  {
  }

  lemma ResumeKeepsToken(route: Route, s: State, p: nat, k: nat)
    requires WellRouted(route) && Token(route, s, k) && p in s.roles
    ensures Token(route, Happens(route, s, Resume(p)), k)
  {
    var role := s.roles[p];
    assert RoleOk(route, p, role, k, s.bag != multiset{});
    if role.phase.Waiting? && role.phase.mail.Some? {
      ResumeOk(route, p, role, k);
      assert Active(role) && Alive(s);
      Replaced(route, s, p, role.(phase := Onward(route, p, role.phase.sent + 1), expecting := false), k);
    }
  }

  lemma TimeOutKeepsToken(route: Route, s: State, p: nat, k: nat)
    requires WellRouted(route) && Token(route, s, k) && p in s.roles
    ensures Token(route, Happens(route, s, TimeOut(p)), k)
  {
    var s' := Happens(route, s, TimeOut(p));
    assert RoleOk(route, p, s.roles[p], k, s.bag != multiset{});
    if s' != s && Alive(s') && s'.bag == multiset{} {
      var q :| q in s'.roles && Active(s'.roles[q]);
      assert q in s.roles && Active(s.roles[q]);
    }
  }

  /** Who fails while it is to send has the turn: nothing is in flight and nobody else active. */
  lemma FailKeepsToken(route: Route, s: State, p: nat, k: nat)
    requires WellRouted(route) && Token(route, s, k) && p in s.roles
    ensures Token(route, Happens(route, s, Fail(p)), k)
  {
    var s' := Happens(route, s, Fail(p));
    assert RoleOk(route, p, s.roles[p], k, s.bag != multiset{});
    if s' != s {
      forall q | q in s'.roles
        ensures !Active(s'.roles[q])
      {
        assert RoleOk(route, q, s.roles[q], k, s.bag != multiset{});
      }
    }
  }

  lemma ReceiveOk(route: Route, p: nat, role: Role, k: nat)
    requires WellRouted(route) && 0 < k <= route.Length() && route.who[k] == p
    requires RoleOk(route, p, role, k, true) && (role.phase.Aborted? ==> role.expecting)
    ensures RoleOk(route, p, Receive(route, role, p, k - 1), k, false)
    ensures Receive(route, role, p, k - 1).phase.Aborted? ==> role == Receive(route, role, p, k - 1)
  {
    if role.phase.Fresh? {
      assert forall x :: 0 <= x < k ==> route.who[x] == route.who[..k][x];
      assert route.who[..k] == route.who[..k - 1] + [route.who[k - 1]];
    }
  }

  lemma TakenOut(route: Route, s: State, p: nat, role: Role, k: nat)
    requires WellRouted(route) && Token(route, s, k) && k > 0 && s.bag == multiset{k - 1} && p in s.roles
    requires RoleOk(route, p, role, k, false) && (role.phase.Aborted? ==> role == s.roles[p])
    ensures Token(route, State(s.roles[p := role], s.bag - multiset{k - 1}), k)
  {
    var s' := State(s.roles[p := role], s.bag - multiset{k - 1});
    assert Alive(s) && s'.bag == multiset{};
    forall q | q in s'.roles
      ensures RoleOk(route, q, s'.roles[q], k, false)
    {
      assert RoleOk(route, q, s.roles[q], k, true);
    }
  }

  lemma InFlight(route: Route, s: State, m: nat, k: nat)
    requires route.Sized() && Token(route, s, k) && m in s.bag
    ensures k > 0 && m == k - 1 && s.bag == multiset{k - 1} && route.who[k] in s.roles
    ensures RoleOk(route, route.who[k], s.roles[route.who[k]], k, true)
    ensures s.roles[route.who[k]].phase.Aborted? ==> s.roles[route.who[k]].expecting
  {
    assert Alive(s);
  }

  /** A message is delivered to the wait that it answers, or starts the step that it is for. */
  lemma DeliverKeepsToken(route: Route, s: State, m: nat, k: nat)
    requires WellRouted(route) && Token(route, s, k) && m in s.bag
    ensures m == k - 1 && Token(route, Happens(route, s, Deliver(m)), k)
  {
    InFlight(route, s, m, k);
    var p := route.who[k];
    var role := Receive(route, s.roles[p], p, m);
    ReceiveOk(route, p, s.roles[p], k);
    TakenOut(route, s, p, role, k);
    assert Happens(route, s, Deliver(m)) == State(s.roles[p := role], s.bag - multiset{m});
  }

  lemma FirstBefore(route: Route, k: nat)
    requires WellRouted(route) && k <= route.Length()
    ensures k > 0 ==> route.who[0] in route.who[..k]
  {
    if k > 0 {
      assert route.who[..k][0] == route.who[0];
    }
  }

  lemma InitiateKeepsToken(route: Route, s: State, k: nat)
    requires WellRouted(route) && Token(route, s, k)
    ensures Token(route, Happens(route, s, Initiate), k)
  {
    var p := route.who[0];
    assert p in s.roles && RoleOk(route, p, s.roles[p], k, s.bag != multiset{});
    if s.roles[p].phase.Fresh? {
      FirstBefore(route, k);
      assert NextOwn(route, p, 0) == 0;
      forall q | q in s.roles
        ensures !s.roles[q].phase.Aborted?
      {
        assert RoleOk(route, q, s.roles[q], k, s.bag != multiset{});
      }
    }
  }

  lemma {:induction false} AlwaysToken(route: Route, events: seq<Event>) returns (k: nat)
    requires WellRouted(route)
    ensures Token(route, After(route, events), k)
  {
    if events == [] {
      k := 0;
    } else {
      var s, e := After(route, events[..|events| - 1]), events[|events| - 1];
      k := AlwaysToken(route, events[..|events| - 1]);
      k := StepKeepsToken(route, s, e, k);
    }
  }

  lemma StepKeepsToken(route: Route, s: State, e: Event, k: nat) returns (k': nat)
    requires WellRouted(route) && Token(route, s, k)
    ensures Token(route, Happens(route, s, e), k')
  {
    k' := k;
    match e {
      case Initiate => InitiateKeepsToken(route, s, k);
      case Send(p) =>
        if p in s.roles && s.roles[p].phase.Sending? {
          SendKeepsToken(route, s, p, k);
          k' := k + 1;
        }
      case Resume(p) => if p in s.roles { ResumeKeepsToken(route, s, p, k); }
      case Fail(p) => if p in s.roles { FailKeepsToken(route, s, p, k); }
      case TimeOut(p) => if p in s.roles { TimeOutKeepsToken(route, s, p, k); }
      case Deliver(m) => if m in s.bag { DeliverKeepsToken(route, s, m, k); }
      case Lose(m) => LoseKeepsToken(route, s, m, k);
    }
  }

  lemma LoseKeepsToken(route: Route, s: State, m: nat, k: nat)
    requires WellRouted(route) && Token(route, s, k)
    ensures Token(route, Happens(route, s, Lose(m)), k)
  {
    var s' := Happens(route, s, Lose(m));
    assert m in s.bag ==> s'.bag == multiset{};
    assert m !in s.bag ==> s'.bag == s.bag;
    forall q | q in s.roles
      ensures RoleOk(route, q, s.roles[q], k, s'.bag != multiset{})
    {
      assert RoleOk(route, q, s.roles[q], k, s.bag != multiset{});
    }
  }

  // ---- What follows ----

  /** The reply that the wait after message i is written for: the next message to its sender. */
  ghost predicate IsReply(route: Route, i: nat, m: nat)
    requires route.Sized()
  {
    && i < m < route.Length() && route.who[m + 1] == route.who[i]
    && forall j :: i < j <= m ==> route.who[j] != route.who[i]
  }

  lemma RoleOkMeans(route: Route, p: nat, role: Role, k: nat, flying: bool)
    requires WellRouted(route) && k <= route.Length() && RoleOk(route, p, role, k, flying)
    ensures role.starts <= 1
    ensures role.phase.Waiting? && role.phase.mail.Some? ==>
              IsReply(route, role.phase.sent, role.phase.mail.value) && route.who[role.phase.sent] == p
  {
    if role.phase.Waiting? && role.phase.mail.Some? {
      var i := role.phase.sent;
      assert forall x :: i + 1 <= x < k ==> route.who[x] == route.who[i + 1..k][x - i - 1];
    }
  }

  /** In every run of a protocol, with messages lost or late and steps given up anywhere: at most one message is in
      flight; a wait that has been answered was answered by the message that it is written for; and no role's
      step was started twice. */
  lemma MessagesFindTheirWaits(route: Route, events: seq<Event>)
    requires WellRouted(route)
    ensures var s := After(route, events);
            && |s.bag| <= 1
            && (forall p :: p in s.roles ==> s.roles[p].starts <= 1)
            && (forall p :: p in s.roles && s.roles[p].phase.Waiting? && s.roles[p].phase.mail.Some? ==>
                  IsReply(route, s.roles[p].phase.sent, s.roles[p].phase.mail.value) && route.who[s.roles[p].phase.sent] == p)
  {
    var s := After(route, events);
    var k := AlwaysToken(route, events);
    forall p | p in s.roles
      ensures s.roles[p].starts <= 1
      ensures s.roles[p].phase.Waiting? && s.roles[p].phase.mail.Some? ==>
                IsReply(route, s.roles[p].phase.sent, s.roles[p].phase.mail.value) && route.who[s.roles[p].phase.sent] == p
    {
      RoleOkMeans(route, p, s.roles[p], k, s.bag != multiset{});
    }
  }

  lemma DeliveryLeavesGivenUp(route: Route, s: State, m: nat, k: nat, p: nat)
    requires WellRouted(route) && Token(route, s, k) && p in s.roles && s.roles[p].phase in {Aborted, Ended}
    requires m in s.bag && route.who[k] == p
    ensures m == k - 1 && Receive(route, s.roles[p], p, m) == s.roles[p]
  {
    assert RoleOk(route, p, s.roles[p], k, s.bag != multiset{});
    assert Alive(s);
  }

  lemma StepLeavesGivenUp(route: Route, s: State, e: Event, p: nat)
    requires route.Sized() && !e.Deliver? && p in s.roles && s.roles[p].phase in {Aborted, Ended}
    ensures p in Happens(route, s, e).roles && Happens(route, s, e).roles[p] == s.roles[p]
  {
  }

  lemma GivenUpStays(route: Route, s: State, e: Event, k: nat, p: nat)
    requires WellRouted(route) && Token(route, s, k) && p in s.roles && s.roles[p].phase in {Aborted, Ended}
    ensures p in Happens(route, s, e).roles && Happens(route, s, e).roles[p] == s.roles[p]
  {
    if e.Deliver? {
      if e.message in s.bag && e.message < route.Length() && route.who[e.message + 1] == p {
        assert e.message == k - 1;
        DeliveryLeavesGivenUp(route, s, e.message, k, p);
      }
    } else {
      StepLeavesGivenUp(route, s, e, p);
    }
  }

  lemma AfterOneMore(route: Route, events: seq<Event>, e: Event)
    requires route.Sized()
    ensures After(route, events + [e]) == Happens(route, After(route, events), e)
  {
    var more := events + [e];
    assert more[..|more| - 1] == events && more[|more| - 1] == e;
  }

  function Onwards(route: Route, s: State, events: seq<Event>): State
    requires route.Sized()
  {
    if events == [] then s else Happens(route, Onwards(route, s, events[..|events| - 1]), events[|events| - 1])
  }

  lemma OnwardsOneMore(route: Route, s: State, events: seq<Event>, e: Event)
    requires route.Sized()
    ensures Onwards(route, s, events + [e]) == Happens(route, Onwards(route, s, events), e)
  {
    var more := events + [e];
    assert more[..|more| - 1] == events && more[|more| - 1] == e;
  }

  lemma {:induction false} AfterOnwards(route: Route, events: seq<Event>, later: seq<Event>)
    requires route.Sized()
    ensures After(route, events + later) == Onwards(route, After(route, events), later)
  {
    if later == [] {
      assert events + later == events;
    } else {
      var before, e := later[..|later| - 1], later[|later| - 1];
      AfterOnwards(route, events, before);
      assert later == before + [e] && events + later == events + before + [e];
      AfterOneMore(route, events + before, e);
      OnwardsOneMore(route, After(route, events), before, e);
    }
  }

  lemma {:induction false} GivenUpOnwards(route: Route, s: State, k: nat, later: seq<Event>, p: nat) returns (k': nat)
    requires WellRouted(route) && Token(route, s, k) && p in s.roles && s.roles[p].phase in {Aborted, Ended}
    ensures Token(route, Onwards(route, s, later), k')
    ensures p in Onwards(route, s, later).roles && Onwards(route, s, later).roles[p] == s.roles[p]
  {
    if later == [] {
      k' := k;
    } else {
      var n := |later| - 1;
      k' := GivenUpOnwards(route, s, k, later[..n], p);
      var before := Onwards(route, s, later[..n]);
      GivenUpStays(route, before, later[n], k', p);
      k' := StepKeepsToken(route, before, later[n], k');
    }
  }

  /** A role that has given up, or come to its end, does nothing more: no late reply starts its step afresh. */
  lemma GivenUpForGood(route: Route, events: seq<Event>, later: seq<Event>, p: nat)
    requires WellRouted(route) && p in After(route, events).roles
    requires After(route, events).roles[p].phase in {Aborted, Ended}
    ensures p in After(route, events + later).roles
    ensures After(route, events + later).roles[p] == After(route, events).roles[p]
  {
    var k := AlwaysToken(route, events);
    k := GivenUpOnwards(route, After(route, events), k, later, p);
    AfterOnwards(route, events, later);
  }

  // ---- The protocols ----

  const INITIATOR: nat := 0
  const INTERMEDIARY: nat := 1
  const RESPONDER: nat := 2

  /** propose, update, take-action and uninstall */
  const EXCHANGE := Route([INITIATOR, RESPONDER, INITIATOR], [1, UNASSIGNED_SEQ_NO], [true, false])

  const INSTALL := Route([INITIATOR, RESPONDER, INITIATOR, RESPONDER, INITIATOR],
                         [1, UNASSIGNED_SEQ_NO, UNASSIGNED_SEQ_NO, UNASSIGNED_SEQ_NO], [true, true, true, false])

  const WITHDRAW := Route([INITIATOR, RESPONDER, INITIATOR, RESPONDER, INITIATOR, RESPONDER, INITIATOR],
                          [1, UNASSIGNED_SEQ_NO, UNASSIGNED_SEQ_NO, UNASSIGNED_SEQ_NO, UNASSIGNED_SEQ_NO, UNASSIGNED_SEQ_NO],
                          [true, true, true, true, true, false])

  /** install-virtual-app and uninstall-virtual-app */
  const VIRTUAL := Route([INITIATOR, INTERMEDIARY, RESPONDER, INTERMEDIARY, INITIATOR, INTERMEDIARY, RESPONDER, INTERMEDIARY, INITIATOR],
                         [1, 2, UNASSIGNED_SEQ_NO, UNASSIGNED_SEQ_NO, UNASSIGNED_SEQ_NO, UNASSIGNED_SEQ_NO, UNASSIGNED_SEQ_NO, UNASSIGNED_SEQ_NO],
                         [true, true, true, true, true, true, false, false])

  /** A route is well routed when each message is, one by one. */
  predicate HopOk(route: Route, i: nat)
    requires route.Sized() && i < route.Length()
  {
    && route.who[i] != route.who[i + 1]
    && (route.seqNo[i] == UNASSIGNED_SEQ_NO <==> route.who[i + 1] in route.who[..i])
    && (route.waits[i] <==> route.who[i] in route.who[i + 1..])
  }

  lemma WellRoutedByHops(route: Route)
    requires route.Sized() && route.Length() > 0 && forall i :: 0 <= i < route.Length() ==> HopOk(route, i)
    ensures WellRouted(route)
  {
    forall i, j | 0 <= i < j < |route.who| && j == i + 1
      ensures route.who[i] != route.who[j]
    {
      assert HopOk(route, i);
    }
    forall i | 0 <= i < route.Length()
      ensures route.seqNo[i] == UNASSIGNED_SEQ_NO <==> route.who[i + 1] in route.who[..i]
      ensures route.waits[i] <==> route.who[i] in route.who[i + 1..]
    {
      assert HopOk(route, i);
    }
  }

  lemma HopByParts(route: Route, before: seq<nat>, a: nat, b: nat, rest: seq<nat>)
    requires route.Sized() && route.who == before + [a, b] + rest && a != b
    requires route.seqNo[|before|] == UNASSIGNED_SEQ_NO <==> b in before
    requires route.waits[|before|] <==> a in rest
    ensures |before| < route.Length() && HopOk(route, |before|)
  {
    var i := |before|;
    assert route.who[..i] == before;
    assert route.who[i + 1..] == [b] + rest;
  }

  lemma ExchangeHop(i: nat)
    requires i < 2
    ensures HopOk(EXCHANGE, i)
  {
    match i
    case 0 => HopByParts(EXCHANGE, [], 0, 2, [0]);
    case _ => HopByParts(EXCHANGE, [0], 2, 0, []);
  }

  lemma InstallHop(i: nat)
    requires i < 4
    ensures HopOk(INSTALL, i)
  {
    match i
    case 0 => HopByParts(INSTALL, [], 0, 2, [0, 2, 0]);
    case 1 => HopByParts(INSTALL, [0], 2, 0, [2, 0]);
    case 2 => HopByParts(INSTALL, [0, 2], 0, 2, [0]);
    case _ => HopByParts(INSTALL, [0, 2, 0], 2, 0, []);
  }

  lemma WithdrawHop(i: nat)
    requires i < 6
    ensures HopOk(WITHDRAW, i)
  {
    match i
    case 0 => HopByParts(WITHDRAW, [], 0, 2, [0, 2, 0, 2, 0]);
    case 1 => HopByParts(WITHDRAW, [0], 2, 0, [2, 0, 2, 0]);
    case 2 => HopByParts(WITHDRAW, [0, 2], 0, 2, [0, 2, 0]);
    case 3 => HopByParts(WITHDRAW, [0, 2, 0], 2, 0, [2, 0]);
    case 4 => HopByParts(WITHDRAW, [0, 2, 0, 2], 0, 2, [0]);
    case _ => HopByParts(WITHDRAW, [0, 2, 0, 2, 0], 2, 0, []);
  }

  lemma VirtualHop(i: nat)
    requires i < 8
    ensures HopOk(VIRTUAL, i)
  {
    match i
    case 0 => HopByParts(VIRTUAL, [], 0, 1, [2, 1, 0, 1, 2, 1, 0]);
    case 1 => HopByParts(VIRTUAL, [0], 1, 2, [1, 0, 1, 2, 1, 0]);
    case 2 => HopByParts(VIRTUAL, [0, 1], 2, 1, [0, 1, 2, 1, 0]);
    case 3 => HopByParts(VIRTUAL, [0, 1, 2], 1, 0, [1, 2, 1, 0]);
    case 4 => HopByParts(VIRTUAL, [0, 1, 2, 1], 0, 1, [2, 1, 0]);
    case 5 => HopByParts(VIRTUAL, [0, 1, 2, 1, 0], 1, 2, [1, 0]);
    case 6 => HopByParts(VIRTUAL, [0, 1, 2, 1, 0, 1], 2, 1, [0]);
    case _ => HopByParts(VIRTUAL, [0, 1, 2, 1, 0, 1, 2], 1, 0, []);
  }

  /** The two-party protocols and the three-party ones keep the discipline. */
  lemma ProtocolsWellRouted()
    ensures WellRouted(EXCHANGE) && WellRouted(INSTALL) && WellRouted(WITHDRAW) && WellRouted(VIRTUAL)
  {
    forall i | 0 <= i < 2 ensures HopOk(EXCHANGE, i) { ExchangeHop(i); }
    WellRoutedByHops(EXCHANGE);
    forall i | 0 <= i < 4 ensures HopOk(INSTALL, i) { InstallHop(i); }
    WellRoutedByHops(INSTALL);
    forall i | 0 <= i < 6 ensures HopOk(WITHDRAW, i) { WithdrawHop(i); }
    WellRoutedByHops(WITHDRAW);
    forall i | 0 <= i < 8 ensures HopOk(VIRTUAL, i) { VirtualHop(i); }
    WellRoutedByHops(VIRTUAL);
  }
}
