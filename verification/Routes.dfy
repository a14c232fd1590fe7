/** From the scripts of a protocol to the route of its messages: who sends what to whom in which order, under which
    sequence number, and who waits. */
module Routes {
  import opened Delivery
  import opened Engine
  import opened Primitives
  import opened Results
  import Exchanges = SingleExchanges
  import Installs = InstallProtocol
  import InstallVirtual = InstallVirtualProtocol
  import UninstallVirtual = UninstallVirtualProtocol
  import Withdraws = WithdrawProtocol

  /** The roles of a protocol: who plays each, and its script. */
  datatype Cast = Cast(xpubs: map<nat, Xpub>, scripts: map<nat, Script>)

  /** The next send from step pc on, when no wait comes before it. */
  function NextSend(script: Script, pc: nat): Option<nat>
    decreases |script| - pc
  {
    if pc >= |script| || script[pc].Receive? then None
    else if script[pc].Send? then Some(pc)
    else NextSend(script, pc + 1)
  }

  predicate ReceivesAt(script: Script, pc: nat) {
    pc < |script| && script[pc].Receive?
  }

  /** From step pc on, the script comes to its send in step k, and after it to a wait or its end without sending
      again. A send right before a wait is IO_SEND_AND_WAIT, any other IO_SEND. */
  predicate SendsAt(script: Script, pc: nat, k: nat, to: Xpub, seqNo: int, waits: bool) {
    && NextSend(script, pc) == Some(k) && k < |script| && script[k].Send?
    && script[k].to == to && script[k].seqNo == seqNo
    && (waits <==> ReceivesAt(script, k + 1)) && NextSend(script, k + 1).None?
  }

  /** From message n on the scripts, which stand at these steps, send and receive as the route says: role who[n] sends
      message n, which the next role is at a wait to receive. After the last message nobody sends any more. */
  ghost predicate Follows(cast: Cast, pcs: map<nat, nat>, route: Route, n: nat)
    requires route.Sized() && n <= route.Length()
    decreases route.Length() - n
  {
    var p := route.who[n];
    && p in cast.xpubs && p in cast.scripts && p in pcs
    && if n == route.Length() then
         NextSend(cast.scripts[p], pcs[p]).None?
       else
         var q := route.who[n + 1];
         && q != p && q in cast.xpubs && q in cast.scripts && q in pcs && ReceivesAt(cast.scripts[q], pcs[q])
         && exists k: nat :: SendsAt(cast.scripts[p], pcs[p], k, cast.xpubs[q], route.seqNo[n], route.waits[n])
                        && Follows(cast, pcs[p := k + 1][q := pcs[q] + 1], route, n + 1)
  }

  function Beginning(cast: Cast): map<nat, nat> {
    map p | p in cast.scripts :: 0
  }

  /** The route that the scripts of a cast take, begun by the initiator, when all others wait. */
  ghost predicate IsRouteOf(cast: Cast, route: Route) {
    && route.Sized() && route.who[0] == INITIATOR && cast.xpubs.Keys == cast.scripts.Keys
    && Follows(cast, Beginning(cast), route, 0)
  }

  ghost predicate DistinctPlayers(cast: Cast) {
    forall p, q :: p in cast.xpubs && q in cast.xpubs && cast.xpubs[p] == cast.xpubs[q] ==> p == q
  }

  predicate AlikeUpTo(route: Route, route': Route, n: nat)
    requires route.Sized() && route'.Sized() && n <= route.Length() && n <= route'.Length()
  {
    route.who[..n + 1] == route'.who[..n + 1] && route.seqNo[..n] == route'.seqNo[..n] && route.waits[..n] == route'.waits[..n]
  }

  lemma SamePrefix(route: Route, route': Route, n: nat)
    requires route.Sized() && route'.Sized() && n == route.Length() == route'.Length() && AlikeUpTo(route, route', n)
    ensures route == route'
  {
    assert route.who == route.who[..n + 1] && route'.who == route'.who[..n + 1];
    assert route.seqNo == route.seqNo[..n] && route'.seqNo == route'.seqNo[..n];
    assert route.waits == route.waits[..n] && route'.waits == route'.waits[..n];
  }

  lemma LongerPrefix(route: Route, route': Route, n: nat)
    requires route.Sized() && route'.Sized() && n < route.Length() && n < route'.Length() && AlikeUpTo(route, route', n)
    requires route.who[n + 1] == route'.who[n + 1] && route.seqNo[n] == route'.seqNo[n] && route.waits[n] == route'.waits[n]
    ensures AlikeUpTo(route, route', n + 1)
  {
    assert route.who[..n + 2] == route.who[..n + 1] + [route.who[n + 1]] && route'.who[..n + 2] == route'.who[..n + 1] + [route'.who[n + 1]];
    assert route.seqNo[..n + 1] == route.seqNo[..n] + [route.seqNo[n]] && route'.seqNo[..n + 1] == route'.seqNo[..n] + [route'.seqNo[n]];
    assert route.waits[..n + 1] == route.waits[..n] + [route.waits[n]] && route'.waits[..n + 1] == route'.waits[..n] + [route'.waits[n]];
  }

  lemma {:induction false} FollowsAlike(cast: Cast, pcs: map<nat, nat>, route: Route, route': Route, n: nat)
    requires DistinctPlayers(cast) && route.Sized() && route'.Sized() && n <= route.Length() && n <= route'.Length()
    requires Follows(cast, pcs, route, n) && Follows(cast, pcs, route', n)
    requires AlikeUpTo(route, route', n)
    ensures route == route'
    decreases route.Length() - n
  {
    var p := route.who[n];
    assert p == route.who[..n + 1][n] == route'.who[..n + 1][n] == route'.who[n];
    if n == route.Length() || n == route'.Length() {
      assert route.Length() == route'.Length() == n;
      SamePrefix(route, route', n);
    } else {
      var q, q' := route.who[n + 1], route'.who[n + 1];
      var k: nat :| SendsAt(cast.scripts[p], pcs[p], k, cast.xpubs[q], route.seqNo[n], route.waits[n])
               && Follows(cast, pcs[p := k + 1][q := pcs[q] + 1], route, n + 1);
      var k': nat :| SendsAt(cast.scripts[p], pcs[p], k', cast.xpubs[q'], route'.seqNo[n], route'.waits[n])
                && Follows(cast, pcs[p := k' + 1][q' := pcs[q'] + 1], route', n + 1);
      assert k == k' && q == q';
      LongerPrefix(route, route', n);
      FollowsAlike(cast, pcs[p := k + 1][q := pcs[q] + 1], route, route', n + 1);
    }
  }

  /** Scripts take one route only. */
  lemma RouteIsUnique(cast: Cast, route: Route, route': Route)
    requires DistinctPlayers(cast) && IsRouteOf(cast, route) && IsRouteOf(cast, route')
    ensures route == route'
  {
    assert route.who[..1] == [INITIATOR] == route'.who[..1];
    FollowsAlike(cast, Beginning(cast), route, route', 0);
  }

  // ---- Finding the route ----

  lemma {:induction false} NextSendIs(script: Script, pc: nat, k: nat)
    requires pc <= k < |script| && script[k].Send?
    requires forall j :: pc <= j < k ==> !script[j].Send? && !script[j].Receive?
    ensures NextSend(script, pc) == Some(k)
    decreases k - pc
  {
    if pc < k {
      NextSendIs(script, pc + 1, k);
    }
  }

  lemma {:induction false} NoSendUntil(script: Script, pc: nat, k: nat)
    requires pc <= k <= |script| && (k < |script| ==> script[k].Receive?)
    requires forall j :: pc <= j < k ==> !script[j].Send? && !script[j].Receive?
    ensures NextSend(script, pc).None?
    decreases k - pc
  {
    if pc < k {
      NoSendUntil(script, pc + 1, k);
    }
  }

  /** A send in step k with the wait right after it, or with nothing sent after it. */
  lemma SendsIn(script: Script, pc: nat, k: nat)
    requires pc <= k < |script| && script[k].Send?
    requires forall j :: pc <= j < k ==> !script[j].Send? && !script[j].Receive?
    requires ReceivesAt(script, k + 1) || forall j :: k < j < |script| ==> !script[j].Send? && !script[j].Receive?
    ensures SendsAt(script, pc, k, script[k].to, script[k].seqNo, ReceivesAt(script, k + 1))
  {
    NextSendIs(script, pc, k);
    NoSendUntil(script, k + 1, if ReceivesAt(script, k + 1) then k + 1 else |script|);
  }

  lemma FollowsBy(cast: Cast, pcs: map<nat, nat>, route: Route, n: nat, k: nat)
    requires route.Sized() && n < route.Length()
    requires var (p, q) := (route.who[n], route.who[n + 1]);
             && p != q && {p, q} <= cast.xpubs.Keys && {p, q} <= cast.scripts.Keys && {p, q} <= pcs.Keys
             && ReceivesAt(cast.scripts[q], pcs[q])
             && SendsAt(cast.scripts[p], pcs[p], k, cast.xpubs[q], route.seqNo[n], route.waits[n])
             && Follows(cast, pcs[p := k + 1][q := pcs[q] + 1], route, n + 1)
    ensures Follows(cast, pcs, route, n)
  {
  }

  // ---- Two roles ----

  function TwoRoles(i: Xpub, r: Xpub, si: Script, sr: Script): Cast {
    Cast(map[INITIATOR := i, RESPONDER := r], map[INITIATOR := si, RESPONDER := sr])
  }

  /** From message n on, when the initiator stands at step a and the responder at step b. */
  ghost predicate TwoFollow(i: Xpub, r: Xpub, si: Script, sr: Script, a: nat, b: nat, route: Route, n: nat)
    requires route.Sized() && n <= route.Length()
  {
    Follows(TwoRoles(i, r, si, sr), map[INITIATOR := a, RESPONDER := b], route, n)
  }

  /** It is the initiator's turn. */
  lemma InitiatorHop(i: Xpub, r: Xpub, si: Script, sr: Script, a: nat, b: nat, route: Route, n: nat, k: nat)
    requires route.Sized() && n < route.Length() && route.who[n] == INITIATOR && route.who[n + 1] == RESPONDER
    requires SendsAt(si, a, k, r, route.seqNo[n], route.waits[n]) && ReceivesAt(sr, b)
    requires TwoFollow(i, r, si, sr, k + 1, b + 1, route, n + 1)
    ensures TwoFollow(i, r, si, sr, a, b, route, n)
  {
    var pcs: map<nat, nat> := map[INITIATOR := a, RESPONDER := b];
    assert pcs[INITIATOR := k + 1][RESPONDER := b + 1] == map[INITIATOR := k + 1, RESPONDER := b + 1];
    FollowsBy(TwoRoles(i, r, si, sr), pcs, route, n, k);
  }

  /** It is the responder's turn. */
  lemma ResponderHop(i: Xpub, r: Xpub, si: Script, sr: Script, a: nat, b: nat, route: Route, n: nat, k: nat)
    requires route.Sized() && n < route.Length() && route.who[n] == RESPONDER && route.who[n + 1] == INITIATOR
    requires SendsAt(sr, b, k, i, route.seqNo[n], route.waits[n]) && ReceivesAt(si, a)
    requires TwoFollow(i, r, si, sr, a + 1, k + 1, route, n + 1)
    ensures TwoFollow(i, r, si, sr, a, b, route, n)
  {
    var pcs: map<nat, nat> := map[INITIATOR := a, RESPONDER := b];
    assert pcs[RESPONDER := k + 1][INITIATOR := a + 1] == map[INITIATOR := a + 1, RESPONDER := k + 1];
    FollowsBy(TwoRoles(i, r, si, sr), pcs, route, n, k);
  }

  /** The initiator has the last message and sends no more. */
  lemma InitiatorLast(i: Xpub, r: Xpub, si: Script, sr: Script, a: nat, b: nat, route: Route)
    requires route.Sized() && route.who[route.Length()] == INITIATOR && NextSend(si, a).None?
    ensures TwoFollow(i, r, si, sr, a, b, route, route.Length())
  {
  }

  lemma TwoBegin(i: Xpub, r: Xpub, si: Script, sr: Script, route: Route)
    requires route.Sized() && route.who[0] == INITIATOR && TwoFollow(i, r, si, sr, 0, 0, route, 0)
    ensures IsRouteOf(TwoRoles(i, r, si, sr), route)
  {
    var pcs: map<nat, nat> := map[INITIATOR := 0, RESPONDER := 0];
    assert Beginning(TwoRoles(i, r, si, sr)) == pcs;
  }

  lemma ExchangeRoute(i: Xpub, r: Xpub, si: Script, sr: Script, a: nat, b: nat)
    requires SendsAt(si, 0, a, r, 1, true) && NextSend(si, a + 2).None?
    requires ReceivesAt(sr, 0) && SendsAt(sr, 1, b, i, UNASSIGNED_SEQ_NO, false)
    ensures IsRouteOf(TwoRoles(i, r, si, sr), EXCHANGE)
  {
    InitiatorLast(i, r, si, sr, a + 2, b + 1, EXCHANGE);
    ResponderHop(i, r, si, sr, a + 1, 1, EXCHANGE, 1, b);
    InitiatorHop(i, r, si, sr, 0, 0, EXCHANGE, 0, a);
    TwoBegin(i, r, si, sr, EXCHANGE);
  }

  lemma InstallRoute(i: Xpub, r: Xpub, si: Script, sr: Script, a: nat, b: nat, c: nat, d: nat)
    requires SendsAt(si, 0, a, r, 1, true) && SendsAt(si, a + 2, c, r, UNASSIGNED_SEQ_NO, true) && NextSend(si, c + 2).None?
    requires ReceivesAt(sr, 0) && SendsAt(sr, 1, b, i, UNASSIGNED_SEQ_NO, true) && SendsAt(sr, b + 2, d, i, UNASSIGNED_SEQ_NO, false)
    ensures IsRouteOf(TwoRoles(i, r, si, sr), INSTALL)
  {
    InitiatorLast(i, r, si, sr, c + 2, d + 1, INSTALL);
    ResponderHop(i, r, si, sr, c + 1, b + 2, INSTALL, 3, d);
    InitiatorHop(i, r, si, sr, a + 2, b + 1, INSTALL, 2, c);
    ResponderHop(i, r, si, sr, a + 1, 1, INSTALL, 1, b);
    InitiatorHop(i, r, si, sr, 0, 0, INSTALL, 0, a);
    TwoBegin(i, r, si, sr, INSTALL);
  }

  lemma WithdrawRoute(i: Xpub, r: Xpub, si: Script, sr: Script, a: nat, b: nat, c: nat, d: nat, e: nat, f: nat)
    requires SendsAt(si, 0, a, r, 1, true) && SendsAt(si, a + 2, c, r, UNASSIGNED_SEQ_NO, true)
    requires SendsAt(si, c + 2, e, r, UNASSIGNED_SEQ_NO, true) && NextSend(si, e + 2).None?
    requires ReceivesAt(sr, 0) && SendsAt(sr, 1, b, i, UNASSIGNED_SEQ_NO, true) && SendsAt(sr, b + 2, d, i, UNASSIGNED_SEQ_NO, true)
    requires SendsAt(sr, d + 2, f, i, UNASSIGNED_SEQ_NO, false)
    ensures IsRouteOf(TwoRoles(i, r, si, sr), WITHDRAW)
  {
    InitiatorLast(i, r, si, sr, e + 2, f + 1, WITHDRAW);
    ResponderHop(i, r, si, sr, e + 1, d + 2, WITHDRAW, 5, f);
    InitiatorHop(i, r, si, sr, c + 2, d + 1, WITHDRAW, 4, e);
    ResponderHop(i, r, si, sr, c + 1, b + 2, WITHDRAW, 3, d);
    InitiatorHop(i, r, si, sr, a + 2, b + 1, WITHDRAW, 2, c);
    ResponderHop(i, r, si, sr, a + 1, 1, WITHDRAW, 1, b);
    InitiatorHop(i, r, si, sr, 0, 0, WITHDRAW, 0, a);
    TwoBegin(i, r, si, sr, WITHDRAW);
  }

  // ---- Three roles ----

  function ThreeRoles(i: Xpub, m: Xpub, r: Xpub, si: Script, sm: Script, sr: Script): Cast {
    Cast(map[INITIATOR := i, INTERMEDIARY := m, RESPONDER := r], map[INITIATOR := si, INTERMEDIARY := sm, RESPONDER := sr])
  }

  ghost predicate ThreeFollow(i: Xpub, m: Xpub, r: Xpub, si: Script, sm: Script, sr: Script, a: nat, b: nat, c: nat, n: nat)
    requires n <= VIRTUAL.Length()
  {
    Follows(ThreeRoles(i, m, r, si, sm, sr), map[INITIATOR := a, INTERMEDIARY := b, RESPONDER := c], VIRTUAL, n)
  }

  lemma FromInitiator(i: Xpub, m: Xpub, r: Xpub, si: Script, sm: Script, sr: Script, a: nat, b: nat, c: nat, n: nat, k: nat)
    requires n < VIRTUAL.Length() && VIRTUAL.who[n] == INITIATOR && VIRTUAL.who[n + 1] == INTERMEDIARY
    requires SendsAt(si, a, k, m, VIRTUAL.seqNo[n], VIRTUAL.waits[n]) && ReceivesAt(sm, b)
    requires ThreeFollow(i, m, r, si, sm, sr, k + 1, b + 1, c, n + 1)
    ensures ThreeFollow(i, m, r, si, sm, sr, a, b, c, n)
  {
    var pcs: map<nat, nat> := map[INITIATOR := a, INTERMEDIARY := b, RESPONDER := c];
    assert pcs[INITIATOR := k + 1][INTERMEDIARY := b + 1] == map[INITIATOR := k + 1, INTERMEDIARY := b + 1, RESPONDER := c];
    FollowsBy(ThreeRoles(i, m, r, si, sm, sr), pcs, VIRTUAL, n, k);
  }

  lemma ToResponder(i: Xpub, m: Xpub, r: Xpub, si: Script, sm: Script, sr: Script, a: nat, b: nat, c: nat, n: nat, k: nat)
    requires n < VIRTUAL.Length() && VIRTUAL.who[n] == INTERMEDIARY && VIRTUAL.who[n + 1] == RESPONDER
    requires SendsAt(sm, b, k, r, VIRTUAL.seqNo[n], VIRTUAL.waits[n]) && ReceivesAt(sr, c)
    requires ThreeFollow(i, m, r, si, sm, sr, a, k + 1, c + 1, n + 1)
    ensures ThreeFollow(i, m, r, si, sm, sr, a, b, c, n)
  {
    var pcs: map<nat, nat> := map[INITIATOR := a, INTERMEDIARY := b, RESPONDER := c];
    assert pcs[INTERMEDIARY := k + 1][RESPONDER := c + 1] == map[INITIATOR := a, INTERMEDIARY := k + 1, RESPONDER := c + 1];
    FollowsBy(ThreeRoles(i, m, r, si, sm, sr), pcs, VIRTUAL, n, k);
  }

  lemma FromResponder(i: Xpub, m: Xpub, r: Xpub, si: Script, sm: Script, sr: Script, a: nat, b: nat, c: nat, n: nat, k: nat)
    requires n < VIRTUAL.Length() && VIRTUAL.who[n] == RESPONDER && VIRTUAL.who[n + 1] == INTERMEDIARY
    requires SendsAt(sr, c, k, m, VIRTUAL.seqNo[n], VIRTUAL.waits[n]) && ReceivesAt(sm, b)
    requires ThreeFollow(i, m, r, si, sm, sr, a, b + 1, k + 1, n + 1)
    ensures ThreeFollow(i, m, r, si, sm, sr, a, b, c, n)
  {
    var pcs: map<nat, nat> := map[INITIATOR := a, INTERMEDIARY := b, RESPONDER := c];
    assert pcs[RESPONDER := k + 1][INTERMEDIARY := b + 1] == map[INITIATOR := a, INTERMEDIARY := b + 1, RESPONDER := k + 1];
    FollowsBy(ThreeRoles(i, m, r, si, sm, sr), pcs, VIRTUAL, n, k);
  }

  lemma ToInitiator(i: Xpub, m: Xpub, r: Xpub, si: Script, sm: Script, sr: Script, a: nat, b: nat, c: nat, n: nat, k: nat)
    requires n < VIRTUAL.Length() && VIRTUAL.who[n] == INTERMEDIARY && VIRTUAL.who[n + 1] == INITIATOR
    requires SendsAt(sm, b, k, i, VIRTUAL.seqNo[n], VIRTUAL.waits[n]) && ReceivesAt(si, a)
    requires ThreeFollow(i, m, r, si, sm, sr, a + 1, k + 1, c, n + 1)
    ensures ThreeFollow(i, m, r, si, sm, sr, a, b, c, n)
  {
    var pcs: map<nat, nat> := map[INITIATOR := a, INTERMEDIARY := b, RESPONDER := c];
    assert pcs[INTERMEDIARY := k + 1][INITIATOR := a + 1] == map[INITIATOR := a + 1, INTERMEDIARY := k + 1, RESPONDER := c];
    FollowsBy(ThreeRoles(i, m, r, si, sm, sr), pcs, VIRTUAL, n, k);
  }

  lemma VirtualEnds(i: Xpub, m: Xpub, r: Xpub, si: Script, sm: Script, sr: Script, a: nat, b: nat, c: nat)
    requires NextSend(si, a).None?
    ensures ThreeFollow(i, m, r, si, sm, sr, a, b, c, 8)
  {
  }

  lemma VirtualBegins(i: Xpub, m: Xpub, r: Xpub, si: Script, sm: Script, sr: Script)
    requires ThreeFollow(i, m, r, si, sm, sr, 0, 0, 0, 0)
    ensures IsRouteOf(ThreeRoles(i, m, r, si, sm, sr), VIRTUAL)
  {
    var pcs: map<nat, nat> := map[INITIATOR := 0, INTERMEDIARY := 0, RESPONDER := 0];
    assert Beginning(ThreeRoles(i, m, r, si, sm, sr)) == pcs;
  }

  /** The steps of the eight sends: two by the initiator, four by the intermediary, two by the responder. */
  datatype Sends = Sends(i1: nat, m2: nat, r3: nat, m4: nat, i5: nat, m6: nat, r7: nat, m8: nat)

  ghost predicate VirtualSends(i: Xpub, m: Xpub, r: Xpub, si: Script, sm: Script, sr: Script, x: Sends) {
    && SendsAt(si, 0, x.i1, m, 1, true) && SendsAt(si, x.i1 + 2, x.i5, m, UNASSIGNED_SEQ_NO, true) && NextSend(si, x.i5 + 2).None?
    && ReceivesAt(sm, 0) && SendsAt(sm, 1, x.m2, r, 2, true) && SendsAt(sm, x.m2 + 2, x.m4, i, UNASSIGNED_SEQ_NO, true)
    && SendsAt(sm, x.m4 + 2, x.m6, r, UNASSIGNED_SEQ_NO, true) && SendsAt(sm, x.m6 + 2, x.m8, i, UNASSIGNED_SEQ_NO, false)
    && ReceivesAt(sr, 0) && SendsAt(sr, 1, x.r3, m, UNASSIGNED_SEQ_NO, true) && SendsAt(sr, x.r3 + 2, x.r7, m, UNASSIGNED_SEQ_NO, false)
  }

  lemma VirtualLastTwo(i: Xpub, m: Xpub, r: Xpub, si: Script, sm: Script, sr: Script, x: Sends)
    requires VirtualSends(i, m, r, si, sm, sr, x)
    ensures ThreeFollow(i, m, r, si, sm, sr, x.i5 + 1, x.m6 + 1, x.r3 + 2, 6)
  {
    VirtualEnds(i, m, r, si, sm, sr, x.i5 + 2, x.m8 + 1, x.r7 + 1);
    ToInitiator(i, m, r, si, sm, sr, x.i5 + 1, x.m6 + 2, x.r7 + 1, 7, x.m8);
    FromResponder(i, m, r, si, sm, sr, x.i5 + 1, x.m6 + 1, x.r3 + 2, 6, x.r7);
  }

  lemma VirtualSecondHalf(i: Xpub, m: Xpub, r: Xpub, si: Script, sm: Script, sr: Script, x: Sends)
    requires VirtualSends(i, m, r, si, sm, sr, x)
    ensures ThreeFollow(i, m, r, si, sm, sr, x.i1 + 2, x.m4 + 1, x.r3 + 1, 4)
  {
    VirtualLastTwo(i, m, r, si, sm, sr, x);
    ToResponder(i, m, r, si, sm, sr, x.i5 + 1, x.m4 + 2, x.r3 + 1, 5, x.m6);
    FromInitiator(i, m, r, si, sm, sr, x.i1 + 2, x.m4 + 1, x.r3 + 1, 4, x.i5);
  }

  lemma VirtualRoute(i: Xpub, m: Xpub, r: Xpub, si: Script, sm: Script, sr: Script, x: Sends)
    requires VirtualSends(i, m, r, si, sm, sr, x)
    ensures IsRouteOf(ThreeRoles(i, m, r, si, sm, sr), VIRTUAL)
  {
    VirtualSecondHalf(i, m, r, si, sm, sr, x);
    ToInitiator(i, m, r, si, sm, sr, x.i1 + 1, x.m2 + 2, x.r3 + 1, 3, x.m4);
    FromResponder(i, m, r, si, sm, sr, x.i1 + 1, x.m2 + 1, 1, 2, x.r3);
    ToResponder(i, m, r, si, sm, sr, x.i1 + 1, 1, 0, 1, x.m2);
    FromInitiator(i, m, r, si, sm, sr, 0, 0, 0, 0, x.i1);
    VirtualBegins(i, m, r, si, sm, sr);
  }

  // ---- The protocols ----

  /** Propose, update, take-action and uninstall, whatever the plans. */
  lemma ExchangesRouted(i: Xpub, r: Xpub, planI: Exchanges.Plan, planR: Exchanges.Plan)
    ensures IsRouteOf(TwoRoles(i, r, Exchanges.Initiating(r, planI), Exchanges.Responding(i, planR)), EXCHANGE)
  {
    var si, sr := Exchanges.Initiating(r, planI), Exchanges.Responding(i, planR);
    var last := if planR.storedUnder.None? then 4 else 5;
    SendsIn(si, 0, 1);
    NoSendUntil(si, 3, |si|);
    SendsIn(sr, 1, last);
    ExchangeRoute(i, r, si, sr, 1, last);
  }

  lemma InstallRouted(i: Xpub, r: Xpub, planI: Installs.Plan, planR: Installs.Plan)
    ensures IsRouteOf(TwoRoles(i, r, Installs.Initiating(r, planI), Installs.Responding(i, planR)), INSTALL)
  {
    var si, sr := Installs.Initiating(r, planI), Installs.Responding(i, planR);
    SendsIn(si, 0, 1);
    SendsIn(si, 3, 9);
    NoSendUntil(si, 11, 11);
    SendsIn(sr, 1, 5);
    SendsIn(sr, 7, 10);
    InstallRoute(i, r, si, sr, 1, 5, 9, 10);
  }

  lemma WithdrawRouted(i: Xpub, r: Xpub, planI: Withdraws.Plan, planR: Withdraws.Plan)
    ensures IsRouteOf(TwoRoles(i, r, Withdraws.Initiating(r, planI), Withdraws.Responding(i, planR)), WITHDRAW)
  {
    var si, sr := Withdraws.Initiating(r, planI), Withdraws.Responding(i, planR);
    WithdrawInitiatorSends(i, r, planI);
    WithdrawResponderSends(i, r, planR);
    WithdrawRoute(i, r, si, sr, 1, 5, 9, 13, 15, 18);
  }

  lemma WithdrawInitiatorSends(i: Xpub, r: Xpub, plan: Withdraws.Plan)
    ensures var s := Withdraws.Initiating(r, plan);
            && SendsAt(s, 0, 1, r, 1, true) && SendsAt(s, 3, 9, r, UNASSIGNED_SEQ_NO, true)
            && SendsAt(s, 11, 15, r, UNASSIGNED_SEQ_NO, true) && NextSend(s, 17).None?
  {
    var s := Withdraws.Initiating(r, plan);
    SendsIn(s, 0, 1);
    SendsIn(s, 3, 9);
    SendsIn(s, 11, 15);
    NoSendUntil(s, 17, 19);
  }

  lemma WithdrawResponderSends(i: Xpub, r: Xpub, plan: Withdraws.Plan)
    ensures var s := Withdraws.Responding(i, plan);
            && ReceivesAt(s, 0) && SendsAt(s, 1, 5, i, UNASSIGNED_SEQ_NO, true)
            && SendsAt(s, 7, 13, i, UNASSIGNED_SEQ_NO, true) && SendsAt(s, 15, 18, i, UNASSIGNED_SEQ_NO, false)
  {
    var s := Withdraws.Responding(i, plan);
    SendsIn(s, 1, 5);
    SendsIn(s, 7, 13);
    SendsIn(s, 15, 18);
  }

  lemma InstallVirtualRouted(i: Xpub, m: Xpub, r: Xpub, planI: InstallVirtual.EndpointPlan, planM: InstallVirtual.IntermediaryPlan, planR: InstallVirtual.EndpointPlan)
    ensures IsRouteOf(ThreeRoles(i, m, r, InstallVirtual.Initiating(m, r, planI), InstallVirtual.Intermediating(i, r, planM),
                                 InstallVirtual.Responding(i, m, planR)), VIRTUAL)
  {
    InstallInitiatorSends(m, r, planI);
    InstallIntermediarySends(i, r, planM);
    InstallResponderSends(i, m, planR);
    VirtualRoute(i, m, r, InstallVirtual.Initiating(m, r, planI), InstallVirtual.Intermediating(i, r, planM),
                 InstallVirtual.Responding(i, m, planR), Sends(1, 3, 5, 10, 10, 18, 16, 22));
  }

  lemma InstallInitiatorSends(m: Xpub, r: Xpub, plan: InstallVirtual.EndpointPlan)
    ensures var s := InstallVirtual.Initiating(m, r, plan);
            SendsAt(s, 0, 1, m, 1, true) && SendsAt(s, 3, 10, m, UNASSIGNED_SEQ_NO, true) && NextSend(s, 12).None?
  {
    var s := InstallVirtual.Initiating(m, r, plan);
    SendsIn(s, 0, 1);
    SendsIn(s, 3, 10);
    NoSendUntil(s, 12, 20);
  }

  lemma InstallIntermediarySends(i: Xpub, r: Xpub, plan: InstallVirtual.IntermediaryPlan)
    ensures var s := InstallVirtual.Intermediating(i, r, plan);
            && ReceivesAt(s, 0) && SendsAt(s, 1, 3, r, 2, true) && SendsAt(s, 5, 10, i, UNASSIGNED_SEQ_NO, true)
            && SendsAt(s, 12, 18, r, UNASSIGNED_SEQ_NO, true) && SendsAt(s, 20, 22, i, UNASSIGNED_SEQ_NO, false)
  {
    var s := InstallVirtual.Intermediating(i, r, plan);
    SendsIn(s, 1, 3);
    SendsIn(s, 5, 10);
    SendsIn(s, 12, 18);
    SendsIn(s, 20, 22);
  }

  lemma InstallResponderSends(i: Xpub, m: Xpub, plan: InstallVirtual.EndpointPlan)
    ensures var s := InstallVirtual.Responding(i, m, plan);
            ReceivesAt(s, 0) && SendsAt(s, 1, 5, m, UNASSIGNED_SEQ_NO, true) && SendsAt(s, 7, 16, m, UNASSIGNED_SEQ_NO, false)
  {
    var s := InstallVirtual.Responding(i, m, plan);
    SendsIn(s, 1, 5);
    SendsIn(s, 7, 16);
  }

  lemma UninstallVirtualRouted(i: Xpub, m: Xpub, r: Xpub, planI: UninstallVirtual.EndpointPlan, planM: UninstallVirtual.IntermediaryPlan,
                               planR: UninstallVirtual.EndpointPlan)
    ensures IsRouteOf(ThreeRoles(i, m, r, UninstallVirtual.Initiating(m, r, planI), UninstallVirtual.Intermediating(i, r, planM),
                                 UninstallVirtual.Responding(i, m, planR)), VIRTUAL)
  {
    UninstallInitiatorSends(m, r, planI);
    UninstallIntermediarySends(i, r, planM);
    UninstallResponderSends(i, m, planR);
    VirtualRoute(i, m, r, UninstallVirtual.Initiating(m, r, planI), UninstallVirtual.Intermediating(i, r, planM),
                 UninstallVirtual.Responding(i, m, planR), Sends(1, 3, 5, 7, 7, 13, 13, 20));
  }

  lemma UninstallInitiatorSends(m: Xpub, r: Xpub, plan: UninstallVirtual.EndpointPlan)
    ensures var s := UninstallVirtual.Initiating(m, r, plan);
            SendsAt(s, 0, 1, m, 1, true) && SendsAt(s, 3, 7, m, UNASSIGNED_SEQ_NO, true) && NextSend(s, 9).None?
  {
    var s := UninstallVirtual.Initiating(m, r, plan);
    SendsIn(s, 0, 1);
    SendsIn(s, 3, 7);
    NoSendUntil(s, 9, 14);
  }

  lemma UninstallIntermediarySends(i: Xpub, r: Xpub, plan: UninstallVirtual.IntermediaryPlan)
    ensures var s := UninstallVirtual.Intermediating(i, r, plan);
            && ReceivesAt(s, 0) && SendsAt(s, 1, 3, r, 2, true) && SendsAt(s, 5, 7, i, UNASSIGNED_SEQ_NO, true)
            && SendsAt(s, 9, 13, r, UNASSIGNED_SEQ_NO, true) && SendsAt(s, 15, 20, i, UNASSIGNED_SEQ_NO, false)
  {
    var s := UninstallVirtual.Intermediating(i, r, plan);
    SendsIn(s, 1, 3);
    SendsIn(s, 5, 7);
    SendsIn(s, 9, 13);
    SendsIn(s, 15, 20);
  }

  lemma UninstallResponderSends(i: Xpub, m: Xpub, plan: UninstallVirtual.EndpointPlan)
    ensures var s := UninstallVirtual.Responding(i, m, plan);
            ReceivesAt(s, 0) && SendsAt(s, 1, 5, m, UNASSIGNED_SEQ_NO, true) && SendsAt(s, 7, 13, m, UNASSIGNED_SEQ_NO, false)
  {
    var s := UninstallVirtual.Responding(i, m, plan);
    SendsIn(s, 1, 5);
    SendsIn(s, 7, 13);
  }
}
