/** The signed commitments that honest parties put in their stores: which they are, and whether the signatures on
    them are good (store.ts, engine scripts). */
module StoredCommitments {
  import opened Commitments
  import opened Engine
  import opened Primitives
  import opened Results

  /** The signature that the last check of this message field, before step n, asked for. */
  function CheckedAt(script: Script, n: nat, message: nat, slot: nat): Option<Signature>
    requires n <= |script|
  {
    if n == 0 then None else
      match script[n - 1]
      case Verify(signer, keyIndex, commitment, m, at) =>
        if m == message && at == slot then Some(Signature(signer, keyIndex, commitment)) else CheckedAt(script, n - 1, message, slot)
      case _ => CheckedAt(script, n - 1, message, slot)
  }

  function SourceAt(p: Xpub, script: Script, n: nat, source: Source): Option<Signature>
    requires n <= |script|
  {
    match source
    case Mine(keyIndex, commitment) =>
      if Signature(p, keyIndex, commitment) in SignedBy(p, script, n) then Some(Signature(p, keyIndex, commitment)) else None
    case Received(message, slot) => CheckedAt(script, n, message, slot)
  }

  /** What step k stores. */
  function StoredAt(keys: Keys, p: Xpub, script: Script, k: nat): Stored
    requires k < |script| && script[k].SetCommitment?
  {
    var sources := script[k].sources;
    Stored(script[k].key,
           GetSignedTransaction(keys, script[k].commitment,
                                Present(seq(|sources|, i requires 0 <= i < |sources| => SourceAt(p, script, k, sources[i])))))
  }

  function StoredBy(keys: Keys, p: Xpub, script: Script, n: nat): set<Stored>
    requires n <= |script|
  {
    if n == 0 then {}
    else StoredBy(keys, p, script, n - 1) + if script[n - 1].SetCommitment? then {StoredAt(keys, p, script, n - 1)} else {}
  }

  /** The script stores received signatures only after checking them. */
  ghost predicate ChecksFirst(script: Script) {
    forall k, f :: 0 <= k < |script| && script[k].SetCommitment? && f in script[k].sources && f.Received? ==>
      CheckedAt(script, k, f.message, f.slot).Some?
  }

  ghost predicate RecordOk(keys: Keys, p: Xpub, script: Script, node: Node) {
    && node.pc <= |script|
    && (forall m: nat, slot: nat :: CheckedAt(script, node.pc, m, slot).Some? ==> Slot(node.inbox, m, slot) == CheckedAt(script, node.pc, m, slot))
    && node.commitments == StoredBy(keys, p, script, node.pc)
  }

  lemma ResolvesAsChecked(keys: Keys, p: Xpub, script: Script, node: Node)
    requires RecordOk(keys, p, script, node) && ChecksFirst(script) && node.signed == SignedBy(p, script, node.pc)
    requires node.pc < |script| && script[node.pc].SetCommitment?
    ensures var instr := script[node.pc];
            Stored(instr.key, GetSignedTransaction(keys, instr.commitment, Present(ResolveAll(p, node, instr.sources))))
            == StoredAt(keys, p, script, node.pc)
  {
    var sources := script[node.pc].sources;
    forall i | 0 <= i < |sources|
      ensures Resolve(p, node, sources[i]) == SourceAt(p, script, node.pc, sources[i])
    {
      assert sources[i] in sources;
    }
    assert ResolveAll(p, node, sources) == seq(|sources|, i requires 0 <= i < |sources| => SourceAt(p, script, node.pc, sources[i]));
  }

  lemma ExecuteKeepsRecord(keys: Keys, p: Xpub, script: Script, node: Node)
    requires RecordOk(keys, p, script, node) && ChecksFirst(script) && node.signed == SignedBy(p, script, node.pc)
    requires node.pc < |script| && !script[node.pc].Receive?
    ensures RecordOk(keys, p, script, Execute(keys, p, node, script[node.pc]))
  {
    var node' := Execute(keys, p, node, script[node.pc]);
    if script[node.pc].SetCommitment? {
      ResolvesAsChecked(keys, p, script, node);
    }
    forall m: nat, slot: nat | node'.pc == node.pc + 1 && CheckedAt(script, node'.pc, m, slot).Some?
      ensures Slot(node'.inbox, m, slot) == CheckedAt(script, node'.pc, m, slot)
    {
      assert CheckedAt(script, node.pc, m, slot).Some? ==> Slot(node.inbox, m, slot) == CheckedAt(script, node.pc, m, slot);
    }
  }

  lemma ReceiveKeepsRecord(keys: Keys, p: Xpub, script: Script, node: Node, message: Message)
    requires RecordOk(keys, p, script, node) && node.pc < |script| && script[node.pc].Receive?
    ensures RecordOk(keys, p, script, node.(pc := node.pc + 1, inbox := node.inbox + [message]))
  {
    var inbox: seq<Message> := node.inbox + [message];
    forall m: nat, slot: nat | CheckedAt(script, node.pc + 1, m, slot).Some?
      ensures Slot(inbox, m, slot) == CheckedAt(script, node.pc + 1, m, slot)
    {
      assert CheckedAt(script, node.pc, m, slot).Some? && Slot(node.inbox, m, slot) == CheckedAt(script, node.pc, m, slot);
    }
  }

  lemma StepStores(sys: System, w: World, e: Event, p: Xpub)
    requires p in sys.parties && p in w.nodes && p in Happen(sys, w, e).nodes
    requires NodeOk(p, sys.parties[p], w.nodes[p]) && ChecksFirst(sys.parties[p].script)
    requires RecordOk(sys.keys, p, sys.parties[p].script, w.nodes[p])
    ensures RecordOk(sys.keys, p, sys.parties[p].script, Happen(sys, w, e).nodes[p])
  {
    var node, script := w.nodes[p], sys.parties[p].script;
    if e.party == p && At(sys, w, p) {
      if script[node.pc].Receive? {
        if e.Delivers? { ReceiveKeepsRecord(sys.keys, p, script, node, e.message); }
      } else {
        ExecuteKeepsRecord(sys.keys, p, script, node);
      }
      if e.Stops? {
        assert RecordOk(sys.keys, p, script, node.(halted := true));
      }
    }
  }

  /** In every run, an honest party whose script checks what it stores has stored exactly what stands in its
      script before its program counter, with the signatures that were asked for. */
  lemma {:induction false} StoresWhatWasChecked(sys: System, events: seq<Event>, p: Xpub)
    requires p in sys.parties && ChecksFirst(sys.parties[p].script)
    ensures RecordOk(sys.keys, p, sys.parties[p].script, NodeOf(sys, events, p))
  {
    RunOk(sys, events);
    if events == [] {
      assert forall m: nat, slot: nat :: CheckedAt(sys.parties[p].script, 0, m, slot).None?;
    } else {
      var before, e := events[..|events| - 1], events[|events| - 1];
      StoresWhatWasChecked(sys, before, p);
      RunOk(sys, before);
      assert NodeOk(p, sys.parties[p], WorldAfter(sys, before).nodes[p]);
      StepStores(sys, WorldAfter(sys, before), e, p);
    }
  }

  lemma {:induction false} StoredByStep(keys: Keys, p: Xpub, script: Script, n: nat, t: Stored) returns (k: nat)
    requires n <= |script| && t in StoredBy(keys, p, script, n)
    ensures k < n && script[k].SetCommitment? && t == StoredAt(keys, p, script, k)
  {
    k := n - 1;
    if t in StoredBy(keys, p, script, n - 1) {
      k := StoredByStep(keys, p, script, n - 1, t);
    }
  }

  lemma {:induction false} CheckedOnce(script: Script, n: nat, k: nat, s: Signature)
    requires k < n <= |script| && script[k].Verify?
    requires s == Signature(script[k].signer, script[k].keyIndex, script[k].commitment)
    requires forall j :: k < j < n && script[j].Verify? ==> (script[j].message, script[j].slot) != (script[k].message, script[k].slot)
    ensures CheckedAt(script, n, script[k].message, script[k].slot) == Some(s)
  {
    if k < n - 1 {
      CheckedOnce(script, n - 1, k, s);
    }
  }

  lemma PresentPair(a: Signature, b: Signature)
    ensures Present([Some(a), Some(b)]) == [a, b]
  {
    var message: Message := [Some(a), Some(b)];
    assert message[..1] == [Some(a)] && message[..1][..0] == [];
    assert Present(message[..1]) == [a];
  }

  /** Step k stores a commitment with the party's own signature, made in step `sign`, and the counterparty's,
      checked in step `check`. */
  predicate StoresPair(script: Script, other: Xpub, sign: nat, check: nat, k: nat) {
    && sign < k < |script| && check < k && script[k].SetCommitment?
    && script[sign] == Sign(0, script[k].commitment)
    && script[check].Verify? && script[check].signer == other && script[check].keyIndex == 0
    && script[check].commitment == script[k].commitment
    && script[k].sources == [Mine(0, script[k].commitment), Received(script[check].message, script[check].slot)]
    && forall j :: check < j < k && script[j].Verify? ==> (script[j].message, script[j].slot) != (script[check].message, script[check].slot)
  }

  lemma StoresBoth(keys: Keys, p: Xpub, other: Xpub, script: Script, sign: nat, check: nat, k: nat)
    requires StoresPair(script, other, sign, check, k)
    ensures StoredAt(keys, p, script, k) == Stored(script[k].key, Countersigned(keys, script[k].commitment, p, other))
    ensures forall f :: f in script[k].sources && f.Received? ==> CheckedAt(script, k, f.message, f.slot).Some?
  {
    var c, sources := script[k].commitment, script[k].sources;
    SignedOnce(p, script, k, sign);
    CheckedOnce(script, k, check, Signature(other, 0, c));
    PresentPair(Signature(p, 0, c), Signature(other, 0, c));
    assert seq(2, i requires 0 <= i < 2 => SourceAt(p, script, k, sources[i])) == [Some(Signature(p, 0, c)), Some(Signature(other, 0, c))];
  }

  /** Whatever the script stores, it stores so. */
  ghost predicate StoresPairs(script: Script, other: Xpub) {
    forall k :: 0 <= k < |script| && script[k].SetCommitment? ==> exists sign, check :: StoresPair(script, other, sign, check, k)
  }

  /** Then, in every run, every commitment that the party has stored is properly signed by both, and in the
      form in which its counterparty would store it. */
  lemma StoredIsCountersigned(sys: System, events: seq<Event>, p: Xpub, other: Xpub, t: Stored) returns (k: nat)
    requires p in sys.parties && StoresPairs(sys.parties[p].script, other)
    requires sys.keys.kth(p, 0) != sys.keys.kth(other, 0)
    requires t in NodeOf(sys, events, p).commitments
    ensures k < |sys.parties[p].script| && sys.parties[p].script[k].SetCommitment?
    ensures t.transaction.commitment == sys.parties[p].script[k].commitment && t.key == sys.parties[p].script[k].key
    ensures ProperlySigned(t.transaction)
    ensures t.transaction == Countersigned(sys.keys, t.transaction.commitment, p, other)
                          == Countersigned(sys.keys, t.transaction.commitment, other, p)
  {
    RunOk(sys, events);
    var script := sys.parties[p].script;
    forall k | 0 <= k < |script| && script[k].SetCommitment?
      ensures StoredAt(sys.keys, p, script, k) == Stored(script[k].key, Countersigned(sys.keys, script[k].commitment, p, other))
      ensures forall f :: f in script[k].sources && f.Received? ==> CheckedAt(script, k, f.message, f.slot).Some?
    {
      var sign, check :| StoresPair(script, other, sign, check, k);
      StoresBoth(sys.keys, p, other, script, sign, check, k);
    }
    StoresWhatWasChecked(sys, events, p);
    k := StoredByStep(sys.keys, p, script, NodeOf(sys, events, p).pc, t);
    CountersignedAlike(sys.keys, script[k].commitment, p, other);
  }

  /** And each as soon as it has taken the step. */
  lemma EachIsCountersigned(sys: System, events: seq<Event>, p: Xpub, other: Xpub, k: nat)
    requires p in sys.parties && StoresPairs(sys.parties[p].script, other)
    requires k < NodeOf(sys, events, p).pc && k < |sys.parties[p].script| && sys.parties[p].script[k].SetCommitment?
    ensures Stored(sys.parties[p].script[k].key, Countersigned(sys.keys, sys.parties[p].script[k].commitment, p, other))
            in NodeOf(sys, events, p).commitments
  {
    RunOk(sys, events);
    var script := sys.parties[p].script;
    forall k | 0 <= k < |script| && script[k].SetCommitment?
      ensures StoredAt(sys.keys, p, script, k) == Stored(script[k].key, Countersigned(sys.keys, script[k].commitment, p, other))
      ensures forall f :: f in script[k].sources && f.Received? ==> CheckedAt(script, k, f.message, f.slot).Some?
    {
      var sign, check :| StoresPair(script, other, sign, check, k);
      StoresBoth(sys.keys, p, other, script, sign, check, k);
    }
    StoresWhatWasChecked(sys, events, p);
    StoredOnce(sys.keys, p, script, NodeOf(sys, events, p).pc, k);
  }

  /** Step `check` asked for the signature that a later step k refers to as `f`, and nothing in between asked for
      another one in its place. */
  predicate ChecksFor(script: Script, check: nat, k: nat, f: Source) {
    && check < k <= |script| && f.Received? && script[check].Verify?
    && script[check].message == f.message && script[check].slot == f.slot
    && forall j :: check < j < k && script[j].Verify? ==> (script[j].message, script[j].slot) != (f.message, f.slot)
  }

  /** What a step signs or asks for. */
  function StepSignature(p: Xpub, instr: Instr): Option<Signature> {
    match instr
    case Sign(keyIndex, commitment) => Some(Signature(p, keyIndex, commitment))
    case Verify(signer, keyIndex, commitment, _, _) => Some(Signature(signer, keyIndex, commitment))
    case _ => None
  }

  /** The signatures that step k stores were made or checked in these steps, in this order. */
  predicate StoresFrom(script: Script, k: nat, steps: seq<nat>) {
    && k < |script| && script[k].SetCommitment? && |steps| == |script[k].sources|
    && forall j :: 0 <= j < |steps| ==>
         var f := script[k].sources[j];
         if f.Mine? then steps[j] < k && script[steps[j]] == Sign(f.keyIndex, f.commitment) else ChecksFor(script, steps[j], k, f)
  }

  lemma {:induction false} PresentAll(message: Message, signatures: seq<Signature>)
    requires |message| == |signatures| && forall j :: 0 <= j < |message| ==> message[j] == Some(signatures[j])
    ensures Present(message) == signatures
  {
    if message != [] {
      var n := |message| - 1;
      PresentAll(message[..n], signatures[..n]);
    }
  }

  /** So it stores exactly these signatures. */
  lemma StoresExactly(keys: Keys, p: Xpub, script: Script, k: nat, steps: seq<nat>, signatures: seq<Signature>)
    requires StoresFrom(script, k, steps) && |signatures| == |steps|
    requires forall j :: 0 <= j < |steps| ==> steps[j] < |script| && StepSignature(p, script[steps[j]]) == Some(signatures[j])
    ensures StoredAt(keys, p, script, k) == Stored(script[k].key, GetSignedTransaction(keys, script[k].commitment, signatures))
  {
    var sources := script[k].sources;
    var message: Message := seq(|sources|, i requires 0 <= i < |sources| => SourceAt(p, script, k, sources[i]));
    forall j | 0 <= j < |message|
      ensures message[j] == Some(signatures[j])
    {
      if sources[j].Mine? {
        SignedOnce(p, script, k, steps[j]);
      } else {
        CheckedOnce(script, k, steps[j], signatures[j]);
      }
    }
    PresentAll(message, signatures);
  }

  lemma StoresTwo(keys: Keys, p: Xpub, script: Script, k: nat, steps: (nat, nat), a: Xpub, b: Xpub)
    requires StoresFrom(script, k, [steps.0, steps.1]) && steps.0 < k && steps.1 < k
    requires StepSignature(p, script[steps.0]) == Some(Signature(a, 0, script[k].commitment))
    requires StepSignature(p, script[steps.1]) == Some(Signature(b, 0, script[k].commitment))
    ensures StoresAs(keys, p, script, k, Stored(script[k].key, Countersigned(keys, script[k].commitment, a, b)))
  {
    StoresExactly(keys, p, script, k, [steps.0, steps.1], [Signature(a, 0, script[k].commitment), Signature(b, 0, script[k].commitment)]);
  }

  lemma StoresThree(keys: Keys, p: Xpub, script: Script, k: nat, steps: (nat, nat, nat), a: Xpub, b: Xpub, c: Xpub)
    requires StoresFrom(script, k, [steps.0, steps.1, steps.2]) && steps.0 < k && steps.1 < k && steps.2 < k
    requires StepSignature(p, script[steps.0]) == Some(Signature(a, 0, script[k].commitment))
    requires StepSignature(p, script[steps.1]) == Some(Signature(b, 0, script[k].commitment))
    requires StepSignature(p, script[steps.2]) == Some(Signature(c, 0, script[k].commitment))
    ensures StoresAs(keys, p, script, k, Stored(script[k].key, SignedByThree(keys, script[k].commitment, a, b, c)))
  {
    StoresExactly(keys, p, script, k, [steps.0, steps.1, steps.2],
                  [Signature(a, 0, script[k].commitment), Signature(b, 0, script[k].commitment), Signature(c, 0, script[k].commitment)]);
  }

  /** All received signatures that the script stores, good or not, were checked for something. */
  ghost predicate StoresChecked(script: Script) {
    forall k, f :: 0 <= k < |script| && script[k].SetCommitment? && f in script[k].sources && f.Received? ==>
      exists check: nat :: ChecksFor(script, check, k, f)
  }

  lemma StoresCheckedFirst(script: Script)
    requires StoresChecked(script)
    ensures ChecksFirst(script)
  {
    forall k, f | 0 <= k < |script| && script[k].SetCommitment? && f in script[k].sources && f.Received?
      ensures CheckedAt(script, k, f.message, f.slot).Some?
    {
      var check: nat :| ChecksFor(script, check, k, f);
      CheckedOnce(script, k, check, Signature(script[check].signer, script[check].keyIndex, script[check].commitment));
    }
  }

  /** In every run, what a party stored was stored by a step that it has taken. */
  lemma StoredByTakenStep(sys: System, events: seq<Event>, p: Xpub, t: Stored) returns (k: nat)
    requires p in sys.parties && StoresChecked(sys.parties[p].script) && t in NodeOf(sys, events, p).commitments
    ensures k < |sys.parties[p].script| && k < NodeOf(sys, events, p).pc
    ensures sys.parties[p].script[k].SetCommitment? && t == StoredAt(sys.keys, p, sys.parties[p].script, k)
  {
    RunOk(sys, events);
    StoresCheckedFirst(sys.parties[p].script);
    StoresWhatWasChecked(sys, events, p);
    k := StoredByStep(sys.keys, p, sys.parties[p].script, NodeOf(sys, events, p).pc, t);
  }

  /** Every storing step that was taken has left its transaction. */
  lemma {:induction false} StoredOnce(keys: Keys, p: Xpub, script: Script, n: nat, k: nat)
    requires k < n <= |script| && script[k].SetCommitment?
    ensures StoredAt(keys, p, script, k) in StoredBy(keys, p, script, n)
  {
    if k < n - 1 {
      StoredOnce(keys, p, script, n - 1, k);
    }
  }

  /** Step k stores t. */
  ghost predicate StoresAs(keys: Keys, p: Xpub, script: Script, k: nat, t: Stored) {
    k < |script| && script[k].SetCommitment? && StoredAt(keys, p, script, k) == t
  }

  /** The storing steps of the script are these, and store these transactions. */
  ghost predicate StoresThese(keys: Keys, p: Xpub, script: Script, steps: seq<nat>, stored: seq<Stored>) {
    && |steps| == |stored|
    && (forall j :: 0 <= j < |steps| ==> StoresAs(keys, p, script, steps[j], stored[j]))
    && (forall k :: 0 <= k < |script| && script[k].SetCommitment? ==> k in steps)
  }

  /** So, in every run, the party stores nothing but these, and each as soon as it has taken the step. */
  lemma StoresOnlyThese(sys: System, events: seq<Event>, p: Xpub, steps: seq<nat>, stored: seq<Stored>)
    requires p in sys.parties && StoresChecked(sys.parties[p].script)
    requires StoresThese(sys.keys, p, sys.parties[p].script, steps, stored)
    ensures var node := NodeOf(sys, events, p);
            && (forall t :: t in node.commitments ==> t in stored)
            && (forall j :: 0 <= j < |steps| && steps[j] < node.pc ==> stored[j] in node.commitments)
  {
    var node, script := NodeOf(sys, events, p), sys.parties[p].script;
    StoresCheckedFirst(script);
    StoresWhatWasChecked(sys, events, p);
    forall t | t in node.commitments
      ensures t in stored
    {
      var k := StoredByStep(sys.keys, p, script, node.pc, t);
      assert k in steps;
      var j :| 0 <= j < |steps| && steps[j] == k;
      assert StoresAs(sys.keys, p, script, steps[j], stored[j]);
    }
    forall j | 0 <= j < |steps| && steps[j] < node.pc
      ensures stored[j] in node.commitments
    {
      assert StoresAs(sys.keys, p, script, steps[j], stored[j]);
      StoredOnce(sys.keys, p, script, node.pc, steps[j]);
    }
  }
}
