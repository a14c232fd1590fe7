/** The part of a node that matches received messages to open waits (node.ts). */
module Nodes {
  import opened Delivery
  import opened Primitives
  import opened Results

  type ProcessID = string

  datatype Envelope = Envelope(processID: ProcessID, seqNo: int)

  class Node {
    /** For each process with an open wait, the reply that its promise was resolved with, if any. */
    var ioSendDeferrals: map<ProcessID, Option<Envelope>>

    constructor ()
      ensures ioSendDeferrals == map[]
    {
      ioSendDeferrals := map[];
    }

    predicate Expects(processID: ProcessID)
      reads this
    {
      processID in ioSendDeferrals
    }

    /** IO_SEND_AND_WAIT, before the message goes out: the deferral is there when the reply comes. */
    method BeginWait(processID: ProcessID)
      modifies this
      ensures ioSendDeferrals == old(ioSendDeferrals)[processID := None]
    {
      ioSendDeferrals := ioSendDeferrals[processID := None];
    }

    /** The end of the wait. With a reply the deferral goes; a wait that times out throws and leaves it. */
    method EndWait(processID: ProcessID) returns (reply: Option<Envelope>)
      requires Expects(processID)
      modifies this
      ensures reply == old(ioSendDeferrals)[processID]
      ensures reply.Some? ==> ioSendDeferrals == old(ioSendDeferrals) - {processID}
      ensures reply.None? ==> ioSendDeferrals == old(ioSendDeferrals)
    {
      reply := ioSendDeferrals[processID];
      if reply.Some? {
        ioSendDeferrals := ioSendDeferrals - {processID};
      }
    }

    /** `handleReceivedMessage`: the process ID alone decides. A promise that is resolved already keeps its reply. */
    method HandleReceivedMessage(msg: Envelope) returns (d: Dispatch)
      modifies this
      ensures d == DispatchOf(old(Expects(msg.processID)), msg.seqNo)
      ensures d.ToWait? <==> old(Expects(msg.processID))
      ensures ioSendDeferrals == if d.ToWait? && old(ioSendDeferrals)[msg.processID].None?
                                 then old(ioSendDeferrals)[msg.processID := Some(msg)] else old(ioSendDeferrals)
    {
      if msg.processID in ioSendDeferrals {
        if ioSendDeferrals[msg.processID].None? {
          ioSendDeferrals := ioSendDeferrals[msg.processID := Some(msg)];
        }
        d := ToWait;
      } else if msg.seqNo == UNASSIGNED_SEQ_NO {
        d := ToNobody;
      } else {
        d := ToStep(msg.seqNo);
      }
    }
  }

  /** A wait that was begun and answered gives back the first answer, whatever else comes for the process
      meanwhile, and leaves the other processes alone. */
  method WaitReturnsFirstReply(node: Node, processID: ProcessID, replies: seq<Envelope>) returns (reply: Option<Envelope>)
    requires forall i :: 0 <= i < |replies| ==> replies[i].processID == processID
    modifies node
    ensures reply == if replies == [] then None else Some(replies[0])
    ensures node.ioSendDeferrals - {processID} == old(node.ioSendDeferrals) - {processID}
    ensures node.Expects(processID) <==> replies == []
  {
    node.BeginWait(processID);
    for i := 0 to |replies|
      invariant node.Expects(processID)
      invariant node.ioSendDeferrals[processID] == if i == 0 then None else Some(replies[0])
      invariant node.ioSendDeferrals - {processID} == old(node.ioSendDeferrals) - {processID}
    {
      var d := node.HandleReceivedMessage(replies[i]);
    }
    reply := node.EndWait(processID);
  }
}
