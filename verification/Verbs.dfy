/** The part of the verbs interface that the message loop sees: work-request identifiers,
    completions, the depth-one send queue of a queue pair, and the completion queue with its
    one-shot notification. */
module Verbs {
  /** A work-request id doubles as the bit it occupies in the `pending` mask of its queue pair. */
  type Mask = bv8

  /** Room for so many queue pairs in the arrays of `srq_pingpong`. */
  const MAX_QP: nat := 256

  const RECV_WRID: Mask := 1
  const SEND_WRID: Mask := 2

  /** A successful work completion, naming the local queue pair by number. */
  datatype Completion = Completion(wrId: Mask, qpn: int)

  /** The only slot of a send queue created with max_send_wr = 1: free, holding a request the
      device has not read yet, holding one whose message is on the wire, or holding one whose
      completion has been generated but not consumed. */
  datatype SendSlot = Empty | Queued | Sent | Completed

  /** One byte of the registered buffer, at a fixed offset. Each byte of a message is read from
      and written to memory at a time of its own, so the byte is the unit of transfer. */
  newtype Byte = i: int | 0 <= i < 256

  datatype Error = UnknownQp | UnknownWrId | CannotPostReceive | CannotPostSend | CannotModifyQp

  datatype Result<+T> = Ok(value: T) | Err(error: Error)

  function Bit(b: bool): nat { if b then 1 else 0 }

  function MaskOf(send: bool, recv: bool): Mask {
    if send then (if recv then 3 else SEND_WRID) else (if recv then RECV_WRID else 0)
  }

  lemma ClearMask(send: bool, recv: bool)
    ensures MaskOf(send, recv) & !SEND_WRID == MaskOf(false, recv)
    ensures MaskOf(send, recv) & !RECV_WRID == MaskOf(send, false)
    ensures MaskOf(send, recv) == 0 <==> !send && !recv
    ensures SEND_WRID | RECV_WRID == MaskOf(true, true)
  {
  }

  predicate Distinct(qpns: seq<int>) {
    forall i, j :: 0 <= i < j < |qpns| ==> qpns[i] != qpns[j]
  }

  /** The first queue pair with the given number, or -1. */
  function FindQp(qpns: seq<int>, qpn: int): (q: int)
    ensures -1 <= q < |qpns|
    ensures q >= 0 ==> qpns[q] == qpn && forall i :: 0 <= i < q ==> qpns[i] != qpn
    ensures q == -1 <==> qpn !in qpns
  {
    FindQpFrom(qpns, qpn, 0)
  }

  function FindQpFrom(qpns: seq<int>, qpn: int, i: nat): (q: int)
    requires i <= |qpns|
    requires forall j :: 0 <= j < i ==> qpns[j] != qpn
    ensures -1 <= q < |qpns|
    ensures q >= 0 ==> qpns[q] == qpn && forall j :: 0 <= j < q ==> qpns[j] != qpn
    ensures q == -1 <==> qpn !in qpns
    decreases |qpns| - i
  {
    if i == |qpns| then -1 else if qpns[i] == qpn then i else FindQpFrom(qpns, qpn, i + 1)
  }

  lemma FindQpUnique(qpns: seq<int>, q: nat)
    requires Distinct(qpns) && q < |qpns|
    ensures FindQp(qpns, qpns[q]) == q
  {
    assert qpns[q] in qpns;
  }
}
