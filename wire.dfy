/** The outbound messages of the ground station, as the transport receives
    them (before JSON encoding), and the 16-bit sequence counter they carry. */
module Wire {
  import opened JsonValues

  const SeqModulus: int := 65536

  /** A sequence number as it appears on the wire. */
  type SeqNum = s: int | 0 <= s < SeqModulus

  /** The counter value after one `_next_seq`: `(s + 1) % 65536`. */
  function Successor(s: SeqNum): (r: SeqNum)
    ensures s < SeqModulus - 1 ==> r == s + 1
    ensures s == SeqModulus - 1 ==> r == 0
  {
    (s + 1) % SeqModulus
  }

  /** The counter value after `n` sequence numbers have been handed out. */
  function Advance(s: SeqNum, n: nat): SeqNum {
    if n == 0 then s else Successor(Advance(s, n - 1))
  }

  /** Handing out `n` numbers moves the counter by `n` modulo 65536, so after
      exactly 65536 sends it is back where it started. */
  lemma {:induction false} AdvanceIsModular(s: SeqNum, n: nat)
    ensures Advance(s, n) == (s + n) % SeqModulus
  {
    if n > 0 {
      AdvanceIsModular(s, n - 1);
      SuccessorOfRemainder(s + (n - 1), s + n);
    }
  }

  /** Taking the successor of a remainder is taking the remainder of the
      successor. */
  lemma SuccessorOfRemainder(x: nat, y: nat)
    requires y == x + 1
    ensures Successor(x % SeqModulus) == y % SeqModulus
  {
    var q, p := x / SeqModulus, x % SeqModulus;
    assert x == q * SeqModulus + p;
    if p < SeqModulus - 1 {
      assert y == q * SeqModulus + (p + 1);
    } else {
      assert y == (q + 1) * SeqModulus;
    }
  }

  /** A payload of one outbound publication. `JoystickConnected` is the only
      kind without a sequence number. */
  datatype Payload =
    | Heartbeat(ts: real, seqNo: SeqNum)
    | Teleop(linearX: Value, angularZ: Value, seqNo: SeqNum)
    | EstopCommand(active: bool, seqNo: SeqNum)
    | CmdMode(mode: int, seqNo: SeqNum)
    | JoystickConnected(connected: bool)

  /** One successful `put` on a publisher. */
  datatype Publication = Publication(topic: string, payload: Payload)
}
