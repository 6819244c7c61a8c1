/** An outbox relay and an at-least-once queue, for any kind of message. */
module Messaging {

  /** Relay workers that have checked a row, and those that have sent its message but not yet marked the row. */
  datatype Workers<M(==)> = Workers(read: multiset<M>, sent: multiset<M>)
  {
    function Check(m: M): Workers<M> { Workers(read + multiset{m}, sent) }

    function Send(m: M): Workers<M> { Workers(read - multiset{m}, sent + multiset{m}) }

    function LeaveRead(m: M): Workers<M> { Workers(read - multiset{m}, sent) }

    function LeaveSent(m: M): Workers<M> { Workers(read, sent - multiset{m}) }
  }

  /** Messages waiting, deliveries whose handler said "delete", and every message ever sent. */
  datatype Queue<M(==)> = Queue(messages: multiset<M>, acks: multiset<M>, log: set<M>)
  {
    function Put(m: M): Queue<M> { Queue(messages + multiset{m}, acks, log + {m}) }

    function Ack(m: M): Queue<M> { Queue(messages, acks + multiset{m}, log) }

    function Delete(m: M): Queue<M> {
      if m in acks then Queue(messages - multiset{m}, acks - multiset{m}, log) else this
    }

    function Redeliver(m: M): Queue<M> {
      if m in log then Queue(messages + multiset{m}, acks, log) else this
    }
  }

  ghost predicate Queued<M>(q: Queue<M>, m: M) {
    m in q.messages || m in q.acks || m in q.log
  }

  ghost predicate Moving<M>(w: Workers<M>, q: Queue<M>, m: M) {
    m in w.read || m in w.sent || Queued(q, m)
  }

  /**
   * Once the row of `m` is marked, or some worker has sent `m`, the message is still queued or has been handled;
   * and only a handled message is ever acknowledged.
   */
  ghost predicate Covered<M>(marked: bool, m: M, w: Workers<M>, q: Queue<M>, handled: bool) {
    && (marked || m in w.sent ==> m in q.messages || handled)
    && (m in q.acks ==> handled)
  }

  lemma SendCovers<M>(marked: bool, m: M, w: Workers<M>, q: Queue<M>, handled: bool, x: M)
    requires Covered(marked, m, w, q, handled)
    ensures Covered(marked, m, w.Send(x), q.Put(x), handled)
    ensures m != x ==> Covered(marked, m, w.Send(x), q, handled)
  {
  }

  lemma WorkersLeave<M>(marked: bool, m: M, w: Workers<M>, q: Queue<M>, handled: bool, x: M)
    requires Covered(marked, m, w, q, handled)
    ensures Covered(marked, m, w.Check(x), q, handled)
    ensures Covered(marked, m, w.LeaveRead(x), q, handled)
    ensures Covered(marked, m, w.LeaveSent(x), q, handled)
    ensures x in w.sent ==> Covered(marked || x == m, m, w.LeaveSent(x), q, handled)
  {
  }

  lemma QueueCovers<M>(marked: bool, m: M, w: Workers<M>, q: Queue<M>, handled: bool, x: M)
    requires Covered(marked, m, w, q, handled)
    ensures Covered(marked, m, w, q.Delete(x), handled)
    ensures Covered(marked, m, w, q.Redeliver(x), handled)
  {
  }

  /** Handling `x` and acknowledging it is covered once `handled` reflects its effect. */
  lemma AckCovers<M>(marked: bool, m: M, w: Workers<M>, q: Queue<M>, was: bool, now: bool, x: M)
    requires Covered(marked, m, w, q, was) && (was ==> now)
    ensures Covered(marked, m, w, q, now)
    ensures (x == m ==> now) ==> Covered(marked, m, w, q.Ack(x), now)
  {
  }

  /** No operation brings in a message that was not there, except the one it is given. */
  lemma NothingFromNowhere<M>(w: Workers<M>, q: Queue<M>, x: M, m: M)
    ensures Moving(w.Check(x), q, m) ==> Moving(w, q, m) || m == x
    ensures x in w.read ==>
              (Moving(w.Send(x), q.Put(x), m) ==> Moving(w, q, m)) && (Moving(w.Send(x), q, m) ==> Moving(w, q, m))
    ensures Moving(w.LeaveRead(x), q, m) || Moving(w.LeaveSent(x), q, m) ==> Moving(w, q, m)
    ensures Queued(q.Put(x), m) ==> Queued(q, m) || m == x
    ensures x in q.messages ==> (Queued(q.Ack(x), m) ==> Queued(q, m))
    ensures Queued(q.Delete(x), m) || Queued(q.Redeliver(x), m) ==> Queued(q, m)
  {
  }
}
