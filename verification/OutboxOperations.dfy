/**
 The operator's requeue as one transaction over the outbox and the operations audit: an
 idempotency key makes a repeated request return the first answer and touch nothing.
 */
module OutboxOperations {
  import opened Ordering
  import opened Outbox
  import opened OutboxStore
  import O = OutboxOutcomes
  import A = AuditLog
  import P = AuditProofs
  import S = AuditStore

  const REQUEUED := "outbox.dead_letter.requeued"

  /** The texts the program derives: the request's digest, and the details and result digest of the row it leaves. */
  datatype Texts = Texts(request: Id -> string, details: (Id, Row) -> string, result: (Id, Row) -> string)

  datatype Request = Request(message: Id, actor: string, key: string, eventId: Id)

  /** The reply holds the audit event, from which every field of the result is read. */
  datatype Reply = NotFound | Rejected | Conflict | Done(event: A.Event)

  function ContentOf(texts: Texts, q: Request, r: Row, at: int): A.Content {
    A.Content(REQUEUED, q.actor, texts.request(q.message), texts.result(q.message, r), texts.details(q.message, r), at)
  }

  datatype Outcome = Outcome(box: Box, log: A.Log, reply: Reply)

  ghost function Operate(b: Box, l: A.Log, texts: Texts, q: Request, at: int): Outcome {
    match A.LookUp(l.rows, REQUEUED, texts.request(q.message), q.key)
    case Clash => Outcome(b, l, Conflict)
    case Broken => Outcome(b, l, Rejected)
    case Recalled(e) => Outcome(b, l, Done(e))
    case Absent =>
      if !Requeueable(b, q.message) then Outcome(b, l, NotFound)
      else
        var t := Requeue(b, q.message);
        var content := ContentOf(texts, q, t.rows[q.message], at);
        match A.Append(l, q.eventId, content, Some(q.key))
        case None => Outcome(b, l, Rejected)
        case Some(m) => Outcome(t, m, Done(A.NewEvent(l, q.eventId, content, Some(q.key))))
  }

  /**
   One requeue for each key: after a request has requeued its message, the same request, at any later
   time and although the message may be dead again, gets the first answer and changes neither the
   outbox nor the log; a request for a message with another digest under that key is a conflict.
   */
  lemma {:induction false} RequeueIsIdempotent(b: Box, l: A.Log, texts: Texts, q: Request, at: int,
                                               laterBox: Box, laterLog: A.Log, retry: Request, retryAt: int)
    requires A.Honest(l) && A.KeysUnique(l.rows)
    requires var o := Operate(b, l, texts, q, at); o.box != b && A.Extends(o.log, laterLog)
    requires A.KeysUnique(laterLog.rows) && retry.key == q.key
    ensures var first := Operate(b, l, texts, q, at).reply;
            && first.Done?
            && Operate(laterBox, laterLog, texts, retry, retryAt) ==
                 Outcome(laterBox, laterLog, if texts.request(retry.message) == texts.request(q.message) then first else Conflict)
  {
    var o := Operate(b, l, texts, q, at);
    var content := ContentOf(texts, q, o.box.rows[q.message], at);
    P.MutationIsIdempotent(l, q.eventId, content, q.key, laterLog, retry.eventId,
                           content.(request := texts.request(retry.message)));
  }

  /**
   What a request comes to. A record under its key answers for it and nothing changes; without one, a dead letter is
   requeued and the log gains the one event that says so, and anything else is not found and changes nothing.
   */
  lemma {:induction false} OperationOutcome(b: Box, l: A.Log, texts: Texts, q: Request, at: int)
    requires A.Honest(l) && A.KeysUnique(l.rows)
    ensures var o := Operate(b, l, texts, q, at);
            if forall k | k in l.rows :: !(l.rows[k].content.action == REQUEUED && l.rows[k].key == Some(q.key)) then
              if q.message in b.rows && b.rows[q.message].deadAt.Some? && b.rows[q.message].publishedAt == None then
                && O.RequeueLaw(b, q.message, o.box) && q.message in o.box.rows
                && P.Gains(l, q.eventId, A.Content(REQUEUED, q.actor, texts.request(q.message), texts.result(q.message, o.box.rows[q.message]),
                                                   texts.details(q.message, o.box.rows[q.message]), at), Some(q.key), o.log)
                && o.reply == Done(o.log.rows[l.next])
              else o == Outcome(b, l, NotFound)
            else
              && o.box == b && o.log == l
              && forall k | k in l.rows && l.rows[k].content.action == REQUEUED && l.rows[k].key == Some(q.key) ::
                   o.reply == if l.rows[k].content.request == texts.request(q.message) then Done(l.rows[k]) else Conflict
  {
    hide A.Append, A.Honest, A.KeysUnique, P.Gains, O.RequeueLaw, Unsafe;
    P.NeverBroken(l, REQUEUED, texts.request(q.message), q.key);
    P.HeadOfHonest(l);
    RequeueIsLawful(b, q.message);
    if Requeueable(b, q.message) {
      var content := ContentOf(texts, q, Requeue(b, q.message).rows[q.message], at);
      P.AppendGains(l, q.eventId, content, Some(q.key));
      P.RecordedIsNew(l, q.eventId, content, q.key);
    }
    forall k | k in l.rows && l.rows[k].content.action == REQUEUED && l.rows[k].key == Some(q.key)
      ensures Operate(b, l, texts, q, at) == Outcome(b, l, if l.rows[k].content.request == texts.request(q.message) then Done(l.rows[k]) else Conflict)
    {
      P.KeyNamesOne(l, REQUEUED, q.key, k);
    }
  }

  lemma {:induction false} RequeueIsLawful(b: Box, id: Id)
    ensures O.RequeueLaw(b, id, Requeue(b, id)) && (Requeueable(b, id) ==> id in Requeue(b, id).rows)
  {
    hide Unsafe;
  }

  class OperationsDesk {
    const store: MessageStore
    const audit: S.OperationsAudit
    const texts: Texts

    ghost predicate Valid()
      reads this, store, audit
    {
      store.Valid() && audit.Valid()
    }

    constructor (outbox: MessageStore, log: S.OperationsAudit, t: Texts)
      ensures store == outbox && audit == log && texts == t
    {
      store, audit, texts := outbox, log, t;
    }

    /** The keyed lookup comes first; the row and its audit event are then written together. */
    method RequeueDeadLetter(q: Request) returns (reply: Reply)
      requires Valid()
      modifies store, audit
      ensures Valid()
      ensures Outcome(store.View(), audit.View(), reply) == Operate(old(store.View()), old(audit.View()), texts, q, old(audit.now))
      ensures !reply.Rejected?
    {
      hide A.Append, A.Honest, A.KeysUnique, A.Extends, Unsafe;
      ghost var b, l := store.View(), audit.View();
      var request := texts.request(q.message);
      var found := audit.IdempotentEvent(REQUEUED, request, q.key);
      P.NeverBroken(l, REQUEUED, request, q.key);
      match found {
        case Clash => return Conflict;
        case Recalled(e) => return Done(e);
        case Absent =>
      }
      P.AbsentIsUnused(l, REQUEUED, request, q.key);
      var requeued := store.RequeueByOperator(q.message);
      if !requeued { return NotFound; }
      var r := store.rows[q.message];
      var event := audit.AppendAudit(q.eventId, REQUEUED, q.actor, request, texts.result(q.message, r), texts.details(q.message, r), Some(q.key));
      reply := Done(event.value);
    }
  }
}
