/**
 The hash-chained operations audit: appending, validating a record, and exporting the log
 page by page, frozen to the head the first page saw.

 A digest is a value that contains everything it covers, so equal digests mean equal covered
 material. It covers a record's sequence, content and predecessor digest; it covers neither
 the record's identifier nor its idempotency key.
 */
module AuditLog {
  import opened Ordering

  datatype Content = Content(action: string, actor: string, request: string, result: string, details: string, occurredAt: int)

  datatype Digest = Digest(sequence: int, content: Content, previous: Option<Digest>)

  datatype Event = Event(id: Id, sequence: int, content: Content, key: Option<string>, previous: Option<Digest>, digest: Digest)

  /** The audit table, by its unique sequence column, and the head row. */
  datatype Log = Log(rows: map<int, Event>, next: int, head: Option<Digest>)

  function Empty(): Log {
    Log(map[], 1, None)
  }

  predicate ValidRecord(e: Event, sequence: int, previous: Option<Digest>) {
    && e.sequence == sequence
    && e.previous == previous
    && e.digest == Digest(e.sequence, e.content, e.previous)
  }

  // ---------- appending ----------

  /** The head must agree with the record it names, and that record with its own digest. */
  predicate HeadAgrees(l: Log) {
    if l.next == 1 then l.head == None
    else
      && l.next - 1 in l.rows
      && Some(l.rows[l.next - 1].digest) == l.head
      && ValidRecord(l.rows[l.next - 1], l.next - 1, l.rows[l.next - 1].previous)
  }

  function NewEvent(l: Log, id: Id, content: Content, key: Option<string>): Event {
    Event(id, l.next, content, key, l.head, Digest(l.next, content, l.head))
  }

  function Append(l: Log, id: Id, content: Content, key: Option<string>): Option<Log> {
    if !HeadAgrees(l) then None
    else
      var e := NewEvent(l, id, content, key);
      Some(Log(l.rows[l.next := e], l.next + 1, Some(e.digest)))
  }

  /** The digest of the record before a sequence, if there is one. */
  function DigestAt(rows: map<int, Event>, sequence: int): Option<Digest> {
    if sequence in rows then Some(rows[sequence].digest) else None
  }

  /** The record is there, whole in itself, and carries the digest of the one before. */
  predicate Linked(rows: map<int, Event>, k: int) {
    k in rows && ValidRecord(rows[k], k, if k == 1 then None else DigestAt(rows, k - 1))
  }

  ghost predicate ChainTo(rows: map<int, Event>, n: int) {
    forall k | 1 <= k <= n :: Linked(rows, k)
  }

  /** The state every append keeps: exactly the records below the next sequence, chained up to the head. */
  ghost predicate Honest(l: Log) {
    && l.next >= 1
    && (forall k :: k in l.rows <==> 1 <= k < l.next)
    && ChainTo(l.rows, l.next - 1)
    && l.head == (if l.next == 1 then None else DigestAt(l.rows, l.next - 1))
  }

  /** A later state of the same log: nothing recorded was lost or changed. */
  ghost predicate Extends(earlier: Log, later: Log) {
    && Honest(earlier) && Honest(later) && earlier.next <= later.next
    && forall k | k in earlier.rows :: k in later.rows && later.rows[k] == earlier.rows[k]
  }

  /** Records 1 to n form a chain that ends in the given digest: what a full validation accepts. */
  ghost predicate AcceptedTo(rows: map<int, Event>, n: int, head: Digest) {
    n >= 1 && ChainTo(rows, n) && DigestAt(rows, n) == Some(head)
  }

  // ---------- mutations under an idempotency key ----------

  datatype Mutation = Rejected | Conflict | Replayed(event: Event) | Recorded(log: Log, event: Event)

  predicate Names(e: Event, action: string, key: string) {
    e.content.action == action && e.key == Some(key)
  }

  /** UNIQUE (action, idempotency key). */
  ghost predicate KeysUnique(rows: map<int, Event>) {
    forall i, j | i in rows && j in rows && rows[i].key.Some? && rows[i].key == rows[j].key
                  && rows[i].content.action == rows[j].content.action :: i == j
  }

  predicate Used(rows: map<int, Event>, action: string, key: string) {
    exists k :: k in rows && Names(rows[k], action, key)
  }

  /** What an earlier request under the same action and key left. */
  datatype Lookup = Absent | Clash | Broken | Recalled(event: Event)

  ghost function LookUp(rows: map<int, Event>, action: string, request: string, key: string): Lookup {
    if !Used(rows, action, key) then Absent
    else
      var k :| k in rows && Names(rows[k], action, key);
      var e := rows[k];
      if e.content.request != request then Clash
      else if !ValidRecord(e, e.sequence, e.previous) then Broken
      else Recalled(e)
  }

  ghost function Mutate(l: Log, id: Id, content: Content, key: string): Mutation {
    match LookUp(l.rows, content.action, content.request, key)
    case Clash => Conflict
    case Broken => Rejected
    case Recalled(e) => Replayed(e)
    case Absent =>
      match Append(l, id, content, Some(key))
      case None => Rejected
      case Some(t) => Recorded(t, NewEvent(l, id, content, Some(key)))
  }

  // ---------- pages ----------

  /** WHERE after < sequence <= through ORDER BY sequence LIMIT count. */
  function Select(rows: map<int, Event>, after: int, through: int, count: nat): seq<Event>
    decreases if after < through then through - after else 0
  {
    if count == 0 || after >= through then []
    else if after + 1 in rows then [rows[after + 1]] + Select(rows, after + 1, through, count - 1)
    else Select(rows, after + 1, through, count)
  }

  /** The records follow one another from the given sequence and predecessor. */
  predicate Follows(page: seq<Event>, sequence: int, previous: Option<Digest>)
    decreases |page|
  {
    page == [] || (ValidRecord(page[0], sequence, previous) && Follows(page[1..], sequence + 1, Some(page[0].digest)))
  }

  function Page(records: seq<Event>, limit: nat): seq<Event> {
    if |records| <= limit then records else records[..limit]
  }

  /** A row found by its sequence, whole in itself, and carrying the digest asked for. */
  predicate Anchored(rows: map<int, Event>, sequence: int, digest: Option<Digest>) {
    && sequence in rows
    && Some(rows[sequence].digest) == digest
    && ValidRecord(rows[sequence], sequence, rows[sequence].previous)
  }

  predicate ReachesHead(records: seq<Event>, limit: nat, after: int, afterDigest: Option<Digest>, through: int, throughDigest: Option<Digest>) {
    |records| <= limit ==>
      if records == [] then after == through && afterDigest == throughDigest
      else records[|records| - 1].sequence == through && Some(records[|records| - 1].digest) == throughDigest
  }

  /** Everything the exporter checks before it hands out a page. */
  predicate ValidExportPage(rows: map<int, Event>, records: seq<Event>, after: int, afterDigest: Option<Digest>,
                            through: int, throughDigest: Option<Digest>, limit: nat) {
    if through == 0 then throughDigest == None && after == 0 && afterDigest == None && records == []
    else
      && throughDigest.Some? && 0 <= after <= through
      && (after == 0 <==> afterDigest == None)
      && (after != 0 ==> Anchored(rows, after, afterDigest))
      && Follows(Page(records, limit), after + 1, afterDigest)
      && Anchored(rows, through, throughDigest)
      && ReachesHead(records, limit, after, afterDigest, through, throughDigest)
  }

  /** The identity of an export: a digest of its time and frozen head. */
  datatype ExportId = ExportId(time: int, through: int, throughDigest: Option<Digest>)

  datatype Cursor = Cursor(exportId: ExportId, time: int, through: int, throughDigest: Option<Digest>, after: int, afterDigest: Option<Digest>)

  datatype ExportPage = ExportPage(exportId: ExportId, events: seq<Event>, hasMore: bool, next: Option<Cursor>)

  /** The first page freezes the head and the time; later pages take them from the cursor, whose identity must match. */
  function Start(l: Log, now: int): Cursor {
    Cursor(ExportId(now, l.next - 1, l.head), now, l.next - 1, l.head, 0, None)
  }

  predicate OwnIdentity(c: Cursor) {
    c.exportId == ExportId(c.time, c.through, c.throughDigest)
  }

  function NextCursor(c: Cursor, last: Event): Cursor {
    c.(after := last.sequence, afterDigest := Some(last.digest))
  }

  function ExportFrom(l: Log, c: Cursor, limit: nat): Option<ExportPage> {
    if !OwnIdentity(c) then None
    else
      var records := Select(l.rows, c.after, c.through, limit + 1);
      if !ValidExportPage(l.rows, records, c.after, c.afterDigest, c.through, c.throughDigest, limit) then None
      else
        var page := Page(records, limit);
        Some(ExportPage(c.exportId, page, |records| > limit,
                        if |records| > limit && page != [] then Some(NextCursor(c, page[|page| - 1])) else None))
  }

  function Export(l: Log, now: int, cursor: Option<Cursor>, limit: nat): Option<ExportPage> {
    if !(1 <= limit <= 500) then None
    else ExportFrom(l, if cursor.Some? then cursor.value else Start(l, now), limit)
  }

  // ---------- following the cursors ----------

  /** One request of an export: the log and clock at that moment, and the page limit asked for. */
  datatype Visit = Visit(log: Log, now: int, limit: nat)

  datatype Outcome = Refused | Collected(events: seq<Event>, rest: Option<Cursor>)

  /** Follows next_cursor through the visits until it stops. */
  function Follow(visits: seq<Visit>, cursor: Option<Cursor>): Outcome
    decreases |visits|
  {
    if visits == [] then Collected([], cursor)
    else
      var page := Export(visits[0].log, visits[0].now, cursor, visits[0].limit);
      if page == None then Refused
      else if page.value.next == None then Collected(page.value.events, None)
      else
        var later := Follow(visits[1..], page.value.next);
        if later == Refused then Refused else Collected(page.value.events + later.events, later.rest)
  }

  /** The records after `a` up to `b`, in order. */
  function Events(rows: map<int, Event>, a: int, b: int): (s: seq<Event>)
    requires forall k | a < k <= b :: k in rows
    decreases if a < b then b - a else 0
  {
    if a >= b then [] else [rows[a + 1]] + Events(rows, a + 1, b)
  }

  /** How many records the visits ask for. */
  function Asked(visits: seq<Visit>): nat
    decreases |visits|
  {
    if visits == [] then 0 else visits[0].limit + Asked(visits[1..])
  }
}
