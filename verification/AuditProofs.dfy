/** What the audit chain and its export guarantee. */
module AuditProofs {
  import opened Ordering
  import opened AuditLog

  // ---------- the chain ----------

  /** Appending to an honest log is never refused, keeps it honest and changes nothing recorded. */
  lemma {:induction false} AppendExtends(l: Log, id: Id, content: Content, key: Option<string>)
    requires Honest(l)
    ensures Append(l, id, content, key).Some?
    ensures Extends(l, Append(l, id, content, key).value)
    ensures Append(l, id, content, key).value.rows[l.next] == NewEvent(l, id, content, key)
  {
    if l.next > 1 { assert Linked(l.rows, l.next - 1); }
    var t := Append(l, id, content, key).value;
    forall k | 1 <= k <= t.next - 1
      ensures Linked(t.rows, k)
    {
      if k < l.next { assert Linked(l.rows, k); }
    }
  }

  /** The table gained one record under the next sequence, linked to the head, and the head moved to it. */
  predicate Gains(l: Log, id: Id, content: Content, key: Option<string>, t: Log) {
    && t.rows.Keys == l.rows.Keys + {l.next} && t.next == l.next + 1
    && (forall k | k in l.rows && k != l.next :: t.rows[k] == l.rows[k])
    && var e := t.rows[l.next];
       && e.id == id && e.sequence == l.next && e.content == content && e.key == key && e.previous == l.head
       && e.digest.sequence == l.next && e.digest.content == content && e.digest.previous == l.head
       && t.head == Some(e.digest)
  }

  /** The head and the record it names disagree, or that record is not whole. */
  predicate BadHead(l: Log) {
    if l.next == 1 then l.head.Some?
    else
      || l.next - 1 !in l.rows || l.head != Some(l.rows[l.next - 1].digest)
      || l.rows[l.next - 1].sequence != l.next - 1
      || l.rows[l.next - 1].digest != Digest(l.next - 1, l.rows[l.next - 1].content, l.rows[l.next - 1].previous)
  }

  /** An append is refused exactly on a bad head, and otherwise adds exactly the record asked for. */
  lemma {:induction false} AppendGains(l: Log, id: Id, content: Content, key: Option<string>)
    ensures Append(l, id, content, key) == None <==> BadHead(l)
    ensures !BadHead(l) ==> Gains(l, id, content, key, Append(l, id, content, key).value)
  {
  }

  lemma {:induction false} ExtendsTransitive(a: Log, b: Log, c: Log)
    requires Extends(a, b) && Extends(b, c)
    ensures Extends(a, c)
  {
  }

  /**
   The hash chain determines history: two tables accepted up to the same head agree on every
   field the digests cover, all the way back to the first record.
   */
  lemma {:induction false} HeadDeterminesHistory(one: map<int, Event>, two: map<int, Event>, n: int, head: Digest, k: int)
    requires AcceptedTo(one, n, head) && AcceptedTo(two, n, head) && 1 <= k <= n
    ensures k in one && k in two
    ensures one[k].digest == two[k].digest && one[k].content == two[k].content
    ensures one[k].sequence == two[k].sequence == k && one[k].previous == two[k].previous
    decreases n - k
  {
    assert Linked(one, n) && Linked(two, n);
    if k < n {
      HeadDeterminesHistory(one, two, n, head, k + 1);
      assert Linked(one, k) && Linked(two, k) && Linked(one, k + 1) && Linked(two, k + 1);
    }
  }

  /** The head's sequence need not be given: it is part of what the digest covers. */
  lemma {:induction false} HeadCarriesItsSequence(one: map<int, Event>, two: map<int, Event>, n: int, m: int, head: Digest)
    requires AcceptedTo(one, n, head) && AcceptedTo(two, m, head)
    ensures n == m == head.sequence
  {
    assert Linked(one, n) && Linked(two, m);
  }

  /** A record's identifier and idempotency key are outside the chain: they can differ under one head. */
  lemma {:induction false} UncoveredFieldsMayDiffer(id: Id, other: Id, content: Content, key: Option<string>, otherKey: Option<string>)
    returns (one: Log, two: Log)
    ensures Honest(one) && Honest(two) && one.next == two.next == 2 && one.head == two.head
    ensures one.rows[1].id == id && two.rows[1].id == other && one.rows[1].key == key && two.rows[1].key == otherKey
  {
    AppendExtends(Empty(), id, content, key);
    AppendExtends(Empty(), other, content, otherKey);
    one := Append(Empty(), id, content, key).value;
    two := Append(Empty(), other, content, otherKey).value;
  }

  lemma {:induction false} HonestIsAccepted(l: Log)
    requires Honest(l) && l.next > 1
    ensures l.head.Some? && AcceptedTo(l.rows, l.next - 1, l.head.value)
  {
    assert Linked(l.rows, l.next - 1);
  }

  /** Two honest logs with one head have one history: as many records, equal in every field the digests cover. */
  lemma {:induction false} EqualHeadsEqualHistory(one: Log, two: Log)
    requires Honest(one) && Honest(two) && one.head == two.head
    ensures one.next == two.next
    ensures forall k | 1 <= k < one.next ::
              && k in one.rows && k in two.rows && one.rows[k].content == two.rows[k].content
              && one.rows[k].previous == two.rows[k].previous && one.rows[k].digest == two.rows[k].digest
  {
    if one.next > 1 { HonestIsAccepted(one); }
    if two.next > 1 { HonestIsAccepted(two); }
    if one.next > 1 {
      var head := one.head.value;
      hide AcceptedTo, Linked;
      HeadCarriesItsSequence(one.rows, two.rows, one.next - 1, two.next - 1, head);
      forall k | 1 <= k < one.next
        ensures k in one.rows && k in two.rows && one.rows[k].content == two.rows[k].content
        ensures one.rows[k].previous == two.rows[k].previous && one.rows[k].digest == two.rows[k].digest
      {
        HeadDeterminesHistory(one.rows, two.rows, one.next - 1, head, k);
      }
    }
  }

  // ---------- idempotent mutations ----------

  /**
   A mutation recorded once is recorded for good: repeating the request under its key, at any
   later time, returns the very first event and appends nothing; a different request under the
   same key is a conflict.
   */
  lemma {:induction false} MutationIsIdempotent(l: Log, id: Id, content: Content, key: string, later: Log, retryId: Id, retry: Content)
    requires Honest(l) && KeysUnique(l.rows) && Mutate(l, id, content, key).Recorded?
    requires Extends(Mutate(l, id, content, key).log, later) && KeysUnique(later.rows)
    requires retry.action == content.action
    ensures Mutate(later, retryId, retry, key) ==
              if retry.request == content.request then Replayed(Mutate(l, id, content, key).event) else Conflict
  {
    var t := Mutate(l, id, content, key).log;
    AppendExtends(l, id, content, Some(key));
    var e := NewEvent(l, id, content, Some(key));
    assert t.rows[l.next] == e && later.rows[l.next] == e;
    assert Names(later.rows[l.next], retry.action, key);
    forall k | k in later.rows && Names(later.rows[k], retry.action, key) ensures k == l.next { }
  }

  lemma {:induction false} NewKeyIsUnique(l: Log, id: Id, content: Content, key: string)
    requires Honest(l) && KeysUnique(l.rows) && !Used(l.rows, content.action, key)
    ensures KeysUnique(l.rows[l.next := NewEvent(l, id, content, Some(key))])
    ensures HeadAgrees(l) ==> Append(l, id, content, Some(key)).value.rows == l.rows[l.next := NewEvent(l, id, content, Some(key))]
  {
    forall k | k in l.rows ensures !Names(l.rows[k], content.action, key) { }
  }

  /**
   What a keyed mutation comes to. If no record carries the key under the action, the mutation is recorded, with the
   fields it was asked for; otherwise the record that carries it answers for it: the same request gets that record
   back, another one a conflict, and the log stays as it is.
   */
  lemma {:induction false} MutationOutcome(l: Log, id: Id, content: Content, key: string)
    requires Honest(l) && KeysUnique(l.rows)
    ensures var m := Mutate(l, id, content, key);
            if forall k | k in l.rows :: !(l.rows[k].content.action == content.action && l.rows[k].key == Some(key)) then
              m.Recorded? && Gains(l, id, content, Some(key), m.log) && m.event == m.log.rows[l.next]
            else
              forall k | k in l.rows && l.rows[k].content.action == content.action && l.rows[k].key == Some(key) ::
                m == if l.rows[k].content.request == content.request then Replayed(l.rows[k]) else Conflict
  {
    hide Append, Honest, KeysUnique, Gains;
    AppendGains(l, id, content, Some(key));
    HeadOfHonest(l);
    NeverBroken(l, content.action, content.request, key);
    RecordedIsNew(l, id, content, key);
    forall k | k in l.rows && l.rows[k].content.action == content.action && l.rows[k].key == Some(key)
      ensures Mutate(l, id, content, key) == if l.rows[k].content.request == content.request then Replayed(l.rows[k]) else Conflict
    {
      KeyNamesOne(l, content.action, key, k);
    }
  }

  lemma {:induction false} RecordedIsNew(l: Log, id: Id, content: Content, key: string)
    requires HeadAgrees(l)
    ensures !BadHead(l) && Append(l, id, content, Some(key)).Some?
    ensures Append(l, id, content, Some(key)).value.rows[l.next] == NewEvent(l, id, content, Some(key))
  {
  }

  lemma {:induction false} KeyNamesOne(l: Log, action: string, key: string, k: int)
    requires KeysUnique(l.rows) && k in l.rows && Names(l.rows[k], action, key)
    ensures Used(l.rows, action, key) && forall o | o in l.rows && Names(l.rows[o], action, key) :: o == k
  {
  }

  lemma {:induction false} AbsentIsUnused(l: Log, action: string, request: string, key: string)
    requires LookUp(l.rows, action, request, key) == Absent
    ensures !Used(l.rows, action, key)
  {
  }

  lemma {:induction false} NeverBroken(l: Log, action: string, request: string, key: string)
    requires Honest(l)
    ensures LookUp(l.rows, action, request, key) != Broken
  {
    forall k | k in l.rows ensures ValidRecord(l.rows[k], l.rows[k].sequence, l.rows[k].previous) { assert Linked(l.rows, k); }
  }

  lemma {:induction false} HeadOfHonest(l: Log)
    requires Honest(l)
    ensures HeadAgrees(l)
  {
    if l.next > 1 { assert Linked(l.rows, l.next - 1); }
  }

  lemma {:induction false} MutationKeepsKeysUnique(l: Log, id: Id, content: Content, key: string)
    requires Honest(l) && KeysUnique(l.rows)
    ensures !Mutate(l, id, content, key).Rejected?
    ensures Mutate(l, id, content, key).Recorded? ==>
              Extends(l, Mutate(l, id, content, key).log) && KeysUnique(Mutate(l, id, content, key).log.rows)
  {
    hide Append, NewEvent, Extends, Honest, LookUp, KeysUnique, Used;
    AppendExtends(l, id, content, Some(key));
    NeverBroken(l, content.action, content.request, key);
    if LookUp(l.rows, content.action, content.request, key) == Absent {
      AbsentIsUnused(l, content.action, content.request, key);
      NewKeyIsUnique(l, id, content, key);
      HeadOfHonest(l);
    }
  }

  // ---------- an honest log is never refused ----------

  lemma {:induction false} SelectOnHonest(rows: map<int, Event>, after: int, through: int, count: nat)
    requires 0 <= after <= through && forall k | after < k <= through :: k in rows
    ensures var last := if after + count <= through then after + count else through;
            Select(rows, after, through, count) == Events(rows, after, last) && |Events(rows, after, last)| == last - after
    decreases count
  {
    if count > 0 && after < through {
      SelectOnHonest(rows, after + 1, through, count - 1);
    }
  }

  lemma {:induction false} EventsAt(rows: map<int, Event>, a: int, b: int, k: nat)
    requires a <= b && (forall i | a < i <= b :: i in rows) && k < b - a
    ensures |Events(rows, a, b)| == b - a && Events(rows, a, b)[k] == rows[a + 1 + k]
    decreases b - a
  {
    if k > 0 {
      EventsAt(rows, a + 1, b, k - 1);
    } else if a + 1 < b {
      EventsAt(rows, a + 1, b, 0);
    }
  }

  lemma {:induction false} EventsSplit(rows: map<int, Event>, a: int, m: int, b: int)
    requires a <= m <= b && forall i | a < i <= b :: i in rows
    ensures Events(rows, a, b) == Events(rows, a, m) + Events(rows, m, b)
    decreases m - a
  {
    if a < m {
      EventsSplit(rows, a + 1, m, b);
    }
  }

  lemma {:induction false} EventsAgree(one: map<int, Event>, two: map<int, Event>, a: int, b: int)
    requires forall i | a < i <= b :: i in one && i in two && one[i] == two[i]
    ensures Events(one, a, b) == Events(two, a, b)
    decreases if a < b then b - a else 0
  {
    if a < b {
      EventsAgree(one, two, a + 1, b);
    }
  }

  lemma {:induction false} ChainFollows(rows: map<int, Event>, n: int, a: int, b: int)
    requires ChainTo(rows, n) && 0 <= a <= b <= n && forall i | a < i <= b :: i in rows
    ensures Follows(Events(rows, a, b), a + 1, if a == 0 then None else DigestAt(rows, a))
    decreases b - a
  {
    if a < b {
      ChainFollows(rows, n, a + 1, b);
      var page := Events(rows, a, b);
      assert Linked(rows, a + 1);
      assert page[1..] == Events(rows, a + 1, b);
    }
  }

  /** A cursor of an export frozen at n records of an honest log, having handed out the first `after`. */
  ghost predicate HonestCursor(frozen: Log, c: Cursor) {
    && Honest(frozen) && OwnIdentity(c)
    && c.through == frozen.next - 1 && c.throughDigest == frozen.head
    && 0 <= c.after <= c.through
    && c.afterDigest == (if c.after == 0 then None else DigestAt(frozen.rows, c.after))
  }

  /** Cutting the extra record off leaves exactly the page. */
  lemma {:induction false} PageIsPrefix(rows: map<int, Event>, after: int, through: int, limit: nat)
    requires 0 <= after <= through && forall k | after < k <= through :: k in rows
    ensures Page(Select(rows, after, through, limit + 1), limit) == Events(rows, after, Min(after + limit, through))
  {
    SelectOnHonest(rows, after, through, limit + 1);
    if after + limit < through {
      EventsSplit(rows, after, after + limit, after + limit + 1);
      SelectOnHonest(rows, after, through, limit);
    }
  }

  lemma {:induction false} HonestRecords(frozen: Log, l: Log, c: Cursor, limit: nat)
    requires Extends(frozen, l) && HonestCursor(frozen, c)
    ensures var last := Min(c.after + limit, c.through);
            var records := Select(l.rows, c.after, c.through, limit + 1);
            && Page(records, limit) == Events(frozen.rows, c.after, last)
            && |Page(records, limit)| == last - c.after
            && (|records| > limit <==> last < c.through)
            && Follows(Page(records, limit), c.after + 1, c.afterDigest)
  {
    hide Select, Events, Follows, Page;
    var last := Min(c.after + limit, c.through);
    SelectOnHonest(l.rows, c.after, c.through, limit + 1);
    SelectOnHonest(l.rows, c.after, c.through, limit);
    PageIsPrefix(l.rows, c.after, c.through, limit);
    EventsAgree(frozen.rows, l.rows, c.after, last);
    ChainFollows(frozen.rows, c.through, c.after, last);
  }

  /** The record a page ends with. */
  lemma {:induction false} LastOfPage(frozen: Log, c: Cursor, last: int)
    requires HonestCursor(frozen, c) && c.after < last <= c.through
    ensures var page := Events(frozen.rows, c.after, last);
            && |page| == last - c.after && page[|page| - 1] == frozen.rows[last]
            && page[|page| - 1].sequence == last && Some(page[|page| - 1].digest) == DigestAt(frozen.rows, last)
  {
    EventsAt(frozen.rows, c.after, last, last - c.after - 1);
    assert Linked(frozen.rows, last);
  }

  lemma {:induction false} AnchorsHold(frozen: Log, l: Log, c: Cursor)
    requires Extends(frozen, l) && HonestCursor(frozen, c) && c.through > 0
    ensures c.throughDigest.Some? && Anchored(l.rows, c.through, c.throughDigest)
    ensures c.after != 0 ==> Anchored(l.rows, c.after, c.afterDigest)
    ensures c.after == 0 <==> c.afterDigest == None
  {
    assert Linked(frozen.rows, c.through);
    if c.after > 0 { assert Linked(frozen.rows, c.after); }
  }

  lemma {:induction false} HonestPageAccepted(frozen: Log, l: Log, c: Cursor, limit: nat)
    requires Extends(frozen, l) && HonestCursor(frozen, c) && limit >= 1
    ensures ValidExportPage(l.rows, Select(l.rows, c.after, c.through, limit + 1), c.after, c.afterDigest, c.through, c.throughDigest, limit)
  {
    HonestRecords(frozen, l, c, limit);
    if c.through > 0 {
      AnchorsHold(frozen, l, c);
      var records := Select(l.rows, c.after, c.through, limit + 1);
      if |records| <= limit && c.after < c.through { LastOfPage(frozen, c, c.through); }
      hide Select, Follows, Events, Anchored, Extends;
    }
  }

  /** On a later state of the log, a page holds the next records below the frozen head and the right cursor. */
  lemma {:induction false} PageOnHonest(frozen: Log, l: Log, now: int, c: Cursor, limit: nat)
    requires Extends(frozen, l) && HonestCursor(frozen, c) && 1 <= limit <= 500
    ensures var last := Min(c.after + limit, c.through);
            var page := Export(l, now, Some(c), limit);
            && page.Some? && page.value.exportId == c.exportId
            && page.value.events == Events(frozen.rows, c.after, last)
            && page.value.hasMore == (last < c.through)
            && (last == c.through ==> page.value.next == None)
            && (last < c.through ==> page.value.next.Some? && HonestCursor(frozen, page.value.next.value)
                                     && page.value.next.value.exportId == c.exportId
                                     && page.value.next.value.after == last && page.value.next.value.through == c.through)
  {
    hide Extends, Select, Follows, Events, Anchored, ValidExportPage;
    var last := Min(c.after + limit, c.through);
    HonestRecords(frozen, l, c, limit);
    HonestPageAccepted(frozen, l, c, limit);
    if last < c.through { LastOfPage(frozen, c, last); }
  }

  /** Each request finds the log of the request before it, or a later state of it. */
  ghost predicate Consecutive(visits: seq<Visit>) {
    && (forall i | 0 <= i < |visits| :: Honest(visits[i].log) && 1 <= visits[i].limit <= 500)
    && (forall i | 0 <= i < |visits| - 1 :: Extends(visits[i].log, visits[i + 1].log))
  }

  lemma {:induction false} StaysHonest(l: Log)
    requires Honest(l)
    ensures Extends(l, l)
  {
  }

  lemma {:induction false} LaterVisitExtends(visits: seq<Visit>, i: nat)
    requires Consecutive(visits) && i < |visits|
    ensures Extends(visits[0].log, visits[i].log)
  {
    hide Extends;
    if i == 0 {
      StaysHonest(visits[0].log);
    } else {
      LaterVisitExtends(visits, i - 1);
      assert Extends(visits[i - 1].log, visits[i - 1 + 1].log);
      ExtendsTransitive(visits[0].log, visits[i - 1].log, visits[i].log);
    }
  }

  lemma {:induction false} ConsecutiveGrows(visits: seq<Visit>)
    requires Consecutive(visits) && visits != []
    ensures Honest(visits[0].log) && Growing(visits[0].log, visits)
  {
    hide Extends;
    forall i | 0 <= i < |visits| ensures Extends(visits[0].log, visits[i].log) { LaterVisitExtends(visits, i); }
  }

  /** Every request finds a later state of the frozen log. */
  ghost predicate Growing(frozen: Log, visits: seq<Visit>) {
    && (forall i | 0 <= i < |visits| :: Extends(frozen, visits[i].log) && 1 <= visits[i].limit <= 500)
  }

  lemma {:induction false} HonestCursorBounds(frozen: Log, c: Cursor)
    requires HonestCursor(frozen, c)
    ensures 0 <= c.after <= c.through && forall i | c.after < i <= c.through :: i in frozen.rows
  {
  }

  lemma {:induction false} FollowOnHonest(frozen: Log, visits: seq<Visit>, c: Cursor)
    requires Growing(frozen, visits) && HonestCursor(frozen, c) && c.after < c.through
    ensures var last := Min(c.after + Asked(visits), c.through);
            var o := Follow(visits, Some(c));
            && o.Collected? && o.events == Events(frozen.rows, c.after, last)
            && (last == c.through <==> o.rest == None)
    decreases |visits|
  {
    hide Extends, Export, HonestCursor;
    if visits != [] {
      HonestCursorBounds(frozen, c);
      var page := Export(visits[0].log, visits[0].now, Some(c), visits[0].limit);
      PageOnHonest(frozen, visits[0].log, visits[0].now, c, visits[0].limit);
      var middle := Min(c.after + visits[0].limit, c.through);
      if middle < c.through {
        FollowOnHonest(frozen, visits[1..], page.value.next.value);
        var last := Min(c.after + Asked(visits), c.through);
        EventsSplit(frozen.rows, c.after, middle, last);
      }
    }
  }

  lemma {:induction false} StartIsHonest(l: Log, now: int, limit: nat)
    requires Honest(l)
    ensures HonestCursor(l, Start(l, now)) && Export(l, now, None, limit) == Export(l, now, Some(Start(l, now)), limit)
    ensures Start(l, now).after == 0 && Start(l, now).through == l.next - 1 && forall i | 0 < i < l.next :: i in l.rows
  {
  }

  /**
   A frozen export is complete: whatever page limits are asked for and however many records are
   appended meanwhile, following the cursors is never refused and yields the records of the
   first page's log from sequence 1, each once and in order; it stops exactly when it has
   handed out all of them.
   */
  lemma {:induction false} FrozenExportIsComplete(visits: seq<Visit>)
    requires visits != [] && Consecutive(visits)
    ensures var n := visits[0].log.next - 1;
            var o := Follow(visits, None);
            && o.Collected? && o.events == Events(visits[0].log.rows, 0, Min(Asked(visits), n))
            && (o.rest == None <==> Asked(visits) >= n)
  {
    hide Extends, Export, HonestCursor, Consecutive;
    ConsecutiveGrows(visits);
    var frozen := visits[0].log;
    var c := Start(frozen, visits[0].now);
    var page := Export(frozen, visits[0].now, None, visits[0].limit);
    StartIsHonest(frozen, visits[0].now, visits[0].limit);
    PageOnHonest(frozen, frozen, visits[0].now, c, visits[0].limit);
    var middle := Min(visits[0].limit, c.through);
    if middle < c.through {
      FollowOnHonest(frozen, visits[1..], page.value.next.value);
      EventsSplit(frozen.rows, 0, middle, Min(Asked(visits), c.through));
    }
  }

  /** … and so the k-th event handed out is the record with sequence k + 1. */
  lemma {:induction false} ExportedInOrder(visits: seq<Visit>, k: nat)
    requires visits != [] && Consecutive(visits)
    requires Asked(visits) >= visits[0].log.next - 1 > k
    ensures Follow(visits, None).Collected? && Follow(visits, None).rest == None
    ensures |Follow(visits, None).events| == visits[0].log.next - 1
    ensures Follow(visits, None).events[k] == visits[0].log.rows[k + 1]
  {
    FrozenExportIsComplete(visits);
    EventsAt(visits[0].log.rows, 0, visits[0].log.next - 1, k);
  }

  // ---------- a dishonest table is caught ----------

  lemma {:induction false} FollowsAt(page: seq<Event>, sequence: int, previous: Option<Digest>, k: nat)
    requires Follows(page, sequence, previous) && k < |page|
    ensures ValidRecord(page[k], sequence + k, if k == 0 then previous else Some(page[k - 1].digest))
    decreases k
  {
    if k > 0 {
      FollowsAt(page[1..], sequence + 1, Some(page[0].digest), k - 1);
    }
  }

  lemma {:induction false} SelectedAreRows(rows: map<int, Event>, after: int, through: int, count: nat, k: nat)
    requires k < |Select(rows, after, through, count)|
    ensures exists s :: s in rows && after < s <= through && Select(rows, after, through, count)[k] == rows[s]
    decreases if after < through then through - after else 0
  {
    if after + 1 in rows && k == 0 {
    } else if after + 1 in rows {
      SelectedAreRows(rows, after + 1, through, count - 1, k - 1);
    } else {
      SelectedAreRows(rows, after + 1, through, count, k);
    }
  }

  /** The sequence column of a row is the key it is found under. */
  ghost predicate Keyed(rows: map<int, Event>) {
    forall s | s in rows :: rows[s].sequence == s
  }

  /** An accepted page is a stretch of valid, linked records of the table, whatever the table holds. */
  lemma {:induction false} AcceptedPageIsLinked(l: Log, now: int, c: Cursor, limit: nat, k: nat)
    requires Keyed(l.rows) && c.through > 0
    requires Export(l, now, Some(c), limit).Some? && k < |Export(l, now, Some(c), limit).value.events|
    ensures var s := c.after + 1 + k;
            && Linked(l.rows, s) && Export(l, now, Some(c), limit).value.events[k] == l.rows[s]
  {
    var records := Select(l.rows, c.after, c.through, limit + 1);
    var page := Page(records, limit);
    FollowsAt(page, c.after + 1, c.afterDigest, k);
    SelectedAreRows(l.rows, c.after, c.through, limit + 1, k);
    if k > 0 {
      FollowsAt(page, c.after + 1, c.afterDigest, k - 1);
      SelectedAreRows(l.rows, c.after, c.through, limit + 1, k - 1);
    }
  }

  /** The last page of an accepted export has reached the frozen head. */
  lemma {:induction false} LastPageReachesHead(l: Log, now: int, c: Cursor, limit: nat)
    requires Keyed(l.rows) && c.through > 0
    requires Export(l, now, Some(c), limit).Some? && Export(l, now, Some(c), limit).value.next == None
    ensures c.after + |Export(l, now, Some(c), limit).value.events| == c.through
    ensures DigestAt(l.rows, c.through) == c.throughDigest
  {
    var records := Select(l.rows, c.after, c.through, limit + 1);
    if records != [] {
      FollowsAt(records, c.after + 1, c.afterDigest, |records| - 1);
    }
  }

  lemma {:induction false} NextContinues(l: Log, now: int, c: Cursor, limit: nat)
    requires Keyed(l.rows) && c.through > 0
    requires Export(l, now, Some(c), limit).Some? && Export(l, now, Some(c), limit).value.next.Some?
    ensures var d := Export(l, now, Some(c), limit).value.next.value;
            && d.after == c.after + limit && d.through == c.through && d.throughDigest == c.throughDigest
            && |Export(l, now, Some(c), limit).value.events| == limit
  {
    FollowsAt(Page(Select(l.rows, c.after, c.through, limit + 1), limit), c.after + 1, c.afterDigest, limit - 1);
  }

  /** All records after `a` up to `n` are there, valid and linked. */
  ghost predicate LinkedFrom(rows: map<int, Event>, a: int, n: int) {
    forall s | a < s <= n :: Linked(rows, s)
  }

  lemma {:induction false} FollowedIsLinked(l: Log, visits: seq<Visit>, c: Cursor)
    requires Keyed(l.rows) && c.through > 0 && forall i | 0 <= i < |visits| :: visits[i].log == l
    requires Follow(visits, Some(c)).Collected? && Follow(visits, Some(c)).rest == None
    ensures LinkedFrom(l.rows, c.after, c.through) && DigestAt(l.rows, c.through) == c.throughDigest
    decreases |visits|
  {
    var v := visits[0];
    var page := Export(l, v.now, Some(c), v.limit).value;
    forall s | c.after < s <= c.after + |page.events|
      ensures Linked(l.rows, s)
    {
      AcceptedPageIsLinked(l, v.now, c, v.limit, s - c.after - 1);
    }
    if page.next == None {
      LastPageReachesHead(l, v.now, c, v.limit);
    } else {
      NextContinues(l, v.now, c, v.limit);
      FollowedIsLinked(l, visits[1..], page.next.value);
    }
  }

  /**
   A table whose full export is accepted, however it came about, is a valid chain from record 1
   to the exported head. With HeadDeterminesHistory, two such exports with equal heads exported
   the same history.
   */
  lemma {:induction false} AcceptedExportIsAChain(l: Log, visits: seq<Visit>)
    requires Keyed(l.rows) && l.next > 1 && visits != [] && forall i | 0 <= i < |visits| :: visits[i].log == l
    requires Follow(visits, None).Collected? && Follow(visits, None).rest == None
    ensures l.head.Some? && AcceptedTo(l.rows, l.next - 1, l.head.value)
  {
    var c := Start(l, visits[0].now);
    assert Export(l, visits[0].now, None, visits[0].limit) == Export(l, visits[0].now, Some(c), visits[0].limit);
    assert Follow(visits, None) == Follow(visits, Some(c));
    FollowedIsLinked(l, visits, c);
  }
}
