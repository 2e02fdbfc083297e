/**
 The export as its callers see it: cursors are texts, digests are compared as texts, and
 every page carries a digest of its own.

 The texts of digests, export identities and times, and the page digest, are parameters.
 Inside the table a digest is still the value that holds what it covers.
 */
module AuditExport {
  import opened Ordering
  import opened AuditLog
  import opened AuditProofs
  import C = CursorCodec

  datatype Texts = Texts(lib: C.Library, digest: Digest -> string, exportId: (int, int, Option<string>) -> string,
                         time: int -> string, page: PageMaterial -> string)

  /** The lengths of a hexadecimal SHA-256 text and of an export identity made from one. */
  ghost predicate Sized(tx: Texts) {
    && (forall d :: |tx.digest(d)| == 64)
    && (forall time, through, digest :: "opx_" <= tx.exportId(time, through, digest) && |tx.exportId(time, through, digest)| == 68)
  }

  function DigestText(tx: Texts, d: Option<Digest>): Option<string> {
    if d == None then None else Some(tx.digest(d.value))
  }

  /** Where a page starts and where its export ends. */
  datatype Position = Position(exportId: string, time: int, through: int, throughText: Option<string>, after: int, afterText: Option<string>)

  /** What a page's digest covers. */
  datatype PageMaterial = PageMaterial(exportId: string, time: string, through: int, throughText: Option<string>,
                                       after: int, afterText: Option<string>, events: seq<Event>, hasMore: bool, next: Option<string>)

  datatype TextPage = TextPage(exportId: string, time: int, through: int, throughText: Option<string>,
                               events: seq<Event>, digest: string, next: Option<string>, hasMore: bool)

  // ---------- the transaction ----------

  function StartAt(tx: Texts, l: Log, now: int): Position {
    var throughText := DigestText(tx, l.head);
    Position(tx.exportId(now, l.next - 1, throughText), now, l.next - 1, throughText, 0, None)
  }

  function TextOf(j: C.Json): Option<string> {
    if j.Text? then Some(j.text) else None
  }

  function PositionIn(lib: C.Library, f: C.Fields): Position
    requires C.GoodValues(lib, f)
  {
    Position(f["export_id"].text, lib.timeOf(f["database_time"].text).value, f["through_sequence"].number,
             TextOf(f["through_event_digest"]), f["after_sequence"].number, TextOf(f["after_event_digest"]))
  }

  /** A cursor is decoded, and its export identity must be the one its time and head give. */
  function Read(tx: Texts, cursor: string): Option<Position> {
    var fields := C.Decode(tx.lib, cursor);
    if fields == None then None
    else
      var p := PositionIn(tx.lib, fields.value);
      if p.exportId != tx.exportId(p.time, p.through, p.throughText) then None else Some(p)
  }

  predicate TextAnchored(tx: Texts, rows: map<int, Event>, sequence: int, text: Option<string>) {
    && sequence in rows && Some(tx.digest(rows[sequence].digest)) == text
    && ValidRecord(rows[sequence], sequence, rows[sequence].previous)
  }

  predicate TextReachesHead(tx: Texts, records: seq<Event>, limit: nat, p: Position) {
    |records| <= limit ==>
      if records == [] then p.after == p.through && p.afterText == p.throughText
      else records[|records| - 1].sequence == p.through && Some(tx.digest(records[|records| - 1].digest)) == p.throughText
  }

  predicate ValidTextPage(tx: Texts, rows: map<int, Event>, records: seq<Event>, p: Position, limit: nat) {
    if p.through == 0 then p.throughText == None && p.after == 0 && p.afterText == None && records == []
    else
      && p.throughText.Some? && 0 <= p.after <= p.through
      && (p.after == 0 <==> p.afterText == None)
      && (p.after != 0 ==> TextAnchored(tx, rows, p.after, p.afterText))
      && Follows(Page(records, limit), p.after + 1, if p.after == 0 then None else DigestAt(rows, p.after))
      && TextAnchored(tx, rows, p.through, p.throughText)
      && TextReachesHead(tx, records, limit, p)
  }

  function NextText(tx: Texts, p: Position, last: Event): string {
    C.Encode(tx.lib, C.Material(p.exportId, tx.time(p.time), p.through, p.throughText, last.sequence, tx.digest(last.digest)))
  }

  function MakePage(tx: Texts, p: Position, events: seq<Event>, next: Option<string>): TextPage {
    var material := PageMaterial(p.exportId, tx.time(p.time), p.through, p.throughText, p.after, p.afterText, events, next.Some?, next);
    TextPage(p.exportId, p.time, p.through, p.throughText, events, tx.page(material), next, next.Some?)
  }

  function PageAt(tx: Texts, l: Log, p: Position, limit: nat): Option<TextPage>
    requires limit >= 1
  {
    var records := Select(l.rows, p.after, p.through, limit + 1);
    if !ValidTextPage(tx, l.rows, records, p, limit) then None
    else
      var page := Page(records, limit);
      Some(MakePage(tx, p, page, if |records| > limit then Some(NextText(tx, p, page[limit - 1])) else None))
  }

  function ExportText(tx: Texts, l: Log, now: int, cursor: Option<string>, limit: nat): Option<TextPage> {
    if !(1 <= limit <= 500) then None
    else
      var p := if cursor == None then Some(StartAt(tx, l, now)) else Read(tx, cursor.value);
      if p == None then None else PageAt(tx, l, p.value, limit)
  }

  datatype TextOutcome = Declined | Gathered(events: seq<Event>, rest: Option<string>)

  /** Passes each page's next cursor, as it was handed out, to the next visit. */
  function FollowTexts(tx: Texts, visits: seq<Visit>, cursor: Option<string>): TextOutcome
    decreases |visits|
  {
    if visits == [] then Gathered([], cursor)
    else
      var page := ExportText(tx, visits[0].log, visits[0].now, cursor, visits[0].limit);
      if page == None then Declined
      else if page.value.next == None then Gathered(page.value.events, None)
      else
        var later := FollowTexts(tx, visits[1..], page.value.next);
        if later == Declined then Declined else Gathered(page.value.events + later.events, later.rest)
  }

  // ---------- the cursors an export makes ----------

  function ExportIdText(tx: Texts, e: ExportId): string {
    tx.exportId(e.time, e.through, DigestText(tx, e.throughDigest))
  }

  function PositionOf(tx: Texts, c: Cursor): Position {
    Position(ExportIdText(tx, c.exportId), c.time, c.through, DigestText(tx, c.throughDigest), c.after, DigestText(tx, c.afterDigest))
  }

  function MaterialOf(tx: Texts, c: Cursor): C.Material
    requires c.afterDigest.Some?
  {
    C.Material(ExportIdText(tx, c.exportId), tx.time(c.time), c.through, DigestText(tx, c.throughDigest), c.after, tx.digest(c.afterDigest.value))
  }

  function CursorText(tx: Texts, c: Cursor): string
    requires c.afterDigest.Some?
  {
    C.Encode(tx.lib, MaterialOf(tx, c))
  }

  /** The library reads back the one object written for this cursor, which fits the text limit. */
  predicate ReadsBack(tx: Texts, c: Cursor)
    requires c.afterDigest.Some?
  {
    var payload := C.Payload(tx.lib, MaterialOf(tx, c));
    && tx.lib.parse(tx.lib.render(payload)) == Some(payload)
    && 0 < |tx.lib.render(payload)| <= 1536
  }

  lemma {:induction false} HonestCursorMeans(frozen: Log, c: Cursor)
    requires HonestCursor(frozen, c)
    ensures OwnIdentity(c) && 0 <= c.after <= c.through && (c.after >= 1 <==> c.afterDigest.Some?)
    ensures c.through >= 1 <==> c.throughDigest.Some?
  {
    if c.through >= 1 { assert Linked(frozen.rows, c.through); }
    if c.after >= 1 { assert Linked(frozen.rows, c.after); }
  }

  /** What the exporter writes into a cursor passes every check of the decoder. */
  lemma {:induction false} HonestIsExportable(tx: Texts, frozen: Log, c: Cursor)
    requires Sized(tx) && HonestCursor(frozen, c) && c.after >= 1 && tx.lib.timeOf(tx.time(c.time)).Some?
    ensures c.afterDigest.Some? && C.Exportable(tx.lib, MaterialOf(tx, c))
  {
    HonestCursorMeans(frozen, c);
  }

  /** Every cursor text of an export is read back as the position it was made at. */
  lemma {:induction false} HonestTextIsRead(tx: Texts, frozen: Log, c: Cursor)
    requires Sized(tx) && HonestCursor(frozen, c) && c.after >= 1 && tx.lib.timeOf(tx.time(c.time)) == Some(c.time)
    requires c.afterDigest.Some? && ReadsBack(tx, c)
    ensures Read(tx, CursorText(tx, c)) == Some(PositionOf(tx, c))
  {
    HonestIsExportable(tx, frozen, c);
    HonestCursorMeans(frozen, c);
    var m := MaterialOf(tx, c);
    C.CursorRoundTrip(tx.lib, m);
    C.MaterialIsGood(tx.lib, m);
    FieldsAreRead(tx.lib, m);
    hide C.Decode, C.Encode, C.FieldsOf, C.GoodValues, PositionIn;
  }

  lemma {:induction false} FieldsAreRead(lib: C.Library, m: C.Material)
    requires C.Exportable(lib, m)
    ensures C.GoodValues(lib, C.FieldsOf(m))
    ensures PositionIn(lib, C.FieldsOf(m)) ==
              Position(m.exportId, lib.timeOf(m.time).value, m.through, m.throughDigest, m.after, Some(m.afterDigest))
  {
    C.MaterialIsGood(lib, m);
  }

  // ---------- pages on an honest log ----------

  /** Equal digests have equal texts, so what the value checks accept the text checks accept. */
  lemma {:induction false} ValidAsText(tx: Texts, rows: map<int, Event>, records: seq<Event>, c: Cursor, limit: nat)
    requires ValidExportPage(rows, records, c.after, c.afterDigest, c.through, c.throughDigest, limit)
    ensures ValidTextPage(tx, rows, records, PositionOf(tx, c), limit)
  {
    hide Follows;
    if c.through != 0 && c.after != 0 { assert DigestAt(rows, c.after) == c.afterDigest; }
  }

  /** A page at an honest position holds the next records below the frozen head, and the text of the right cursor. */
  lemma {:induction false} TextPageOnHonest(tx: Texts, frozen: Log, l: Log, now: int, c: Cursor, limit: nat)
    requires Extends(frozen, l) && HonestCursor(frozen, c) && 1 <= limit <= 500
    ensures var last := Min(c.after + limit, c.through);
            var page := PageAt(tx, l, PositionOf(tx, c), limit);
            && page.Some? && page.value.events == Events(frozen.rows, c.after, last)
            && (last == c.through ==> page.value.next == None)
            && (last < c.through ==>
                  var d := NextOf(frozen, c, last);
                  && HonestCursor(frozen, d) && d.afterDigest.Some? && d.after == last && d.through == c.through && d.time == c.time
                  && page.value.next == Some(CursorText(tx, d)))
  {
    hide Select, Follows, Events, ValidExportPage, ValidTextPage, Extends, C.Encode;
    var last := Min(c.after + limit, c.through);
    HonestRecords(frozen, l, c, limit);
    HonestPageAccepted(frozen, l, c, limit);
    ValidAsText(tx, l.rows, Select(l.rows, c.after, c.through, limit + 1), c, limit);
    if last < c.through {
      LastOfPage(frozen, c, last);
      NextIsHonest(frozen, c, last);
    }
  }

  predicate IsRow(rows: map<int, Event>, k: int, e: Event) {
    k in rows && rows[k] == e
  }

  /** What a page says of itself: its export, its bounds, whether more follows, and a digest that covers all of it. */
  predicate SaysOfItself(tx: Texts, c: Cursor, page: TextPage, last: int) {
    && page.time == c.time && page.through == c.through
    && page.throughText == (if c.throughDigest == None then None else Some(tx.digest(c.throughDigest.value)))
    && page.exportId == tx.exportId(c.time, c.through, page.throughText)
    && page.hasMore == (last < c.through) && (page.hasMore <==> page.next.Some?)
    && page.digest == tx.page(PageMaterial(page.exportId, tx.time(page.time), page.through, page.throughText, c.after,
                                           if c.after == 0 then None else DigestText(tx, c.afterDigest), page.events, page.hasMore, page.next))
  }

  lemma {:induction false} PageSaysOfItself(tx: Texts, frozen: Log, l: Log, now: int, c: Cursor, limit: nat)
    requires Extends(frozen, l) && HonestCursor(frozen, c) && 1 <= limit <= 500
    ensures var page := PageAt(tx, l, PositionOf(tx, c), limit);
            page.Some? && SaysOfItself(tx, c, page.value, Min(c.after + limit, c.through))
  {
    TextPageOnHonest(tx, frozen, l, now, c, limit);
    HonestCursorMeans(frozen, c);
    hide Select, Follows, Events, ValidTextPage, Extends, HonestCursor, C.Encode;
  }

  /** A first request on an honest log is answered exactly for the page limits allowed, from its first record on. */
  lemma {:induction false} FirstPageIsServed(tx: Texts, l: Log, now: int, limit: nat)
    requires Honest(l)
    ensures var page := ExportText(tx, l, now, None, limit);
            && (page.Some? <==> 1 <= limit <= 500)
            && (page.Some? ==>
                  var n := l.next - 1; var last := Min(limit, n);
                  && |page.value.events| == last && (forall k | 0 <= k < last :: IsRow(l.rows, k + 1, page.value.events[k]))
                  && page.value.time == now && page.value.through == n && page.value.hasMore == (last < n)
                  && page.value.throughText == (if l.head == None then None else Some(tx.digest(l.head.value)))
                  && page.value.exportId == tx.exportId(now, n, page.value.throughText))
  {
    hide PageAt, StartAt, Events, Honest, SaysOfItself;
    if 1 <= limit <= 500 {
      FirstPage(tx, l, now, limit);
      FirstRecords(l, Min(limit, l.next - 1));
      SaysOfStart(tx, l, now, ExportText(tx, l, now, None, limit).value, Min(limit, l.next - 1));
    }
  }

  lemma {:induction false} FirstPage(tx: Texts, l: Log, now: int, limit: nat)
    requires Honest(l) && 1 <= limit <= 500
    ensures var page := ExportText(tx, l, now, None, limit);
            && page.Some? && page.value.events == Events(l.rows, 0, Min(limit, l.next - 1)) && l.next >= 1
            && SaysOfItself(tx, Start(l, now), page.value, Min(limit, l.next - 1))
  {
    var c := Start(l, now);
    StaysHonest(l);
    StartsThere(tx, l, now);
    StartIsHonest(l, now, limit);
    TextPageOnHonest(tx, l, l, now, c, limit);
    PageSaysOfItself(tx, l, l, now, c, limit);
    hide Extends, PageAt, HonestCursor, Events, SaysOfItself;
  }

  lemma {:induction false} SaysOfStart(tx: Texts, l: Log, now: int, page: TextPage, last: int)
    requires SaysOfItself(tx, Start(l, now), page, last)
    ensures page.time == now && page.through == l.next - 1 && page.hasMore == (last < l.next - 1)
    ensures page.throughText == (if l.head == None then None else Some(tx.digest(l.head.value)))
    ensures page.exportId == tx.exportId(now, l.next - 1, page.throughText)
  {
  }

  lemma {:induction false} FirstRecords(l: Log, n: int)
    requires Honest(l) && 0 <= n < l.next
    ensures var records := Events(l.rows, 0, n); |records| == n && forall k | 0 <= k < n :: IsRow(l.rows, k + 1, records[k])
  {
    if n > 0 { EventsAt(l.rows, 0, n, 0); }
    forall k | 0 <= k < n ensures IsRow(l.rows, k + 1, Events(l.rows, 0, n)[k]) { EventsAt(l.rows, 0, n, k); }
  }

  /** Whatever cursor a request brings, a page it gets belongs to the one export that its time and frozen head name, and its digest covers it. */
  lemma {:induction false} PageNamesItsExport(tx: Texts, l: Log, now: int, cursor: Option<string>, limit: nat)
    ensures var page := ExportText(tx, l, now, cursor, limit);
            page.Some? ==>
              && 1 <= limit <= 500 && |page.value.events| <= limit && (page.value.hasMore <==> page.value.next.Some?)
              && page.value.exportId == tx.exportId(page.value.time, page.value.through, page.value.throughText)
              && exists after, afterText ::
                   page.value.digest == tx.page(PageMaterial(page.value.exportId, tx.time(page.value.time), page.value.through, page.value.throughText,
                                                             after, afterText, page.value.events, page.value.hasMore, page.value.next))
  {
    hide ValidTextPage, Select, C.Decode, C.Encode, C.GoodValues, PositionIn;
    var page := ExportText(tx, l, now, cursor, limit);
    if page.Some? {
      var p := (if cursor == None then Some(StartAt(tx, l, now)) else Read(tx, cursor.value)).value;
      assert page.value.digest == tx.page(PageMaterial(p.exportId, tx.time(p.time), p.through, p.throughText, p.after, p.afterText,
                                                       page.value.events, page.value.hasMore, page.value.next));
    }
  }

  function NextOf(frozen: Log, c: Cursor, last: int): Cursor {
    c.(after := last, afterDigest := DigestAt(frozen.rows, last))
  }

  lemma {:induction false} NextIsHonest(frozen: Log, c: Cursor, last: int)
    requires HonestCursor(frozen, c) && c.after < last <= c.through
    ensures HonestCursor(frozen, NextOf(frozen, c, last)) && NextOf(frozen, c, last).afterDigest.Some?
  {
    assert Linked(frozen.rows, last);
  }

  /** The cursor of an export frozen at this log and time, after `a` records. */
  function CursorAt(frozen: Log, now: int, a: int): Cursor {
    NextOf(frozen, Start(frozen, now), a)
  }

  /** The library reads back each of the finitely many cursors this export can make. */
  ghost predicate ReadsAllBack(tx: Texts, frozen: Log, now: int) {
    forall a | 1 <= a < frozen.next - 1 ::
      var c := CursorAt(frozen, now, a); c.afterDigest.Some? && ReadsBack(tx, c)
  }

  lemma {:induction false} FollowTextsOnHonest(tx: Texts, frozen: Log, now: int, visits: seq<Visit>, c: Cursor)
    requires Sized(tx) && tx.lib.timeOf(tx.time(now)) == Some(now) && ReadsAllBack(tx, frozen, now)
    requires Growing(frozen, visits) && HonestCursor(frozen, c) && 1 <= c.after < c.through
    requires c == CursorAt(frozen, now, c.after)
    ensures c.afterDigest.Some?
    ensures var last := Min(c.after + Asked(visits), c.through);
            var o := FollowTexts(tx, visits, Some(CursorText(tx, c)));
            && o.Gathered? && o.events == Events(frozen.rows, c.after, last)
            && (last == c.through <==> o.rest == None)
    decreases |visits|
  {
    hide Extends, HonestCursor, PageAt, CursorText, PositionOf, Read, Sized, ReadsBack;
    HonestCursorMeans(frozen, c);
    ThroughIsHead(frozen, c);
    if visits != [] {
      HonestCursorBounds(frozen, c);
      HonestTextIsRead(tx, frozen, c);
      TextPageOnHonest(tx, frozen, visits[0].log, visits[0].now, c, visits[0].limit);
      var middle := Min(c.after + visits[0].limit, c.through);
      if middle < c.through {
        FollowTextsOnHonest(tx, frozen, now, visits[1..], NextOf(frozen, c, middle));
        var last := Min(c.after + Asked(visits), c.through);
        EventsSplit(frozen.rows, c.after, middle, last);
      }
    }
  }

  lemma {:induction false} ThroughIsHead(frozen: Log, c: Cursor)
    requires HonestCursor(frozen, c)
    ensures c.through == frozen.next - 1
  {
  }

  lemma {:induction false} StartsThere(tx: Texts, l: Log, now: int)
    requires Honest(l)
    ensures StartAt(tx, l, now) == PositionOf(tx, Start(l, now))
  {
  }

  /**
   A frozen export is complete as its callers run it: handing each page's cursor text back, whatever page
   limits are asked for and however many records are appended meanwhile, is never refused and yields
   the records of the first page's log from sequence 1, each once and in order; it stops exactly when
   it has handed out all of them. All it asks of the libraries is the size of the digest texts, that this
   export's time is read back, and that the JSON of each of its cursors is read back and fits the limit.
   */
  lemma {:induction false} TextExportIsComplete(tx: Texts, visits: seq<Visit>)
    requires visits != [] && Consecutive(visits) && Sized(tx)
    requires tx.lib.timeOf(tx.time(visits[0].now)) == Some(visits[0].now)
    requires ReadsAllBack(tx, visits[0].log, visits[0].now)
    ensures var n := visits[0].log.next - 1;
            var o := FollowTexts(tx, visits, None);
            && o.Gathered? && o.events == Events(visits[0].log.rows, 0, Min(Asked(visits), n))
            && (o.rest == None <==> Asked(visits) >= n)
  {
    hide Extends, HonestCursor, Consecutive, PageAt, CursorText, PositionOf, StartAt, Sized, ReadsAllBack, Events, NextOf, Honest;
    ConsecutiveGrows(visits);
    var frozen, now := visits[0].log, visits[0].now;
    var c := Start(frozen, now);
    StartIsHonest(frozen, now, visits[0].limit);
    StartsThere(tx, frozen, now);
    TextPageOnHonest(tx, frozen, frozen, now, c, visits[0].limit);
    var middle := Min(visits[0].limit, c.through);
    if middle < c.through {
      FollowTextsOnHonest(tx, frozen, now, visits[1..], NextOf(frozen, c, middle));
      EventsSplit(frozen.rows, 0, middle, Min(Asked(visits), c.through));
    }
  }

  // ---------- tables that are not honest ----------

  /** The row is there under its own sequence, its digest is that of its fields, and the digest's text is the one named. */
  predicate NamedRow(tx: Texts, rows: map<int, Event>, k: int, text: Option<string>) {
    && k in rows && rows[k].sequence == k && rows[k].digest == Digest(k, rows[k].content, rows[k].previous)
    && text == Some(tx.digest(rows[k].digest))
  }

  /**
   What an accepted page proves of any table whatsoever: the record it starts after and the head it is frozen at are there
   and have the texts named, and its events are the rows from the one to at most the other, each whole and carrying
   the digest of the row before; a page without a next cursor has reached the head, any other is full.
   */
  lemma {:induction false} AcceptedTextPage(tx: Texts, l: Log, p: Position, limit: nat)
    requires Keyed(l.rows) && limit >= 1 && PageAt(tx, l, p, limit).Some?
    ensures var page := PageAt(tx, l, p, limit).value; var n := |page.events|;
            if p.through == 0 then p.throughText == None && p.after == 0 && p.afterText == None && n == 0 && page.next == None
            else
              && 0 <= p.after <= p.through && NamedRow(tx, l.rows, p.through, p.throughText)
              && (p.after == 0 <==> p.afterText == None) && (p.after > 0 ==> NamedRow(tx, l.rows, p.after, p.afterText))
              && n <= limit && (forall k | 0 <= k < n :: IsRow(l.rows, p.after + 1 + k, page.events[k]) && Linked(l.rows, p.after + 1 + k))
              && (if page.next == None then p.after + n == p.through else n == limit)
  {
    hide Select, Follows, C.Encode, Linked;
    var records := Select(l.rows, p.after, p.through, limit + 1);
    var page := Page(records, limit);
    var events := PageAt(tx, l, p, limit).value.events;
    assert events == page;
    if p.through != 0 {
      forall k | 0 <= k < |events| ensures IsRow(l.rows, p.after + 1 + k, events[k]) && Linked(l.rows, p.after + 1 + k) {
        TextRowIsLinked(tx, l, p, limit, k);
      }
      if records != [] && |records| <= limit {
        FollowsAt(records, p.after + 1, if p.after == 0 then None else DigestAt(l.rows, p.after), |records| - 1);
      }
    }
  }

  lemma {:induction false} TextRowIsLinked(tx: Texts, l: Log, p: Position, limit: nat, k: nat)
    requires Keyed(l.rows) && p.through != 0 && ValidTextPage(tx, l.rows, Select(l.rows, p.after, p.through, limit + 1), p, limit)
    requires k < |Page(Select(l.rows, p.after, p.through, limit + 1), limit)|
    ensures var s := p.after + 1 + k;
            IsRow(l.rows, s, Page(Select(l.rows, p.after, p.through, limit + 1), limit)[k]) && Linked(l.rows, s)
  {
    hide Select, Follows;
    var page := Page(Select(l.rows, p.after, p.through, limit + 1), limit);
    var previous := if p.after == 0 then None else DigestAt(l.rows, p.after);
    FollowsAt(page, p.after + 1, previous, k);
    SelectedAreRows(l.rows, p.after, p.through, limit + 1, k);
    if k > 0 {
      FollowsAt(page, p.after + 1, previous, k - 1);
      SelectedAreRows(l.rows, p.after, p.through, limit + 1, k - 1);
    }
  }

  // ---------- cursors from elsewhere ----------

  /**
   What any accepted cursor can obtain, whoever made it: on an honest log, a stretch of that log that starts
   where the cursor says and ends at a record the log holds, and nothing else.
   */
  lemma {:induction false} AnyCursorReadsTheLog(tx: Texts, l: Log, now: int, cursor: string, limit: nat)
    requires Honest(l) && ExportText(tx, l, now, Some(cursor), limit).Some?
    ensures var p := Read(tx, cursor).value;
            && 0 <= p.after <= p.through < l.next
            && ExportText(tx, l, now, Some(cursor), limit).value.events == Events(l.rows, p.after, Min(p.after + limit, p.through))
            && (p.through >= 1 ==> p.throughText == Some(tx.digest(l.rows[p.through].digest)))
            && (p.after >= 1 ==> p.afterText == Some(tx.digest(l.rows[p.after].digest)))
  {
    hide Select, Events, Read, Page, Follows;
    var p := Read(tx, cursor).value;
    if p.through > 0 { PageIsPrefix(l.rows, p.after, p.through, limit); }
    if p.through == 0 { EmptyStretch(l.rows, limit); }
  }

  lemma {:induction false} EmptyStretch(rows: map<int, Event>, limit: nat)
    ensures Page([], limit) == [] && Events(rows, 0, Min(limit, 0)) == [] && Min(0 + limit, 0) == 0
  {
  }
}
