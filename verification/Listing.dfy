// Keyset pagination after authorization: the refill loop of one page as a function of what
// each of its queries finds, and what a walk over many pages returns while rows come, go
// and change hands. Ids stand for the rows that carry them.
module Listing {
  import opened Common

  const OVERFETCH_FACTOR := 3
  const MAX_REFILL_ROUNDS := 5
  const MAX_LIMIT := 200

  // The server's own cap on the rows of one response.
  const MAX_ROWS := 1000

  // What one round of the loop meets: the ids that match the filter when the query runs,
  // and the engine's answers a moment later.
  datatype Round = Round(matching: set<Id>, allowed: set<Id>, failing: set<Id>)

  predicate Above(cursor: Option<Id>, id: Id) {
    cursor.None? || cursor.value < id
  }

  // ---- the query -------------------------------------------------------------------------------

  lemma {:induction false} SmallestOf(ids: set<Id>) returns (m: Id)
    requires ids != {}
    ensures m in ids && forall i :: i in ids ==> m <= i
  {
    var x :| x in ids;
    m := x;
    if ids - {x} != {} {
      var least := SmallestOf(ids - {x});
      m := if least < x then least else x;
    }
    forall i | i in ids ensures m <= i {
      assert i == x || i in ids - {x};
    }
  }

  lemma SmallestExists(ids: set<Id>)
    requires ids != {}
    ensures exists m :: m in ids && forall i :: i in ids ==> m <= i
  {
    var m := SmallestOf(ids);
  }

  function Smallest(ids: set<Id>): (m: Id)
    requires ids != {}
    ensures m in ids && forall i :: i in ids ==> m <= i
  {
    SmallestExists(ids);
    var m :| m in ids && forall i :: i in ids ==> m <= i;
    m
  }

  function Ascending(ids: set<Id>): seq<Id> {
    if ids == {} then [] else [Smallest(ids)] + Ascending(ids - {Smallest(ids)})
  }

  function AboveIn(ids: set<Id>, cursor: Option<Id>): set<Id> {
    set i | i in ids && Above(cursor, i)
  }

  function Min(a: nat, b: nat): nat {
    if a < b then a else b
  }

  // where id > cursor order by id limit n, cut at the server's cap
  function Query(ids: set<Id>, cursor: Option<Id>, n: nat): seq<Id> {
    var all := Ascending(AboveIn(ids, cursor));
    all[..Min(Min(n, MAX_ROWS), |all|)]
  }

  predicate Increasing(s: seq<Id>) {
    forall i, j :: 0 <= i < j < |s| ==> s[i] < s[j]
  }

  lemma Prepend(m: Id, rest: seq<Id>)
    requires Increasing(rest) && forall i :: i in rest ==> m < i
    ensures Increasing([m] + rest) && forall i :: i in [m] + rest <==> i == m || i in rest
  {
    assert forall k :: 0 <= k < |rest| ==> rest[k] in rest;
  }

  lemma {:induction false} AscendingSorts(ids: set<Id>)
    ensures Increasing(Ascending(ids)) && |Ascending(ids)| == |ids|
    ensures forall i :: i in Ascending(ids) <==> i in ids
  {
    if ids != {} {
      var m := Smallest(ids);
      AscendingSorts(ids - {m});
      Prepend(m, Ascending(ids - {m}));
    }
  }

  lemma HeadIsIn(s: seq<Id>)
    requires s != []
    ensures s[0] in s
  {
  }

  // Two increasing sequences with the same elements are the same.
  lemma {:induction false} SortedUnique(s: seq<Id>, t: seq<Id>)
    requires Increasing(s) && Increasing(t) && forall i :: i in s <==> i in t
    ensures s == t
  {
    if s == [] {
      if t != [] {
        HeadIsIn(t);
        assert false;
      }
    } else if t == [] {
      HeadIsIn(s);
      assert false;
    } else {
      assert s[0] in t && t[0] in s;
      assert s[0] == t[0];
      forall i ensures i in s[1..] <==> i in t[1..] {
        assert i in s[1..] <==> i in s && i != s[0];
        assert i in t[1..] <==> i in t && i != t[0];
      }
      SortedUnique(s[1..], t[1..]);
    }
  }

  lemma PrefixSkips(all: seq<Id>, k: nat)
    requires Increasing(all) && k <= |all|
    ensures Increasing(all[..k]) && forall i :: i in all[..k] ==> i in all
    ensures forall i :: i in all && (k == |all| || (k > 0 && i <= all[k - 1])) ==> i in all[..k]
  {
    forall i | i in all && (k == |all| || (k > 0 && i <= all[k - 1])) ensures i in all[..k] {
      var j :| 0 <= j < |all| && all[j] == i;
      assert j < k;
      assert all[..k][j] == i;
    }
  }

  // What a batch says about the rows it skipped: there are none up to its last row, and,
  // when it came back short, none at all.
  ghost predicate Batch(rows: seq<Id>, ids: set<Id>, cursor: Option<Id>, n: nat) {
    && Increasing(rows) && |rows| <= n
    && (forall i :: i in rows ==> i in ids && Above(cursor, i))
    && (forall i :: i in ids && Above(cursor, i) && (|rows| < n || (rows != [] && i <= rows[|rows| - 1])) ==> i in rows)
  }

  lemma QueryWithin(ids: set<Id>, cursor: Option<Id>, n: nat)
    ensures forall i :: i in Query(ids, cursor, n) ==> i in ids
  {
    AscendingSorts(AboveIn(ids, cursor));
    assert forall i :: i in Query(ids, cursor, n) ==> i in Ascending(AboveIn(ids, cursor));
  }

  // So it is as long as n is within the server's cap.
  lemma QueryFinds(ids: set<Id>, cursor: Option<Id>, n: nat)
    requires 1 <= n <= MAX_ROWS
    ensures Batch(Query(ids, cursor, n), ids, cursor, n)
  {
    var above := AboveIn(ids, cursor);
    var all := Ascending(above);
    AscendingSorts(above);
    PrefixSkips(all, Min(n, |all|));
    assert forall i :: i in above <==> i in ids && Above(cursor, i);
  }

  // ---- one page ----------------------------------------------------------------------------------

  datatype Scan = Scan(survivors: seq<Id>, fetchCursor: Option<Id>, lastFetched: Option<Id>, exhausted: bool,
                       queries: nat, scanned: nat)

  function Start(cursor: Option<Id>): Scan {
    Scan([], cursor, None, false, 0, 0)
  }

  function Kept(rows: seq<Id>, allowed: set<Id>): seq<Id> {
    if rows == [] then []
    else (if rows[0] in allowed then [rows[0]] else []) + Kept(rows[1..], allowed)
  }

  predicate Breaks(rows: seq<Id>, failing: set<Id>) {
    exists i | i in rows :: i in failing
  }

  function Took(s: Scan, rows: seq<Id>, allowed: set<Id>, limit: int): Scan
    requires rows != []
  {
    Scan(s.survivors + Kept(rows, allowed), Some(rows[|rows| - 1]), Some(rows[|rows| - 1]),
         |rows| < limit * OVERFETCH_FACTOR, s.queries + 1, s.scanned + |rows|)
  }

  // How the loop ends, with what it has spent: normally, or on a row the engine fails on.
  datatype Refilled = Finished(scan: Scan) | Broken(scan: Scan)

  // The refill loop.
  function Refill(rounds: seq<Round>, limit: int, s: Scan): Refilled {
    if |s.survivors| >= limit || s.exhausted || rounds == [] then Finished(s)
    else
      var rows := Query(rounds[0].matching, s.fetchCursor, limit * OVERFETCH_FACTOR);
      if rows == [] then Finished(s.(exhausted := true, queries := s.queries + 1))
      else if Breaks(rows, rounds[0].failing) then
        Broken(s.(queries := s.queries + 1, scanned := s.scanned + |rows|))
      else Refill(rounds[1..], limit, Took(s, rows, rounds[0].allowed, limit))
  }

  datatype Page = Page(items: seq<Id>, next: Option<Id>) | EngineFailure | IndexFault

  // survivors[:limit]
  function Take(s: seq<Id>, limit: int): seq<Id> {
    if limit >= 0 then s[..Min(limit, |s|)] else if |s| + limit > 0 then s[..|s| + limit] else []
  }

  // The page and where to resume: after the last row returned when more were found, nowhere
  // when the rows ran out, and after the last row scanned otherwise.
  function Close(s: Scan, limit: int): Page {
    var items := Take(s.survivors, limit);
    if |s.survivors| > limit then
      if items == [] then IndexFault else Page(items, Some(items[|items| - 1]))
    else Page(items, if s.exhausted then None else s.lastFetched)
  }

  function ListPage(rounds: seq<Round>, limit: int, cursor: Option<Id>): Page {
    match Refill(rounds, limit, Start(cursor))
    case Broken(_) => EngineFailure
    case Finished(s) => Close(s, limit)
  }

  // ---- what a page is worth ------------------------------------------------------------------------

  // Ids that match and are allowed in every round, and in some round.
  predicate Steady(rounds: seq<Round>, id: Id) {
    forall r | r in rounds :: id in r.matching && id in r.allowed
  }

  predicate Seen(rounds: seq<Round>, id: Id) {
    exists r | r in rounds :: id in r.matching && id in r.allowed
  }

  predicate Matched(rounds: seq<Round>, id: Id) {
    exists r | r in rounds :: id in r.matching
  }

  // How far a scan has looked.
  predicate Reached(s: Scan, id: Id) {
    s.exhausted || (s.fetchCursor.Some? && id <= s.fetchCursor.value)
  }

  predicate Covers(cursor: Option<Id>, s: Scan, id: Id) {
    Above(cursor, id) && Reached(s, id) ==> id in s.survivors
  }

  ghost predicate ScanOk(rounds: seq<Round>, cursor: Option<Id>, s: Scan) {
    && Increasing(s.survivors)
    && (forall i :: i in s.survivors ==>
          Above(cursor, i) && s.fetchCursor.Some? && i <= s.fetchCursor.value && Seen(rounds, i))
    && (if s.lastFetched.Some?
        then && s.fetchCursor == s.lastFetched
             && Above(cursor, s.lastFetched.value) && Matched(rounds, s.lastFetched.value)
        else s.fetchCursor == cursor && s.survivors == [])
  }

  lemma {:induction false} KeptMeans(rows: seq<Id>, allowed: set<Id>)
    requires Increasing(rows)
    ensures Increasing(Kept(rows, allowed)) && forall i :: i in Kept(rows, allowed) <==> i in rows && i in allowed
  {
    if rows != [] {
      KeptMeans(rows[1..], allowed);
      assert forall i :: i in rows <==> i == rows[0] || i in rows[1..];
      assert forall i :: i in rows[1..] ==> rows[0] < i;
      if rows[0] in allowed {
        Prepend(rows[0], Kept(rows[1..], allowed));
      }
    }
  }

  lemma JoinIncreasing(s: seq<Id>, t: seq<Id>)
    requires Increasing(s) && Increasing(t) && forall i, j :: i in s && j in t ==> i < j
    ensures Increasing(s + t) && forall i :: i in s + t <==> i in s || i in t
  {
    assert forall k :: 0 <= k < |s| ==> s[k] in s;
    assert forall k :: 0 <= k < |t| ==> t[k] in t;
  }

  lemma TookJoins(s: Scan, r: Round, rows: seq<Id>, limit: nat)
    requires Batch(rows, r.matching, s.fetchCursor, limit * OVERFETCH_FACTOR) && rows != []
    requires Increasing(s.survivors)
    requires forall i :: i in s.survivors ==> s.fetchCursor.Some? && i <= s.fetchCursor.value
    ensures var s' := Took(s, rows, r.allowed, limit);
            && Increasing(s'.survivors)
            && forall i :: i in s'.survivors <==> i in s.survivors || (i in rows && i in r.allowed)
  {
    KeptMeans(rows, r.allowed);
    JoinIncreasing(s.survivors, Kept(rows, r.allowed));
  }

  lemma LastIsLargest(rows: seq<Id>)
    requires Increasing(rows) && rows != []
    ensures rows[|rows| - 1] in rows && forall i :: i in rows ==> i <= rows[|rows| - 1]
  {
  }

  lemma RoundOk(rounds: seq<Round>, r: Round, limit: nat, cursor: Option<Id>, s: Scan, rows: seq<Id>)
    requires ScanOk(rounds, cursor, s) && r in rounds
    requires Batch(rows, r.matching, s.fetchCursor, limit * OVERFETCH_FACTOR) && rows != []
    ensures ScanOk(rounds, cursor, Took(s, rows, r.allowed, limit))
  {
    TookJoins(s, r, rows, limit);
    LastIsLargest(rows);
  }

  lemma RoundCovers(r: Round, limit: nat, cursor: Option<Id>, s: Scan, rows: seq<Id>, id: Id)
    requires Batch(rows, r.matching, s.fetchCursor, limit * OVERFETCH_FACTOR) && limit >= 1
    requires Covers(cursor, s, id) && !s.exhausted && id in r.matching && id in r.allowed
    requires s.fetchCursor == cursor || s.fetchCursor.Some?
    ensures if rows == [] then !Above(s.fetchCursor, id) else Covers(cursor, Took(s, rows, r.allowed, limit), id)
  {
    KeptMeans(rows, r.allowed);
  }

  lemma {:induction false} RefillOk(all: seq<Round>, rounds: seq<Round>, limit: nat, cursor: Option<Id>, s: Scan)
    requires ScanOk(all, cursor, s) && (forall r :: r in rounds ==> r in all) && 1 <= limit <= MAX_LIMIT
    ensures Refill(rounds, limit, s).Finished? ==> ScanOk(all, cursor, Refill(rounds, limit, s).scan)
  {
    if !(|s.survivors| >= limit || s.exhausted || rounds == []) {
      var rows := Query(rounds[0].matching, s.fetchCursor, limit * OVERFETCH_FACTOR);
      QueryFinds(rounds[0].matching, s.fetchCursor, limit * OVERFETCH_FACTOR);
      if rows != [] && !Breaks(rows, rounds[0].failing) {
        RoundOk(all, rounds[0], limit, cursor, s, rows);
        RefillOk(all, rounds[1..], limit, cursor, Took(s, rows, rounds[0].allowed, limit));
      }
    }
  }

  lemma {:induction false} RefillCosts(rounds: seq<Round>, limit: nat, s: Scan)
    requires 1 <= limit <= MAX_LIMIT
    ensures var done := Refill(rounds, limit, s);
            && done.scan.queries <= s.queries + |rounds|
            && done.scan.scanned <= s.scanned + |rounds| * (limit * OVERFETCH_FACTOR)
            && (done.Finished? && (s.lastFetched.Some? || (|s.survivors| < limit && rounds != [])) ==>
                  done.scan.exhausted || done.scan.lastFetched.Some?)
  {
    if !(|s.survivors| >= limit || s.exhausted || rounds == []) {
      var n := limit * OVERFETCH_FACTOR;
      var rows := Query(rounds[0].matching, s.fetchCursor, n);
      QueryFinds(rounds[0].matching, s.fetchCursor, n);
      assert |rounds| * n == |rounds[1..]| * n + n;
      if rows != [] && !Breaks(rows, rounds[0].failing) {
        RefillCosts(rounds[1..], limit, Took(s, rows, rounds[0].allowed, limit));
      }
    }
  }

  lemma {:induction false} RefillCovers(rounds: seq<Round>, limit: nat, cursor: Option<Id>, s: Scan, id: Id)
    requires Covers(cursor, s, id) && Steady(rounds, id) && 1 <= limit <= MAX_LIMIT
    requires s.fetchCursor == cursor || s.fetchCursor.Some?
    ensures Refill(rounds, limit, s).Finished? ==> Covers(cursor, Refill(rounds, limit, s).scan, id)
  {
    if !(|s.survivors| >= limit || s.exhausted || rounds == []) {
      var rows := Query(rounds[0].matching, s.fetchCursor, limit * OVERFETCH_FACTOR);
      QueryFinds(rounds[0].matching, s.fetchCursor, limit * OVERFETCH_FACTOR);
      RoundCovers(rounds[0], limit, cursor, s, rows, id);
      if rows != [] && !Breaks(rows, rounds[0].failing) {
        RefillCovers(rounds[1..], limit, cursor, Took(s, rows, rounds[0].allowed, limit), id);
      }
    }
  }

  lemma CloseIsSound(rounds: seq<Round>, limit: nat, cursor: Option<Id>, s: Scan)
    requires ScanOk(rounds, cursor, s) && limit >= 1
    ensures Close(s, limit).Page? && PageOk(rounds, limit, cursor, Close(s, limit))
  {
    PrefixSkips(s.survivors, Min(limit, |s.survivors|));
    forall i | i in s.survivors ensures Matched(rounds, i) {
      var r :| r in rounds && i in r.matching && i in r.allowed;
    }
  }

  lemma CloseCovers(rounds: seq<Round>, limit: nat, cursor: Option<Id>, s: Scan, id: Id)
    requires ScanOk(rounds, cursor, s) && limit >= 1 && Covers(cursor, s, id) && Above(cursor, id)
    requires s.exhausted || s.lastFetched.Some?
    ensures var page := Close(s, limit);
            page.Page? && (page.next.None? || id <= page.next.value ==> id in page.items)
  {
    PrefixSkips(s.survivors, Min(limit, |s.survivors|));
    if |s.survivors| > limit && id <= s.survivors[limit - 1] {
      assert s.survivors[limit - 1] in s.survivors;
      assert Reached(s, id);
    }
  }

  // A page never holds more than `limit` rows; they come in id order, from above the cursor,
  // each of them matched and allowed while the page was built; a live cursor is a row that
  // matched, above the cursor it replaces, and no row returned is above it.
  ghost predicate PageOk(rounds: seq<Round>, limit: nat, cursor: Option<Id>, page: Page)
    requires page.Page?
  {
    && |page.items| <= limit && Increasing(page.items)
    && (forall i :: i in page.items ==> Above(cursor, i) && Seen(rounds, i))
    && (page.next.Some? ==>
          && Above(cursor, page.next.value) && Matched(rounds, page.next.value)
          && forall i :: i in page.items ==> i <= page.next.value)
  }

  lemma PageIsSound(rounds: seq<Round>, limit: nat, cursor: Option<Id>)
    requires 1 <= limit <= MAX_LIMIT
    ensures var page := ListPage(rounds, limit, cursor);
            !page.IndexFault? && (page.Page? ==> PageOk(rounds, limit, cursor, page))
  {
    RefillOk(rounds, rounds, limit, cursor, Start(cursor));
    var done := Refill(rounds, limit, Start(cursor));
    if done.Finished? {
      CloseIsSound(rounds, limit, cursor, done.scan);
    }
  }

  // A page misses nothing up to its cursor, or nothing at all when it has none: every row
  // that matched and was allowed throughout is on it.
  lemma PageCovers(rounds: seq<Round>, limit: nat, cursor: Option<Id>, id: Id)
    requires 1 <= limit <= MAX_LIMIT && rounds != [] && Steady(rounds, id) && Above(cursor, id)
    ensures var page := ListPage(rounds, limit, cursor);
            page.Page? && (page.next.None? || id <= page.next.value) ==> id in page.items
  {
    RefillOk(rounds, rounds, limit, cursor, Start(cursor));
    RefillCosts(rounds, limit, Start(cursor));
    RefillCovers(rounds, limit, cursor, Start(cursor), id);
    var done := Refill(rounds, limit, Start(cursor));
    if done.Finished? {
      CloseCovers(rounds, limit, cursor, done.scan, id);
    }
  }

  // A request costs at most five queries and fifteen times `limit` rows, also when the
  // engine fails on one of them.
  lemma PageCost(rounds: seq<Round>, limit: nat, cursor: Option<Id>)
    requires 1 <= limit <= MAX_LIMIT && |rounds| <= MAX_REFILL_ROUNDS
    ensures var done := Refill(rounds, limit, Start(cursor));
            done.scan.queries <= 5 && done.scan.scanned <= 15 * limit
  {
    RefillCosts(rounds, limit, Start(cursor));
    var batch := limit * OVERFETCH_FACTOR;
    assert |rounds| == 0 || |rounds| == 1 || |rounds| == 2 || |rounds| == 3 || |rounds| == 4 || |rounds| == 5;
    assert |rounds| * batch <= 5 * batch;
  }

  // ---- how full a page is ----------------------------------------------------------------------------

  lemma QueryLength(ids: set<Id>, cursor: Option<Id>, n: nat)
    ensures |Query(ids, cursor, n)| <= n
  {
  }

  // `most` rows are scanned when every query comes back full.
  lemma {:induction false} RefillSpends(rounds: seq<Round>, limit: nat, s: Scan, most: nat)
    requires 1 <= limit <= MAX_LIMIT && !s.exhausted && most == s.scanned + |rounds| * (limit * OVERFETCH_FACTOR)
    ensures var done := Refill(rounds, limit, s);
            done.Finished? ==>
              && (|done.scan.survivors| < limit && !done.scan.exhausted ==>
                    done.scan.queries == s.queries + |rounds| && done.scan.scanned == most)
              && (done.scan.exhausted ==> done.scan.scanned < most)
  {
    var n := limit * OVERFETCH_FACTOR;
    assert s.scanned <= most && (rounds != [] ==> |rounds| * n == |rounds[1..]| * n + n);
    hide Query, Kept;
    if !(|s.survivors| >= limit || rounds == []) {
      var rows := Query(rounds[0].matching, s.fetchCursor, n);
      if rows != [] && !Breaks(rows, rounds[0].failing) && |rows| >= n {
        QueryLength(rounds[0].matching, s.fetchCursor, n);
        RefillSpends(rounds[1..], limit, Took(s, rows, rounds[0].allowed, limit), most);
      }
    }
  }

  // A page that promises more is full, unless all five queries came back full and still left
  // it short; then everything that survived is on it.
  lemma PageFills(rounds: seq<Round>, limit: nat, cursor: Option<Id>)
    requires 1 <= limit <= MAX_LIMIT && |rounds| == MAX_REFILL_ROUNDS
    ensures var page, done := ListPage(rounds, limit, cursor), Refill(rounds, limit, Start(cursor));
            page.Page? && page.next.Some? && |page.items| != limit ==>
              && |page.items| < limit && page.items == done.scan.survivors
              && done.scan.queries == 5 && done.scan.scanned == 15 * limit
  {
    RefillSpends(rounds, limit, Start(cursor), 15 * limit);
  }

  lemma {:induction false} KeptJoins(a: seq<Id>, b: seq<Id>, allowed: set<Id>)
    ensures Kept(a + b, allowed) == Kept(a, allowed) + Kept(b, allowed)
  {
    if a == [] {
      assert a + b == b;
    } else {
      var first := if a[0] in allowed then [a[0]] else [];
      assert (a + b)[0] == a[0] && (a + b)[1..] == a[1..] + b;
      assert Kept(a + b, allowed) == first + Kept(a[1..] + b, allowed);
      KeptJoins(a[1..], b, allowed);
    }
  }

  lemma RestIsAbove(all: seq<Id>, k: nat)
    requires Increasing(all) && 0 < k <= |all|
    ensures Increasing(all[k..]) && forall i :: i in all[k..] <==> i in all && all[k - 1] < i
  {
    forall i | i in all && all[k - 1] < i ensures i in all[k..] {
      var j :| 0 <= j < |all| && all[j] == i;
      assert all[k..][j - k] == i;
    }
    forall i | i in all[k..] ensures i in all && all[k - 1] < i {
      var j :| 0 <= j < |all[k..]| && all[k..][j] == i;
      assert all[k + j] == i;
    }
  }

  // What is above the k-th row of a listing is the rest of it.
  lemma AboveIsRest(ids: set<Id>, cursor: Option<Id>, k: nat)
    requires 0 < k <= |Ascending(AboveIn(ids, cursor))|
    ensures var all := Ascending(AboveIn(ids, cursor));
            Ascending(AboveIn(ids, Some(all[k - 1]))) == all[k..]
  {
    hide Ascending, Increasing;
    var all := Ascending(AboveIn(ids, cursor));
    var above := AboveIn(ids, Some(all[k - 1]));
    AscendingSorts(AboveIn(ids, cursor));
    AscendingSorts(above);
    RestIsAbove(all, k);
    assert all[k - 1] in all;
    forall i ensures i in above <==> i in all[k..] {
      assert i in all <==> i in ids && Above(cursor, i);
    }
    SortedUnique(Ascending(above), all[k..]);
  }

  // Over a table that stays as r says, the scan has read the rows from the first on.
  ghost predicate ReadOn(r: Round, cursor: Option<Id>, s: Scan) {
    var all, k := Ascending(AboveIn(r.matching, cursor)), s.scanned;
    && k <= |all| && s.survivors == Kept(all[..k], r.allowed) && (s.exhausted ==> k == |all|)
    && s.lastFetched == (if k == 0 then None else Some(all[k - 1]))
    && s.fetchCursor == (if k == 0 then cursor else s.lastFetched)
  }

  lemma BatchIsNext(r: Round, cursor: Option<Id>, s: Scan, n: nat)
    requires ReadOn(r, cursor, s) && n <= MAX_ROWS
    ensures var all := Ascending(AboveIn(r.matching, cursor));
            Query(r.matching, s.fetchCursor, n) == all[s.scanned..Min(s.scanned + n, |all|)]
  {
    if s.scanned > 0 {
      AboveIsRest(r.matching, cursor, s.scanned);
    }
  }

  lemma BatchReadsOn(r: Round, cursor: Option<Id>, s: Scan, limit: nat)
    requires ReadOn(r, cursor, s) && 1 <= limit <= MAX_LIMIT
    ensures var rows := Query(r.matching, s.fetchCursor, limit * OVERFETCH_FACTOR);
            if rows == [] then s.scanned == |Ascending(AboveIn(r.matching, cursor))|
            else ReadOn(r, cursor, Took(s, rows, r.allowed, limit))
  {
    var all, n := Ascending(AboveIn(r.matching, cursor)), limit * OVERFETCH_FACTOR;
    BatchIsNext(r, cursor, s, n);
    hide Query, Ascending, AboveIn, Kept;
    var rows := Query(r.matching, s.fetchCursor, n);
    KeptJoins(all[..s.scanned], rows, r.allowed);
    assert all[..s.scanned] + rows == all[..s.scanned + |rows|];
  }

  lemma {:induction false} RefillReadsOn(r: Round, rounds: seq<Round>, limit: nat, cursor: Option<Id>, s: Scan)
    requires ReadOn(r, cursor, s) && 1 <= limit <= MAX_LIMIT
    requires r.failing !! r.matching && forall x :: x in rounds ==> x == r
    ensures var done := Refill(rounds, limit, s); done.Finished? && ReadOn(r, cursor, done.scan)
  {
    if !(|s.survivors| >= limit || s.exhausted || rounds == []) {
      var rows := Query(r.matching, s.fetchCursor, limit * OVERFETCH_FACTOR);
      assert rounds[0] in rounds && forall x :: x in rounds[1..] ==> x in rounds;
      BatchReadsOn(r, cursor, s, limit);
      QueryWithin(r.matching, s.fetchCursor, limit * OVERFETCH_FACTOR);
      if rows != [] {
        RefillReadsOn(r, rounds[1..], limit, cursor, Took(s, rows, r.allowed, limit));
      }
    }
  }

  lemma ReadCloses(r: Round, cursor: Option<Id>, s: Scan, limit: nat, all: seq<Id>, found: seq<Id>)
    requires ReadOn(r, cursor, s) && limit >= 1 && all == Ascending(AboveIn(r.matching, cursor))
    requires s.scanned <= 15 * limit && (s.exhausted ==> s.scanned < 15 * limit)
    requires |s.survivors| < limit && !s.exhausted ==> s.scanned == 15 * limit
    requires found == Kept(all[..Min(15 * limit, |all|)], r.allowed)
    ensures var page := Close(s, limit);
            && page.Page? && page.items == found[..Min(limit, |found|)]
            && (|found| < limit ==> page.next == if |all| < 15 * limit then None else Some(all[15 * limit - 1]))
  {
    var k, most := s.scanned, Min(15 * limit, |all|);
    KeptJoins(all[..k], all[k..most], r.allowed);
    assert all[..k] + all[k..most] == all[..most];
    hide Kept, Ascending, AboveIn;
  }

  // Over a fixed table a page has the first `limit` allowed rows among the first fifteen times
  // `limit` matching ones. When those are fewer than `limit`, it is the last page if the table
  // has no other rows, and resumes after the ones it read if it may have.
  lemma FixedPage(r: Round, rounds: seq<Round>, limit: nat, cursor: Option<Id>)
    requires 1 <= limit <= MAX_LIMIT && |rounds| == MAX_REFILL_ROUNDS
    requires r.failing !! r.matching && forall x :: x in rounds ==> x == r
    ensures var all, page := Ascending(AboveIn(r.matching, cursor)), ListPage(rounds, limit, cursor);
            var found := Kept(all[..Min(15 * limit, |all|)], r.allowed);
            && page.Page? && page.items == found[..Min(limit, |found|)]
            && (|found| < limit ==> page.next == if |all| < 15 * limit then None else Some(all[15 * limit - 1]))
  {
    var all, done := Ascending(AboveIn(r.matching, cursor)), Refill(rounds, limit, Start(cursor));
    RefillReadsOn(r, rounds, limit, cursor, Start(cursor));
    RefillSpends(rounds, limit, Start(cursor), 15 * limit);
    PageCost(rounds, limit, cursor);
    hide Refill, Close, Kept, Ascending, AboveIn, ReadOn;
    ReadCloses(r, cursor, done.scan, limit, all, Kept(all[..Min(15 * limit, |all|)], r.allowed));
  }

  lemma {:induction false} KeepsAll(rows: seq<Id>, allowed: set<Id>)
    requires forall i :: i in rows ==> i in allowed
    ensures Kept(rows, allowed) == rows
  {
    if rows != [] {
      KeepsAll(rows[1..], allowed);
    }
  }

  lemma ExactClose(all: seq<Id>, limit: nat, s: Scan)
    requires limit >= 1 && s.survivors == all[..Min(limit * OVERFETCH_FACTOR, |all|)]
    requires |all| <= limit ==> s.exhausted
    ensures Close(s, limit) == Page(all[..Min(limit, |all|)], if |all| > limit then Some(all[limit - 1]) else None)
  {
    assert s.survivors[..Min(limit, |s.survivors|)] == all[..Min(limit, |all|)];
  }

  // Where the filter lets only allowed rows through, one query is enough: the page has the
  // first `limit` rows, and there is a cursor exactly when there are more.
  lemma ExactPage(r: Round, rounds: seq<Round>, limit: nat, cursor: Option<Id>)
    requires 1 <= limit <= MAX_LIMIT && rounds != [] && rounds[0] == r
    requires r.failing !! r.matching && r.matching <= r.allowed
    ensures var all := Ascending(AboveIn(r.matching, cursor));
            ListPage(rounds, limit, cursor) ==
            Page(all[..Min(limit, |all|)], if |all| > limit then Some(all[limit - 1]) else None)
  {
    var all, n := Ascending(AboveIn(r.matching, cursor)), limit * OVERFETCH_FACTOR;
    BatchIsNext(r, cursor, Start(cursor), n);
    QueryWithin(r.matching, cursor, n);
    var rows := Query(r.matching, cursor, n);
    KeepsAll(rows, r.allowed);
    hide Query, Ascending, AboveIn, Kept, Close;
    var done := Refill(rounds, limit, Start(cursor)).scan;
    if rows != [] {
      var s := Took(Start(cursor), rows, r.allowed, limit);
      assert s.survivors == rows;
      assert Refill(rounds, limit, Start(cursor)) == Refill(rounds[1..], limit, s) == Finished(s);
    }
    ExactClose(all, limit, done);
  }
}
