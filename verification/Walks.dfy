// Whole walks: following next_cursor from page to page.
module Walks {
  import opened Common
  import opened Listing

  // One request of a walk: the rounds it meets, and its limit.
  datatype Visit = Visit(rounds: seq<Round>, limit: nat)

  predicate Proper(visits: seq<Visit>) {
    forall v | v in visits :: 1 <= v.limit <= MAX_LIMIT && |v.rounds| == MAX_REFILL_ROUNDS
  }

  // What a walk has returned, where it stands, and whether it has met a null cursor.
  datatype Walk = Walked(ids: seq<Id>, cursor: Option<Id>, ended: bool) | Halted

  function Follow(visits: seq<Visit>, cursor: Option<Id>): Walk {
    if visits == [] then Walked([], cursor, false)
    else
      var page := ListPage(visits[0].rounds, visits[0].limit, cursor);
      if !page.Page? then Halted
      else if page.next.None? then Walked(page.items, None, true)
      else
        var rest := Follow(visits[1..], page.next);
        if rest.Halted? then Halted else Walked(page.items + rest.ids, rest.cursor, rest.ended)
  }

  // ---- under change ------------------------------------------------------------------------------

  predicate SeenOn(visits: seq<Visit>, id: Id) {
    exists v | v in visits :: Seen(v.rounds, id)
  }

  predicate SteadyOn(visits: seq<Visit>, id: Id) {
    forall v | v in visits :: Steady(v.rounds, id)
  }

  lemma OnePage(v: Visit, cursor: Option<Id>)
    requires Proper([v])
    ensures var page := ListPage(v.rounds, v.limit, cursor);
            !page.IndexFault? && (page.Page? ==> PageOk(v.rounds, v.limit, cursor, page))
  {
    assert v in [v];
    PageIsSound(v.rounds, v.limit, cursor);
  }

  // Whatever happens to the table between and during the requests: the ids of a walk are
  // strictly increasing, so none is returned twice, and each was there and allowed when
  // its page was built.
  lemma {:induction false} WalkIsSound(visits: seq<Visit>, cursor: Option<Id>)
    requires Proper(visits)
    ensures var walk := Follow(visits, cursor);
            walk.Walked? ==>
              Increasing(walk.ids) && forall i :: i in walk.ids ==> Above(cursor, i) && SeenOn(visits, i)
  {
    if visits != [] {
      OnePage(visits[0], cursor);
      var page := ListPage(visits[0].rounds, visits[0].limit, cursor);
      if page.Page? && page.next.Some? {
        WalkIsSound(visits[1..], page.next);
        if Follow(visits[1..], page.next).Walked? {
          JoinIncreasing(page.items, Follow(visits[1..], page.next).ids);
        }
      }
    }
  }

  // And a walk that has met a null cursor has returned every row that was there and allowed
  // throughout.
  lemma {:induction false} WalkIsComplete(visits: seq<Visit>, cursor: Option<Id>, id: Id)
    requires Proper(visits) && SteadyOn(visits, id) && Above(cursor, id)
    ensures var walk := Follow(visits, cursor); walk.Walked? && walk.ended ==> id in walk.ids
  {
    if visits != [] {
      PageCovers(visits[0].rounds, visits[0].limit, cursor, id);
      var page := ListPage(visits[0].rounds, visits[0].limit, cursor);
      if page.Page? && page.next.Some? && page.next.value < id {
        WalkIsComplete(visits[1..], page.next, id);
      }
    }
  }

  // ---- on a fixed table ------------------------------------------------------------------------------

  // Every round meets the same table, and the engine fails on none of its matching rows.
  predicate Fixed(visits: seq<Visit>, r: Round) {
    r.failing !! r.matching && forall v | v in visits :: forall x | x in v.rounds :: x == r
  }

  // A walk over a fixed table meets a null cursor after at most one page more than there
  // are matching rows above its start.
  lemma {:induction false} WalkEnds(visits: seq<Visit>, r: Round, cursor: Option<Id>)
    requires Proper(visits) && Fixed(visits, r) && |visits| > |AboveIn(r.matching, cursor)|
    ensures Follow(visits, cursor).Walked? && Follow(visits, cursor).ended
  {
    var v := visits[0];
    RefillReadsOn(r, v.rounds, v.limit, cursor, Start(cursor));
    OnePage(v, cursor);
    var page := ListPage(v.rounds, v.limit, cursor);
    if page.next.Some? {
      var next := page.next.value;
      assert AboveIn(r.matching, page.next) <= AboveIn(r.matching, cursor) - {next};
      SubsetIsSmaller(AboveIn(r.matching, page.next), AboveIn(r.matching, cursor), next);
      WalkEnds(visits[1..], r, page.next);
    }
  }

  lemma {:induction false} SubsetIsSmaller(a: set<Id>, b: set<Id>, x: Id)
    requires a <= b - {x} && x in b
    ensures |a| < |b|
    decreases |a|
  {
    if a != {} {
      var y :| y in a;
      SubsetIsSmaller(a - {y}, b - {y}, x);
    }
  }

  // It returns exactly the matching rows the engine allows, in id order, each once.
  lemma FixedWalk(visits: seq<Visit>, r: Round, cursor: Option<Id>)
    requires Proper(visits) && visits != [] && Fixed(visits, r)
    requires Follow(visits, cursor).Walked? && Follow(visits, cursor).ended
    ensures Follow(visits, cursor).ids == Ascending(AboveIn(r.matching * r.allowed, cursor))
  {
    var ids, wanted := Follow(visits, cursor).ids, AboveIn(r.matching * r.allowed, cursor);
    WalkIsSound(visits, cursor);
    AscendingSorts(wanted);
    forall i ensures i in ids <==> i in wanted {
      if i in wanted {
        WalkIsComplete(visits, cursor, i);
      }
    }
    SortedUnique(ids, Ascending(wanted));
  }
}
