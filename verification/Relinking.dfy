/** The links of a batch, rebuilt as a whole by publications and edits. */
module Relinking {
  import opened Tables
  import opened Machine

  predicate Distinct(pids: seq<nat>) { forall i, j | 0 <= i < j < |pids| :: pids[i] != pids[j] }

  /** The links of the batch are exactly the problems in order, numbered from 1, with their scores. */
  ghost predicate Numbered(db: Db, bid: nat, first: nat, ids: seq<nat>, items: seq<Item>)
    requires |ids| == |items|
  {
    && (forall l :: l in db.links && db.links[l].bid == bid <==> first <= l < first + |ids|)
    && forall k | 0 <= k < |ids| :: first + k in db.links && db.links[first + k] == Link(bid, ids[k], k + 1, items[k].score)
  }

  lemma RelinkedRows(db: Db, bid: nat, ids: seq<nat>, items: seq<Item>)
    requires |ids| == |items| && forall l :: l in db.links ==> l < db.nextBp
    ensures var d := Relinked(db, bid, SlotsOf(ids, items));
      && Numbered(d, bid, db.nextBp, ids, items) && d.nextBp == db.nextBp + |ids|
      && (forall l :: l in d.links ==> l < d.nextBp)
      && (forall l :: l in db.links && db.links[l].bid != bid ==> l in d.links && d.links[l] == db.links[l])
      && (forall l :: l in d.links && d.links[l].bid != bid ==> l in db.links)
  {
    hide Relinked;
    var d := Relinked(db, bid, SlotsOf(ids, items));
    forall l: nat ensures l in d.links && d.links[l].bid == bid <==> db.nextBp <= l < db.nextBp + |ids| {
      RelinkedRow(db, bid, ids, items, l);
    }
    forall l | l in d.links ensures l < db.nextBp + |ids| && (d.links[l].bid != bid ==> l in db.links) {
      RelinkedRow(db, bid, ids, items, l);
    }
    forall l | l in db.links && db.links[l].bid != bid ensures l in d.links && d.links[l] == db.links[l] {
      RelinkedRow(db, bid, ids, items, l);
    }
    forall k | 0 <= k < |ids|
      ensures db.nextBp + k in d.links && d.links[db.nextBp + k] == Link(bid, ids[k], k + 1, items[k].score)
    {
      RelinkedRow(db, bid, ids, items, db.nextBp + k);
    }
    RelinkedCounter(db, bid, ids, items);
  }

  lemma RelinkedCounter(db: Db, bid: nat, ids: seq<nat>, items: seq<Item>)
    requires |ids| == |items|
    ensures Relinked(db, bid, SlotsOf(ids, items)).nextBp == db.nextBp + |ids|
  {
  }

  /** The links of other batches stay; those of the batch are the new rows. */
  predicate RelinkedAt(db: Db, d: Db, bid: nat, ids: seq<nat>, items: seq<Item>, l: nat)
    requires |ids| == |items|
  {
    if db.nextBp <= l < db.nextBp + |ids|
    then l in d.links && d.links[l] == Link(bid, ids[l - db.nextBp], l - db.nextBp + 1, items[l - db.nextBp].score)
    else if l in db.links && db.links[l].bid != bid
    then l in d.links && d.links[l] == db.links[l]
    else l !in d.links
  }

  lemma RelinkedRow(db: Db, bid: nat, ids: seq<nat>, items: seq<Item>, l: nat)
    requires |ids| == |items| && forall l :: l in db.links ==> l < db.nextBp
    ensures RelinkedAt(db, Relinked(db, bid, SlotsOf(ids, items)), bid, ids, items, l)
  {
    hide Rows, Relinked, RelinkedAt;
    var kept := map l | l in db.links && db.links[l].bid != bid :: db.links[l];
    RelinkedLinks(db, bid, SlotsOf(ids, items));
    RowsAre(db.nextBp, bid, ids, items);
    RowAmong(db, Relinked(db, bid, SlotsOf(ids, items)), bid, ids, items, kept, Rows(db.nextBp, bid, SlotsOf(ids, items)), l);
  }

  lemma RowAmong(db: Db, d: Db, bid: nat, ids: seq<nat>, items: seq<Item>, kept: map<nat, Link>, rows: map<nat, Link>, l: nat)
    requires |ids| == |items| && d.links == kept + rows && (l in db.links ==> l < db.nextBp)
    requires l in rows <==> db.nextBp <= l < db.nextBp + |ids|
    requires forall k | 0 <= k < |ids| :: db.nextBp + k in rows && rows[db.nextBp + k] == Link(bid, ids[k], k + 1, items[k].score)
    requires l in kept <==> l in db.links && db.links[l].bid != bid
    requires l in kept ==> kept[l] == db.links[l]
    ensures RelinkedAt(db, d, bid, ids, items, l)
  {
    if l in rows {
      var k := l - db.nextBp;
      assert rows[db.nextBp + k] == Link(bid, ids[k], k + 1, items[k].score);
    }
  }

  lemma RelinkedLinks(db: Db, bid: nat, slots: seq<Slot>)
    ensures Relinked(db, bid, slots).links
         == (map l | l in db.links && db.links[l].bid != bid :: db.links[l]) + Rows(db.nextBp, bid, slots)
  {
  }

  lemma RowsAre(first: nat, bid: nat, ids: seq<nat>, items: seq<Item>)
    requires |ids| == |items|
    ensures var rows := Rows(first, bid, SlotsOf(ids, items));
      && (forall l :: l in rows <==> first <= l < first + |ids|)
      && (forall k | 0 <= k < |ids| :: rows[first + k] == Link(bid, ids[k], k + 1, items[k].score))
      && (forall l :: l in rows ==> rows[l].bid == bid)
  {
    var rows := Rows(first, bid, SlotsOf(ids, items));
    forall k | 0 <= k < |ids| ensures first + k in rows && rows[first + k] == Link(bid, ids[k], k + 1, items[k].score) {
    }
  }

  /** The links of the batch are those of the document, and no other link has changed. */
  ghost predicate LinksRebuilt(a: Db, d: Db, bid: nat, items: seq<Item>, ids: seq<nat>)
    requires |ids| == |items|
  {
    && Numbered(d, bid, a.nextBp, ids, items) && d.nextBp == a.nextBp + |ids|
    && (forall l :: l in a.links && a.links[l].bid != bid ==> l in d.links && d.links[l] == a.links[l])
    && (forall l :: l in d.links && d.links[l].bid != bid ==> l in a.links)
  }

  lemma LinksAre(a: Db, d: Db, bid: nat, items: seq<Item>, ids: seq<nat>)
    requires |ids| == |items| && forall l :: l in a.links ==> l < a.nextBp
    requires d.links == Relinked(a, bid, SlotsOf(ids, items)).links && d.nextBp == a.nextBp + |ids|
    ensures LinksRebuilt(a, d, bid, items, ids)
  {
    hide Relinked, Numbered;
    RelinkedRows(a, bid, ids, items);
    NumberedReads(Relinked(a, bid, SlotsOf(ids, items)), d, bid, a.nextBp, ids, items);
  }

  lemma NumberedReads(x: Db, y: Db, bid: nat, first: nat, ids: seq<nat>, items: seq<Item>)
    requires |ids| == |items| && Numbered(x, bid, first, ids, items) && y.links == x.links
    ensures Numbered(y, bid, first, ids, items)
  {
  }
}
