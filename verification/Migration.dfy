/**
 The one-way conversion of legacy passwords: users are read in pages of 128 by rising id while the conversion rewrites
 them, and the tool may be stopped between pages and started again.
 */
module Migration {
  import opened LegacyPasswords
  import opened Values

  const PAGE: nat := 128

  datatype Row = Row(id: nat, password: string)

  predicate Past(after: Option<nat>, id: nat) { after.None? || id > after.value }

  /** Rows of the table in rising order of ids, all past the cursor. */
  predicate Rising(passwords: map<nat, string>, after: Option<nat>, rows: seq<Row>) {
    && (forall k | 0 <= k < |rows| :: Past(after, rows[k].id) && rows[k].id in passwords && rows[k].password == passwords[rows[k].id])
    && forall j, k | 0 <= j < k < |rows| :: rows[j].id < rows[k].id
  }

  /** The first page past the cursor: nothing past it has been left out, unless the page is full. */
  predicate PageAfter(passwords: map<nat, string>, after: Option<nat>, rows: seq<Row>) {
    && Rising(passwords, after, rows) && |rows| <= PAGE
    && forall id | id in passwords && Past(after, id) :: Named(rows, id) || (|rows| == PAGE && rows[PAGE - 1].id < id)
  }

  predicate AllNamed(passwords: map<nat, string>, after: Option<nat>, rows: seq<Row>, left: set<nat>) {
    forall id | id in passwords && Past(after, id) && id !in left :: Named(rows, id)
  }

  lemma NextRow(passwords: map<nat, string>, after: Option<nat>, rows: seq<Row>, left: set<nat>, id: nat)
    requires Rising(passwords, after, rows) && AllNamed(passwords, after, rows, left)
    requires id in left && id in passwords && Past(after, id) && (rows == [] || id > rows[|rows| - 1].id)
    ensures var more := rows + [Row(id, passwords[id])]; Rising(passwords, after, more) && AllNamed(passwords, after, more, left - {id})
  {
    var more := rows + [Row(id, passwords[id])];
    forall x | x in passwords && Past(after, x) && x !in left - {id} ensures Named(more, x) {
      if x == id {
        assert more[|rows|].id == x;
      } else {
        var k :| 0 <= k < |rows| && rows[k].id == x;
        assert more[k].id == x;
      }
    }
  }

  /** Only the page past the last id is empty. */
  lemma EmptyPage(passwords: map<nat, string>, after: Option<nat>, rows: seq<Row>)
    requires PageAfter(passwords, after, rows)
    ensures rows == [] <==> forall id | id in passwords :: !Past(after, id)
  {
    if rows == [] {
      forall id | id in passwords ensures !Past(after, id) {
        assert !Named(rows, id);
      }
    } else {
      assert rows[0].id in passwords && Past(after, rows[0].id);
    }
  }

  predicate Named(rows: seq<Row>, id: nat) { exists k :: 0 <= k < |rows| && rows[k].id == id }

  /** What a run that has come past the cursor has made of the table. */
  predicate ConvertedTo(c: Crypto, iterations: nat, salts: nat -> seq<Byte>, was: map<nat, string>, now: map<nat, string>, after: Option<nat>) {
    && now.Keys == was.Keys
    && forall id | id in was ::
         now[id] == if !Past(after, id) && Legacy(was[id]) then Wrap(c, was[id], salts(id), iterations) else was[id]
  }

  /** Left alone, or wrapped once. */
  ghost predicate WrappedOnce(c: Crypto, was: string, now: string) {
    || (now == was)
    || (Legacy(was) && exists outer: seq<Byte>, n: nat :: WrapOf(c, was, now, outer, n))
  }

  ghost predicate WrapOf(c: Crypto, was: string, now: string, outer: seq<Byte>, n: nat)
    requires Legacy(was)
  {
    |outer| == 16 && 1 <= n <= MAX_ITERATIONS && now == Wrap(c, was, outer, n)
  }

  /** No more than 16 bytes of salt, and a sensible number of iterations. */
  ghost predicate Usable(c: Crypto, iterations: nat, salts: nat -> seq<Byte>) {
    Sized(c) && 1 <= iterations <= MAX_ITERATIONS && forall id :: |salts(id)| == 16
  }

  class Users {
    var passwords: map<nat, string>

    constructor (passwords: map<nat, string>)
      ensures this.passwords == passwords
    {
      this.passwords := passwords;
    }

    /** SELECT ... WHERE id > after ORDER BY id LIMIT 128. */
    method NextPage(after: Option<nat>) returns (rows: seq<Row>)
      ensures PageAfter(passwords, after, rows)
      ensures rows == [] <==> forall id | id in passwords :: !Past(after, id)
    {
      rows := [];
      var left := set id | id in passwords && Past(after, id);
      while |rows| < PAGE && |left| > 0
        invariant |rows| <= PAGE && Rising(passwords, after, rows)
        invariant forall id :: id in left <==> id in passwords && Past(after, id) && (rows == [] || id > rows[|rows| - 1].id)
        invariant AllNamed(passwords, after, rows, left)
        decreases |left|
      {
        var id := Least(left);
        NextRow(passwords, after, rows, left, id);
        rows := rows + [Row(id, passwords[id])];
        left := left - {id};
      }
      EmptyPage(passwords, after, rows);
    }

    /** Converts page by page, and is stopped before the page after `fuel` pages. It sees every user once, by rising id. */
    method ConvertPasswords(c: Crypto, iterations: nat, salts: nat -> seq<Byte>, fuel: nat) returns (done: bool, ghost seen: seq<nat>)
      requires Usable(c, iterations, salts)
      modifies this
      ensures done ==> ConvertedAll(c, iterations, salts, old(passwords), passwords)
      ensures exists after :: ConvertedTo(c, iterations, salts, old(passwords), passwords, after)
      ensures forall j, k | 0 <= j < k < |seen| :: seen[j] < seen[k]
      ensures done ==> forall id :: id in seen <==> id in old(passwords)
      ensures |old(passwords)| <= PAGE * fuel ==> done
    {
      hide ConvertedTo, ConvertedAll, PageAfter, Rising, Usable;
      var after: Option<nat>, pages := None, 0;
      seen := [];
      NothingConverted(c, iterations, salts, passwords);
      while true
        invariant ConvertedTo(c, iterations, salts, old(passwords), passwords, after) && passwords.Keys == old(passwords).Keys
        invariant SeenTo(old(passwords), after, seen)
        invariant pages <= fuel && (|seen| >= PAGE * pages || Exhausted(old(passwords), after))
        decreases fuel - pages
      {
        var rows := NextPage(after);
        if rows == [] {
          Finished(c, iterations, salts, old(passwords), passwords, after, seen);
          return true, seen;
        }
        if pages == fuel {
          MoreThan(old(passwords), passwords, after, seen, rows);
          return false, seen;
        }
        PageSeen(c, iterations, salts, old(passwords), passwords, after, seen, rows);
        PageConverted(c, iterations, salts, old(passwords), passwords, after, rows);
        UpdateLegacy(c, iterations, salts, after, rows);
        seen := seen + Ids(rows);
        after := Some(rows[|rows| - 1].id);
        pages := pages + 1;
      }
    }

    /**
     Counts the legacy passwords, page by page, and refuses a table with a password that is neither legacy nor
     wrapped. The last comparison, by length, never fails.
     */
    method Preflight() returns (r: Result<nat>)
      ensures r.Ok? <==> forall id | id in passwords :: Known(passwords[id])
      ensures r.Ok? ==> r.value == |LegacyIds(passwords)|
    {
      hide PageAfter, Rising, Known, Legacy, CountedTo;
      var after: Option<nat>, remaining := None, 0;
      NothingCounted(passwords);
      while true
        invariant CountedTo(passwords, after, remaining)
        decreases set id | id in passwords && Past(after, id)
      {
        var rows := NextPage(after);
        if rows == [] { break; }
        ghost var start := after;
        PageShrinks(passwords, after, rows);
        var k := 0;
        while k < |rows|
          invariant k <= |rows| && CountedTo(passwords, Cursor(start, rows, k), remaining)
        {
          RowCounted(passwords, start, rows, k, remaining);
          if Legacy(rows[k].password) {
            remaining := remaining + 1;
          } else if !Wrapped(rows[k].password) {
            Unsupported(passwords, start, rows, k);
            return Err;
          }
          k := k + 1;
        }
        after := Some(rows[|rows| - 1].id);
      }
      AllCounted(passwords, after, remaining);
      if remaining != |LongAs(passwords, 96)| { return Err; }
      return Ok(remaining);
    }

    /** One statement rewrites the legacy passwords of a page. */
    method UpdateLegacy(c: Crypto, iterations: nat, salts: nat -> seq<Byte>, ghost after: Option<nat>, rows: seq<Row>)
      requires Rising(passwords, after, rows)
      modifies this
      ensures passwords == Rewritten(c, iterations, salts, old(passwords), rows)
    {
      hide Legacy, Wrap, Rewritten;
      var updates: map<nat, string>, k := map[], 0;
      while k < |rows|
        invariant k <= |rows|
        invariant forall id :: id in updates <==> exists j :: 0 <= j < k && rows[j].id == id && Legacy(rows[j].password)
        invariant forall j | 0 <= j < k && Legacy(rows[j].password) ::
          rows[j].id in updates && updates[rows[j].id] == Wrap(c, rows[j].password, salts(rows[j].id), iterations)
      {
        if Legacy(rows[k].password) {
          updates := updates[rows[k].id := Wrap(c, rows[k].password, salts(rows[k].id), iterations)];
        }
        k := k + 1;
      }
      ghost var was := passwords;
      passwords := map id | id in passwords :: if id in updates then updates[id] else passwords[id];
      RewrittenIs(c, iterations, salts, was, passwords, after, rows, updates);
    }
  }

  // ---------------------------------------------------------------- counting

  predicate Known(stored: string) { Legacy(stored) || Wrapped(stored) }

  function LegacyIds(passwords: map<nat, string>): set<nat> { set id | id in passwords && Legacy(passwords[id]) }

  function LongAs(passwords: map<nat, string>, n: nat): set<nat> { set id | id in passwords && |passwords[id]| == n }

  /** Up to the cursor, every password is known, and the legacy ones are counted. */
  predicate CountedTo(passwords: map<nat, string>, after: Option<nat>, n: nat) {
    && (forall id | id in passwords && !Past(after, id) :: Known(passwords[id]))
    && n == |set id | id in LegacyIds(passwords) && !Past(after, id)|
  }

  /** The cursor within a page. */
  function Cursor(after: Option<nat>, rows: seq<Row>, k: nat): Option<nat>
    requires k <= |rows|
  {
    if k == 0 then after else Some(rows[k - 1].id)
  }

  lemma NothingCounted(passwords: map<nat, string>)
    ensures CountedTo(passwords, None, 0)
  {
    assert (set id | id in LegacyIds(passwords) && !Past(None, id)) == {};
  }

  lemma PageShrinks(passwords: map<nat, string>, after: Option<nat>, rows: seq<Row>)
    requires PageAfter(passwords, after, rows) && rows != []
    ensures (set id | id in passwords && Past(Some(rows[|rows| - 1].id), id)) < set id | id in passwords && Past(after, id)
  {
    var last := rows[|rows| - 1].id;
    assert Past(after, last) && last in passwords;
    var more, fewer := (set id | id in passwords && Past(after, id)), set id | id in passwords && Past(Some(last), id);
    assert forall id | id in fewer :: id in more;
    assert last in more && last !in fewer;
  }

  lemma RowCounted(passwords: map<nat, string>, after: Option<nat>, rows: seq<Row>, k: nat, n: nat)
    requires PageAfter(passwords, after, rows) && k < |rows| && CountedTo(passwords, Cursor(after, rows, k), n)
    ensures Known(rows[k].password) ==>
      CountedTo(passwords, Cursor(after, rows, k + 1), n + if Legacy(rows[k].password) then 1 else 0)
    ensures Known(rows[k].password) <==> Legacy(rows[k].password) || Wrapped(rows[k].password)
  {
    hide Legacy, Wrapped;
    var id, before, next := rows[k].id, Cursor(after, rows, k), Cursor(after, rows, k + 1);
    forall x | x in passwords ensures !Past(next, x) <==> !Past(before, x) || x == id {
      Between(passwords, after, rows, k, x);
    }
    var s := set x | x in LegacyIds(passwords) && !Past(before, x);
    var t := set x | x in LegacyIds(passwords) && !Past(next, x);
    assert Past(before, id) && passwords[id] == rows[k].password;
    if Legacy(rows[k].password) {
      assert t == s + {id};
    } else {
      assert t == s;
    }
  }

  /** There is no id between two rows of a page. */
  lemma Between(passwords: map<nat, string>, after: Option<nat>, rows: seq<Row>, k: nat, x: nat)
    requires PageAfter(passwords, after, rows) && k < |rows| && x in passwords
    ensures !Past(Cursor(after, rows, k + 1), x) <==> !Past(Cursor(after, rows, k), x) || x == rows[k].id
    ensures Past(Cursor(after, rows, k), rows[k].id)
  {
    if Past(after, x) && x < rows[k].id {
      assert Named(rows, x);
      var j :| 0 <= j < |rows| && rows[j].id == x;
    }
    assert k > 0 ==> rows[k - 1].id < rows[k].id;
    assert Past(after, rows[k].id);
    if k > 0 {
      assert Past(after, rows[k - 1].id);
    }
  }

  lemma Unsupported(passwords: map<nat, string>, after: Option<nat>, rows: seq<Row>, k: nat)
    requires PageAfter(passwords, after, rows) && k < |rows| && !Legacy(rows[k].password) && !Wrapped(rows[k].password)
    ensures exists id :: id in passwords && !Known(passwords[id])
  {
    assert rows[k].id in passwords && !Known(passwords[rows[k].id]);
  }

  lemma AllCounted(passwords: map<nat, string>, after: Option<nat>, n: nat)
    requires CountedTo(passwords, after, n) && forall id | id in passwords :: !Past(after, id)
    ensures (forall id | id in passwords :: Known(passwords[id])) && n == |LegacyIds(passwords)| == |LongAs(passwords, 96)|
  {
    assert (set id | id in LegacyIds(passwords) && !Past(after, id)) == LegacyIds(passwords);
    forall id | id in passwords ensures Legacy(passwords[id]) <==> |passwords[id]| == 96 {
      if Wrapped(passwords[id]) {
        WrappedIsLonger(passwords[id]);
      }
    }
    assert LegacyIds(passwords) == LongAs(passwords, 96);
    hide Wrapped;
  }

  // ---------------------------------------------------------------- converting

  function Ids(rows: seq<Row>): (ids: seq<nat>)
    ensures |ids| == |rows| && forall k | 0 <= k < |rows| :: ids[k] == rows[k].id
  {
    seq(|rows|, k requires 0 <= k < |rows| => rows[k].id)
  }

  /** The legacy passwords of the page are wrapped. */
  function Rewritten(c: Crypto, iterations: nat, salts: nat -> seq<Byte>, was: map<nat, string>, rows: seq<Row>): map<nat, string> {
    map id | id in was ::
      if Legacy(was[id]) && exists k | 0 <= k < |rows| :: rows[k].id == id then Wrap(c, was[id], salts(id), iterations) else was[id]
  }

  lemma RewrittenIs(
    c: Crypto, iterations: nat, salts: nat -> seq<Byte>, was: map<nat, string>, now: map<nat, string>, after: Option<nat>, rows: seq<Row>,
    updates: map<nat, string>)
    requires Rising(was, after, rows) && now.Keys == was.Keys
    requires forall id :: id in updates <==> exists j :: 0 <= j < |rows| && rows[j].id == id && Legacy(rows[j].password)
    requires forall j | 0 <= j < |rows| && Legacy(rows[j].password) ::
      rows[j].id in updates && updates[rows[j].id] == Wrap(c, rows[j].password, salts(rows[j].id), iterations)
    requires forall id | id in was :: now[id] == if id in updates then updates[id] else was[id]
    ensures now == Rewritten(c, iterations, salts, was, rows)
  {
    hide Legacy, Wrap;
    var d := Rewritten(c, iterations, salts, was, rows);
    forall id | id in was ensures now[id] == d[id] {
      if id in updates {
        var j :| 0 <= j < |rows| && rows[j].id == id && Legacy(rows[j].password);
      }
    }
  }

  predicate Exhausted(passwords: map<nat, string>, after: Option<nat>) { forall id | id in passwords :: !Past(after, id) }

  /** The ids up to the cursor, each once, in rising order. */
  predicate SeenTo(passwords: map<nat, string>, after: Option<nat>, seen: seq<nat>) {
    && (forall j, k | 0 <= j < k < |seen| :: seen[j] < seen[k])
    && (forall id | id in seen :: id in passwords && !Past(after, id))
    && forall id | id in passwords && !Past(after, id) :: id in seen
  }

  lemma NothingConverted(c: Crypto, iterations: nat, salts: nat -> seq<Byte>, passwords: map<nat, string>)
    ensures ConvertedTo(c, iterations, salts, passwords, passwords, None) && SeenTo(passwords, None, [])
  {
  }

  lemma Finished(
    c: Crypto, iterations: nat, salts: nat -> seq<Byte>, was: map<nat, string>, now: map<nat, string>, after: Option<nat>, seen: seq<nat>)
    requires ConvertedTo(c, iterations, salts, was, now, after) && SeenTo(was, after, seen) && Exhausted(now, after)
    ensures ConvertedAll(c, iterations, salts, was, now) && forall id :: id in seen <==> id in was
  {
    hide Legacy, Wrap;
  }

  lemma {:induction false} RisingCount(seen: seq<nat>, ids: set<nat>)
    requires (forall j, k | 0 <= j < k < |seen| :: seen[j] < seen[k]) && forall id | id in seen :: id in ids
    ensures |seen| <= |ids|
  {
    if seen != [] {
      var k := |seen| - 1;
      RisingCount(seen[..k], ids - {seen[k]});
    }
  }

  /** A page is left although `fuel` full pages have been read. */
  lemma MoreThan(was: map<nat, string>, now: map<nat, string>, after: Option<nat>, seen: seq<nat>, rows: seq<Row>)
    requires now.Keys == was.Keys && SeenTo(was, after, seen) && PageAfter(now, after, rows) && rows != []
    ensures !Exhausted(was, after) && |was| > |seen|
  {
    assert Past(after, rows[0].id) && rows[0].id in was;
    RisingCount(seen, was.Keys - {rows[0].id});
    assert |was.Keys| == |was|;
  }

  lemma PageSeen(
    c: Crypto, iterations: nat, salts: nat -> seq<Byte>, was: map<nat, string>, now: map<nat, string>, after: Option<nat>, seen: seq<nat>,
    rows: seq<Row>)
    requires now.Keys == was.Keys && SeenTo(was, after, seen) && PageAfter(now, after, rows) && rows != []
    ensures Rising(now, after, rows) && SeenTo(was, Some(rows[|rows| - 1].id), seen + Ids(rows))
    ensures |rows| == PAGE || Exhausted(was, Some(rows[|rows| - 1].id))
  {
    var last, all := rows[|rows| - 1].id, seen + Ids(rows);
    PageKnown(was, now, after, seen, rows);
    PageRises(was, now, after, seen, rows);
    forall id | id in was && !Past(Some(last), id) ensures id in all {
      if Past(after, id) {
        assert id in now && Named(rows, id);
        var k :| 0 <= k < |rows| && rows[k].id == id;
        assert all[|seen| + k] == id;
      } else {
        assert id in seen;
      }
    }
  }

  lemma PageKnown(was: map<nat, string>, now: map<nat, string>, after: Option<nat>, seen: seq<nat>, rows: seq<Row>)
    requires now.Keys == was.Keys && SeenTo(was, after, seen) && Rising(now, after, rows) && rows != []
    ensures forall id | id in seen + Ids(rows) :: id in was && !Past(Some(rows[|rows| - 1].id), id)
  {
    forall id | id in seen + Ids(rows) ensures id in was && !Past(Some(rows[|rows| - 1].id), id) {
      if id !in seen {
        var k :| 0 <= k < |rows| && Ids(rows)[k] == id;
        assert rows[k].id in now;
      } else {
        assert Past(after, rows[|rows| - 1].id);
      }
    }
  }

  lemma PageRises(was: map<nat, string>, now: map<nat, string>, after: Option<nat>, seen: seq<nat>, rows: seq<Row>)
    requires now.Keys == was.Keys && SeenTo(was, after, seen) && Rising(now, after, rows)
    ensures var all := seen + Ids(rows); forall j, k | 0 <= j < k < |all| :: all[j] < all[k]
  {
    var all := seen + Ids(rows);
    forall j, k | 0 <= j < k < |all| ensures all[j] < all[k] {
      if j < |seen| <= k {
        assert seen[j] in seen && Past(after, rows[k - |seen|].id);
      }
    }
  }

  lemma PageConverted(
    c: Crypto, iterations: nat, salts: nat -> seq<Byte>, was: map<nat, string>, x: map<nat, string>, after: Option<nat>, rows: seq<Row>)
    requires ConvertedTo(c, iterations, salts, was, x, after) && PageAfter(x, after, rows) && rows != []
    ensures ConvertedTo(c, iterations, salts, was, Rewritten(c, iterations, salts, x, rows), Some(rows[|rows| - 1].id))
  {
    hide Legacy, Wrap, Rewritten;
    var now, last := Rewritten(c, iterations, salts, x, rows), Some(rows[|rows| - 1].id);
    forall id | id in was
      ensures id in now && now[id] == if !Past(last, id) && Legacy(was[id]) then Wrap(c, was[id], salts(id), iterations) else was[id]
    {
      UserConverted(c, iterations, salts, was, x, after, rows, id);
    }
    RewrittenKeys(c, iterations, salts, x, rows);
  }

  lemma RewrittenKeys(c: Crypto, iterations: nat, salts: nat -> seq<Byte>, x: map<nat, string>, rows: seq<Row>)
    ensures Rewritten(c, iterations, salts, x, rows).Keys == x.Keys
  {
  }

  lemma UserConverted(
    c: Crypto, iterations: nat, salts: nat -> seq<Byte>, was: map<nat, string>, x: map<nat, string>, after: Option<nat>, rows: seq<Row>, id: nat)
    requires ConvertedTo(c, iterations, salts, was, x, after) && PageAfter(x, after, rows) && rows != [] && id in was
    ensures var now := Rewritten(c, iterations, salts, x, rows);
      id in now && now[id] == if !Past(Some(rows[|rows| - 1].id), id) && Legacy(was[id]) then Wrap(c, was[id], salts(id), iterations) else was[id]
  {
    hide Legacy, Wrap;
    assert id in x;
    if Past(after, id) && !Past(Some(rows[|rows| - 1].id), id) {
      assert Named(rows, id);
    }
    if exists k | 0 <= k < |rows| :: rows[k].id == id {
      var k :| 0 <= k < |rows| && rows[k].id == id;
      assert Past(after, rows[k].id);
    }
  }

  predicate ConvertedAll(c: Crypto, iterations: nat, salts: nat -> seq<Byte>, was: map<nat, string>, now: map<nat, string>) {
    && now.Keys == was.Keys
    && forall id | id in was :: now[id] == if Legacy(was[id]) then Wrap(c, was[id], salts(id), iterations) else was[id]
  }

  method Least(s: set<nat>) returns (m: nat)
    requires |s| > 0
    ensures m in s && forall x | x in s :: m <= x
  {
    m :| m in s;
    var left := s - {m};
    while |left| > 0
      invariant left <= s && m in s && forall x | x in s && x !in left :: m <= x
      decreases |left|
    {
      var x :| x in left;
      if x < m {
        m := x;
      }
      left := left - {x};
    }
  }

  // ---------------------------------------------------------------- run after run

  /** Every password is as it was, or was a legacy one and is wrapped once. */
  ghost predicate AllWrappedOnce(c: Crypto, was: map<nat, string>, now: map<nat, string>) {
    now.Keys == was.Keys && forall id | id in was :: WrappedOnce(c, was[id], now[id])
  }

  lemma ConvertedOnce(
    c: Crypto, iterations: nat, salts: nat -> seq<Byte>, was: map<nat, string>, x: map<nat, string>, now: map<nat, string>, after: Option<nat>)
    requires Usable(c, iterations, salts) && AllWrappedOnce(c, was, x) && ConvertedTo(c, iterations, salts, x, now, after)
    ensures AllWrappedOnce(c, was, now) && ((forall id | id in x :: Known(x[id])) ==> forall id | id in now :: Known(now[id]))
  {
    forall id | id in was ensures WrappedOnce(c, was[id], now[id]) && (Known(x[id]) ==> Known(now[id])) {
      if now[id] != x[id] {
        WrapReads(c, x[id], salts(id), iterations);
        NotLegacyAfter(c, was[id], x[id]);
        assert WrapOf(c, x[id], now[id], salts(id), iterations);
      }
    }
    hide Legacy, Wrap, Wrapped;
  }

  /** A wrapped password is no legacy one: it is never wrapped again. */
  lemma NotLegacyAfter(c: Crypto, was: string, now: string)
    requires Sized(c) && WrappedOnce(c, was, now)
    ensures Legacy(now) ==> now == was
  {
    if now != was {
      var outer: seq<Byte>, n: nat :| WrapOf(c, was, now, outer, n);
      WrapReads(c, was, outer, n);
    }
    hide Legacy, Wrap, Wrapped;
  }

  /**
   The tool, stopped any number of times between pages and started again. Nothing is touched unless every password is
   known; in the end none is legacy, and each was wrapped once at most.
   */
  method Migrate(c: Crypto, iterations: nat, salts: nat -> nat -> seq<Byte>, users: Users, stops: seq<nat>, enough: nat) returns (r: Result<nat>)
    requires forall run :: Usable(c, iterations, salts(run))
    requires |users.passwords| <= PAGE * enough
    modifies users
    ensures r.Ok? <==> forall id | id in old(users.passwords) :: Known(old(users.passwords)[id])
    ensures r.Err? ==> users.passwords == old(users.passwords)
    ensures r.Ok? ==> r == Ok(0) && AllWrappedOnce(c, old(users.passwords), users.passwords)
    ensures r.Ok? ==> forall id | id in users.passwords :: Wrapped(users.passwords[id]) && !Legacy(users.passwords[id])
  {
    hide Legacy, Wrap, Wrapped, Known, ConvertedTo, ConvertedAll, WrappedOnce;
    r := users.Preflight();
    if r.Err? { return; }
    var run := 0;
    NothingWrapped(c, users.passwords);
    while run < |stops|
      invariant run <= |stops| && AllWrappedOnce(c, old(users.passwords), users.passwords)
      invariant forall id | id in users.passwords :: Known(users.passwords[id])
    {
      ghost var before := users.passwords;
      var known := users.Preflight();
      assert known.Ok?;
      var done, seen := users.ConvertPasswords(c, iterations, salts(run), stops[run]);
      ghost var after :| ConvertedTo(c, iterations, salts(run), before, users.passwords, after);
      ConvertedOnce(c, iterations, salts(run), old(users.passwords), before, users.passwords, after);
      run := run + 1;
    }
    ghost var before := users.passwords;
    SameSize(old(users.passwords), before);
    var done, seen := users.ConvertPasswords(c, iterations, salts(run), enough);
    ghost var after :| ConvertedTo(c, iterations, salts(run), before, users.passwords, after);
    ConvertedOnce(c, iterations, salts(run), old(users.passwords), before, users.passwords, after);
    NoneLeft(c, iterations, salts(run), before, users.passwords);
    r := users.Preflight();
  }

  lemma NothingWrapped(c: Crypto, passwords: map<nat, string>)
    ensures AllWrappedOnce(c, passwords, passwords)
  {
  }

  lemma SameSize(was: map<nat, string>, now: map<nat, string>)
    requires now.Keys == was.Keys
    ensures |now| == |was|
  {
    assert |now.Keys| == |now| && |was.Keys| == |was|;
  }

  lemma NoneLeft(c: Crypto, iterations: nat, salts: nat -> seq<Byte>, was: map<nat, string>, now: map<nat, string>)
    requires Usable(c, iterations, salts) && ConvertedAll(c, iterations, salts, was, now) && forall id | id in was :: Known(was[id])
    ensures LegacyIds(now) == {} && forall id | id in now :: Wrapped(now[id]) && !Legacy(now[id])
  {
    forall id | id in now ensures Wrapped(now[id]) && !Legacy(now[id]) {
      if Legacy(was[id]) {
        WrapReads(c, was[id], salts(id), iterations);
      } else {
        WrappedIsLonger(was[id]);
      }
    }
    hide Legacy, Wrap, Wrapped;
  }

  /** Every password that was right before the migration is right after it. */
  lemma LoginsSurvive(c: Crypto, password: string, was: string, now: string)
    requires Sized(c) && WrappedOnce(c, was, now) && Legacy(was) && !Legacy(now) && AcceptsLegacy(c, password, was)
    ensures Verify(c, password, now)
  {
    var outer: seq<Byte>, n: nat :| WrapOf(c, was, now, outer, n);
    WrapKeepsPassword(c, password, was, outer, n);
  }
}
