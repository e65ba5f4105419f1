/** A basket of problems picked from several problem sets. */
module Selection {
  import opened Decimals
  import opened Values

  datatype Picked = Picked(slug: string, title: string, body: string)
  datatype Choice = Choice(source: string, slug: string)

  /** Items without a set or a slug are passed over. */
  predicate Blank(it: Choice) { it.source == "" || it.slug == "" }

  /** How often the first `n` items ask for a problem of a set. */
  function Asked(items: seq<Choice>, n: nat, id: string, slug: string): nat
    requires n <= |items|
  {
    if n == 0 then 0 else Asked(items, n - 1, id, slug) + if !Blank(items[n - 1]) && items[n - 1] == Choice(id, slug) then 1 else 0
  }

  function Offered(problems: seq<Picked>, slug: string): nat {
    if problems == [] then 0 else Offered(problems[1..], slug) + if problems[0].slug == slug then 1 else 0
  }

  /** The first problem with the slug. */
  function Position(problems: seq<Picked>, slug: string): (i: Option<nat>)
    ensures i.Some? ==> i.value < |problems| && problems[i.value].slug == slug && forall j | 0 <= j < i.value :: problems[j].slug != slug
    ensures i.None? ==> forall j | 0 <= j < |problems| :: problems[j].slug != slug
  {
    if problems == [] then None
    else if problems[0].slug == slug then Some(0)
    else
      var i := Position(problems[1..], slug);
      if i.Some? then Some(i.value + 1) else None
  }

  /** `Vec::swap_remove`: the last element takes the place of the removed one. */
  function SwapRemoved(problems: seq<Picked>, i: nat): seq<Picked>
    requires i < |problems|
  {
    var last := |problems| - 1;
    if i == last then problems[..last] else problems[..last][i := problems[last]]
  }

  lemma {:induction false} OfferedSplits(a: seq<Picked>, b: seq<Picked>, slug: string)
    ensures Offered(a + b, slug) == Offered(a, slug) + Offered(b, slug)
  {
    if a == [] {
      assert a + b == b;
    } else {
      OfferedSplits(a[1..], b, slug);
      assert (a + b)[1..] == a[1..] + b;
    }
  }

  /** Removing one problem leaves all the others on offer, wherever they end up. */
  lemma SwapRemovedOffers(problems: seq<Picked>, i: nat, slug: string)
    requires i < |problems|
    ensures Offered(problems, slug) == Offered(SwapRemoved(problems, i), slug) + if problems[i].slug == slug then 1 else 0
    ensures forall p | p in SwapRemoved(problems, i) :: p in problems
  {
    var last := |problems| - 1;
    var rest := SwapRemoved(problems, i);
    assert problems == problems[..last] + [problems[last]];
    OfferedSplits(problems[..last], [problems[last]], slug);
    if i < last {
      assert problems[..last] == problems[..i] + ([problems[i]] + problems[i + 1..last]);
      assert rest == problems[..i] + ([problems[last]] + problems[i + 1..last]);
      OfferedSplits(problems[..i], [problems[i]] + problems[i + 1..last], slug);
      OfferedSplits(problems[..i], [problems[last]] + problems[i + 1..last], slug);
      OfferedSplits([problems[i]], problems[i + 1..last], slug);
      OfferedSplits([problems[last]], problems[i + 1..last], slug);
    }
    One(problems[i], slug);
    One(problems[last], slug);
  }

  lemma One(p: Picked, slug: string)
    ensures Offered([p], slug) == if p.slug == slug then 1 else 0
  {
    assert [p][1..] == [];
  }

  lemma {:induction false} OfferedSome(problems: seq<Picked>, slug: string)
    ensures Offered(problems, slug) > 0 <==> exists j :: 0 <= j < |problems| && problems[j].slug == slug
  {
    if problems != [] {
      OfferedSome(problems[1..], slug);
      if exists j :: 0 <= j < |problems| && problems[j].slug == slug {
        var j :| 0 <= j < |problems| && problems[j].slug == slug;
        assert j > 0 ==> problems[1..][j - 1].slug == slug;
      }
      if exists j :: 0 <= j < |problems[1..]| && problems[1..][j].slug == slug {
        var j :| 0 <= j < |problems[1..]| && problems[1..][j].slug == slug;
        assert problems[j + 1].slug == slug;
      }
    }
  }

  // ---------------------------------------------------------------- composing

  const MOST: nat := 100

  /** Every set can be loaded, and offers every problem as often as it is asked for. */
  ghost predicate Available(bank: map<string, seq<Picked>>, items: seq<Choice>, n: nat)
    requires n <= |items|
  {
    forall k | 0 <= k < n && !Blank(items[k]) ::
      items[k].source in bank && Asked(items, k + 1, items[k].source, items[k].slug) <= Offered(bank[items[k].source], items[k].slug)
  }

  /** The items that count, in order. */
  function Wanted(items: seq<Choice>, n: nat): seq<Choice>
    requires n <= |items|
  {
    if n == 0 then [] else Wanted(items, n - 1) + if Blank(items[n - 1]) then [] else [items[n - 1]]
  }

  /** What was chosen for the wanted items: a problem of that set and slug each. */
  predicate Matches(bank: map<string, seq<Picked>>, wanted: seq<Choice>, chosen: seq<Picked>) {
    && |chosen| == |wanted|
    && forall k | 0 <= k < |wanted| ::
         wanted[k].source in bank && chosen[k] in bank[wanted[k].source] && chosen[k].slug == wanted[k].slug
  }

  /** What is left of the loaded sets. */
  ghost predicate Remaining(bank: map<string, seq<Picked>>, loaded: map<string, seq<Picked>>, items: seq<Choice>, n: nat)
    requires n <= |items|
  {
    && (forall id | id in loaded :: id in bank && forall p | p in loaded[id] :: p in bank[id])
    && (forall id, slug | id in loaded :: Offered(loaded[id], slug) + Asked(items, n, id, slug) == Offered(bank[id], slug))
    && forall id, slug | id !in loaded :: Asked(items, n, id, slug) == 0
  }

  /**
   Picks item by item. It fails exactly when a set is not there, or a problem is asked for more often than its set
   holds it. The order in which `swap_remove` leaves a set does not show, as long as slugs are unique.
   */
  method Compose(bank: map<string, seq<Picked>>, items: seq<Choice>) returns (r: Result<seq<Picked>>)
    ensures r.Ok? <==> Available(bank, items, |items|) && 1 <= |Wanted(items, |items|)| <= MOST
    ensures r.Ok? ==> Matches(bank, Wanted(items, |items|), r.value)
  {
    var chosen: seq<Picked>, loaded: map<string, seq<Picked>>, n := [], map[], 0;
    NothingTaken(bank, items);
    while n < |items|
      invariant n <= |items| && Available(bank, items, n)
      invariant Matches(bank, Wanted(items, n), chosen)
      invariant Remaining(bank, loaded, items, n)
    {
      var it := items[n];
      if Blank(it) {
        Skipped(bank, loaded, items, n);
      } else {
        if it.source !in loaded {
          if it.source !in bank { return Err; }
          Loaded(bank, loaded, items, n, it.source);
          loaded := loaded[it.source := bank[it.source]];
        }
        var problems := loaded[it.source];
        var i := Position(problems, it.slug);
        Decides(bank, loaded, items, n, i.Some?);
        if i.None? { return Err; }
        TakenOut(bank, loaded, items, n, i.value);
        chosen := chosen + [problems[i.value]];
        loaded := loaded[it.source := SwapRemoved(problems, i.value)];
      }
      n := n + 1;
    }
    return if chosen == [] || |chosen| > MOST then Err else Ok(chosen);
  }

  lemma NothingTaken(bank: map<string, seq<Picked>>, items: seq<Choice>)
    ensures Remaining(bank, map[], items, 0) && Available(bank, items, 0)
  {
  }

  lemma Skipped(bank: map<string, seq<Picked>>, loaded: map<string, seq<Picked>>, items: seq<Choice>, n: nat)
    requires n < |items| && Blank(items[n]) && Remaining(bank, loaded, items, n) && Available(bank, items, n)
    ensures Remaining(bank, loaded, items, n + 1) && Available(bank, items, n + 1)
  {
    forall id, slug | id in loaded ensures Offered(loaded[id], slug) + Asked(items, n + 1, id, slug) == Offered(bank[id], slug) {
      assert Offered(loaded[id], slug) + Asked(items, n, id, slug) == Offered(bank[id], slug);
    }
    var next := n + 1;
    forall id, slug | id !in loaded ensures Asked(items, next, id, slug) == 0 {
      assert Asked(items, n, id, slug) == 0;
    }
  }

  lemma Loaded(bank: map<string, seq<Picked>>, loaded: map<string, seq<Picked>>, items: seq<Choice>, n: nat, id: string)
    requires n < |items| && Remaining(bank, loaded, items, n) && id !in loaded && id in bank
    ensures Remaining(bank, loaded[id := bank[id]], items, n)
  {
  }

  /** A problem is found exactly while its set offers one more than has been asked for. */
  lemma Decides(bank: map<string, seq<Picked>>, loaded: map<string, seq<Picked>>, items: seq<Choice>, n: nat, found: bool)
    requires n < |items| && !Blank(items[n]) && items[n].source in loaded && Remaining(bank, loaded, items, n) && Available(bank, items, n)
    requires found <==> exists j :: 0 <= j < |loaded[items[n].source]| && loaded[items[n].source][j].slug == items[n].slug
    ensures found <==> Available(bank, items, n + 1)
  {
    OfferedSome(loaded[items[n].source], items[n].slug);
    var id, slug := items[n].source, items[n].slug;
    assert Asked(items, n + 1, id, slug) == Asked(items, n, id, slug) + 1;
    assert Offered(loaded[id], slug) + Asked(items, n, id, slug) == Offered(bank[id], slug);
  }

  lemma TakenOut(bank: map<string, seq<Picked>>, loaded: map<string, seq<Picked>>, items: seq<Choice>, n: nat, i: nat)
    requires n < |items| && !Blank(items[n]) && items[n].source in loaded && Remaining(bank, loaded, items, n)
    requires i < |loaded[items[n].source]| && loaded[items[n].source][i].slug == items[n].slug
    ensures Remaining(bank, loaded[items[n].source := SwapRemoved(loaded[items[n].source], i)], items, n + 1)
  {
    var id := items[n].source;
    var left := loaded[id := SwapRemoved(loaded[id], i)];
    forall x, slug | x in left ensures Offered(left[x], slug) + Asked(items, n + 1, x, slug) == Offered(bank[x], slug) {
      SwapRemovedOffers(loaded[id], i, slug);
      assert Offered(loaded[x], slug) + Asked(items, n, x, slug) == Offered(bank[x], slug);
    }
    var next := n + 1;
    forall x, slug | x !in left ensures Asked(items, next, x, slug) == 0 {
      assert Asked(items, n, x, slug) == 0;
    }
    SwapRemovedOffers(loaded[id], i, "");
    hide Offered, SwapRemoved;
  }

  // ---------------------------------------------------------------- unique slugs

  predicate UniqueSlugs(problems: seq<Picked>) { forall i, j | 0 <= i < j < |problems| :: problems[i].slug != problems[j].slug }

  /** The plain lookup. */
  function Lookup(bank: map<string, seq<Picked>>, it: Choice): Option<Picked> {
    if it.source !in bank then None
    else
      var i := Position(bank[it.source], it.slug);
      if i.Some? then Some(bank[it.source][i.value]) else None
  }

  /** With unique slugs the basket is the lookups, item by item. */
  lemma ComposeIsLookup(bank: map<string, seq<Picked>>, wanted: seq<Choice>, chosen: seq<Picked>, k: nat)
    requires Matches(bank, wanted, chosen) && k < |wanted| && forall id | id in bank :: UniqueSlugs(bank[id])
    ensures Lookup(bank, wanted[k]) == Some(chosen[k])
  {
    var problems := bank[wanted[k].source];
    var j :| 0 <= j < |problems| && problems[j] == chosen[k];
    assert UniqueSlugs(problems);
  }

  /** With unique slugs a basket fails exactly when an item is missing, or is there twice, or there is none at all. */
  lemma AvailableIsFound(bank: map<string, seq<Picked>>, items: seq<Choice>)
    requires forall id | id in bank :: UniqueSlugs(bank[id])
    ensures Available(bank, items, |items|) <==>
      && (forall k | 0 <= k < |items| && !Blank(items[k]) :: Lookup(bank, items[k]).Some?)
      && (forall j, k | 0 <= j < k < |items| && !Blank(items[k]) :: items[j] != items[k])
  {
    forall k | 0 <= k < |items| && !Blank(items[k]) && items[k].source in bank
      ensures Offered(bank[items[k].source], items[k].slug) == if Lookup(bank, items[k]).Some? then 1 else 0
    {
      OfferedOnce(bank[items[k].source], items[k].slug);
    }
    forall k | 0 <= k < |items| && !Blank(items[k])
      ensures Asked(items, k + 1, items[k].source, items[k].slug) <= 1 <==> forall j | 0 <= j < k :: items[j] != items[k]
      ensures Asked(items, k + 1, items[k].source, items[k].slug) >= 1
    {
      AskedBefore(items, k, items[k].source, items[k].slug);
    }
    hide Offered, Lookup, UniqueSlugs;
  }

  lemma {:induction false} AskedBefore(items: seq<Choice>, n: nat, id: string, slug: string)
    requires n <= |items| && !Blank(Choice(id, slug))
    ensures Asked(items, n, id, slug) == 0 <==> forall j | 0 <= j < n :: items[j] != Choice(id, slug)
  {
    if n > 0 {
      AskedBefore(items, n - 1, id, slug);
    }
  }

  lemma {:induction false} OfferedOnce(problems: seq<Picked>, slug: string)
    requires UniqueSlugs(problems)
    ensures Offered(problems, slug) == if Position(problems, slug).Some? then 1 else 0
  {
    if problems != [] {
      OfferedOnce(problems[1..], slug);
      if problems[0].slug == slug {
        assert Position(problems[1..], slug).None?;
      }
    }
  }

  // ---------------------------------------------------------------- slugs of the document

  predicate SlugChar(c: char) { 'a' <= c <= 'z' || 'A' <= c <= 'Z' || '0' <= c <= '9' || c == '_' || c == '-' }

  /** What a document accepts as a slug. */
  predicate ValidSlug(s: string) { 1 <= |s| <= 64 && forall c | c in s :: SlugChar(c) }

  function Dashed(s: string): (t: string)
    ensures |t| == |s| && forall k | 0 <= k < |s| :: t[k] == if SlugChar(s[k]) then s[k] else '-'
  {
    seq(|s|, k requires 0 <= k < |s| => if SlugChar(s[k]) then s[k] else '-')
  }

  function Take(s: string, n: nat): string { if |s| <= n then s else s[..n] }

  /** The slug of the problem at a place, cleaned; problems without one are numbered. */
  function Clean(slug: string, place: nat): string { Take(Dashed(if slug == "" then "prob-" + Digits(place) else slug), 64) }

  lemma CleanIsValid(slug: string, place: nat)
    ensures ValidSlug(Clean(slug, place))
  {
  }

  predicate Suffix(s: string) { |s| == 6 && forall c | c in s :: SlugChar(c) }

  function Suffixed(slug: string, suffix: string): string { Take(slug, 50) + "-" + suffix }

  /** A slug that is free is only cleaned; one that is taken gets a random suffix. */
  predicate Repaired(slugs: seq<string>, suffixes: seq<string>, repaired: seq<string>)
    requires |repaired| <= |slugs| == |suffixes|
  {
    forall k | 0 <= k < |repaired| :: ValidSlug(repaired[k])
      && repaired[k] == if Taken(slugs, repaired, k) then Suffixed(Clean(slugs[k], k + 1), suffixes[k]) else Clean(slugs[k], k + 1)
  }

  /** The slug of an earlier problem is the same. */
  predicate Taken(slugs: seq<string>, repaired: seq<string>, k: nat)
    requires k < |repaired| <= |slugs|
  {
    Clean(slugs[k], k + 1) in repaired[..k]
  }

  /** Gives every problem a valid slug. Slugs are different from each other unless a random suffix hits an earlier one. */
  method RepairSlugs(slugs: seq<string>, suffixes: seq<string>) returns (repaired: seq<string>)
    requires |suffixes| == |slugs| && forall s | s in suffixes :: Suffix(s)
    ensures |repaired| == |slugs| && Repaired(slugs, suffixes, repaired)
    ensures (forall i, j | 0 <= i < j < |repaired| :: repaired[i] != repaired[j]) <==>
      forall k | 0 <= k < |slugs| && Taken(slugs, repaired, k) :: Suffixed(Clean(slugs[k], k + 1), suffixes[k]) !in repaired[..k]
  {
    hide Clean, ValidSlug, Suffixed, Suffix, Repaired;
    repaired := [];
    var used: set<string> := {};
    NoneRepaired(slugs, suffixes);
    while |repaired| < |slugs|
      invariant |repaired| <= |slugs| && (forall s :: s in used <==> s in repaired) && Repaired(slugs, suffixes, repaired)
    {
      var k := |repaired|;
      var slug := Clean(slugs[k], k + 1);
      OneRepaired(slugs, suffixes, repaired);
      if slug in used {
        slug := Suffixed(slug, suffixes[k]);
      }
      repaired := repaired + [slug];
      used := used + {slug};
    }
    AllRepaired(slugs, suffixes, repaired);
  }

  lemma NoneRepaired(slugs: seq<string>, suffixes: seq<string>)
    requires |suffixes| == |slugs|
    ensures Repaired(slugs, suffixes, [])
  {
  }

  lemma OneRepaired(slugs: seq<string>, suffixes: seq<string>, repaired: seq<string>)
    requires |repaired| < |slugs| == |suffixes| && (forall s | s in suffixes :: Suffix(s)) && Repaired(slugs, suffixes, repaired)
    ensures var k := |repaired|; var clean := Clean(slugs[k], k + 1);
      Repaired(slugs, suffixes, repaired + [if clean in repaired then Suffixed(clean, suffixes[k]) else clean])
  {
    hide Clean, ValidSlug, Suffixed, Suffix;
    var k := |repaired|;
    var clean := Clean(slugs[k], k + 1);
    CleanIsValid(slugs[k], k + 1);
    assert suffixes[k] in suffixes;
    SuffixedIsValid(clean, suffixes[k]);
    var more := repaired + [if clean in repaired then Suffixed(clean, suffixes[k]) else clean];
    forall j | 0 <= j <= k ensures more[..j] == repaired[..j] && (j < k ==> (Taken(slugs, more, j) <==> Taken(slugs, repaired, j))) {
    }
    assert repaired[..k] == repaired;
  }

  lemma AllRepaired(slugs: seq<string>, suffixes: seq<string>, repaired: seq<string>)
    requires |repaired| == |slugs| == |suffixes| && Repaired(slugs, suffixes, repaired)
    ensures (forall i, j | 0 <= i < j < |repaired| :: repaired[i] != repaired[j]) <==>
      forall k | 0 <= k < |slugs| && Taken(slugs, repaired, k) :: Suffixed(Clean(slugs[k], k + 1), suffixes[k]) !in repaired[..k]
  {
    hide Clean, ValidSlug, Suffixed, Suffix;
    DistinctByPrefix(repaired);
  }

  lemma SuffixedIsValid(slug: string, suffix: string)
    requires ValidSlug(slug) && Suffix(suffix)
    ensures ValidSlug(Suffixed(slug, suffix))
  {
  }

  lemma DistinctByPrefix(xs: seq<string>)
    ensures (forall i, j | 0 <= i < j < |xs| :: xs[i] != xs[j]) <==> forall k | 0 <= k < |xs| :: xs[k] !in xs[..k]
  {
    if forall k | 0 <= k < |xs| :: xs[k] !in xs[..k] {
      forall i, j | 0 <= i < j < |xs| ensures xs[i] != xs[j] {
        assert xs[..j][i] == xs[i];
      }
    }
  }
}
