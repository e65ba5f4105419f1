/** The test directory of one problem: written anew from the tests of a document, and read back. */
module TestFiles {
  import opened Decimals
  import opened Sorting
  import opened Tables
  import opened Values
  import opened Sets

  // ---------------------------------------------------------------- names and files

  /** A file holding text, a file holding other bytes, a link to a file elsewhere, or a directory. */
  datatype Node = File(text: string) | Raw(size: nat) | Link | Dir

  const LIMIT: nat := 1048576
  const MOST: nat := 100

  predicate EndsWith(name: string, suffix: string) { |name| >= |suffix| && name[|name| - |suffix|..] == suffix }

  function LastDot(name: string): (k: Option<nat>)
    ensures k.Some? ==> k.value < |name| && name[k.value] == '.' && '.' !in name[k.value + 1..]
    ensures k.None? ==> '.' !in name
  {
    if name == [] then None
    else if name[|name| - 1] == '.' then Some(|name| - 1)
    else LastDot(name[..|name| - 1])
  }

  /** `is_numbered_case`. */
  predicate NumberedCase(name: string) {
    var dot := LastDot(name);
    && dot.Some? && dot.value > 0 && (forall c | c in name[..dot.value] :: IsDigit(c))
    && (name[dot.value + 1..] == "in" || name[dot.value + 1..] == "out")
  }

  /** `with_extension("out")` of a name that ends in ".in". */
  function WithOut(name: string): string
    requires EndsWith(name, ".in")
  {
    if name == ".in" then ".in.out" else name[..|name| - 3] + ".out"
  }

  function InName(k: nat): string { Digits(k) + ".in" }

  function OutName(k: nat): string { Digits(k) + ".out" }

  lemma {:induction false} DotBefore(stem: string, ext: string)
    requires '.' !in ext
    ensures LastDot(stem + "." + ext) == Some(|stem|)
  {
    var name := stem + "." + ext;
    if ext == "" {
      assert name == stem + ".";
    } else {
      var k := |ext| - 1;
      DotBefore(stem, ext[..k]);
      assert name[..|name| - 1] == stem + "." + ext[..k] && name[|name| - 1] == ext[k];
    }
  }

  lemma NamesAreNumbered(k: nat)
    ensures NumberedCase(InName(k)) && NumberedCase(OutName(k)) && EndsWith(InName(k), ".in") && WithOut(InName(k)) == OutName(k)
    ensures !EndsWith(OutName(k), ".in")
  {
    DigitsStart(k);
    DigitsAreDigits(k);
    DotBefore(Digits(k), "in");
    DotBefore(Digits(k), "out");
    assert InName(k) == Digits(k) + "." + "in" && OutName(k) == Digits(k) + "." + "out";
    assert InName(k)[|Digits(k)| + 1..] == "in" && OutName(k)[|Digits(k)| + 1..] == "out";
    assert OutName(k)[|OutName(k)| - 1] == 't';
  }

  lemma DigitsDiffer(j: nat, k: nat)
    requires j != k
    ensures Digits(j) != Digits(k) && InName(j) != InName(k) && OutName(j) != OutName(k)
  {
    if j < k {
      NumericOrder(j, k, "");
    } else {
      NumericOrder(k, j, "");
    }
    assert InName(j)[..|InName(j)| - 3] == Digits(j) && InName(k)[..|InName(k)| - 3] == Digits(k);
    assert OutName(j)[..|OutName(j)| - 4] == Digits(j) && OutName(k)[..|OutName(k)| - 4] == Digits(k);
  }

  // ---------------------------------------------------------------- writing

  /** What is left once numbered files are removed. */
  function Cleared(nodes: map<string, Node>): map<string, Node> {
    map n | n in nodes && !IsOldCase(n, nodes[n]) :: nodes[n]
  }

  predicate IsOldCase(name: string, node: Node) { (node.File? || node.Raw?) && NumberedCase(name) }

  lemma ClearedKeeps(nodes: map<string, Node>)
    ensures forall n :: n in nodes && !NumberedCase(n) ==> n in Cleared(nodes) && Cleared(nodes)[n] == nodes[n]
  {
  }

  lemma NotBlocked(nodes: map<string, Node>)
    ensures !Blocked(nodes, 0)
  {
  }

  /** Writing through a link leaves the link. */
  function Put(nodes: map<string, Node>, name: string, text: string): map<string, Node> {
    if name in nodes && nodes[name].Link? then nodes else nodes[name := File(text)]
  }

  function Written(nodes: map<string, Node>, tests: seq<Case>): map<string, Node> {
    if tests == [] then nodes
    else
      var k := |tests|;
      Put(Put(Written(nodes, tests[..k - 1]), InName(k), tests[k - 1].input), OutName(k), tests[k - 1].output)
  }

  /** A directory stands where a test has to go. */
  predicate Blocked(nodes: map<string, Node>, n: nat) {
    exists k | 1 <= k <= n :: IsDir(nodes, InName(k)) || IsDir(nodes, OutName(k))
  }

  predicate IsDir(nodes: map<string, Node>, name: string) { name in nodes && nodes[name].Dir? }

  // ---------------------------------------------------------------- reading

  function InNames(nodes: map<string, Node>): set<string> { set n | n in nodes && EndsWith(n, ".in") }

  predicate SmallText(nodes: map<string, Node>, name: string) { name in nodes && nodes[name].File? && Bytes(nodes[name].text) <= LIMIT }

  predicate Readable(nodes: map<string, Node>, name: string) {
    EndsWith(name, ".in") && SmallText(nodes, name) && SmallText(nodes, WithOut(name))
  }

  function CaseAt(nodes: map<string, Node>, name: string): Case
    requires Readable(nodes, name)
  {
    Case(nodes[name].text, nodes[WithOut(name)].text)
  }

  /** The names in order, each once. */
  ghost predicate Lists(order: seq<string>, names: set<string>) {
    && Ordered(order, ByLength) && (forall n :: n in order <==> n in names)
    && forall i, j | 0 <= i < j < |order| :: order[i] != order[j]
  }

  /** What reading the directory gives. */
  ghost predicate ReadsAs(nodes: map<string, Node>, r: Result<seq<Case>>) {
    var names := InNames(nodes);
    && (r.Ok? <==> |names| <= MOST && forall n | n in names :: Readable(nodes, n))
    && (r.Ok? ==> exists order :: Lists(order, names) && CasesAt(nodes, order, r.value))
  }

  predicate CasesAt(nodes: map<string, Node>, order: seq<string>, cases: seq<Case>) {
    |cases| == |order| && forall k | 0 <= k < |order| :: Readable(nodes, order[k]) && cases[k] == CaseAt(nodes, order[k])
  }

  // ---------------------------------------------------------------- lists of names

  lemma {:induction false} DistinctCounts(xs: seq<string>)
    requires forall i, j | 0 <= i < j < |xs| :: xs[i] != xs[j]
    ensures multiset(xs) == multiset(set x | x in xs) && |set x | x in xs| == |xs|
  {
    if xs != [] {
      var k := |xs| - 1;
      DistinctCounts(xs[..k]);
      assert xs == xs[..k] + [xs[k]] && xs[k] !in xs[..k];
      var s := set x | x in xs[..k];
      assert (set x | x in xs) == s + {xs[k]} && xs[k] !in s;
      OneMoreElement(s, xs[k]);
    }
  }

  lemma OneMoreElement(s: set<string>, x: string)
    requires x !in s
    ensures multiset(s + {x}) == multiset(s) + multiset{x} && |s + {x}| == |s| + 1
  {
  }

  lemma ListLength(order: seq<string>, names: set<string>)
    requires Lists(order, names)
    ensures |order| == |names|
  {
    DistinctCounts(order);
    assert (set x | x in order) == names;
  }

  /** Sorting any listing of the names gives the list in order. */
  lemma SortedLists(xs: seq<string>, names: set<string>)
    requires (forall n :: n in xs <==> n in names) && forall i, j | 0 <= i < j < |xs| :: xs[i] != xs[j]
    ensures Lists(Sorted(xs, ByLength), names)
  {
    var ys := Sorted(xs, ByLength);
    ByLengthIsOrder();
    SortedIs(xs, ByLength);
    DistinctCounts(xs);
    assert forall n :: n in ys <==> n in multiset(ys);
    assert forall n :: n in xs <==> n in multiset(xs);
    assert forall n :: multiset(ys)[n] <= 1;
    forall i, j | 0 <= i < j < |ys| ensures ys[i] != ys[j] {
      if ys[i] == ys[j] {
        Twice(ys, i, j);
        assert false;
      }
    }
  }

  lemma Twice(ys: seq<string>, i: nat, j: nat)
    requires i < j < |ys| && ys[i] == ys[j]
    ensures multiset(ys)[ys[i]] >= 2
  {
    assert ys == ys[..i] + [ys[i]] + ys[i + 1..j] + [ys[j]] + ys[j + 1..];
  }

  /** There is one list of given names. */
  lemma ListsUnique(xs: seq<string>, ys: seq<string>, names: set<string>)
    requires Lists(xs, names) && Lists(ys, names)
    ensures xs == ys
  {
    DistinctCounts(xs);
    DistinctCounts(ys);
    assert (set x | x in xs) == names == (set y | y in ys);
    ByLengthIsOrder();
    SortedUnique(xs, ys, ByLength);
  }

  /** "1.in" to "n.in". */
  function FirstNames(n: nat): (xs: seq<string>)
    ensures |xs| == n && forall k | 0 <= k < n :: xs[k] == InName(k + 1)
  {
    seq(n, k requires 0 <= k < n => InName(k + 1))
  }

  /** They are in order as they stand, for any n. */
  lemma FirstNamesListed(n: nat)
    ensures Lists(FirstNames(n), set x | x in FirstNames(n)) && |set x | x in FirstNames(n)| == n
  {
    var xs := FirstNames(n);
    forall i, j | 0 <= i < j < n ensures xs[i] != xs[j] && ByLength(xs[i], xs[j]) {
      NumericOrder(i + 1, j + 1, ".in");
      DigitsDiffer(i + 1, j + 1);
    }
    DistinctCounts(xs);
  }

  // ---------------------------------------------------------------- what writing leaves

  predicate CaseName(name: string, n: nat) { exists k | 1 <= k <= n :: name == InName(k) || name == OutName(k) }

  lemma {:induction false} WrittenElsewhere(nodes: map<string, Node>, tests: seq<Case>, name: string)
    requires !CaseName(name, |tests|)
    ensures name in Written(nodes, tests) <==> name in nodes
    ensures name in nodes ==> Written(nodes, tests)[name] == nodes[name]
  {
    if tests != [] {
      var k := |tests|;
      assert name != InName(k) && name != OutName(k);
      assert !CaseName(name, k - 1);
      WrittenElsewhere(nodes, tests[..k - 1], name);
    }
  }

  /** The next two names have not been written yet. */
  lemma NextNames(n: nat)
    ensures !CaseName(InName(n + 1), n) && !CaseName(OutName(n + 1), n) && InName(n + 1) != OutName(n + 1)
  {
    hide InName, OutName, NumberedCase, WithOut, EndsWith;
    NamesAreNumbered(n + 1);
    forall k | 1 <= k <= n
      ensures InName(n + 1) != InName(k) && InName(n + 1) != OutName(k) && OutName(n + 1) != InName(k) && OutName(n + 1) != OutName(k)
    {
      DigitsDiffer(k, n + 1);
      NamesAreNumbered(k);
    }
  }

  function Left(nodes: map<string, Node>, name: string, text: string): Node {
    if name in nodes && nodes[name].Link? then Node.Link else File(text)
  }

  /** Every test is where it belongs, unless a link was in its place. */
  lemma {:induction false} WrittenAt(nodes: map<string, Node>, tests: seq<Case>, k: nat)
    requires 1 <= k <= |tests|
    ensures var d, t := Written(nodes, tests), tests[k - 1];
      && InName(k) in d && d[InName(k)] == Left(nodes, InName(k), t.input)
      && OutName(k) in d && d[OutName(k)] == Left(nodes, OutName(k), t.output)
    decreases |tests|
  {
    hide InName, OutName, CaseName;
    var n := |tests|;
    var init := tests[..n - 1];
    NextNames(n - 1);
    if k < n {
      WrittenAt(nodes, init, k);
      OlderNames(k, n - 1);
    } else {
      WrittenElsewhere(nodes, init, InName(n));
      WrittenElsewhere(nodes, init, OutName(n));
    }
  }

  lemma OlderNames(k: nat, n: nat)
    requires 1 <= k <= n
    ensures CaseName(InName(k), n) && CaseName(OutName(k), n)
  {
  }

  lemma BlockedNext(nodes: map<string, Node>, n: nat, m: nat)
    requires n < m
    ensures Blocked(nodes, n + 1) <==> Blocked(nodes, n) || IsDir(nodes, InName(n + 1)) || IsDir(nodes, OutName(n + 1))
    ensures Blocked(nodes, n + 1) ==> Blocked(nodes, m)
  {
  }

  /** Whether a directory is in the way of the next test shows in what has been written so far. */
  lemma WrittenDirs(nodes: map<string, Node>, tests: seq<Case>)
    ensures var d, n := Written(Cleared(nodes), tests), |tests| + 1;
      && (IsDir(d, InName(n)) <==> IsDir(nodes, InName(n))) && (IsDir(d, OutName(n)) <==> IsDir(nodes, OutName(n)))
      && InName(n) != OutName(n)
  {
    hide InName, OutName, CaseName, Written, NumberedCase;
    NextNames(|tests|);
    WrittenElsewhere(Cleared(nodes), tests, InName(|tests| + 1));
    WrittenElsewhere(Cleared(nodes), tests, OutName(|tests| + 1));
  }

  // ---------------------------------------------------------------- the directory

  class Directory {
    var nodes: map<string, Node>

    constructor (nodes: map<string, Node>)
      ensures this.nodes == nodes
    {
      this.nodes := nodes;
    }

    /** `write_local`. It stops at the first name it cannot write. */
    method WriteLocal(tests: seq<Case>) returns (ok: bool)
      modifies this
      ensures ok <==> !Blocked(old(nodes), |tests|)
      ensures ok ==> nodes == Written(Cleared(old(nodes)), tests)
      ensures forall n :: n in old(nodes) && !NumberedCase(n) ==> n in nodes && nodes[n] == old(nodes)[n]
    {
      hide InName, OutName, Cleared, NumberedCase, Blocked;
      RemoveNumbered();
      ClearedKeeps(old(nodes));
      NotBlocked(old(nodes));
      var n := 0;
      assert tests[..0] == [];
      while n < |tests|
        invariant n <= |tests| && nodes == Written(Cleared(old(nodes)), tests[..n]) && !Blocked(old(nodes), n)
        invariant forall n :: n in old(nodes) && !NumberedCase(n) ==> n in nodes && nodes[n] == old(nodes)[n]
      {
        assert tests[..n + 1][..n] == tests[..n];
        NamesAreNumbered(n + 1);
        WrittenDirs(old(nodes), tests[..n]);
        BlockedNext(old(nodes), n, |tests|);
        if IsDir(nodes, InName(n + 1)) { return false; }
        nodes := Put(nodes, InName(n + 1), tests[n].input);
        if IsDir(nodes, OutName(n + 1)) { return false; }
        nodes := Put(nodes, OutName(n + 1), tests[n].output);
        n := n + 1;
      }
      assert tests[..n] == tests;
      return true;
    }

    /** Removes the numbered files. */
    method RemoveNumbered()
      modifies this
      ensures nodes == Cleared(old(nodes))
    {
      var todo := nodes.Keys;
      while todo != {}
        invariant todo <= nodes.Keys <= old(nodes).Keys && forall n :: n in nodes ==> nodes[n] == old(nodes)[n]
        invariant forall n :: n in old(nodes) && n !in todo ==> (n in nodes <==> !IsOldCase(n, old(nodes)[n]))
        decreases |todo|
      {
        var n :| n in todo;
        if IsOldCase(n, nodes[n]) {
          nodes := nodes - {n};
        }
        todo := todo - {n};
      }
    }

    /** `read_local_cases`. */
    method ReadLocal() returns (r: Result<seq<Case>>)
      ensures ReadsAs(nodes, r)
    {
      var names := Names();
      var order := Sorted(names, ByLength);
      SortedLists(names, InNames(nodes));
      ListLength(order, InNames(nodes));
      if |order| > MOST { return Err; }
      var cases, k := [], 0;
      while k < |order|
        invariant k <= |order| && CasesAt(nodes, order[..k], cases)
      {
        if !Readable(nodes, order[k]) { return Err; }
        cases := cases + [CaseAt(nodes, order[k])];
        k := k + 1;
      }
      assert order[..k] == order;
      return Ok(cases);
    }

    /** The names ending in ".in", as the directory happens to list them. */
    method Names() returns (names: seq<string>)
      ensures (forall n :: n in names <==> n in InNames(nodes)) && forall i, j | 0 <= i < j < |names| :: names[i] != names[j]
    {
      names := [];
      var todo := nodes.Keys;
      while todo != {}
        invariant todo <= nodes.Keys && forall n :: n in names <==> n in InNames(nodes) && n !in todo
        invariant forall i, j | 0 <= i < j < |names| :: names[i] != names[j]
        decreases |todo|
      {
        var n :| n in todo;
        if EndsWith(n, ".in") {
          names := names + [n];
        }
        todo := todo - {n};
      }
    }
  }

  // ---------------------------------------------------------------- round trip

  /** Names ending in ".in" that removing numbered files leaves. */
  function ForeignNames(nodes: map<string, Node>): set<string> { InNames(Cleared(nodes)) }

  /** No link stands where an output goes; no more than 100 tests, none longer than a mebibyte. */
  predicate Fit(nodes: map<string, Node>, tests: seq<Case>) {
    && |tests| <= MOST
    && (forall k | 1 <= k <= |tests| :: !(OutName(k) in nodes && nodes[OutName(k)].Link?))
    && forall t | t in tests :: Bytes(t.input) <= LIMIT && Bytes(t.output) <= LIMIT
  }

  /** What was written is read back, in order, exactly when nothing foreign is among the inputs and the tests fit. */
  lemma RoundTrip(nodes: map<string, Node>, tests: seq<Case>, r: Result<seq<Case>>)
    requires !Blocked(nodes, |tests|) && ReadsAs(Written(Cleared(nodes), tests), r)
    ensures r == Ok(tests) <==> ForeignNames(nodes) == {} && Fit(nodes, tests)
  {
    if ForeignNames(nodes) == {} {
      OwnNames(nodes, tests);
      Reread(nodes, tests, r);
    } else {
      var name :| name in ForeignNames(nodes);
      Disturbed(nodes, tests, r, name);
    }
  }

  lemma OwnNames(nodes: map<string, Node>, tests: seq<Case>)
    ensures InNames(Written(Cleared(nodes), tests)) == ForeignNames(nodes) + set x | x in FirstNames(|tests|)
  {
    var c, d, n := Cleared(nodes), Written(Cleared(nodes), tests), |tests|;
    forall name ensures name in InNames(d) <==> name in ForeignNames(nodes) || name in FirstNames(n) {
      if name in FirstNames(n) {
        var k :| 0 <= k < n && FirstNames(n)[k] == name;
        WrittenAt(c, tests, k + 1);
        NamesAreNumbered(k + 1);
      } else if CaseName(name, n) {
        var k :| 1 <= k <= n && (name == InName(k) || name == OutName(k));
        NamesAreNumbered(k);
        assert FirstNames(n)[k - 1] == InName(k);
      } else {
        WrittenElsewhere(c, tests, name);
      }
    }
  }

  /** Nothing foreign: the tests are read back if they fit, and not read at all otherwise. */
  lemma Reread(nodes: map<string, Node>, tests: seq<Case>, r: Result<seq<Case>>)
    requires ReadsAs(Written(Cleared(nodes), tests), r) && ForeignNames(nodes) == {}
    requires InNames(Written(Cleared(nodes), tests)) == ForeignNames(nodes) + set x | x in FirstNames(|tests|)
    ensures r == Ok(tests) <==> Fit(nodes, tests)
  {
    hide InName, OutName, Readable, CaseAt, TestFits, Fit, InNames, Written, Cleared, ForeignNames, Lists, CasesAt;
    var d, n := Written(Cleared(nodes), tests), |tests|;
    var names := InNames(d);
    assert names == set x | x in FirstNames(n);
    FirstNamesListed(n);
    forall k | 1 <= k <= n
      ensures InName(k) in names && (Readable(d, InName(k)) <==> TestFits(nodes, tests, k))
      ensures Readable(d, InName(k)) ==> CaseAt(d, InName(k)) == tests[k - 1]
    {
      assert FirstNames(n)[k - 1] in names;
      NotThere(nodes, k);
      ReadBack(nodes, tests, k);
    }
    AllFit(nodes, tests);
    if r.Ok? {
      Reordered(d, tests, r.value, names);
      forall k | 1 <= k <= n ensures TestFits(nodes, tests, k) {
        assert Readable(d, InName(k));
      }
    }
    if Fit(nodes, tests) {
      forall x | x in names ensures Readable(d, x) {
        var k :| 0 <= k < n && FirstNames(n)[k] == x;
        assert TestFits(nodes, tests, k + 1);
      }
    }
  }

  lemma NotThere(nodes: map<string, Node>, k: nat)
    requires ForeignNames(nodes) == {}
    ensures InName(k) !in Cleared(nodes)
  {
    NamesAreNumbered(k);
    assert InName(k) !in ForeignNames(nodes);
  }

  lemma Reordered(d: map<string, Node>, tests: seq<Case>, cases: seq<Case>, names: set<string>)
    requires exists order :: Lists(order, names) && CasesAt(d, order, cases)
    requires Lists(FirstNames(|tests|), names)
    requires forall k | 1 <= k <= |tests| :: Readable(d, InName(k)) ==> CaseAt(d, InName(k)) == tests[k - 1]
    ensures cases == tests
  {
    hide Readable, CaseAt, Lists;
    var order :| Lists(order, names) && CasesAt(d, order, cases);
    ListsUnique(order, FirstNames(|tests|), names);
    forall k | 0 <= k < |tests| ensures cases[k] == tests[k] {
      assert order[k] == InName(k + 1);
    }
  }

  predicate TestFits(nodes: map<string, Node>, tests: seq<Case>, k: nat)
    requires 1 <= k <= |tests|
  {
    && !(OutName(k) in nodes && nodes[OutName(k)].Link?)
    && Bytes(tests[k - 1].input) <= LIMIT && Bytes(tests[k - 1].output) <= LIMIT
  }

  lemma AllFit(nodes: map<string, Node>, tests: seq<Case>)
    ensures Fit(nodes, tests) <==> |tests| <= MOST && forall k | 1 <= k <= |tests| :: TestFits(nodes, tests, k)
  {
    hide Bytes;
    if forall k | 1 <= k <= |tests| :: TestFits(nodes, tests, k) {
      forall t | t in tests ensures Bytes(t.input) <= LIMIT && Bytes(t.output) <= LIMIT {
        var k :| 0 <= k < |tests| && tests[k] == t;
        assert TestFits(nodes, tests, k + 1);
      }
      forall k | 1 <= k <= |tests| ensures !(OutName(k) in nodes && nodes[OutName(k)].Link?) {
        assert TestFits(nodes, tests, k);
      }
    }
    if Fit(nodes, tests) {
      forall k | 1 <= k <= |tests| ensures TestFits(nodes, tests, k) {
        assert tests[k - 1] in tests;
      }
    }
  }

  lemma ReadBack(nodes: map<string, Node>, tests: seq<Case>, k: nat)
    requires 1 <= k <= |tests| && InName(k) !in Cleared(nodes)
    ensures var d := Written(Cleared(nodes), tests);
      && (Readable(d, InName(k)) <==> TestFits(nodes, tests, k))
      && (Readable(d, InName(k)) ==> CaseAt(d, InName(k)) == tests[k - 1])
  {
    WrittenAt(Cleared(nodes), tests, k);
    NamesAreNumbered(k);
    hide Bytes, Written, InName, OutName;
  }

  /** A foreign input is read as one case too many, or cannot be read. */
  lemma Disturbed(nodes: map<string, Node>, tests: seq<Case>, r: Result<seq<Case>>, name: string)
    requires !Blocked(nodes, |tests|) && ReadsAs(Written(Cleared(nodes), tests), r) && name in ForeignNames(nodes)
    ensures r != Ok(tests)
  {
    hide InNames, ForeignNames, ReadsAs, Cleared, Written, Lists, Blocked, InName, OutName;
    OwnNames(nodes, tests);
    if name in FirstNames(|tests|) {
      var k :| 0 <= k < |tests| && FirstNames(|tests|)[k] == name;
      LinkUnread(nodes, tests, r, k + 1);
    } else {
      OneTooMany(nodes, tests, r, name);
    }
  }

  /** An input name that is left over is a link. */
  lemma LinkUnread(nodes: map<string, Node>, tests: seq<Case>, r: Result<seq<Case>>, k: nat)
    requires !Blocked(nodes, |tests|) && ReadsAs(Written(Cleared(nodes), tests), r) && 1 <= k <= |tests| && InName(k) in ForeignNames(nodes)
    ensures r.Err?
  {
    hide Bytes, Written, InName, OutName, Lists;
    NamesAreNumbered(k);
    WrittenAt(Cleared(nodes), tests, k);
    assert !IsDir(nodes, InName(k));
    var d := Written(Cleared(nodes), tests);
    assert !Readable(d, InName(k)) && InName(k) in InNames(d);
  }

  lemma OneTooMany(nodes: map<string, Node>, tests: seq<Case>, r: Result<seq<Case>>, name: string)
    requires ReadsAs(Written(Cleared(nodes), tests), r) && name in ForeignNames(nodes) && name !in FirstNames(|tests|)
    requires InNames(Written(Cleared(nodes), tests)) == ForeignNames(nodes) + set x | x in FirstNames(|tests|)
    ensures r.Ok? ==> |r.value| > |tests|
  {
    hide Bytes, Written, Cleared, InNames, ForeignNames, Lists, Readable, CaseAt, InName;
    var d, own := Written(Cleared(nodes), tests), set x | x in FirstNames(|tests|);
    if r.Ok? {
      var order :| Lists(order, InNames(d)) && CasesAt(d, order, r.value);
      FirstNamesListed(|tests|);
      ListLength(order, InNames(d));
      SubsetSize(own + {name}, InNames(d));
    }
  }

  /** The same as one run: what is written and then read. */
  method WriteThenRead(dir: Directory, tests: seq<Case>) returns (written: bool, r: Result<seq<Case>>)
    modifies dir
    ensures written <==> !Blocked(old(dir.nodes), |tests|)
    ensures written ==> (r == Ok(tests) <==> ForeignNames(old(dir.nodes)) == {} && Fit(old(dir.nodes), tests))
  {
    r := Err;
    written := dir.WriteLocal(tests);
    if written {
      r := dir.ReadLocal();
      RoundTrip(old(dir.nodes), tests, r);
    }
  }
}
