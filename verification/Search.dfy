/** Searching by name: the escaped pattern, and what LIKE (section 8.5 of SQL-92) makes of it. */
module Search {
  const ESCAPE: char := '='

  predicate Special(c: char) { c == ESCAPE || c == '%' || c == '_' }

  /** `str::replace` of one character. */
  function Replace(s: string, c: char, with: string): string {
    if s == [] then [] else (if s[0] == c then with else [s[0]]) + Replace(s[1..], c, with)
  }

  /** The three replacements, one after the other, between two wildcards. */
  function Pattern(search: string): string {
    "%" + Replace(Replace(Replace(search, '=', "=="), '%', "=%"), '_', "=_") + "%"
  }

  /** One pass, character by character. */
  function Escaped(s: string): string {
    if s == [] then [] else (if Special(s[0]) then [ESCAPE, s[0]] else [s[0]]) + Escaped(s[1..])
  }

  lemma {:induction false} ReplaceSplits(s: string, t: string, c: char, with: string)
    ensures Replace(s + t, c, with) == Replace(s, c, with) + Replace(t, c, with)
  {
    if s == [] {
      assert s + t == t;
    } else {
      ReplaceSplits(s[1..], t, c, with);
      var head, x, y := if s[0] == c then with else [s[0]], Replace(s[1..], c, with), Replace(t, c, with);
      assert (s + t)[0] == s[0] && (s + t)[1..] == s[1..] + t;
      assert Replace(s + t, c, with) == head + (x + y) == (head + x) + y;
    }
  }

  lemma ReplaceOne(x: char, c: char, with: string)
    ensures Replace([x], c, with) == if x == c then with else [x]
  {
    assert Replace([x][1..], c, with) == [];
  }

  lemma ReplaceTwo(x: char, y: char, c: char, with: string)
    requires x != c
    ensures Replace([x, y], c, with) == [x] + Replace([y], c, with)
  {
    assert [x, y] == [x] + [y];
    ReplaceSplits([x], [y], c, with);
    ReplaceOne(x, c, with);
  }

  /** No replacement touches what an earlier one has put in. */
  lemma {:induction false} ThreeReplacements(s: string)
    ensures Replace(Replace(Replace(s, '=', "=="), '%', "=%"), '_', "=_") == Escaped(s)
  {
    if s != [] {
      var c, t := s[0], s[1..];
      ThreeReplacements(t);
      var a, a' := Replace([c], '=', "=="), Replace(t, '=', "==");
      ReplaceOne(c, '=', "==");
      ReplaceSplits(a, a', '%', "=%");
      ReplaceSplits(Replace(a, '%', "=%"), Replace(a', '%', "=%"), '_', "=_");
      OneCharacter(c);
    }
  }

  lemma OneCharacter(c: char)
    ensures Replace(Replace(Replace([c], '=', "=="), '%', "=%"), '_', "=_") == if Special(c) then [ESCAPE, c] else [c]
  {
    ReplaceOne(c, '=', "==");
    if c == '=' {
      ReplaceTwo('=', '=', '%', "=%");
      ReplaceTwo('=', '=', '_', "=_");
      ReplaceOne('=', '%', "=%");
      ReplaceOne('=', '_', "=_");
    } else {
      ReplaceOne(c, '%', "=%");
      if c == '%' {
        ReplaceTwo('=', '%', '_', "=_");
      }
      ReplaceOne(c, '_', "=_");
    }
  }

  /** `text LIKE pattern ESCAPE '='`. An escape character that ends the pattern stands for itself. */
  predicate Like(text: string, pattern: string)
    decreases |pattern|, |text|
  {
    if pattern == [] then text == []
    else if pattern[0] == ESCAPE && |pattern| > 1 then text != [] && text[0] == pattern[1] && Like(text[1..], pattern[2..])
    else if pattern[0] == '%' then Like(text, pattern[1..]) || (text != [] && Like(text[1..], pattern))
    else if pattern[0] == '_' then text != [] && Like(text[1..], pattern[1..])
    else text != [] && text[0] == pattern[0] && Like(text[1..], pattern[1..])
  }

  predicate Contains(text: string, search: string) {
    exists k | 0 <= k <= |text| :: StandsAt(text, search, k)
  }

  predicate StandsAt(text: string, search: string, k: nat) { k + |search| <= |text| && text[k..k + |search|] == search }

  /** A wildcard matches any number of characters. */
  lemma {:induction false} LikeAny(text: string, rest: string)
    ensures Like(text, "%" + rest) <==> exists k :: 0 <= k <= |text| && Like(text[k..], rest)
    decreases |text|
  {
    var pattern := "%" + rest;
    assert pattern[1..] == rest && text[0..] == text;
    if text != [] {
      LikeAny(text[1..], rest);
      if Like(text[1..], pattern) {
        var k :| 0 <= k <= |text[1..]| && Like(text[1..][k..], rest);
        assert text[1..][k..] == text[k + 1..];
      }
      forall k | 1 <= k <= |text| && Like(text[k..], rest) ensures Like(text[1..], pattern) {
        assert text[1..][k - 1..] == text[k..];
      }
    }
  }

  /** An escaped text matches itself and nothing else. */
  lemma {:induction false} LikeLiteral(text: string, search: string, rest: string)
    ensures Like(text, Escaped(search) + rest) <==> search <= text && Like(text[|search|..], rest)
    decreases |search|
  {
    if search == [] {
      assert Escaped(search) + rest == rest && text[0..] == text;
    } else {
      var pattern := Escaped(search) + rest;
      var head := if Special(search[0]) then [ESCAPE, search[0]] else [search[0]];
      assert pattern == head + (Escaped(search[1..]) + rest);
      assert pattern[|head|..] == Escaped(search[1..]) + rest;
      if text != [] {
        LikeLiteral(text[1..], search[1..], rest);
        assert text[0] == search[0] ==> (search[1..] <= text[1..] <==> search <= text);
        assert search[1..] <= text[1..] ==> text[1..][|search| - 1..] == text[|search|..];
      }
    }
  }

  /** Whatever is searched for, wildcards included, is found literally: a text matches exactly when it contains it. */
  lemma SearchIsLiteral(text: string, search: string)
    ensures Like(text, Pattern(search)) <==> Contains(text, search)
  {
    ThreeReplacements(search);
    var rest := Escaped(search) + "%";
    assert Pattern(search) == "%" + rest;
    LikeAny(text, rest);
    forall k | 0 <= k <= |text| ensures Like(text[k..], rest) <==> StandsAt(text, search, k) {
      LikeLiteral(text[k..], search, "%");
      Everything(text[k..]);
      if search <= text[k..] {
        assert text[k..][..|search|] == text[k..k + |search|];
        Everything(text[k..][|search|..]);
      }
    }
  }

  lemma {:induction false} Everything(text: string)
    ensures Like(text, "%")
    decreases |text|
  {
    assert "%"[1..] == "";
    if text != [] {
      Everything(text[1..]);
    }
  }
}
