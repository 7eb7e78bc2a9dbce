/**
 * SQLite's `LIKE` operator as the search queries of data/local/TodoDao.kt use
 * it: `column LIKE '%' || :query || '%'`, no ESCAPE clause, and the default
 * case-insensitive matching, which folds ASCII letters only.
 */
module SqlLike {
  import opened Primitives

  /** `s LIKE pattern`: `%` matches any run of characters, `_` any one character, any other character itself up to ASCII case. */
  predicate Like(s: string, pattern: string)
    decreases |pattern|, |s|
  {
    if pattern == [] then s == []
    else if pattern[0] == '%' then Like(s, pattern[1..]) || (s != [] && Like(s[1..], pattern))
    else s != [] && (pattern[0] == '_' || CharEqualsIgnoreCase(s[0], pattern[0])) && Like(s[1..], pattern[1..])
  }

  /** The pattern the queries build: `'%' || query || '%'`. */
  function ContainsPattern(query: string): string {
    "%" + query + "%"
  }

  /** A query in which neither wildcard character occurs. */
  predicate NoWildcards(query: string) {
    '%' !in query && '_' !in query
  }

  lemma {:induction false} LikePercentMatchesAll(s: string)
    ensures Like(s, "%")
    decreases |s|
  {
    if s != [] {
      LikePercentMatchesAll(s[1..]);
    }
  }

  /** `q + "%"` matches exactly the strings that start with `q` up to case. */
  lemma {:induction false} LikePrefix(s: string, q: string)
    requires NoWildcards(q)
    ensures Like(s, q + "%") <==> |q| <= |s| && EqualsIgnoreCase(s[..|q|], q)
    decreases |q|
  {
    if q == [] {
      assert q + "%" == "%";
      LikePercentMatchesAll(s);
    } else {
      assert (q + "%")[0] == q[0] && (q + "%")[1..] == q[1..] + "%";
      assert q[0] in q;
      if s != [] {
        LikePrefix(s[1..], q[1..]);
        if |q| <= |s| {
          assert s[1..][..|q| - 1] == s[..|q|][1..];
          assert EqualsIgnoreCase(s[..|q|], q) <==>
            CharEqualsIgnoreCase(s[0], q[0]) && EqualsIgnoreCase(s[1..][..|q| - 1], q[1..]);
        }
      }
    }
  }

  /** A leading `%` lets the rest of the pattern match any suffix. */
  lemma {:induction false} LikeLeadingPercent(s: string, p: string)
    ensures Like(s, "%" + p) <==> exists i :: 0 <= i <= |s| && Like(s[i..], p)
    decreases |s|
  {
    assert ("%" + p)[0] == '%' && ("%" + p)[1..] == p;
    if s == [] {
      assert s[0..] == s;
    } else {
      LikeLeadingPercent(s[1..], p);
      assert s[0..] == s;
      if Like(s, "%" + p) && !Like(s, p) {
        var i :| 0 <= i <= |s| - 1 && Like(s[1..][i..], p);
        assert s[1..][i..] == s[i + 1..];
      }
      if exists i :: 0 <= i <= |s| && Like(s[i..], p) {
        var i :| 0 <= i <= |s| && Like(s[i..], p);
        if i > 0 {
          assert s[1..][i - 1..] == s[i..];
        }
      }
    }
  }

  /** For a query free of wildcards, the search pattern is exactly case-insensitive (ASCII) substring search. */
  lemma SearchPatternIsContains(s: string, q: string)
    requires NoWildcards(q)
    ensures Like(s, ContainsPattern(q)) <==> ContainsIgnoreCase(s, q)
  {
    assert ContainsPattern(q) == "%" + (q + "%");
    LikeLeadingPercent(s, q + "%");
    forall i | 0 <= i <= |s|
      ensures Like(s[i..], q + "%") <==> MatchesAt(s, q, i)
    {
      LikePrefix(s[i..], q);
      if i + |q| <= |s| {
        assert s[i..][..|q|] == s[i..i + |q|];
      }
    }
  }

  /** With a wildcard the search is not substring search: `_` matches any character. */
  lemma UnderscoreIsWildcard()
    ensures Like("cat", ContainsPattern("c_t")) && !ContainsIgnoreCase("cat", "c_t")
  {
    assert Like("t", "t%") by { LikePercentMatchesAll([]); }
    assert Like("cat", "c_t%");
    assert Like("cat", ContainsPattern("c_t"));
    assert !MatchesAt("cat", "c_t", 0) by {
      assert "cat"[0..3][1] == 'a';
    }
  }
}
