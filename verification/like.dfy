/**
 * SQLite's `LIKE` operator without an `ESCAPE` clause, as used by
 * `ilike('%q%')` in remind/db.py: `%` matches any run of characters, `_`
 * matches exactly one, and every other character matches itself. `ilike`
 * lower-cases both sides first (ASCII only, as SQLite's built-in `lower`).
 */
module SqlLike {
  import opened Text

  /** `s LIKE p`, on strings that are already lower-cased. */
  predicate Like(s: string, p: string)
    decreases |s|, |p|
  {
    if |p| == 0 then |s| == 0
    else if p[0] == '%' then Like(s, p[1..]) || (|s| > 0 && Like(s[1..], p))
    else if p[0] == '_' then |s| > 0 && Like(s[1..], p[1..])
    else |s| > 0 && s[0] == p[0] && Like(s[1..], p[1..])
  }

  /** `text ILIKE pattern`, rendered by SQLAlchemy as `lower(text) LIKE lower(pattern)`. */
  predicate ILike(text: string, pattern: string) {
    Like(Lower(text), Lower(pattern))
  }

  /** A pattern with neither wildcard. */
  predicate Literal(q: string) {
    forall i :: 0 <= i < |q| ==> q[i] != '%' && q[i] != '_'
  }

  /** A lone `%` matches everything. */
  lemma {:induction false} PercentMatchesAll(s: string)
    ensures Like(s, "%")
    decreases |s|
  {
    if |s| > 0 {
      PercentMatchesAll(s[1..]);
    }
  }

  /** A literal followed by `%` matches exactly the strings it is a prefix of. */
  lemma {:induction false} LiteralPrefix(s: string, q: string)
    requires Literal(q)
    ensures Like(s, q + "%") <==> q <= s
    decreases |q|
  {
    if |q| == 0 {
      assert q + "%" == "%";
      PercentMatchesAll(s);
    } else {
      assert (q + "%")[1..] == q[1..] + "%";
      assert (q + "%")[0] == q[0];
      if |s| > 0 {
        LiteralPrefix(s[1..], q[1..]);
        assert q <= s <==> (s[0] == q[0] && q[1..] <= s[1..]);
      }
    }
  }

  /** A leading `%` lets the rest of the pattern match any suffix. */
  lemma {:induction false} LeadingPercent(s: string, p: string)
    ensures Like(s, "%" + p) <==> exists i :: 0 <= i <= |s| && Like(s[i..], p)
    decreases |s|
  {
    assert ("%" + p)[1..] == p;
    assert s[0..] == s;
    if |s| > 0 {
      LeadingPercent(s[1..], p);
      if exists i :: 0 <= i <= |s| && Like(s[i..], p) {
        var i :| 0 <= i <= |s| && Like(s[i..], p);
        if i > 0 {
          assert s[1..][i - 1..] == s[i..];
        }
      }
      if exists j :: 0 <= j <= |s| - 1 && Like(s[1..][j..], p) {
        var j :| 0 <= j <= |s| - 1 && Like(s[1..][j..], p);
        assert s[1..][j..] == s[j + 1..];
      }
    }
  }

  /** With no wildcard in `q`, `LIKE '%q%'` is the substring test. */
  lemma LiteralSearchIsContains(s: string, q: string)
    requires Literal(q)
    ensures Like(s, "%" + q + "%") <==> Contains(s, q)
  {
    assert "%" + q + "%" == "%" + (q + "%");
    LeadingPercent(s, q + "%");
    forall i | 0 <= i <= |s|
      ensures Like(s[i..], q + "%") <==> q <= s[i..]
    {
      LiteralPrefix(s[i..], q);
    }
  }

  /** Lower-casing keeps a wildcard-free query wildcard-free. */
  lemma LowerKeepsLiteral(q: string)
    requires Literal(q)
    ensures Literal(Lower(q))
  {
  }

  /**
   * `search_reminders(q)` with a wildcard-free `q` finds exactly the texts
   * that contain `q` when both are lower-cased.
   */
  lemma ILikeLiteral(text: string, q: string)
    requires Literal(q)
    ensures ILike(text, "%" + q + "%") <==> Contains(Lower(text), Lower(q))
  {
    assert Lower("%" + q + "%") == "%" + Lower(q) + "%";
    LowerKeepsLiteral(q);
    LiteralSearchIsContains(Lower(text), Lower(q));
  }

  /** A `_` in the query matches any character: "a_c" finds "abc", which does not contain it. */
  lemma UnderscoreIsWildcard()
    ensures ILike("abc", "%a_c%")
    ensures !Contains("abc", "a_c")
  {
    assert Lower("abc") == "abc";
    assert Lower("%a_c%") == "%a_c%";
    PercentMatchesAll("");
    assert Like("", "%");
    assert Like("c", "c%");
    assert Like("bc", "_c%");
    assert Like("abc", "a_c%");
    assert "%a_c%"[1..] == "a_c%";
    assert forall i :: 0 <= i <= 3 ==> !("a_c" <= "abc"[i..]);
  }
}
