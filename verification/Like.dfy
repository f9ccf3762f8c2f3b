/** Text as the database compares it: case folded, and PostgreSQL's LIKE (section 9.7.1 of the PostgreSQL manual). */
module Like {
  function LowerChar(c: char): char {
    if 'A' <= c <= 'Z' then c - 'A' + 'a' else c
  }

  function Lower(s: string): (r: string)
    ensures |r| == |s| && forall i :: 0 <= i < |s| ==> r[i] == LowerChar(s[i])
  {
    seq(|s|, i requires 0 <= i < |s| => LowerChar(s[i]))
  }

  /** A pattern's `%` stands for any text, `_` for any character, and a backslash makes the next character plain. */
  predicate Accepts(pattern: string, t: string)
    decreases |pattern| + |t|
  {
    if pattern == [] then t == []
    else if pattern[0] == '%' then Accepts(pattern[1..], t) || (t != [] && Accepts(pattern, t[1..]))
    else if pattern[0] == '\\' then
      |pattern| > 1 && t != [] && LowerChar(t[0]) == LowerChar(pattern[1]) && Accepts(pattern[2..], t[1..])
    else t != [] && (pattern[0] == '_' || LowerChar(t[0]) == LowerChar(pattern[0])) && Accepts(pattern[1..], t[1..])
  }

  /** A text in a LIKE pattern that stands for itself. */
  function Escape(s: string): string {
    if s == [] then []
    else (if s[0] in "\\%_" then ['\\', s[0]] else [s[0]]) + Escape(s[1..])
  }

  predicate At(t: string, k: nat, s: string) {
    k + |s| <= |t| && Lower(t[k..k + |s|]) == Lower(s)
  }

  predicate StartsWith(t: string, s: string) { At(t, 0, s) }

  predicate EndsWith(t: string, s: string) { |s| <= |t| && At(t, |t| - |s|, s) }

  predicate HasInside(t: string, s: string) { exists k: nat | k <= |t| :: At(t, k, s) }

  /** An escaped text accepts exactly itself, in any case, and leaves the rest of the text to the rest of the pattern. */
  lemma {:induction false} Literal(s: string, rest: string, t: string)
    ensures Accepts(Escape(s) + rest, t) <==> StartsWith(t, s) && Accepts(rest, t[|s|..])
    decreases |s|
  {
    var p := Escape(s) + rest;
    if s == [] {
      assert p == rest && t[0..] == t;
    } else {
      var head := if s[0] in "\\%_" then ['\\', s[0]] else [s[0]];
      assert p == head + (Escape(s[1..]) + rest);
      assert p[|head|..] == Escape(s[1..]) + rest;
      if t != [] {
        Literal(s[1..], rest, t[1..]);
        assert Accepts(p, t) <==> LowerChar(t[0]) == LowerChar(s[0]) && Accepts(Escape(s[1..]) + rest, t[1..]);
        OneMore(t, s);
        if |s| <= |t| { assert t[1..][|s| - 1..] == t[|s|..]; }
      }
    }
  }

  lemma OneMore(t: string, s: string)
    requires t != [] && s != []
    ensures StartsWith(t, s) <==> LowerChar(t[0]) == LowerChar(s[0]) && StartsWith(t[1..], s[1..])
  {
  }

  /** A leading `%` may skip any part of the text. */
  lemma {:induction false} Wild(rest: string, t: string)
    ensures Accepts("%" + rest, t) <==> exists k: nat | k <= |t| :: Accepts(rest, t[k..])
    decreases |t|
  {
    var p := "%" + rest;
    assert p[1..] == rest && t[0..] == t;
    if t != [] {
      Wild(rest, t[1..]);
      if Accepts(p, t[1..]) {
        var k: nat :| k <= |t[1..]| && Accepts(rest, t[1..][k..]);
        assert t[1..][k..] == t[k + 1..];
      }
      forall k: nat | 1 <= k <= |t| && Accepts(rest, t[k..]) ensures Accepts(p, t[1..]) {
        assert t[1..][k - 1..] == t[k..];
      }
    }
  }

  lemma WildAll(t: string)
    ensures Accepts("%", t)
  {
    Wild("", t);
    assert "%" + "" == "%" && t[|t|..] == [];
  }

  /** begins with */
  lemma LikeStart(s: string, t: string)
    ensures Accepts(Escape(s) + "%", t) <==> StartsWith(t, s)
  {
    Literal(s, "%", t);
    if |s| <= |t| { WildAll(t[|s|..]); }
  }

  lemma Shift(t: string, k: nat, s: string)
    requires k <= |t|
    ensures StartsWith(t[k..], s) <==> At(t, k, s)
  {
    if k + |s| <= |t| { assert t[k..][0..|s|] == t[k..k + |s|]; }
  }

  /** ends with */
  lemma LikeEnd(s: string, t: string)
    ensures Accepts("%" + Escape(s), t) <==> EndsWith(t, s)
  {
    Wild(Escape(s), t);
    forall k: nat | k <= |t| ensures Accepts(Escape(s), t[k..]) <==> At(t, k, s) && k + |s| == |t| {
      Literal(s, "", t[k..]);
      assert Escape(s) + "" == Escape(s);
      Shift(t, k, s);
    }
    if |s| <= |t| { assert Accepts(Escape(s), t[|t| - |s|..]) <==> At(t, |t| - |s|, s); }
  }

  /** contains */
  lemma LikeInside(s: string, t: string)
    ensures Accepts("%" + Escape(s) + "%", t) <==> HasInside(t, s)
  {
    assert "%" + Escape(s) + "%" == "%" + (Escape(s) + "%");
    Wild(Escape(s) + "%", t);
    forall k: nat | k <= |t| ensures Accepts(Escape(s) + "%", t[k..]) <==> At(t, k, s) {
      LikeStart(s, t[k..]);
      Shift(t, k, s);
    }
  }
}
