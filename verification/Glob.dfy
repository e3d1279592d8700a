/** `glob_match` over ASCII text: `*` stands for any run of characters, `?` for one. */
module Glob {
  import opened Text

  predicate Matches(p: string, t: string)
    decreases |p| + |t|
  {
    if p == [] then t == []
    else if p[0] == '*' then Matches(p[1..], t) || (t != [] && Matches(p, t[1..]))
    else if t == [] then false
    else if p[0] == '?' || p[0] == t[0] then Matches(p[1..], t[1..])
    else false
  }

  predicate GlobMatch(pattern: string, text: string) {
    Matches(Lower(pattern), Lower(text))
  }

  predicate Plain(s: string) {
    forall i :: 0 <= i < |s| ==> s[i] != '*' && s[i] != '?'
  }

  // ----- concatenation

  ghost predicate SplitMatches(p: string, q: string, t: string, k: int) {
    0 <= k <= |t| && Matches(p, t[..k]) && Matches(q, t[k..])
  }

  lemma {:induction false} JoinedMatches(p: string, q: string, s: string, t: string)
    requires Matches(p, s) && Matches(q, t)
    ensures Matches(p + q, s + t)
    decreases |p| + |s|
  {
    if p == [] {
      assert p + q == q && s + t == t;
    } else {
      assert (p + q)[1..] == p[1..] + q;
      if p[0] == '*' && Matches(p[1..], s) {
        JoinedMatches(p[1..], q, s, t);
      } else {
        assert (s + t)[1..] == s[1..] + t;
        JoinedMatches(if p[0] == '*' then p else p[1..], q, s[1..], t);
      }
    }
  }

  lemma {:induction false} MatchSplits(p: string, q: string, t: string) returns (k: int)
    requires Matches(p + q, t)
    ensures SplitMatches(p, q, t, k)
    decreases |p| + |t|
  {
    if p == [] {
      assert p + q == q && t[..0] == [] && t[0..] == t;
      k := 0;
    } else {
      assert (p + q)[1..] == p[1..] + q;
      if p[0] == '*' && Matches(p[1..] + q, t) {
        k := MatchSplits(p[1..], q, t);
      } else {
        var rest := MatchSplits(if p[0] == '*' then p else p[1..], q, t[1..]);
        k := rest + 1;
        assert t[..k][1..] == t[1..][..rest] && t[k..] == t[1..][rest..];
      }
    }
  }

  /** `p + q` matches a text exactly when the text splits into a part for `p` and a part for `q`. */
  lemma {:induction false} ConcatenationLaw(p: string, q: string, t: string)
    ensures Matches(p + q, t) <==> exists k :: SplitMatches(p, q, t, k)
  {
    if Matches(p + q, t) {
      var k := MatchSplits(p, q, t);
    }
    if k :| SplitMatches(p, q, t, k) {
      JoinedMatches(p, q, t[..k], t[k..]);
      assert t[..k] + t[k..] == t;
    }
  }

  // ----- an independent reading of a pattern

  /** The part of the text one pattern character may stand for. */
  predicate StandsFor(c: char, part: string) {
    match c
    case '*' => true
    case '?' => |part| == 1
    case _ => part == [c]
  }

  function Joined(parts: seq<string>): string {
    if parts == [] then [] else parts[0] + Joined(parts[1..])
  }

  predicate Fits(p: string, parts: seq<string>) {
    |parts| == |p| && forall i :: 0 <= i < |p| ==> StandsFor(p[i], parts[i])
  }

  lemma {:induction false} StarTakesAnything(t: string)
    ensures Matches("*", t)
  {
    if t != [] {
      StarTakesAnything(t[1..]);
    }
  }

  lemma {:induction false} OneCharacter(c: char, part: string)
    ensures Matches([c], part) <==> StandsFor(c, part)
  {
    if c == '*' {
      StarTakesAnything(part);
    } else if part != [] {
      assert [c][1..] == [];
      assert part == [part[0]] + part[1..];
    }
  }

  lemma {:induction false} FittingMatches(p: string, parts: seq<string>)
    requires Fits(p, parts)
    ensures Matches(p, Joined(parts))
  {
    if p != [] {
      FittingMatches(p[1..], parts[1..]);
      OneCharacter(p[0], parts[0]);
      JoinedMatches([p[0]], p[1..], parts[0], Joined(parts[1..]));
      assert [p[0]] + p[1..] == p;
    }
  }

  lemma {:induction false} MatchingFits(p: string, t: string) returns (parts: seq<string>)
    requires Matches(p, t)
    ensures Fits(p, parts) && Joined(parts) == t
  {
    if p == [] {
      parts := [];
    } else {
      assert [p[0]] + p[1..] == p;
      var k := MatchSplits([p[0]], p[1..], t);
      OneCharacter(p[0], t[..k]);
      var rest := MatchingFits(p[1..], t[k..]);
      parts := [t[..k]] + rest;
      assert t[..k] + t[k..] == t;
    }
  }

  /** The recursion finds a match exactly when the text can be cut into one fitting part per character. */
  lemma {:induction false} MatchesIffFits(p: string, t: string)
    ensures Matches(p, t) <==> exists parts :: Fits(p, parts) && Joined(parts) == t
  {
    if Matches(p, t) {
      var parts := MatchingFits(p, t);
    }
    if parts :| Fits(p, parts) && Joined(parts) == t {
      FittingMatches(p, parts);
    }
  }

  // ----- consequences

  function Stars(n: nat): string {
    if n == 0 then "" else "*" + Stars(n - 1)
  }

  lemma {:induction false} StarsTakeAnything(n: nat, t: string)
    requires n > 0
    ensures Matches(Stars(n), t)
  {
    if n == 1 {
      assert Stars(1) == "*" + Stars(0) == "*";
      StarTakesAnything(t);
    } else {
      StarsTakeAnything(n - 1, t);
      assert Stars(n)[1..] == Stars(n - 1);
    }
  }

  /** Stars can replace any other piece of a pattern without losing a match. */
  lemma {:induction false} StarsReplace(p: string, x: string, y: string, q: string, t: string, n: nat)
    requires Matches(p + x + q, t) && n > 0 && y == Stars(n)
    ensures Matches(p + y + q, t)
  {
    var k := MatchSplits(p + x, q, t);
    var j := MatchSplits(p, x, t[..k]);
    StarsTakeAnything(n, t[..k][j..]);
    JoinedMatches(p, y, t[..k][..j], t[..k][j..]);
    assert t[..k][..j] + t[..k][j..] == t[..k];
    JoinedMatches(p + y, q, t[..k], t[k..]);
    assert t[..k] + t[k..] == t;
  }

  /** A run of stars means what one star means, anywhere in a pattern. */
  lemma {:induction false} StarsCollapse(p: string, n: nat, q: string, t: string)
    requires n > 0
    ensures Matches(p + Stars(n) + q, t) <==> Matches(p + "*" + q, t)
  {
    assert Stars(1) == "*" + Stars(0) == "*";
    if Matches(p + Stars(n) + q, t) {
      StarsReplace(p, Stars(n), "*", q, t, 1);
    }
    if Matches(p + "*" + q, t) {
      StarsReplace(p, "*", Stars(n), q, t, n);
    }
  }

  /** A pattern without wildcards matches itself and nothing else. */
  lemma {:induction false} PlainMatchesOnlyItself(p: string, t: string)
    requires Plain(p)
    ensures Matches(p, t) <==> p == t
    decreases |p|
  {
    if p != [] {
      assert p[0] != '*';
      if t != [] {
        PlainMatchesOnlyItself(p[1..], t[1..]);
        assert p == [p[0]] + p[1..] && t == [t[0]] + t[1..];
      }
    }
  }

  lemma {:induction false} LowerKeepsPlain(s: string)
    requires Plain(s)
    ensures Plain(Lower(s))
  {
  }

  /** Case never matters: a pattern without wildcards matches the texts that agree up to case. */
  lemma {:induction false} PlainGlobIgnoresCase(p: string, t: string)
    requires Plain(p)
    ensures GlobMatch(p, t) <==> |p| == |t| && forall i :: 0 <= i < |p| ==> LowerChar(p[i]) == LowerChar(t[i])
  {
    LowerKeepsPlain(p);
    PlainMatchesOnlyItself(Lower(p), Lower(t));
  }

  /** `*x*` searches: it matches exactly the texts that contain `x`. */
  lemma {:induction false} StarredMatchesContaining(x: string, t: string)
    requires Plain(x)
    ensures Matches("*" + x + "*", t) <==> Contains(t, x)
  {
    if Matches("*" + x + "*", t) {
      var k := MatchSplits("*" + x, "*", t);
      var j := MatchSplits("*", x, t[..k]);
      PlainMatchesOnlyItself(x, t[..k][j..]);
      assert t[j..j + |x|] == t[..k][j..];
      assert OccursAt(t, x, j);
    }
    if Contains(t, x) {
      var j :| 0 <= j <= |t| - |x| && OccursAt(t, x, j);
      var k := j + |x|;
      StarTakesAnything(t[..j]);
      PlainMatchesOnlyItself(x, t[j..k]);
      JoinedMatches("*", x, t[..j], t[j..k]);
      StarTakesAnything(t[k..]);
      JoinedMatches("*" + x, "*", t[..j] + t[j..k], t[k..]);
      assert t[..j] + t[j..k] + t[k..] == t;
    }
  }
}
