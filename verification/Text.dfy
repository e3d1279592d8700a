/** Strings as the SQL statements and the TypeScript helpers see them, over ASCII letters and digits. */
module Text {
  import opened Prelude

  predicate OccursAt(hay: string, needle: string, i: int) {
    0 <= i <= |hay| - |needle| && hay[i..i + |needle|] == needle
  }

  /** `needle` occurs in `hay`; PostgreSQL finds an empty needle everywhere. */
  predicate Contains(hay: string, needle: string) {
    exists i :: 0 <= i <= |hay| - |needle| && OccursAt(hay, needle, i)
  }

  function LowerChar(c: char): char {
    if 'A' <= c <= 'Z' then (c as int + 32) as char else c
  }

  function UpperChar(c: char): char {
    if 'a' <= c <= 'z' then (c as int - 32) as char else c
  }

  function Lower(s: string): (r: string)
    ensures |r| == |s|
    ensures forall i :: 0 <= i < |s| ==> r[i] == LowerChar(s[i])
  {
    if s == [] then [] else [LowerChar(s[0])] + Lower(s[1..])
  }

  predicate IsAlphanumeric(c: char) {
    'a' <= c <= 'z' || 'A' <= c <= 'Z' || '0' <= c <= '9'
  }

  /** The letters and digits of `s`. */
  function Alphanumeric(s: string): string {
    if s == [] then []
    else if IsAlphanumeric(s[0]) then [s[0]] + Alphanumeric(s[1..])
    else Alphanumeric(s[1..])
  }

  /** The comparison key every duplicate statement derives from `merchant_name`. */
  function MerchantKey(merchant: Option<string>): string {
    Lower(Alphanumeric(if merchant.Some? then merchant.value else ""))
  }

  lemma {:induction false} ContainsTransitive(a: string, b: string, c: string)
    requires Contains(a, b) && Contains(b, c)
    ensures Contains(a, c)
  {
    var i :| 0 <= i <= |a| - |b| && OccursAt(a, b, i);
    var j :| 0 <= j <= |b| - |c| && OccursAt(b, c, j);
    forall k | 0 <= k < |c|
      ensures a[i + j..i + j + |c|][k] == c[k]
    {
      assert c[k] == b[j..j + |c|][k] == a[i..i + |b|][j + k];
    }
    assert OccursAt(a, c, i + j);
  }

  lemma {:induction false} ContainsSameLength(a: string, b: string)
    requires Contains(a, b) && |a| == |b|
    ensures a == b
  {
  }

  lemma {:induction false} ContainsSelf(a: string)
    ensures Contains(a, a)
  {
    assert OccursAt(a, a, 0);
  }

  // ----- what the comparison key keeps of a merchant

  lemma {:induction false} LowerOfConcat(a: string, b: string)
    ensures Lower(a + b) == Lower(a) + Lower(b)
  {
    if a == [] {
      assert a + b == b;
    } else {
      assert (a + b)[1..] == a[1..] + b;
      LowerOfConcat(a[1..], b);
    }
  }

  lemma {:induction false} AlphanumericOfConcat(a: string, b: string)
    ensures Alphanumeric(a + b) == Alphanumeric(a) + Alphanumeric(b)
  {
    if a == [] {
      assert a + b == b;
    } else {
      assert (a + b)[1..] == a[1..] + b;
      AlphanumericOfConcat(a[1..], b);
    }
  }

  /** Keys are made character by character: letters and digits count, without regard to case, and nothing else. */
  lemma {:induction false} KeyOfConcat(a: string, b: string)
    ensures MerchantKey(None) == MerchantKey(Some("")) == ""
    ensures MerchantKey(Some(a + b)) == MerchantKey(Some(a)) + MerchantKey(Some(b))
  {
    AlphanumericOfConcat(a, b);
    LowerOfConcat(Alphanumeric(a), Alphanumeric(b));
  }

  lemma {:induction false} AlphanumericOfOne(c: char)
    ensures Alphanumeric([c]) == if IsAlphanumeric(c) then [c] else ""
  {
    assert [c][1..] == "";
  }

  lemma {:induction false} KeyOfCharacter(c: char)
    ensures 'a' <= c <= 'z' || '0' <= c <= '9' ==> MerchantKey(Some([c])) == [c]
    ensures 'A' <= c <= 'Z' ==> MerchantKey(Some([c])) == [c - 'A' + 'a']
    ensures !('a' <= c <= 'z' || 'A' <= c <= 'Z' || '0' <= c <= '9') ==> MerchantKey(Some([c])) == ""
  {
    AlphanumericOfOne(c);
  }

  lemma {:induction false} LowerOfLowerCase(s: string)
    requires forall i :: 0 <= i < |s| ==> !('A' <= s[i] <= 'Z')
    ensures Lower(s) == s
  {
  }
}
