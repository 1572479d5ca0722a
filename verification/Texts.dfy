/** Prefixes and character counts of strings. */
module Texts {

  predicate StartsWith(text: string, head: string) {
    |head| <= |text| && text[..|head|] == head
  }

  lemma SplitAt(a: string, b: string)
    ensures StartsWith(a + b, a) && (a + b)[..|a|] == a && (a + b)[|a|..] == b
  {
  }

  predicate IsBreak(c: char) { c == '\n' || c == '\r' }

  predicate IsBrace(c: char) { c == '{' }

  function Count(s: string, counted: char -> bool): nat {
    if s == "" then 0 else (if counted(s[0]) then 1 else 0) + Count(s[1..], counted)
  }

  lemma {:induction false} CountConcat(a: string, b: string, counted: char -> bool)
    ensures Count(a + b, counted) == Count(a, counted) + Count(b, counted)
  {
    if a == "" {
      assert a + b == b;
    } else {
      assert (a + b)[1..] == a[1..] + b;
      CountConcat(a[1..], b, counted);
    }
  }

  lemma {:induction false} CountsNone(s: string, counted: char -> bool)
    ensures Count(s, counted) == 0 <==> forall c :: c in s ==> !counted(c)
  {
    if s != "" {
      CountsNone(s[1..], counted);
      assert s == [s[0]] + s[1..];
    }
  }
}
