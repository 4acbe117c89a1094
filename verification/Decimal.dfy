/** Numbers in decimal text. */
module Decimal {
  predicate IsDigit(c: char) { '0' <= c <= '9' }

  function Digit(d: nat): (c: char)
    requires d < 10
    ensures IsDigit(c) && c as int - '0' as int == d
  {
    ('0' as int + d) as char
  }

  function Show(n: nat): (s: string)
    ensures s != "" && forall i :: 0 <= i < |s| ==> IsDigit(s[i])
  {
    if n < 10 then [Digit(n)] else Show(n / 10) + [Digit(n % 10)]
  }

  function Read(s: string): nat
    requires forall i :: 0 <= i < |s| ==> IsDigit(s[i])
  {
    if s == "" then 0
    else
      assert IsDigit(s[|s| - 1]);
      Read(s[..|s| - 1]) * 10 + (s[|s| - 1] as int - '0' as int)
  }

  lemma {:induction false} ReadShow(n: nat)
    ensures Read(Show(n)) == n
  {
    var s := Show(n);
    if n < 10 {
      assert s[..|s| - 1] == "";
    } else {
      ReadShow(n / 10);
      assert s[..|s| - 1] == Show(n / 10);
    }
  }
}
