/** Source text as the server sees it: Python's notion of whitespace, stripping,
    and the text that is left once whitespace is ignored. */
module Text {

  /** `str.isspace`, which is also what `strip` and the regex class `\s` use. */
  predicate IsSpace(c: char) {
    var n := c as int;
    || 9 <= n <= 13 || 28 <= n <= 32 || n == 0x85 || n == 0xA0 || n == 0x1680
    || 0x2000 <= n <= 0x200A || n == 0x2028 || n == 0x2029 || n == 0x202F
    || n == 0x205F || n == 0x3000
  }

  predicate AllSpace(s: string) {
    forall k :: 0 <= k < |s| ==> IsSpace(s[k])
  }

  /** Length of the whitespace run at the front of `s`. */
  function LeadingSpace(s: string): (n: nat)
    ensures n <= |s| && (n < |s| ==> !IsSpace(s[n]))
    ensures forall k :: 0 <= k < n ==> IsSpace(s[k])
  {
    if s == [] || !IsSpace(s[0]) then 0 else 1 + LeadingSpace(s[1..])
  }

  /** Length of `s` without the whitespace run at its back. */
  function TrimmedLength(s: string): (n: nat)
    ensures n <= |s| && (n > 0 ==> !IsSpace(s[n - 1]))
    ensures forall k :: n <= k < |s| ==> IsSpace(s[k])
  {
    if s == [] || !IsSpace(s[|s| - 1]) then |s| else TrimmedLength(s[..|s| - 1])
  }

  /** `str.strip`. */
  function Strip(s: string): (r: string)
    ensures |r| <= |s|
    ensures r == [] <==> AllSpace(s)
    ensures r != [] ==> !IsSpace(r[0]) && !IsSpace(r[|r| - 1])
  {
    var i := LeadingSpace(s);
    var n := TrimmedLength(s);
    if i < n then s[i..n] else []
  }

  lemma StripOfTight(s: string)
    requires s != [] ==> !IsSpace(s[0]) && !IsSpace(s[|s| - 1])
    ensures Strip(s) == s
  {
    if s != [] {
      assert LeadingSpace(s) == 0;
      assert TrimmedLength(s) == |s|;
    }
  }

  /** The characters that are spoken: `s` with all whitespace removed. */
  function Squeeze(s: string): (r: string)
    ensures forall k :: 0 <= k < |r| ==> !IsSpace(r[k])
  {
    if s == [] then [] else (if IsSpace(s[0]) then [] else [s[0]]) + Squeeze(s[1..])
  }

  lemma {:induction false} SqueezeConcat(a: string, b: string)
    ensures Squeeze(a + b) == Squeeze(a) + Squeeze(b)
  {
    if a == [] {
      assert a + b == b;
    } else {
      assert (a + b)[1..] == a[1..] + b;
      SqueezeConcat(a[1..], b);
    }
  }

  lemma {:induction false} SqueezeOfSpace(s: string)
    requires AllSpace(s)
    ensures Squeeze(s) == []
  {
    if s != [] {
      assert forall k :: 0 <= k < |s| - 1 ==> s[1..][k] == s[k + 1];
      SqueezeOfSpace(s[1..]);
    }
  }

  /** Stripping only ever removes whitespace. */
  lemma SqueezeOfStrip(s: string)
    ensures Squeeze(Strip(s)) == Squeeze(s)
  {
    var i := LeadingSpace(s);
    var n := TrimmedLength(s);
    if i < n {
      assert s == s[..i] + s[i..n] + s[n..];
      SqueezeConcat(s[..i] + s[i..n], s[n..]);
      SqueezeConcat(s[..i], s[i..n]);
      SqueezeOfSpace(s[..i]);
      SqueezeOfSpace(s[n..]);
    } else {
      assert AllSpace(s);
      SqueezeOfSpace(s);
    }
  }
}
