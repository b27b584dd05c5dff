/** The one normalisation pass a source text goes through when its job is created
    (server/app/chunking/normalize.py). */
module Normalize {
  import opened Text

  /** `text.replace("\r\n", "\n")`. */
  function FoldCrLf(s: string): string {
    if s == [] then []
    else if |s| >= 2 && s[0] == '\r' && s[1] == '\n' then ['\n'] + FoldCrLf(s[2..])
    else [s[0]] + FoldCrLf(s[1..])
  }

  /** `text.replace("\r", "\n")`. */
  function FoldCr(s: string): string {
    if s == [] then [] else [if s[0] == '\r' then '\n' else s[0]] + FoldCr(s[1..])
  }

  predicate IsBlank(c: char) { c == ' ' || c == '\t' }

  function BlankRun(s: string): (n: nat)
    ensures n <= |s|
    ensures forall k :: 0 <= k < n ==> IsBlank(s[k])
    ensures n < |s| ==> !IsBlank(s[n])
  {
    if s == [] || !IsBlank(s[0]) then 0 else 1 + BlankRun(s[1..])
  }

  /** `re.sub(r"[ \t]+", " ", text)`. */
  function CollapseBlanks(s: string): string
    decreases |s|
  {
    if s == [] then []
    else if IsBlank(s[0]) then [' '] + CollapseBlanks(s[BlankRun(s)..])
    else [s[0]] + CollapseBlanks(s[1..])
  }

  function NewlineRun(s: string): (n: nat)
    ensures n <= |s|
    ensures forall k :: 0 <= k < n ==> s[k] == '\n'
    ensures n < |s| ==> s[n] != '\n'
  {
    if s == [] || s[0] != '\n' then 0 else 1 + NewlineRun(s[1..])
  }

  /** `re.sub(r"\n{3,}", "\n\n", text)`. */
  function CollapseNewlines(s: string): string
    decreases |s|
  {
    if s == [] then []
    else
      var n := NewlineRun(s);
      if n >= 3 then ['\n', '\n'] + CollapseNewlines(s[n..])
      else if n >= 1 then s[..n] + CollapseNewlines(s[n..])
      else [s[0]] + CollapseNewlines(s[1..])
  }

  function NormalizeSourceText(s: string): string {
    Strip(CollapseNewlines(CollapseBlanks(FoldCr(FoldCrLf(s)))))
  }

  // What the canonical form promises.

  predicate Lacks(s: string, c: char) { forall k :: 0 <= k < |s| ==> s[k] != c }

  predicate DoubleSpaceAt(s: string, k: nat) {
    k + 1 < |s| && s[k] == ' ' && s[k + 1] == ' '
  }

  predicate TripleNewlineAt(s: string, k: nat) {
    k + 2 < |s| && s[k] == '\n' && s[k + 1] == '\n' && s[k + 2] == '\n'
  }

  ghost predicate NoDoubleSpace(s: string) { forall k: nat :: !DoubleSpaceAt(s, k) }

  ghost predicate NoTripleNewline(s: string) { forall k: nat :: !TripleNewlineAt(s, k) }

  predicate Tight(s: string) { s != [] ==> !IsSpace(s[0]) && !IsSpace(s[|s| - 1]) }

  ghost predicate Canonical(s: string) {
    Lacks(s, '\r') && Lacks(s, '\t') && NoDoubleSpace(s) && NoTripleNewline(s) && Tight(s)
  }

  lemma {:induction false} FoldCrLacksCr(s: string)
    ensures Lacks(FoldCr(s), '\r')
  {
    if s != [] { FoldCrLacksCr(s[1..]); }
  }

  lemma {:induction false} CollapseBlanksShape(s: string)
    requires Lacks(s, '\r')
    ensures Lacks(CollapseBlanks(s), '\r') && Lacks(CollapseBlanks(s), '\t')
    ensures NoDoubleSpace(CollapseBlanks(s))
    ensures s != [] ==> CollapseBlanks(s) != [] && (CollapseBlanks(s)[0] == ' ' <==> IsBlank(s[0]))
    decreases |s|
  {
    if s != [] {
      var rest := if IsBlank(s[0]) then s[BlankRun(s)..] else s[1..];
      CollapseBlanksShape(rest);
      var r := CollapseBlanks(s);
      forall k: nat ensures !DoubleSpaceAt(r, k) {
        if k > 0 { assert !DoubleSpaceAt(CollapseBlanks(rest), k - 1); }
      }
    }
  }

  lemma SliceDouble(s: string, k: nat)
    requires k <= |s|
    ensures NoDoubleSpace(s) ==> NoDoubleSpace(s[k..])
    ensures NoTripleNewline(s) ==> NoTripleNewline(s[k..])
  {
    forall j: nat
      ensures !DoubleSpaceAt(s, k + j) ==> !DoubleSpaceAt(s[k..], j)
      ensures !TripleNewlineAt(s, k + j) ==> !TripleNewlineAt(s[k..], j)
    {
    }
  }

  lemma {:induction false} CollapseNewlinesShape(s: string)
    requires Lacks(s, '\r') && Lacks(s, '\t') && NoDoubleSpace(s)
    ensures Lacks(CollapseNewlines(s), '\r') && Lacks(CollapseNewlines(s), '\t')
    ensures NoDoubleSpace(CollapseNewlines(s)) && NoTripleNewline(CollapseNewlines(s))
    ensures s != [] ==> CollapseNewlines(s) != [] && CollapseNewlines(s)[0] == s[0]
    decreases |s|
  {
    if s != [] {
      var n := NewlineRun(s);
      var k := if n >= 1 then n else 1;
      SliceDouble(s, k);
      hide NoDoubleSpace, NoTripleNewline;
      CollapseNewlinesShape(s[k..]);
      var tail := CollapseNewlines(s[k..]);
      var head := RunHead(s);
      assert CollapseNewlines(s) == head + tail;
      HeadThenTail(s, tail);
    }
  }

  /** What the first run of newlines, or the first other character, collapses to. */
  function RunHead(s: string): (r: string)
    requires s != []
    ensures 1 <= |r| <= 2 && (|r| == 2 ==> r[0] == '\n' && r[1] == '\n')
    ensures r == ['\n', '\n'] || r == [s[0]]
    ensures NewlineRun(s) == 0 ==> r == [s[0]]
  {
    var n := NewlineRun(s);
    if n >= 3 then ['\n', '\n'] else if n >= 1 then s[..n] else [s[0]]
  }

  lemma HeadThenTail(s: string, tail: string)
    requires s != [] && NoDoubleSpace(s) && NoDoubleSpace(tail) && NoTripleNewline(tail)
    requires
      var k := if NewlineRun(s) >= 1 then NewlineRun(s) else 1;
      tail != [] ==> k < |s| && tail[0] == s[k]
    ensures NoDoubleSpace(RunHead(s) + tail) && NoTripleNewline(RunHead(s) + tail)
  {
    var head := RunHead(s);
    assert tail != [] && head[|head| - 1] == ' ' ==> tail[0] != ' ' by { assert !DoubleSpaceAt(s, 0); }
    hide NewlineRun, RunHead;
    assert !DoubleSpaceAt(tail, 0);
    forall j: nat ensures !DoubleSpaceAt(head + tail, j) && !TripleNewlineAt(head + tail, j) {
      if j >= |head| {
        assert !DoubleSpaceAt(tail, j - |head|) && !TripleNewlineAt(tail, j - |head|);
      }
    }
  }

  lemma SliceShape(t: string, i: nat, n: nat)
    requires i <= n <= |t|
    requires Lacks(t, '\r') && Lacks(t, '\t') && NoDoubleSpace(t) && NoTripleNewline(t)
    ensures Lacks(t[i..n], '\r') && Lacks(t[i..n], '\t')
    ensures NoDoubleSpace(t[i..n]) && NoTripleNewline(t[i..n])
  {
    var u := t[i..n];
    assert forall k :: 0 <= k < |u| ==> u[k] == t[i + k];
    forall k: nat ensures !DoubleSpaceAt(u, k) && !TripleNewlineAt(u, k) {
      assert !DoubleSpaceAt(t, i + k) && !TripleNewlineAt(t, i + k);
    }
  }

  /** Normalising yields the canonical form, whatever the input. */
  lemma NormalizedIsCanonical(s: string)
    ensures Canonical(NormalizeSourceText(s))
  {
    var a := FoldCr(FoldCrLf(s));
    FoldCrLacksCr(FoldCrLf(s));
    CollapseBlanksShape(a);
    CollapseNewlinesShape(CollapseBlanks(a));
    var t := CollapseNewlines(CollapseBlanks(a));
    if LeadingSpace(t) < TrimmedLength(t) { SliceShape(t, LeadingSpace(t), TrimmedLength(t)); }
  }

  lemma {:induction false} FoldIdentity(s: string)
    requires Lacks(s, '\r')
    ensures FoldCrLf(s) == s && FoldCr(s) == s
  {
    if s != [] { FoldIdentity(s[1..]); }
  }

  lemma {:induction false} CollapseBlanksIdentity(s: string)
    requires Lacks(s, '\t') && NoDoubleSpace(s)
    ensures CollapseBlanks(s) == s
  {
    if s != [] {
      assert !DoubleSpaceAt(s, 0);
      assert IsBlank(s[0]) ==> BlankRun(s) == 1;
      SliceDouble(s, 1);
      CollapseBlanksIdentity(s[1..]);
    }
  }

  lemma {:induction false} CollapseNewlinesIdentity(s: string)
    requires NoTripleNewline(s)
    ensures CollapseNewlines(s) == s
    decreases |s|
  {
    if s != [] {
      var n := NewlineRun(s);
      assert n < 3 by {
        assert !TripleNewlineAt(s, 0);
      }
      var k := if n >= 1 then n else 1;
      SliceDouble(s, k);
      CollapseNewlinesIdentity(s[k..]);
      assert s == s[..k] + s[k..];
    }
  }

  /** A canonical text is a fixed point, so a second pass would change no offset. */
  lemma CanonicalIsFixed(s: string)
    requires Canonical(s)
    ensures NormalizeSourceText(s) == s
  {
    FoldIdentity(s);
    CollapseBlanksIdentity(s);
    CollapseNewlinesIdentity(s);
    StripOfTight(s);
  }

  /** The canonical texts are exactly the outputs: normalising is idempotent. */
  lemma NormalizeIsIdempotent(s: string)
    ensures NormalizeSourceText(NormalizeSourceText(s)) == NormalizeSourceText(s)
    ensures Canonical(s) <==> NormalizeSourceText(s) == s
  {
    NormalizedIsCanonical(s);
    CanonicalIsFixed(NormalizeSourceText(s));
    if Canonical(s) { CanonicalIsFixed(s); }
  }

  lemma {:induction false} SqueezeOfFold(s: string)
    ensures Squeeze(FoldCrLf(s)) == Squeeze(s) && Squeeze(FoldCr(s)) == Squeeze(s)
    decreases |s|
  {
    if s != [] {
      SqueezeOfFold(s[1..]);
      if |s| >= 2 && s[0] == '\r' && s[1] == '\n' {
        SqueezeOfFold(s[2..]);
        assert s[1..][1..] == s[2..];
      }
    }
  }

  lemma {:induction false} SqueezeOfCollapseBlanks(s: string)
    ensures Squeeze(CollapseBlanks(s)) == Squeeze(s)
    decreases |s|
  {
    if s != [] {
      if IsBlank(s[0]) {
        var n := BlankRun(s);
        SqueezeOfCollapseBlanks(s[n..]);
        assert s == s[..n] + s[n..];
        SqueezeConcat(s[..n], s[n..]);
        SqueezeOfSpace(s[..n]);
      } else {
        SqueezeOfCollapseBlanks(s[1..]);
      }
    }
  }

  lemma {:induction false} SqueezeOfCollapseNewlines(s: string)
    ensures Squeeze(CollapseNewlines(s)) == Squeeze(s)
    decreases |s|
  {
    if s != [] {
      var n := NewlineRun(s);
      if n >= 1 {
        SqueezeOfCollapseNewlines(s[n..]);
        assert s == s[..n] + s[n..];
        SqueezeConcat(s[..n], s[n..]);
        SqueezeOfSpace(s[..n]);
        var head := if n >= 3 then ['\n', '\n'] else s[..n];
        SqueezeConcat(head, CollapseNewlines(s[n..]));
        SqueezeOfSpace(head);
      } else {
        SqueezeOfCollapseNewlines(s[1..]);
      }
    }
  }

  /** Normalising touches whitespace only: every spoken character survives, in order. */
  lemma NormalizeKeepsSpokenText(s: string)
    ensures Squeeze(NormalizeSourceText(s)) == Squeeze(s)
  {
    SqueezeOfFold(s);
    SqueezeOfFold(FoldCrLf(s));
    SqueezeOfCollapseBlanks(FoldCr(FoldCrLf(s)));
    SqueezeOfCollapseNewlines(CollapseBlanks(FoldCr(FoldCrLf(s))));
    SqueezeOfStrip(CollapseNewlines(CollapseBlanks(FoldCr(FoldCrLf(s)))));
  }

  // ---- words and the gaps between them ----

  /** Every kind of line end becomes a line feed, in one pass. */
  function LineFeeds(s: string): string {
    if s == [] then []
    else if s[0] != '\r' then [s[0]] + LineFeeds(s[1..])
    else if |s| >= 2 && s[1] == '\n' then ['\n'] + LineFeeds(s[2..])
    else ['\n'] + LineFeeds(s[1..])
  }

  /** How far apart two words are: joined, a space, a line, or a paragraph. */
  type Distance = d: nat | d <= 3

  function Further(a: Distance, b: Distance): Distance { if a >= b then a else b }

  function Separator(d: Distance): string {
    if d == 0 then "" else if d == 1 then " " else if d == 2 then "\n" else "\n\n"
  }

  /** The words of `s`, each behind what separates it from the one before: two line feeds in a
      row anywhere in the gap make a paragraph, one makes a line, any other whitespace a
      space. `d` is the distance so far, and `run` counts the line feeds just seen. */
  function Layout(s: string, d: Distance, run: nat): string {
    if s == [] then []
    else if s[0] == '\n' then Layout(s[1..], Further(d, if run >= 1 then 3 else 2), run + 1)
    else if IsSpace(s[0]) then Layout(s[1..], Further(d, 1), 0)
    else Separator(d) + [s[0]] + Layout(s[1..], 0, 0)
  }

  /** A text begins a paragraph, whatever whitespace it begins with. */
  function LayoutOf(s: string): string { Layout(s, 3, 0) }

  lemma {:induction false} FoldsAreLineFeeds(s: string)
    ensures FoldCr(FoldCrLf(s)) == LineFeeds(s)
    decreases |s|
  {
    if s != [] {
      if |s| >= 2 && s[0] == '\r' && s[1] == '\n' { FoldsAreLineFeeds(s[2..]); } else { FoldsAreLineFeeds(s[1..]); }
    }
  }

  /** Only a line feed that follows asks how many there were. */
  lemma RunIsForgotten(s: string, d: Distance, run: nat, other: nat)
    requires s != [] ==> s[0] != '\n'
    ensures Layout(s, d, run) == Layout(s, d, other)
  {
  }

  lemma {:induction false} BlanksAreOneSpace(s: string, n: nat, d: Distance, run: nat)
    requires 1 <= n <= |s| && forall k :: 0 <= k < n ==> IsBlank(s[k])
    ensures Layout(s, d, run) == Layout(s[n..], Further(d, 1), 0)
    decreases n
  {
    if n > 1 {
      BlanksAreOneSpace(s[1..], n - 1, Further(d, 1), 0);
      assert s[1..][n - 1..] == s[n..];
    }
  }

  lemma {:induction false} LayoutOfCollapsedBlanks(s: string, d: Distance, run: nat)
    ensures Layout(CollapseBlanks(s), d, run) == Layout(s, d, run)
    decreases |s|
  {
    if s != [] {
      if IsBlank(s[0]) {
        BlanksAreOneSpace(s, BlankRun(s), d, run);
        LayoutOfCollapsedBlanks(s[BlankRun(s)..], Further(d, 1), 0);
      } else {
        forall e: Distance, r: nat { LayoutOfCollapsedBlanks(s[1..], e, r); }
      }
    }
  }

  lemma {:induction false} NewlinesMakeAParagraph(s: string, n: nat, d: Distance, run: nat)
    requires n <= |s| && (forall k :: 0 <= k < n ==> s[k] == '\n') && run + n >= 2 && (run >= 2 ==> d == 3)
    requires n >= 1 || d == 3
    ensures Layout(s, d, run) == Layout(s[n..], 3, run + n)
    decreases n
  {
    if n == 0 {
      assert s[0..] == s;
    } else {
      if n > 1 {
        NewlinesMakeAParagraph(s[1..], n - 1, Further(d, if run >= 1 then 3 else 2), run + 1);
        assert s[1..][n - 1..] == s[n..];
      }
    }
  }

  lemma CollapsedStartsTheSame(s: string)
    ensures s != [] ==> CollapseNewlines(s) != [] && CollapseNewlines(s)[0] == s[0]
    ensures s == [] ==> CollapseNewlines(s) == []
  {
  }

  lemma {:induction false} LayoutOfCollapsedNewlines(s: string, d: Distance, run: nat)
    requires run == 0 || (s != [] ==> s[0] != '\n')
    ensures Layout(CollapseNewlines(s), d, run) == Layout(s, d, run)
    decreases |s|
  {
    if s != [] {
      var n := NewlineRun(s);
      if n >= 1 {
        var rest := s[n..];
        var tail := CollapseNewlines(rest);
        CollapsedStartsTheSame(rest);
        if n == 1 {
          var e := Further(d, 2);
          assert (s[..1] + tail)[1..] == tail && s[1..] == rest;
          LayoutOfCollapsedNewlines(rest, e, 1);
        } else {
          NewlinesMakeAParagraph(s, n, d, 0);
          var head := if n >= 3 then ['\n', '\n'] else s[..n];
          NewlinesMakeAParagraph(head + tail, 2, d, 0);
          assert (head + tail)[2..] == tail;
          LayoutOfCollapsedNewlines(rest, 3, n);
          RunIsForgotten(tail, 3, n, 2);
        }
      } else {
        forall e: Distance { LayoutOfCollapsedNewlines(s[1..], e, 0); }
      }
    }
  }

  lemma {:induction false} LeadingSpaceIsNoGap(s: string, n: nat, run: nat)
    requires n <= |s| && AllSpace(s[..n]) && (n < |s| ==> !IsSpace(s[n]))
    ensures Layout(s, 3, run) == Layout(s[n..], 3, 0)
    decreases n
  {
    if n == 0 {
      assert s[0..] == s;
      RunIsForgotten(s, 3, run, 0);
    } else {
      assert IsSpace(s[..n][0]);
      var rest := s[1..][..n - 1];
      forall k | 0 <= k < |rest| ensures IsSpace(rest[k]) { assert rest[k] == s[..n][k + 1]; }
      assert s[1..][n - 1..] == s[n..];
      LeadingSpaceIsNoGap(s[1..], n - 1, if s[0] == '\n' then run + 1 else 0);
    }
  }

  lemma {:induction false} TrailingSpaceIsNoWord(s: string, t: string, d: Distance, run: nat)
    requires AllSpace(t)
    ensures Layout(s + t, d, run) == Layout(s, d, run)
    decreases |s| + |t|
  {
    if s != [] {
      assert (s + t)[1..] == s[1..] + t;
      forall e: Distance, r: nat { TrailingSpaceIsNoWord(s[1..], t, e, r); }
    } else if t != [] {
      assert s + t == t && [] + t[1..] == t[1..];
      assert forall k :: 0 <= k < |t| - 1 ==> t[1..][k] == t[k + 1];
      forall e: Distance, r: nat { TrailingSpaceIsNoWord([], t[1..], e, r); }
    }
  }

  lemma LayoutOfStrip(s: string)
    ensures LayoutOf(Strip(s)) == LayoutOf(s)
  {
    var i, n := LeadingSpace(s), TrimmedLength(s);
    assert AllSpace(s[..i]);
    LeadingSpaceIsNoGap(s, i, 0);
    if i < n {
      assert s[i..] == s[i..n] + s[n..];
      TrailingSpaceIsNoWord(s[i..n], s[n..], 3, 0);
    } else {
      assert s[i..] == [] + s[i..];
      TrailingSpaceIsNoWord([], s[i..], 3, 0);
    }
  }

  /** Normalising keeps the words, and how far apart they are: what stood in one word, on one
      line or in one paragraph still does, and what did not still does not. */
  lemma NormalizeKeepsTheLayout(s: string)
    ensures LayoutOf(NormalizeSourceText(s)) == LayoutOf(LineFeeds(s))
  {
    FoldsAreLineFeeds(s);
    var a := LineFeeds(s);
    LayoutOfCollapsedBlanks(a, 3, 0);
    LayoutOfCollapsedNewlines(CollapseBlanks(a), 3, 0);
    LayoutOfStrip(CollapseNewlines(CollapseBlanks(a)));
  }
}
