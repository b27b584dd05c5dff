/** The chunk planner (server/app/chunking/planner.py): a pure function of a text and
    an offset that cuts the next chunk out of a bounded window. */
module Planner {
  import opened Wrappers
  import opened Text
  import N = Normalize

  /** `target` is `chunk_target_chars`, `limit` is `int(target * 1.2)` and `minimum`
      is `max(40, int(target * 0.45))`. Only these bounds between them are used. */
  datatype PlannerConfig = PlannerConfig(target: nat, limit: nat, minimum: nat) {
    predicate Valid() { 1 <= target <= limit && 1 <= minimum }
  }

  datatype ChunkPlan = ChunkPlan(text: string, charStart: nat, charEnd: nat)

  // The three patterns of `_find_boundary`: `\n\n+`, `(?<=[.!?])\s+`, `(?<=[,;:])\s+`.
  datatype Pattern = Paragraph | Sentence | Clause

  predicate Introduces(p: Pattern, c: char) {
    match p
    case Paragraph => false
    case Sentence => c == '.' || c == '!' || c == '?'
    case Clause => c == ',' || c == ';' || c == ':'
  }

  /** A match of `p` in `s` ends at `e`: a whole run of newlines (at least two), or a
      whole run of whitespace that follows one of the pattern's characters. */
  predicate IsBoundaryEnd(s: string, p: Pattern, e: nat)
    requires e <= |s|
  {
    match p
    case Paragraph =>
      e >= 2 && s[e - 2] == '\n' && s[e - 1] == '\n' && (e == |s| || s[e] != '\n')
    case _ =>
      && e >= 1 && IsSpace(s[e - 1]) && (e == |s| || !IsSpace(s[e]))
      && var n := TrimmedLength(s[..e]); n >= 1 && Introduces(p, s[n - 1])
  }

  /** The last boundary among the first `n` positions. */
  function LastBoundaryUpTo(s: string, p: Pattern, n: nat): (r: Option<nat>)
    requires n <= |s|
    ensures r.Some? ==> r.value <= n && IsBoundaryEnd(s, p, r.value)
    ensures forall e :: 0 <= e <= n && IsBoundaryEnd(s, p, e) ==> r.Some? && e <= r.value
  {
    if IsBoundaryEnd(s, p, n) then Some(n)
    else if n == 0 then None
    else LastBoundaryUpTo(s, p, n - 1)
  }

  function LastBoundary(s: string, p: Pattern): Option<nat> { LastBoundaryUpTo(s, p, |s|) }

  /** A regular-expression match can start at `i`. */
  predicate MatchStarts(s: string, p: Pattern, i: nat)
    requires i < |s|
  {
    match p
    case Paragraph => i + 1 < |s| && s[i] == '\n' && s[i + 1] == '\n'
    case _ => i >= 1 && Introduces(p, s[i - 1]) && IsSpace(s[i])
  }

  predicate InRun(p: Pattern, c: char) { if p.Paragraph? then c == '\n' else IsSpace(c) }

  /** The scan never stands inside a run whose front it should have matched. */
  predicate NotInsideMatch(s: string, p: Pattern, i: nat)
    requires i <= |s|
  {
    0 < i < |s| && InRun(p, s[i - 1]) && InRun(p, s[i]) ==>
      !p.Paragraph? && var n := TrimmedLength(s[..i]); n == 0 || !Introduces(p, s[n - 1])
  }

  lemma TrimmedLengthExtend(s: string, i: nat, e: nat)
    requires i <= e <= |s|
    requires forall k :: i <= k < e ==> IsSpace(s[k])
    ensures TrimmedLength(s[..e]) == TrimmedLength(s[..i])
    decreases e
  {
    if i < e {
      assert s[..e][..e - 1] == s[..e - 1];
      TrimmedLengthExtend(s, i, e - 1);
    }
  }

  lemma SkipUnmatched(s: string, p: Pattern, i: nat)
    requires i < |s| && NotInsideMatch(s, p, i) && !MatchStarts(s, p, i)
    ensures !IsBoundaryEnd(s, p, i + 1)
    ensures NotInsideMatch(s, p, i + 1)
  {
    if !p.Paragraph? && IsSpace(s[i]) {
      TrimmedLengthExtend(s, i, i + 1);
      if i > 0 && !IsSpace(s[i - 1]) { assert TrimmedLength(s[..i]) == i; }
    }
  }

  lemma SkipMatched(s: string, p: Pattern, i: nat, e: nat)
    requires i < e <= |s| && NotInsideMatch(s, p, i) && MatchStarts(s, p, i)
    requires forall k :: i <= k < e ==> InRun(p, s[k])
    requires e == |s| || !InRun(p, s[e])
    ensures IsBoundaryEnd(s, p, e)
  {
    if !p.Paragraph? {
      assert !IsSpace(s[i - 1]);
      TrimmedLengthExtend(s, i, e);
      assert TrimmedLength(s[..i]) == i;
    } else {
      assert s[i] == s[i + 1] == '\n';
    }
  }

  /** `_last_boundary`: the loop over `re.finditer` keeps the end of the last match. */
  method FindLastBoundary(s: string, p: Pattern) returns (last: Option<nat>)
    ensures last == LastBoundary(s, p)
  {
    last := None;
    var i := 0;
    while i < |s|
      invariant i <= |s| && NotInsideMatch(s, p, i)
      invariant last == LastBoundaryUpTo(s, p, i)
    {
      if MatchStarts(s, p, i) {
        var e := i + 1;
        while e < |s| && InRun(p, s[e])
          invariant i < e <= |s|
          invariant forall k :: i <= k < e ==> InRun(p, s[k])
        {
          e := e + 1;
        }
        SkipMatched(s, p, i, e);
        last, i := Some(e), e;
      } else {
        SkipUnmatched(s, p, i);
        i := i + 1;
      }
    }
  }

  /** `s.rfind(" ", 0, n)`, with `None` for -1. */
  function LastSpace(s: string, n: nat): (r: Option<nat>)
    requires n <= |s|
    ensures r.Some? ==> r.value < n && s[r.value] == ' '
    ensures forall k :: 0 <= k < n && s[k] == ' ' ==> r.Some? && k <= r.value
  {
    if n == 0 then None else if s[n - 1] == ' ' then Some(n - 1) else LastSpace(s, n - 1)
  }

  function Min(a: nat, b: nat): nat { if a <= b then a else b }

  predicate Accepted(c: Option<nat>, cfg: PlannerConfig) { c.Some? && c.value >= cfg.minimum }

  function FindBoundary(window: string, cfg: PlannerConfig): (r: nat)
    requires cfg.Valid()
    ensures r <= |window| && r <= cfg.limit
    ensures window != [] ==> r > 0
  {
    if |window| <= cfg.target then |window| else
      var head := window[..Min(|window|, cfg.limit)];
      var paragraph := LastBoundary(head, Paragraph);
      var sentence := LastBoundary(head, Sentence);
      var clause := LastBoundary(head, Clause);
      if Accepted(paragraph, cfg) then paragraph.value
      else if Accepted(sentence, cfg) then sentence.value
      else if Accepted(clause, cfg) then clause.value
      else
        var space := LastSpace(window, |head|);
        if space.Some? && space.value > 0 then space.value else |head|
  }

  predicate IsEnd(s: string, p: Pattern, e: nat) { e <= |s| && IsBoundaryEnd(s, p, e) }

  /** Some boundary of kind `p` leaves enough text. */
  ghost predicate HasBoundary(s: string, p: Pattern, minimum: nat) {
    exists e: nat :: IsEnd(s, p, e) && e >= minimum
  }

  ghost predicate IsLastBoundary(s: string, p: Pattern, cut: nat) {
    IsEnd(s, p, cut) && forall e: nat :: IsEnd(s, p, e) ==> e <= cut
  }

  ghost predicate HasInnerSpace(s: string) { exists k :: 0 < k < |s| && s[k] == ' ' }

  /** Where a window is cut. One that is no longer than the target is taken whole. Otherwise the
      limit applies, and a paragraph end is preferred to a sentence end, that to a clause end,
      that to a space, each as late as possible; without any of them the limit itself is the
      cut. The three boundaries count only if they leave at least the minimum. */
  lemma CutsAtTheBestBoundary(window: string, cfg: PlannerConfig)
    requires cfg.Valid()
    ensures |window| <= cfg.target ==> FindBoundary(window, cfg) == |window|
    ensures |window| > cfg.target ==>
      var head, cut := window[..Min(|window|, cfg.limit)], FindBoundary(window, cfg);
      if HasBoundary(head, Paragraph, cfg.minimum) then IsLastBoundary(head, Paragraph, cut)
      else if HasBoundary(head, Sentence, cfg.minimum) then IsLastBoundary(head, Sentence, cut)
      else if HasBoundary(head, Clause, cfg.minimum) then IsLastBoundary(head, Clause, cut)
      else if HasInnerSpace(head) then
        0 < cut < |head| && head[cut] == ' ' && forall k :: cut < k < |head| ==> head[k] != ' '
      else cut == |head|
  {
    if |window| > cfg.target {
      var head := window[..Min(|window|, cfg.limit)];
      AcceptedExactlyWhen(head, Paragraph, cfg);
      AcceptedExactlyWhen(head, Sentence, cfg);
      AcceptedExactlyWhen(head, Clause, cfg);
      hide HasBoundary, IsLastBoundary, LastBoundary, Accepted;
      assert forall k :: 0 <= k < |head| ==> head[k] == window[k];
    }
  }

  lemma AcceptedExactlyWhen(s: string, p: Pattern, cfg: PlannerConfig)
    ensures Accepted(LastBoundary(s, p), cfg) <==> HasBoundary(s, p, cfg.minimum)
    ensures Accepted(LastBoundary(s, p), cfg) ==> IsLastBoundary(s, p, LastBoundary(s, p).value)
  {
    var last := LastBoundary(s, p);
    hide IsBoundaryEnd;
    if last.Some? { assert IsEnd(s, p, last.value); }
  }

  /** The plan that `window`, which starts at `offset` of `text`, yields when cut at `cut`. */
  function PlanAt(text: string, offset: nat, window: string, cut: nat): Option<ChunkPlan>
    requires offset < |text| && window <= text[offset..] && cut <= |window|
  {
    if AllSpace(window) || Strip(window[..cut]) == [] then None
    else Some(ChunkPlan(Strip(window[..cut]), offset, offset + cut + LeadingSpace(text[offset + cut..])))
  }

  function PlanFrom(text: string, offset: nat, window: string, cfg: PlannerConfig): Option<ChunkPlan>
    requires cfg.Valid() && offset < |text|
    requires window <= text[offset..]
  {
    PlanAt(text, offset, window, FindBoundary(window, cfg))
  }

  /** `plan_next`; an exhausted cursor is a negative offset. */
  function PlanNext(text: string, offset: int, cfg: PlannerConfig): (r: Option<ChunkPlan>)
    requires cfg.Valid()
    ensures r.Some? ==> 0 <= offset == r.value.charStart < r.value.charEnd <= |text|
  {
    if offset < 0 || offset >= |text| then None else
      var window := text[offset..Min(|text|, offset + cfg.limit + 1)];
      assert window <= text[offset..];
      PlanFrom(text, offset, window, cfg)
  }

  /** The planner the bounded window replaced: it looks at everything that is left. */
  function PlanNextWhole(text: string, offset: int, cfg: PlannerConfig): Option<ChunkPlan>
    requires cfg.Valid()
  {
    if offset < 0 || offset >= |text| then None else PlanFrom(text, offset, text[offset..], cfg)
  }

  lemma FindBoundaryIsLocal(rest: string, window: string, cfg: PlannerConfig)
    requires cfg.Valid() && window == rest[..Min(|rest|, cfg.limit + 1)]
    ensures FindBoundary(rest, cfg) == FindBoundary(window, cfg)
  {
    if |rest| > cfg.target {
      var n := Min(|rest|, cfg.limit);
      assert Min(|window|, cfg.limit) == n;
      assert rest[..n] == window[..n];
      LastSpaceIsLocal(rest, window, n);
    } else {
      assert window == rest;
    }
  }

  lemma {:induction false} LastSpaceIsLocal(a: string, b: string, n: nat)
    requires n <= |a| && n <= |b| && a[..n] == b[..n]
    ensures LastSpace(a, n) == LastSpace(b, n)
  {
    if n > 0 {
      assert a[n - 1] == a[..n][n - 1] == b[..n][n - 1] == b[n - 1];
      assert a[..n - 1] == a[..n][..n - 1] == b[..n][..n - 1] == b[..n - 1];
      LastSpaceIsLocal(a, b, n - 1);
    }
  }

  lemma PlanAtIsLocal(text: string, offset: nat, window: string, cut: nat)
    requires offset < |text| && window <= text[offset..] && cut <= |window|
    ensures PlanAt(text, offset, window, cut) == PlanAt(text, offset, text[offset..], cut)
  {
    var rest := text[offset..];
    assert rest[..cut] == window[..cut];
    if AllSpace(window) {
      assert forall k :: 0 <= k < cut ==> rest[..cut][k] == window[k];
    } else {
      var k :| 0 <= k < |window| && !IsSpace(window[k]);
      assert rest[k] == window[k];
    }
  }

  /** The bounded window loses nothing: on every text, at every offset, it plans exactly
      what a planner that reads the whole remainder plans. */
  lemma BoundedWindowRefinesWhole(text: string, offset: int, cfg: PlannerConfig)
    requires cfg.Valid()
    ensures PlanNext(text, offset, cfg) == PlanNextWhole(text, offset, cfg)
  {
    hide IsSpace, FindBoundary, PlanAt;
    if 0 <= offset < |text| {
      var rest := text[offset..];
      var window := text[offset..Min(|text|, offset + cfg.limit + 1)];
      assert window == rest[..Min(|rest|, cfg.limit + 1)];
      FindBoundaryIsLocal(rest, window, cfg);
      PlanAtIsLocal(text, offset, window, FindBoundary(window, cfg));
    }
  }

  lemma LeadingSpaceIs(s: string, n: nat)
    requires n <= |s| && AllSpace(s[..n]) && (n < |s| ==> !IsSpace(s[n]))
    ensures LeadingSpace(s) == n
  {
  }

  /** `plan_next` as it runs, with its loops. */
  method PlanNextChunk(text: string, offset: int, cfg: PlannerConfig) returns (plan: Option<ChunkPlan>)
    requires cfg.Valid()
    ensures plan == PlanNext(text, offset, cfg)
  {
    hide IsSpace, FindBoundary, LeadingSpace, TrimmedLength, Strip;
    if offset < 0 || offset >= |text| { return None; }
    var window := text[offset..Min(|text|, offset + cfg.limit + 1)];
    if Strip(window) == [] { return None; }
    var cut := FindBoundaryIn(window, cfg);
    var chunkText := Strip(window[..cut]);
    if chunkText == [] { return None; }
    var end := offset + cut;
    while end < |text| && IsSpace(text[end])
      invariant offset + cut <= end <= |text|
      invariant forall k :: offset + cut <= k < end ==> IsSpace(text[k])
    {
      end := end + 1;
    }
    assert text[offset + cut..][..end - (offset + cut)] == text[offset + cut..end];
    LeadingSpaceIs(text[offset + cut..], end - (offset + cut));
    plan := Some(ChunkPlan(chunkText, offset, end));
  }

  /** `_find_boundary` as it runs: first acceptable candidate, then the hard limit. */
  method FindBoundaryIn(window: string, cfg: PlannerConfig) returns (cut: nat)
    requires cfg.Valid()
    ensures cut == FindBoundary(window, cfg)
  {
    if |window| <= cfg.target { return |window|; }
    var head := window[..Min(|window|, cfg.limit)];
    var candidates: seq<Option<nat>> := [];
    for k := 0 to 3
      invariant |candidates| == k
      invariant k > 0 ==> candidates[0] == LastBoundary(head, Paragraph)
      invariant k > 1 ==> candidates[1] == LastBoundary(head, Sentence)
      invariant k > 2 ==> candidates[2] == LastBoundary(head, Clause)
    {
      var c := FindLastBoundary(head, if k == 0 then Paragraph else if k == 1 then Sentence else Clause);
      candidates := candidates + [c];
    }
    for k := 0 to 3
      invariant forall j :: 0 <= j < k ==> !Accepted(candidates[j], cfg)
    {
      if Accepted(candidates[k], cfg) { return candidates[k].value; }
    }
    var space := LastSpace(window, |head|);
    cut := if space.Some? && space.value > 0 then space.value else |head|;
  }

  /** Planning can continue from here: the text is used up, or a word starts here. */
  predicate OnWord(text: string, offset: int) {
    0 <= offset <= |text| && (offset < |text| ==> !IsSpace(text[offset]))
  }

  /** One planning step from a word: it advances, its chunk is neither empty nor longer
      than the limit, only whitespace separates the chunk from the next offset, which is
      again a word or the end, and exactly the span's spoken characters are in the chunk. */
  lemma PlanNextAdvances(text: string, offset: int, cfg: PlannerConfig)
    requires cfg.Valid() && OnWord(text, offset)
    ensures PlanNext(text, offset, cfg).None? <==> offset == |text|
    ensures PlanNext(text, offset, cfg).Some? ==>
      var plan := PlanNext(text, offset, cfg).value;
      && plan.charStart == offset < plan.charEnd && OnWord(text, plan.charEnd)
      && 0 < |plan.text| <= cfg.limit
      && offset + |plan.text| <= plan.charEnd
      && plan.text == text[offset..offset + |plan.text|]
      && AllSpace(text[offset + |plan.text|..plan.charEnd])
      && Squeeze(plan.text) == Squeeze(text[offset..plan.charEnd])
  {
    hide IsSpace, FindBoundary, PlanAt, LeadingSpace, TrimmedLength, Squeeze, Strip;
    if offset < |text| {
      var window := text[offset..Min(|text|, offset + cfg.limit + 1)];
      assert window[0] == text[offset];
      var cut := FindBoundary(window, cfg);
      PlanAtAdvances(text, offset, window, cut);
    }
  }

  lemma PlanAtAdvances(text: string, offset: nat, window: string, cut: nat)
    requires offset < |text| && !IsSpace(text[offset])
    requires window <= text[offset..] && 0 < cut <= |window|
    ensures PlanAt(text, offset, window, cut).Some?
    ensures
      var plan := PlanAt(text, offset, window, cut).value;
      && plan.charStart == offset < plan.charEnd && OnWord(text, plan.charEnd)
      && 0 < |plan.text| <= cut
      && offset + |plan.text| <= plan.charEnd
      && plan.text == text[offset..offset + |plan.text|]
      && AllSpace(text[offset + |plan.text|..plan.charEnd])
      && Squeeze(plan.text) == Squeeze(text[offset..plan.charEnd])
  {
    hide IsSpace, TrimmedLength, Squeeze, LeadingSpace;
    var head := window[..cut];
    assert head[0] == window[0] == text[offset..][0] == text[offset];
    var gap := LeadingSpace(text[offset + cut..]);
    var end := offset + cut + gap;
    assert end < |text| ==> text[end] == text[offset + cut..][gap];
    assert LeadingSpace(head) == 0;
    var n := TrimmedLength(head);
    assert head == text[offset..offset + cut];
    assert Strip(head) == head[..n] == text[offset..offset + n];
    var tail := text[offset + n..end];
    assert text[offset + n..offset + cut] == head[n..];
    assert text[offset + cut..end] == text[offset + cut..][..gap];
    TailIsSpace(text, offset + n, offset + cut, end);
    assert text[offset..end] == text[offset..offset + n] + tail;
    SqueezeConcat(text[offset..offset + n], tail);
    SqueezeOfSpace(tail);
  }

  lemma TailIsSpace(s: string, i: nat, j: nat, k: nat)
    requires i <= j <= k <= |s|
    requires AllSpace(s[i..j]) && AllSpace(s[j..k])
    ensures AllSpace(s[i..k])
  {
    forall m | 0 <= m < k - i ensures IsSpace(s[i..k][m]) {
      if i + m < j { assert s[i..k][m] == s[i..j][m]; } else { assert s[i..k][m] == s[j..k][i + m - j]; }
    }
  }

  /** A freshly normalised text is a place planning can start. */
  lemma NormalizedStartsOnWord(source: string)
    ensures OnWord(N.NormalizeSourceText(source), 0)
  {
    N.NormalizedIsCanonical(source);
  }

  /** The first offset after whitespace matters: inside a whitespace run longer than the
      window the planner gives up although text is left. */
  lemma WhitespaceOffsetCanStop()
    ensures exists text: string, offset: nat, cfg: PlannerConfig ::
      && cfg.Valid() && offset < |text|
      && PlanNext(text, offset, cfg).None? && !AllSpace(text[offset..])
  {
    var cfg := PlannerConfig(1, 1, 40);
    var text := "   a";
    assert text[0..2] == "  ";
    assert PlanNext(text, 0, cfg).None?;
    assert text[0..][3] == 'a' && !IsSpace('a');
  }
}
