/** The synthesis worker (server/app/synthesis/worker.py): a batch that does not fit is
    halved until it does. The provider is any function of the attempt number and of what
    it is asked to speak. */
module Worker {
  import opened JobModel
  import opened Pipeline

  /** One call of the provider: a duration per chunk, out of memory, or another error. */
  datatype Attempt = Spoken(durations: seq<real>) | OutOfMemory | Broken(error: string)

  /** `NeverFit`: the `SynthesisOOMError` of a single chunk is passed on. */
  datatype BatchResult = Packaged(results: seq<Rendered>) | Raised(error: string) | NeverFit

  type Provider = (nat, seq<Audio>) -> Attempt

  const LENGTH_MISMATCH := "ValueError"

  // ---- the attempts ----

  /** Batch size after `k` halvings, never below one. */
  function Halved(n: nat, k: nat): (m: nat)
    ensures n >= 1 ==> 1 <= m <= n
  {
    if k == 0 then n else
      var m := Halved(n, k - 1) / 2;
      if m >= 1 then m else 1
  }

  /** Attempt `h` is made on the batch halved `h` times. */
  function AttemptAt(batch: seq<Audio>, provider: Provider, h: nat): Attempt
    requires batch != []
  {
    provider(h, batch[..Halved(|batch|, h)])
  }

  /** The attempts before `h` all ran out of memory, and each was on more than one chunk. */
  ghost predicate ComesTo(batch: seq<Audio>, provider: Provider, h: nat)
    requires batch != []
  {
    forall g: nat :: g < h ==> AttemptAt(batch, provider, g).OutOfMemory? && Halved(|batch|, g) > 1
  }

  /** Attempt `h` spoke every chunk it was asked for. */
  predicate Fits(batch: seq<Audio>, provider: Provider, h: nat)
    requires batch != []
  {
    AttemptAt(batch, provider, h).Spoken? && |AttemptAt(batch, provider, h).durations| == Halved(|batch|, h)
  }

  /** Attempt `h` was on a single chunk, and ran out of memory too. */
  predicate IsHopeless(batch: seq<Audio>, provider: Provider, h: nat)
    requires batch != []
  {
    AttemptAt(batch, provider, h).OutOfMemory? && Halved(|batch|, h) == 1
  }

  /** The results are those of attempt `h`, one for each chunk in order. */
  ghost predicate AreResultsOf(batch: seq<Audio>, provider: Provider, h: nat, results: seq<Rendered>)
    requires batch != [] && Fits(batch, provider, h)
  {
    && |results| == Halved(|batch|, h)
    && forall i :: 0 <= i < |results| ==>
         results[i] == Rendered(AttemptAt(batch, provider, h).durations[i], batch[i])
  }

  /** What is raised on account of attempt `h`. */
  predicate IsErrorOf(batch: seq<Audio>, provider: Provider, h: nat, error: string)
    requires batch != []
  {
    match AttemptAt(batch, provider, h)
    case Broken(e) => error == e
    case Spoken(durations) => |durations| != Halved(|batch|, h) && error == LENGTH_MISMATCH
    case OutOfMemory => false
  }

  /** What the worker has to answer: that of the one attempt that settles the batch. */
  ghost predicate IsAnswer(batch: seq<Audio>, provider: Provider, r: BatchResult)
    requires batch != []
  {
    && (r.Packaged? <==> exists h: nat :: ComesTo(batch, provider, h) && Fits(batch, provider, h))
    && (r.NeverFit? <==> exists h: nat :: ComesTo(batch, provider, h) && IsHopeless(batch, provider, h))
    && (forall h: nat :: ComesTo(batch, provider, h) && Fits(batch, provider, h) ==>
         r.Packaged? && AreResultsOf(batch, provider, h, r.results))
    && (r.Raised? ==> exists h: nat :: ComesTo(batch, provider, h) && IsErrorOf(batch, provider, h, r.error))
  }

  /** Only one attempt settles a batch: any further one is made on more than one chunk, after
      the one before it ran out of memory. */
  lemma OneAttemptSettles(batch: seq<Audio>, provider: Provider, g: nat, h: nat)
    requires batch != [] && ComesTo(batch, provider, g) && ComesTo(batch, provider, h)
    requires !(AttemptAt(batch, provider, g).OutOfMemory? && Halved(|batch|, g) > 1)
    requires !(AttemptAt(batch, provider, h).OutOfMemory? && Halved(|batch|, h) > 1)
    ensures g == h
  {
    hide AttemptAt, Halved;
  }

  lemma Settles(batch: seq<Audio>, provider: Provider, h: nat, r: BatchResult)
    requires batch != [] && ComesTo(batch, provider, h)
    requires match r
             case Packaged(results) => Fits(batch, provider, h) && AreResultsOf(batch, provider, h, results)
             case Raised(error) => IsErrorOf(batch, provider, h, error)
             case NeverFit => IsHopeless(batch, provider, h)
    ensures IsAnswer(batch, provider, r)
  {
    hide ComesTo, AttemptAt, Halved, AreResultsOf;
    forall g: nat | ComesTo(batch, provider, g) && (Fits(batch, provider, g) || IsHopeless(batch, provider, g))
      ensures g == h
    {
      OneAttemptSettles(batch, provider, g, h);
    }
  }

  // ---- the worker as it runs ----

  /** `render_batch` around the loop of `_synthesize_with_oom_retry`. */
  method RenderBatch(batch: seq<Audio>, provider: Provider) returns (r: BatchResult)
    ensures batch == [] ==> r == Packaged([])
    ensures batch != [] ==> IsAnswer(batch, provider, r)
  {
    if batch == [] { return Packaged([]); }
    var chunks, k := batch, 0;
    hide IsAnswer;
    while true
      invariant chunks == batch[..Halved(|batch|, k)] && ComesTo(batch, provider, k)
      decreases |chunks|
    {
      match provider(k, chunks) {
        case Broken(error) =>
          Settles(batch, provider, k, Raised(error));
          return Raised(error);
        case Spoken(durations) =>
          if |durations| != |chunks| {
            Settles(batch, provider, k, Raised(LENGTH_MISMATCH));
            return Raised(LENGTH_MISMATCH);
          }
          var packaged := PackageChunks(chunks, durations);
          Settles(batch, provider, k, Packaged(packaged));
          return Packaged(packaged);
        case OutOfMemory =>
          if |chunks| <= 1 {
            Settles(batch, provider, k, NeverFit);
            return NeverFit;
          }
          var size := if |chunks| / 2 >= 1 then |chunks| / 2 else 1;
          chunks := chunks[..size];
          k := k + 1;
      }
    }
  }

  /** `_package_chunks`: chunk by chunk, in order. */
  method PackageChunks(chunks: seq<Audio>, durations: seq<real>) returns (packaged: seq<Rendered>)
    requires |durations| == |chunks|
    ensures |packaged| == |chunks|
    ensures forall i :: 0 <= i < |chunks| ==> packaged[i] == Rendered(durations[i], chunks[i])
  {
    packaged := [];
    for i := 0 to |chunks|
      invariant |packaged| == i && forall k :: 0 <= k < i ==> packaged[k] == Rendered(durations[k], chunks[k])
    {
      packaged := packaged + [Rendered(durations[i], chunks[i])];
    }
  }

  // ---- what the answer means to the scheduler ----

  /** Whatever the worker packages speaks a non-empty prefix of the batch, result `i` chunk `i`,
      and is a return the pipeline knows. */
  lemma PackagedIsAReturn(batch: seq<Audio>, provider: Provider, r: BatchResult)
    requires batch != [] && IsAnswer(batch, provider, r) && r.Packaged?
    ensures 0 < |r.results| <= |batch|
    ensures forall i :: 0 <= i < |r.results| ==> r.results[i].audio == batch[i]
    ensures exists durations: seq<real> :: 0 < |durations| <= |batch| && r.results == Package(batch, durations)
  {
    var h: nat :| ComesTo(batch, provider, h) && Fits(batch, provider, h);
    assert AreResultsOf(batch, provider, h, r.results);
    assert r.results == Package(batch, AttemptAt(batch, provider, h).durations);
  }

  /** The first halving that is no larger than `size`, which is at least half of `size`. */
  lemma FirstHalving(n: nat, size: nat) returns (h: nat)
    requires n >= 1 && size >= 1
    ensures Halved(n, h) <= size && forall g: nat :: g < h ==> Halved(n, g) > size
    ensures h > 0 ==> 2 * Halved(n, h) >= size
  {
    h := 0;
    while Halved(n, h) > size
      invariant forall g: nat :: g < h ==> Halved(n, g) > size
      decreases Halved(n, h)
    {
      h := h + 1;
    }
  }

  /** When exactly the batches of up to `size` chunks fit, the worker renders one that does,
      and at least half of what would have fit. */
  lemma HalvingGetsThere(batch: seq<Audio>, provider: Provider, r: BatchResult, size: nat)
    requires batch != [] && IsAnswer(batch, provider, r) && size >= 1
    requires forall h: nat ::
      if Halved(|batch|, h) <= size then Fits(batch, provider, h) else AttemptAt(batch, provider, h).OutOfMemory?
    ensures r.Packaged? && |r.results| <= size && (|r.results| == |batch| || 2 * |r.results| >= size)
  {
    var h := FirstHalving(|batch|, size);
    assert h == 0 ==> Halved(|batch|, h) == |batch|;
    hide Halved, AttemptAt;
    assert ComesTo(batch, provider, h) && Fits(batch, provider, h);
    assert AreResultsOf(batch, provider, h, r.results);
  }
}
