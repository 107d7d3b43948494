/** The marker detector of gcps-detector.service.ts: run an ordered list of
    cascade classifiers over an image, stop at the first classifier that
    finds anything, and answer the centre of its first rectangle. OpenCV
    itself is foreign: its detection pass is the function `run` from
    classifier position to outcome, and every handle the loop allocates or
    deletes is recorded, in order, in `OpenCv.calls`. */
module GcpsDetector {
  import opened Common
  import opened Storage

  /** An OpenCV rectangle (integer pixels). */
  datatype Rect = Rect(x: int, y: int, width: int, height: int)

  datatype Size = Size(width: int, height: int)

  /** The arguments of `detectMultiScale` after the image and the output vector. */
  datatype DetectParams = DetectParams(scaleFactor: real, minNeighbors: int, flags: int,
                                       minSize: Size, maxSize: Size)

  /** The classifier files, most specific first. */
  const ClassifierFiles: seq<string> := ["gcp-square-base.xml", "gcp-bw-quads.xml"]

  const CascadeDir: string := "assets/opencv/data/haarcascades/"

  /** Scale step 1.05, 3 neighbours, flags 0, minimum 30x30, maximum 0x0 (no cap). */
  const Params: DetectParams := DetectParams(1.05, 3, 0, Size(30, 30), Size(0, 0))

  /** The centre of a rectangle, in exact arithmetic. */
  function Centre(r: Rect): CoordsXY
  {
    CoordsXY(r.x as real + r.width as real / 2.0, r.y as real + r.height as real / 2.0)
  }

  /** Library objects that are not garbage-collected: the decoded image, and
      per classifier position its classifier and its rectangle vector. */
  datatype Handle = ImageMat | Cascade(index: nat) | RectList(index: nat)

  /** One call into the library, as far as the loop's discipline is concerned. */
  datatype CvCall =
    | Alloc(h: Handle)
    | LoadCascade(index: nat, path: string)
    | RunDetect(index: nat, params: DetectParams)
    | Free(h: Handle)

  /** What `cv.imread` does: decode the image, or throw. */
  datatype Decoded = Decoded | DecodeThrew(cause: string)

  /** What one detection pass does: fill the vector, or throw. */
  datatype Detection = Rects(rects: seq<Rect>) | DetectThrew(cause: string)

  /** How the returned promise settles. */
  datatype Settled = Resolved(coords: Option<CoordsXY>) | Rejected(cause: string)

  predicate Miss(d: Detection) { d.Rects? && d.rects == [] }

  predicate Hit(d: Detection) { d.Rects? && d.rects != [] }

  /** Owner of a handle: the classifier position it belongs to, -1 for the image. */
  function Owner(h: Handle): int
  {
    match h
    case ImageMat => -1
    case Cascade(k) => k
    case RectList(k) => k
  }

  // ---------------------------------------------------------------------
  // The loop, as functions

  /** Where the loop ends when started at classifier `k`. */
  datatype LoopEnd = Found(first: Rect) | Exhausted | Threw(cause: string)

  function ScanFrom(cs: seq<string>, k: nat, run: nat -> Detection): LoopEnd
    decreases |cs| - k
  {
    if k >= |cs| then Exhausted
    else match run(k)
      case DetectThrew(e) => Threw(e)
      case Rects(rs) => if rs != [] then Found(rs[0]) else ScanFrom(cs, k + 1, run)
  }

  /** The library calls of iteration `k`. As written, the two deletes are
      reached only when detection returns; `guarded` releases them also
      when it throws (a cleanup block around the iteration). */
  function IterationCalls(cs: seq<string>, k: nat, d: Detection, guarded: bool): seq<CvCall>
    requires k < |cs|
  {
    [Alloc(Cascade(k)), LoadCascade(k, CascadeDir + cs[k]), Alloc(RectList(k)), RunDetect(k, Params)] +
    (if d.Rects? || guarded then [Free(RectList(k)), Free(Cascade(k))] else [])
  }

  /** The library calls of the loop started at classifier `k`. */
  function CallsFrom(cs: seq<string>, k: nat, run: nat -> Detection, guarded: bool): seq<CvCall>
    decreases |cs| - k
  {
    if k >= |cs| then []
    else IterationCalls(cs, k, run(k), guarded) + (if Miss(run(k)) then CallsFrom(cs, k + 1, run, guarded) else [])
  }

  /** How `detect` settles, given how decoding went and what each classifier finds. */
  function Outcome(cs: seq<string>, decoded: Decoded, run: nat -> Detection): Settled
  {
    if decoded.DecodeThrew? then Rejected(decoded.cause)
    else match ScanFrom(cs, 0, run)
      case Found(rect) => Resolved(Some(Centre(rect)))
      case Exhausted => Resolved(None)
      case Threw(e) => Rejected(e)
  }

  function Calls(cs: seq<string>, decoded: Decoded, run: nat -> Detection, guarded: bool): seq<CvCall>
  {
    if decoded.DecodeThrew? then []
    else
      [Alloc(ImageMat)] + CallsFrom(cs, 0, run, guarded) +
      (if ScanFrom(cs, 0, run).Threw? && !guarded then [] else [Free(ImageMat)])
  }

  /** The library calls `detect` makes, as written. */
  function DetectCalls(cs: seq<string>, decoded: Decoded, run: nat -> Detection): seq<CvCall>
  {
    Calls(cs, decoded, run, false)
  }

  /** The library calls with every handle released on every exit path. */
  function GuardedDetectCalls(cs: seq<string>, decoded: Decoded, run: nat -> Detection): seq<CvCall>
  {
    Calls(cs, decoded, run, true)
  }

  /** Positions of the classifiers loaded, in call order. */
  function LoadedIndices(calls: seq<CvCall>): seq<nat>
  {
    if calls == [] then []
    else (if calls[0].LoadCascade? then [calls[0].index] else []) + LoadedIndices(calls[1..])
  }

  /** Number of classifiers the loop started at `k` tries. */
  function Tried(cs: seq<string>, k: nat, run: nat -> Detection): nat
    decreases |cs| - k
  {
    if k >= |cs| then 0
    else if Miss(run(k)) then 1 + Tried(cs, k + 1, run)
    else 1
  }

  // ---------------------------------------------------------------------
  // Properties of the loop

  /** The loop finds nothing exactly when every classifier from `k` on
      returns an empty vector. */
  lemma {:induction false} ScanExhaustedIff(cs: seq<string>, k: nat, run: nat -> Detection)
    ensures ScanFrom(cs, k, run) == Exhausted <==> forall j :: k <= j < |cs| ==> Miss(run(j))
    decreases |cs| - k
  {
    if k < |cs| {
      ScanExhaustedIff(cs, k + 1, run);
    }
  }

  /** The first classifier with a rectangle decides: the loop ends at its
      first rectangle and loads or runs no later classifier. */
  lemma {:induction false} ScanFirstHit(cs: seq<string>, k: nat, run: nat -> Detection, h: nat, guarded: bool)
    requires k <= h < |cs|
    requires forall j :: k <= j < h ==> Miss(run(j))
    requires Hit(run(h))
    ensures ScanFrom(cs, k, run) == Found(run(h).rects[0])
    ensures Tried(cs, k, run) == h - k + 1
    ensures forall c :: c in CallsFrom(cs, k, run, guarded) && (c.LoadCascade? || c.RunDetect?) ==> c.index <= h
    decreases h - k
  {
    if k < h {
      ScanFirstHit(cs, k + 1, run, h, guarded);
    }
  }

  /** Every load reads the classifier's own file, and every detection pass
      uses the fixed parameters. */
  lemma {:induction false} CallsUseFixedArguments(cs: seq<string>, k: nat, run: nat -> Detection, guarded: bool)
    ensures forall c :: c in CallsFrom(cs, k, run, guarded) && c.LoadCascade? ==>
              c.index < |cs| && c.path == CascadeDir + cs[c.index]
    ensures forall c :: c in CallsFrom(cs, k, run, guarded) && c.RunDetect? ==>
              c.params == DetectParams(1.05, 3, 0, Size(30, 30), Size(0, 0))
    decreases |cs| - k
  {
    if k < |cs| {
      CallsUseFixedArguments(cs, k + 1, run, guarded);
    }
  }

  /** Classifiers are loaded strictly in list order, each once, from `k`. */
  lemma {:induction false} LoadsInOrder(cs: seq<string>, k: nat, run: nat -> Detection, guarded: bool)
    ensures var l := LoadedIndices(CallsFrom(cs, k, run, guarded));
            |l| == Tried(cs, k, run) && forall j :: 0 <= j < |l| ==> l[j] == k + j
    decreases |cs| - k
  {
    if k < |cs| {
      LoadsInOrder(cs, k + 1, run, guarded);
      var it := IterationCalls(cs, k, run(k), guarded);
      var rest := if Miss(run(k)) then CallsFrom(cs, k + 1, run, guarded) else [];
      LoadedIndicesAppend(it, rest);
      IterationLoadsOnce(cs, k, run(k), guarded);
    }
  }

  lemma IterationLoadsOnce(cs: seq<string>, k: nat, d: Detection, guarded: bool)
    requires k < |cs|
    ensures LoadedIndices(IterationCalls(cs, k, d, guarded)) == [k]
  {
    var t := IterationCalls(cs, k, d, guarded);
    NoLoads(t[2..]);
    assert t[1..][1..] == t[2..];
    assert LoadedIndices(t[1..]) == [k] + LoadedIndices(t[2..]);
  }

  lemma {:induction false} NoLoads(s: seq<CvCall>)
    requires forall c :: c in s ==> !c.LoadCascade?
    ensures LoadedIndices(s) == []
  {
    if s != [] {
      NoLoads(s[1..]);
    }
  }

  lemma {:induction false} LoadedIndicesAppend(a: seq<CvCall>, b: seq<CvCall>)
    ensures LoadedIndices(a + b) == LoadedIndices(a) + LoadedIndices(b)
  {
    if a != [] {
      assert (a + b)[1..] == a[1..] + b;
      LoadedIndicesAppend(a[1..], b);
    } else {
      assert a + b == b;
    }
  }

  /** A classifier that finds nothing hands over to the next one. */
  lemma StepFrom(cs: seq<string>, k: nat, run: nat -> Detection, guarded: bool)
    requires k < |cs| && Miss(run(k))
    ensures ScanFrom(cs, k, run) == ScanFrom(cs, k + 1, run)
    ensures Tried(cs, k, run) == 1 + Tried(cs, k + 1, run)
    ensures CallsFrom(cs, k, run, guarded) == IterationCalls(cs, k, run(k), guarded) + CallsFrom(cs, k + 1, run, guarded)
  {
  }

  /** A classifier that finds something, or throws, ends the loop. */
  lemma StopAt(cs: seq<string>, k: nat, run: nat -> Detection, guarded: bool)
    requires k < |cs| && !Miss(run(k))
    ensures ScanFrom(cs, k, run) == (if run(k).DetectThrew? then Threw(run(k).cause) else Found(run(k).rects[0]))
    ensures Tried(cs, k, run) == 1
    ensures CallsFrom(cs, k, run, guarded) == IterationCalls(cs, k, run(k), guarded)
  {
    assert IterationCalls(cs, k, run(k), guarded) + [] == IterationCalls(cs, k, run(k), guarded);
  }

  /** How often one iteration allocates and frees handle `h`. */
  lemma IterationCounts(cs: seq<string>, k: nat, d: Detection, guarded: bool, h: Handle)
    requires k < |cs|
    ensures var m := multiset(IterationCalls(cs, k, d, guarded));
            var mine := if h == Cascade(k) || h == RectList(k) then 1 else 0;
            m[Alloc(h)] == mine && m[Free(h)] == (if d.Rects? || guarded then mine else 0)
  {
    var pre := [Alloc(Cascade(k)), LoadCascade(k, CascadeDir + cs[k]), Alloc(RectList(k)), RunDetect(k, Params)];
    var post := if d.Rects? || guarded then [Free(RectList(k)), Free(Cascade(k))] else [];
    assert IterationCalls(cs, k, d, guarded) == pre + post;
    assert multiset(pre + post) == multiset(pre) + multiset(post);
    AllocCounts(pre, k, cs[k], h);
  }

  /** The acquiring half of an iteration allocates its own two handles and frees none. */
  lemma AllocCounts(pre: seq<CvCall>, k: nat, file: string, h: Handle)
    requires pre == [Alloc(Cascade(k)), LoadCascade(k, CascadeDir + file), Alloc(RectList(k)), RunDetect(k, Params)]
    ensures multiset(pre)[Alloc(h)] == (if h == Cascade(k) || h == RectList(k) then 1 else 0)
    ensures multiset(pre)[Free(h)] == 0
  {
    assert multiset(pre) == multiset{Alloc(Cascade(k)), LoadCascade(k, CascadeDir + file), Alloc(RectList(k)), RunDetect(k, Params)};
  }

  lemma CountAppend(a: seq<CvCall>, b: seq<CvCall>, c: CvCall)
    ensures multiset(a + b)[c] == multiset(a)[c] + multiset(b)[c]
  {
    assert multiset(a + b) == multiset(a) + multiset(b);
  }

  /** Handle `h` is allocated as often as freed in `s`, at most `bound` times. */
  predicate BalancedAt(s: seq<CvCall>, h: Handle, bound: nat)
  {
    multiset(s)[Alloc(h)] == multiset(s)[Free(h)] && multiset(s)[Alloc(h)] <= bound
  }

  /** The iteration that ends the loop releases what it allocated, unless it throws unguarded. */
  lemma StopBalanced(cs: seq<string>, k: nat, run: nat -> Detection, guarded: bool, h: Handle)
    requires k < |cs| && !Miss(run(k))
    requires guarded || !ScanFrom(cs, k, run).Threw?
    ensures BalancedAt(CallsFrom(cs, k, run, guarded), h, if Owner(h) >= k then 1 else 0)
  {
    StopAt(cs, k, run, guarded);
    IterationCounts(cs, k, run(k), guarded, h);
  }

  /** A missing iteration releases its handles before the next one starts. */
  lemma MissBalanced(cs: seq<string>, k: nat, run: nat -> Detection, guarded: bool, h: Handle)
    requires k < |cs| && Miss(run(k))
    requires BalancedAt(CallsFrom(cs, k + 1, run, guarded), h, if Owner(h) >= k + 1 then 1 else 0)
    ensures BalancedAt(CallsFrom(cs, k, run, guarded), h, if Owner(h) >= k then 1 else 0)
  {
    var it := IterationCalls(cs, k, run(k), guarded);
    var rest := CallsFrom(cs, k + 1, run, guarded);
    StepFrom(cs, k, run, guarded);
    IterationCounts(cs, k, run(k), guarded, h);
    CountAppend(it, rest, Alloc(h));
    CountAppend(it, rest, Free(h));
  }

  lemma {:induction false} CallsFromBalancedAt(cs: seq<string>, k: nat, run: nat -> Detection, guarded: bool, h: Handle)
    requires guarded || !ScanFrom(cs, k, run).Threw?
    ensures BalancedAt(CallsFrom(cs, k, run, guarded), h, if Owner(h) >= k then 1 else 0)
    decreases |cs| - k
  {
    if k < |cs| {
      if Miss(run(k)) {
        StepFrom(cs, k, run, guarded);
        CallsFromBalancedAt(cs, k + 1, run, guarded, h);
        MissBalanced(cs, k, run, guarded, h);
      } else {
        StopBalanced(cs, k, run, guarded, h);
      }
    }
  }

  /** Every handle the loop from `k` allocates it frees, once, unless the
      loop ends with an exception outside a cleanup block. */
  lemma CallsFromBalanced(cs: seq<string>, k: nat, run: nat -> Detection, guarded: bool)
    requires guarded || !ScanFrom(cs, k, run).Threw?
    ensures var m := multiset(CallsFrom(cs, k, run, guarded));
            forall h :: m[Alloc(h)] == m[Free(h)] && m[Alloc(h)] <= (if Owner(h) >= k then 1 else 0)
  {
    forall h
      ensures var m := multiset(CallsFrom(cs, k, run, guarded));
              m[Alloc(h)] == m[Free(h)] && m[Alloc(h)] <= (if Owner(h) >= k then 1 else 0)
    {
      CallsFromBalancedAt(cs, k, run, guarded, h);
    }
  }

  /** Each classifier handle freed in `s` is freed after that classifier's
      detection pass ran. */
  predicate FreedAfterRun(s: seq<CvCall>)
  {
    forall p :: 0 <= p < |s| && s[p].Free? && s[p].h != ImageMat ==>
      exists q :: 0 <= q < p && s[q] == RunDetect(s[p].h.index, Params)
  }

  /** The loop deletes a classifier and its rectangle vector only after
      running that classifier's detection pass. */
  lemma {:induction false} FreesFollowRun(cs: seq<string>, k: nat, run: nat -> Detection, guarded: bool)
    ensures FreedAfterRun(CallsFrom(cs, k, run, guarded))
    decreases |cs| - k
  {
    if k < |cs| {
      FreesFollowRun(cs, k + 1, run, guarded);
      var it := IterationCalls(cs, k, run(k), guarded);
      var rest := if Miss(run(k)) then CallsFrom(cs, k + 1, run, guarded) else [];
      assert FreedAfterRun(it) by {
        assert it[3] == RunDetect(k, Params);
      }
      FreedAfterRunAppend(it, rest);
    }
  }

  lemma FreedAfterRunAppend(a: seq<CvCall>, b: seq<CvCall>)
    requires FreedAfterRun(a) && FreedAfterRun(b)
    ensures FreedAfterRun(a + b)
  {
    var s := a + b;
    forall p | 0 <= p < |s| && s[p].Free? && s[p].h != ImageMat
      ensures exists q :: 0 <= q < p && s[q] == RunDetect(s[p].h.index, Params)
    {
      if p < |a| {
        assert a[p] == s[p];
        var q :| 0 <= q < p && a[q] == RunDetect(a[p].h.index, Params);
        assert s[q] == a[q];
      } else {
        assert b[p - |a|] == s[p];
        var q :| 0 <= q < p - |a| && b[q] == RunDetect(b[p - |a|].h.index, Params);
        assert s[q + |a|] == b[q];
      }
    }
  }

  /** When `detect` resolves, every handle it allocated (the image, each
      tried classifier, each rectangle vector) is deleted exactly once,
      on the break path and the fall-through path alike. */
  lemma DetectReleasesWhenResolved(cs: seq<string>, decoded: Decoded, run: nat -> Detection)
    requires Outcome(cs, decoded, run).Resolved?
    ensures var m := multiset(DetectCalls(cs, decoded, run));
            m[Alloc(ImageMat)] == 1 &&
            forall h :: m[Alloc(h)] == m[Free(h)] && m[Alloc(h)] <= 1
  {
    var body := CallsFrom(cs, 0, run, false);
    var calls := [Alloc(ImageMat)] + body + [Free(ImageMat)];
    assert DetectCalls(cs, decoded, run) == calls;
    forall h
      ensures multiset(calls)[Alloc(h)] == multiset(calls)[Free(h)] && multiset(calls)[Alloc(h)] <= 1
    {
      CallsFromBalancedAt(cs, 0, run, false, h);
      WrappedBalanced(body, ImageMat, h, if Owner(h) >= 0 then 1 else 0);
    }
    CallsFromBalancedAt(cs, 0, run, false, ImageMat);
    WrappedBalanced(body, ImageMat, ImageMat, 0);
  }

  /** Allocating `g` before `body` and freeing it after keeps every handle
      balanced; `g` itself gains one allocation. */
  lemma WrappedBalanced(body: seq<CvCall>, g: Handle, h: Handle, bound: nat)
    requires BalancedAt(body, h, bound)
    requires h == g ==> bound == 0
    ensures BalancedAt([Alloc(g)] + body + [Free(g)], h, if h == g then 1 else bound)
    ensures h == g ==> multiset([Alloc(g)] + body + [Free(g)])[Alloc(h)] == 1
  {
    CountAppend([Alloc(g)], body, Alloc(h));
    CountAppend([Alloc(g)], body, Free(h));
    CountAppend([Alloc(g)] + body, [Free(g)], Alloc(h));
    CountAppend([Alloc(g)] + body, [Free(g)], Free(h));
  }

  /** As written, an exception from the first detection pass rejects the
      promise and leaves the image, the classifier and the rectangle vector
      allocated. */
  lemma DetectLeaksOnThrow(cs: seq<string>, run: nat -> Detection)
    requires cs != [] && run(0).DetectThrew?
    ensures Outcome(cs, Decoded, run) == Rejected(run(0).cause)
    ensures var m := multiset(DetectCalls(cs, Decoded, run));
            m[Alloc(ImageMat)] == 1 && m[Free(ImageMat)] == 0 &&
            m[Alloc(Cascade(0))] == 1 && m[Free(Cascade(0))] == 0 &&
            m[Alloc(RectList(0))] == 1 && m[Free(RectList(0))] == 0
  {
    ThrowAtFirstCalls(cs, run);
    LeakedCounts(CascadeDir + cs[0]);
  }

  /** The calls of `detect` when the first detection pass throws. */
  lemma ThrowAtFirstCalls(cs: seq<string>, run: nat -> Detection)
    requires cs != [] && run(0).DetectThrew?
    ensures ScanFrom(cs, 0, run) == Threw(run(0).cause)
    ensures DetectCalls(cs, Decoded, run) ==
            [Alloc(ImageMat), Alloc(Cascade(0)), LoadCascade(0, CascadeDir + cs[0]), Alloc(RectList(0)), RunDetect(0, Params)]
  {
    StopAt(cs, 0, run, false);
    var pre := [Alloc(Cascade(0)), LoadCascade(0, CascadeDir + cs[0]), Alloc(RectList(0)), RunDetect(0, Params)];
    assert IterationCalls(cs, 0, run(0), false) == pre + [];
    assert [Alloc(ImageMat)] + pre + [] == [Alloc(ImageMat)] + pre;
  }

  /** The three handles of that call sequence are allocated once and never freed. */
  lemma LeakedCounts(path: string)
    ensures var m := multiset([Alloc(ImageMat), Alloc(Cascade(0)), LoadCascade(0, path), Alloc(RectList(0)), RunDetect(0, Params)]);
            m[Alloc(ImageMat)] == 1 && m[Free(ImageMat)] == 0 &&
            m[Alloc(Cascade(0))] == 1 && m[Free(Cascade(0))] == 0 &&
            m[Alloc(RectList(0))] == 1 && m[Free(RectList(0))] == 0
  {
    var s := [Alloc(ImageMat), Alloc(Cascade(0)), LoadCascade(0, path), Alloc(RectList(0)), RunDetect(0, Params)];
    assert multiset(s) == multiset{Alloc(ImageMat), Alloc(Cascade(0)), LoadCascade(0, path), Alloc(RectList(0)), RunDetect(0, Params)};
  }

  /** With a cleanup block around each iteration and around the image,
      every handle is deleted exactly once on every exit path, exceptions
      included. */
  lemma GuardedDetectReleases(cs: seq<string>, decoded: Decoded, run: nat -> Detection)
    ensures var m := multiset(GuardedDetectCalls(cs, decoded, run));
            forall h :: m[Alloc(h)] == m[Free(h)] && m[Alloc(h)] <= 1
  {
    if decoded.Decoded? {
      var body := CallsFrom(cs, 0, run, true);
      var calls := [Alloc(ImageMat)] + body + [Free(ImageMat)];
      assert Calls(cs, decoded, run, true) == calls;
      assert multiset(calls) == multiset([Alloc(ImageMat)]) + multiset(body) + multiset([Free(ImageMat)]);
      forall h
        ensures multiset(calls)[Alloc(h)] == multiset(calls)[Free(h)] <= 1
      {
        CallsFromBalancedAt(cs, 0, run, true, h);
      }
    }
  }

  /** What `detect` resolves to: none exactly when no classifier finds a
      rectangle; otherwise the centre of the first rectangle of the first
      classifier that finds one, after which nothing else is loaded. */
  lemma DetectResult(cs: seq<string>, run: nat -> Detection, h: nat)
    requires forall j :: 0 <= j < |cs| ==> run(j).Rects?
    ensures Outcome(cs, Decoded, run) == Resolved(None) <==> forall j :: 0 <= j < |cs| ==> Miss(run(j))
    ensures h < |cs| && Hit(run(h)) && (forall j :: 0 <= j < h ==> Miss(run(j))) ==>
              Outcome(cs, Decoded, run) == Resolved(Some(Centre(run(h).rects[0]))) &&
              LoadedIndices(DetectCalls(cs, Decoded, run)) == seq(h + 1, j requires 0 <= j <= h => j)
  {
    ScanExhaustedIff(cs, 0, run);
    if ScanFrom(cs, 0, run).Threw? {
      NoThrowWithoutException(cs, 0, run);
    }
    if h < |cs| && Hit(run(h)) && (forall j :: 0 <= j < h ==> Miss(run(j))) {
      ScanFirstHit(cs, 0, run, h, false);
      LoadsInOrder(cs, 0, run, false);
      var body := CallsFrom(cs, 0, run, false);
      LoadedIndicesAppend([Alloc(ImageMat)] + body, [Free(ImageMat)]);
      LoadedIndicesAppend([Alloc(ImageMat)], body);
    }
  }

  lemma {:induction false} NoThrowWithoutException(cs: seq<string>, k: nat, run: nat -> Detection)
    requires forall j :: k <= j < |cs| ==> run(j).Rects?
    ensures !ScanFrom(cs, k, run).Threw?
    decreases |cs| - k
  {
    if k < |cs| {
      NoThrowWithoutException(cs, k + 1, run);
    }
  }

  /** A pass that finds nothing keeps the loop's account of the calls:
      what is still to come from `k + 1` completes what has been made. */
  lemma LoopStep(cs: seq<string>, k: nat, run: nat -> Detection, start: seq<CvCall>, before: seq<CvCall>)
    requires k < |cs| && Miss(run(k))
    requires ScanFrom(cs, 0, run) == ScanFrom(cs, k, run)
    requires start + CallsFrom(cs, 0, run, false) == before + CallsFrom(cs, k, run, false)
    ensures ScanFrom(cs, 0, run) == ScanFrom(cs, k + 1, run)
    ensures start + CallsFrom(cs, 0, run, false) ==
            (before + IterationCalls(cs, k, run(k), false)) + CallsFrom(cs, k + 1, run, false)
  {
    StepFrom(cs, k, run, false);
    AppendAssoc(before, IterationCalls(cs, k, run(k), false), CallsFrom(cs, k + 1, run, false), []);
  }

  /** A pass that finds something, or throws, completes the loop's calls. */
  lemma LoopStop(cs: seq<string>, k: nat, run: nat -> Detection, start: seq<CvCall>, before: seq<CvCall>)
    requires k < |cs| && !Miss(run(k))
    requires ScanFrom(cs, 0, run) == ScanFrom(cs, k, run)
    requires start + CallsFrom(cs, 0, run, false) == before + CallsFrom(cs, k, run, false)
    ensures ScanFrom(cs, 0, run) == (if run(k).DetectThrew? then Threw(run(k).cause) else Found(run(k).rects[0]))
    ensures start + CallsFrom(cs, 0, run, false) == before + IterationCalls(cs, k, run(k), false)
  {
    StopAt(cs, k, run, false);
  }

  /** Regrouping a log built in four pieces. */
  lemma AppendAssoc(a: seq<CvCall>, b: seq<CvCall>, c: seq<CvCall>, d: seq<CvCall>)
    ensures a + b + c + d == a + (b + c + d)
  {
  }

  // ---------------------------------------------------------------------
  // The library and the service

  /** The OpenCV runtime: the record of calls made into it. */
  class OpenCv {
    var calls: seq<CvCall>

    constructor ()
      ensures calls == []
    {
      calls := [];
    }

    /** `cv.imread`: decode the image, allocating a matrix unless it throws. */
    method Imread(url: Option<string>, decode: Option<string> -> Decoded) returns (d: Decoded)
      modifies this
      ensures d == decode(url)
      ensures calls == old(calls) + (if d.Decoded? then [Alloc(ImageMat)] else [])
    {
      d := decode(url);
      if d.Decoded? {
        calls := calls + [Alloc(ImageMat)];
      }
    }

    /** `new cv.CascadeClassifier()` and `new cv.RectVector()`. */
    method New(h: Handle)
      modifies this
      ensures calls == old(calls) + [Alloc(h)]
    {
      calls := calls + [Alloc(h)];
    }

    /** `classifier.load(path)`. */
    method Load(k: nat, path: string)
      modifies this
      ensures calls == old(calls) + [LoadCascade(k, path)]
    {
      calls := calls + [LoadCascade(k, path)];
    }

    /** `classifier.detectMultiScale(img, rects, ...)`. */
    method DetectMultiScale(k: nat, params: DetectParams, run: nat -> Detection) returns (d: Detection)
      modifies this
      ensures d == run(k)
      ensures calls == old(calls) + [RunDetect(k, params)]
    {
      d := run(k);
      calls := calls + [RunDetect(k, params)];
    }

    /** `handle.delete()`. */
    method Delete(h: Handle)
      modifies this
      ensures calls == old(calls) + [Free(h)]
    {
      calls := calls + [Free(h)];
    }
  }

  /** `GcpsDetectorService`. */
  class GcpsDetectorService {
    const storage: StorageService
    const classifiers: seq<string>
    var areClassifiersLoaded: bool
    /** How many times `loadClassifiers` ran. */
    ghost var loadCalls: nat

    constructor (storage: StorageService)
      ensures this.storage == storage
      ensures classifiers == ["gcp-square-base.xml", "gcp-bw-quads.xml"]
      ensures !areClassifiersLoaded && loadCalls == 0
    {
      this.storage := storage;
      classifiers := ClassifierFiles;
      areClassifiersLoaded := false;
      loadCalls := 0;
    }

    /** `loadClassifiers`: nothing to fetch; marks the classifiers loaded. */
    method LoadClassifiers()
      modifies this
      ensures areClassifiersLoaded && loadCalls == old(loadCalls) + 1
    {
      areClassifiersLoaded := true;
      loadCalls := loadCalls + 1;
    }

    /** `detect(imgName)`: decode the stored image, try the classifiers in
        order, answer the centre of the first rectangle found. */
    method Detect(imgName: string, cv: OpenCv, decode: Option<string> -> Decoded, run: nat -> Detection)
      returns (r: Settled)
      modifies this, cv
      ensures areClassifiersLoaded
      ensures loadCalls == old(loadCalls) + (if old(areClassifiersLoaded) then 0 else 1)
      ensures var decoded := decode(UrlOf(storage.images, imgName));
              r == Outcome(classifiers, decoded, run) &&
              cv.calls == old(cv.calls) + DetectCalls(classifiers, decoded, run)
    {
      if !areClassifiersLoaded {
        LoadClassifiers();
        areClassifiersLoaded := true;
      }

      var url := storage.GetImageUrl(imgName);
      var img := cv.Imread(url, decode);
      if img.DecodeThrew? {
        return Rejected(img.cause);
      }

      ghost var prefix := cv.calls;
      var end := TryClassifiers(cv, run);
      ghost var all := CallsFrom(classifiers, 0, run, false);
      if end.Threw? {
        assert DetectCalls(classifiers, img, run) == [Alloc(ImageMat)] + all + [];
        AppendAssoc(old(cv.calls), [Alloc(ImageMat)], all, []);
        return Rejected(end.cause);
      }
      cv.Delete(ImageMat);
      assert DetectCalls(classifiers, img, run) == [Alloc(ImageMat)] + all + [Free(ImageMat)];
      AppendAssoc(old(cv.calls), [Alloc(ImageMat)], all, [Free(ImageMat)]);
      r := Resolved(if end.Found? then Some(Centre(end.first)) else None);
    }

    /** The loop of `detect`: each classifier in turn gets its own handles,
        runs, and (when it returns) releases them; the first hit breaks. */
    method TryClassifiers(cv: OpenCv, run: nat -> Detection) returns (end: LoopEnd)
      modifies cv
      ensures end == ScanFrom(classifiers, 0, run)
      ensures cv.calls == old(cv.calls) + CallsFrom(classifiers, 0, run, false)
    {
      var i := 0;
      while i < |classifiers|
        invariant 0 <= i <= |classifiers|
        invariant ScanFrom(classifiers, 0, run) == ScanFrom(classifiers, i, run)
        invariant old(cv.calls) + CallsFrom(classifiers, 0, run, false) ==
                  cv.calls + CallsFrom(classifiers, i, run, false)
      {
        ghost var before := cv.calls;
        var d := RunClassifier(cv, i, run);
        if d.DetectThrew? || d.rects != [] {
          end := if d.DetectThrew? then Threw(d.cause) else Found(d.rects[0]);
          LoopStop(classifiers, i, run, old(cv.calls), before);
          return;
        }
        LoopStep(classifiers, i, run, old(cv.calls), before);
        i := i + 1;
      }
      assert cv.calls + [] == cv.calls;
      return Exhausted;
    }

    /** One pass of the loop body: a fresh classifier loaded from the
        cascade file, a fresh rectangle list, the detection, and the two
        deletes, which are reached only when the detection returns. */
    method RunClassifier(cv: OpenCv, i: nat, run: nat -> Detection) returns (d: Detection)
      requires i < |classifiers|
      modifies cv
      ensures d == run(i)
      ensures cv.calls == old(cv.calls) + IterationCalls(classifiers, i, d, false)
    {
      cv.New(Cascade(i));
      cv.Load(i, CascadeDir + classifiers[i]);
      cv.New(RectList(i));
      d := cv.DetectMultiScale(i, Params, run);
      if d.DetectThrew? {
        return;
      }
      cv.Delete(RectList(i));
      cv.Delete(Cascade(i));
    }
  }
}
