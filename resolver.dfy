/**
 * The `serviceURLs(name)` generator of src/service-consul.mjs as an explicit iterator object.
 * Its first `next()` issues one recursive `kv.get` of `services/${name}` and yields the
 * promise of the first URL; once that promise settles, the snapshot of URLs is fixed and the
 * cursor wraps over it forever. Every element is assumed to be awaited before the next
 * `next()`, so the fetch has settled by the second call.
 */
module Resolver {
  import opened Kv

  /**
   * How the single `kv.get` settles: with the entries of `data[0]`, or by failing — the call
   * rejects, or `data[0]` is undefined so that `data[0].map` throws inside the continuation.
   */
  datatype FetchResult = Fetched(entries: seq<KvEntry>) | FetchFailed

  /**
   * Pending: nothing fetched yet. Stuck: the fetch failed, so `firstPromise` was never reset and
   * the same rejected promise is yielded again each time. Cycling: yielding from the snapshot.
   * Finished: the generator returned.
   */
  datatype Phase = Pending | Stuck | Cycling | Finished

  /** What one `next()` produces, once awaited. */
  datatype Element = Url(url: string) | Rejected | Done

  /** `cursor` is the index of the element yielded last; `fetches` counts `kv.get` calls. */
  datatype Generator = Generator(phase: Phase, snapshot: seq<string>, cursor: nat, fetches: nat)

  datatype StepResult = StepResult(gen: Generator, element: Element)

  /** A generator object just created: its body has not started. */
  function Fresh(): Generator {
    Generator(Pending, [], 0, 0)
  }

  /** `data[0].map(d => d.Value)`. */
  function UrlsOf(entries: seq<KvEntry>): (urls: seq<string>)
    ensures |urls| == |entries|
    ensures forall i | 0 <= i < |entries| :: urls[i] == entries[i].value
    decreases |entries|
  {
    if entries == [] then [] else [entries[0].value] + UrlsOf(entries[1..])
  }

  /** The fetch is issued once, on the first call, and the cursor stays inside the snapshot. */
  predicate Valid(g: Generator) {
    (g.fetches == if g.phase == Pending then 0 else 1) &&
    (g.phase == Pending ==> g.snapshot == [] && g.cursor == 0) &&
    (g.phase == Cycling ==> g.cursor < |g.snapshot|)
  }

  /** The index after `cursor`, wrapping to 0 at the end (`i++; if (i >= si.length) i = 0`). */
  function Advance(cursor: nat, size: nat): (i: nat)
    requires cursor < size
    ensures i < size && i == (cursor + 1) % size
  {
    if cursor + 1 >= size then
      ModUnique(cursor + 1, size, 1, 0);
      0
    else
      ModUnique(cursor + 1, size, 0, cursor + 1);
      cursor + 1
  }

  /** One `next()`; `fetched` is how the `kv.get` settles, consulted only on the first call. */
  function Step(g: Generator, fetched: FetchResult): (r: StepResult)
    requires Valid(g)
    ensures Valid(r.gen)
    ensures g.phase != Pending ==> r.gen.snapshot == g.snapshot
  {
    match g.phase
    case Pending =>
      (match fetched
       case FetchFailed => StepResult(Generator(Stuck, [], 0, 1), Rejected)
       case Fetched(entries) =>
         var si := UrlsOf(entries);
         if |si| == 0 then StepResult(Generator(Finished, si, 0, 1), Rejected)
         else StepResult(Generator(Cycling, si, 0, 1), Url(si[0])))
    case Stuck => StepResult(g, Rejected)
    case Cycling =>
      var i := Advance(g.cursor, |g.snapshot|);
      StepResult(g.(cursor := i), Url(g.snapshot[i]))
    case Finished => StepResult(g, Done)
  }

  /** The generator after `k` calls of `next()`. */
  function Run(fetched: FetchResult, k: nat): (g: Generator)
    ensures Valid(g)
    decreases k
  {
    if k == 0 then Fresh() else Step(Run(fetched, k - 1), fetched).gen
  }

  /** The element produced by call number `k` (counting from 0). */
  function ElementAt(fetched: FetchResult, k: nat): Element {
    Step(Run(fetched, k), fetched).element
  }

  /** Euclidean division is determined by its quotient and remainder. */
  lemma ModUnique(a: int, n: int, q: int, r: int)
    requires n > 0 && 0 <= r < n && a == q * n + r
    ensures a % n == r
  {
    var d := q - a / n;
    assert a == (a / n) * n + a % n;
    assert d * n == a % n - r;
    if d != 0 {
      MulFar(d, n);
      assert false;
    }
  }

  lemma MulFar(d: int, n: int)
    requires n > 0 && d != 0
    ensures d * n >= n || d * n <= -n
  {
  }

  lemma AdvanceIsModular(k: nat, size: nat)
    requires size > 0
    ensures Advance(k % size, size) == (k + 1) % size
  {
    var q, r := k / size, k % size;
    assert k == q * size + r;
    if r + 1 < size {
      ModUnique(k + 1, size, q, r + 1);
    } else {
      assert k + 1 == (q + 1) * size + 0;
      ModUnique(k + 1, size, q + 1, 0);
    }
  }

  /** One call in the cycling phase advances the cursor and yields the URL it lands on. */
  lemma StepCycling(g: Generator, fetched: FetchResult)
    requires Valid(g) && g.phase == Cycling
    ensures Step(g, fetched).gen == g.(cursor := Advance(g.cursor, |g.snapshot|))
    ensures Step(g, fetched).element == Url(g.snapshot[Advance(g.cursor, |g.snapshot|)])
  {
  }

  /** After `k + 1` calls on a non-empty snapshot, the cursor is `k mod |snapshot|`. */
  lemma {:induction false} RunCycling(entries: seq<KvEntry>, k: nat)
    requires |entries| > 0
    ensures Run(Fetched(entries), k + 1) == Generator(Cycling, UrlsOf(entries), k % |entries|, 1)
    decreases k
  {
    var f, si, n := Fetched(entries), UrlsOf(entries), |entries|;
    if k == 0 {
      assert Run(f, 1) == Step(Fresh(), f).gen;
    } else {
      RunCycling(entries, k - 1);
      var g := Run(f, k);
      var c := (k - 1) % n;
      assert g == Generator(Cycling, si, c, 1);
      StepCycling(g, f);
      AdvanceIsModular(k - 1, n);
      assert Run(f, k + 1) == Step(g, f).gen;
    }
  }

  /** Call `k > 0` yields the URL at the cursor reached after call `k - 1`, advanced once. */
  lemma {:induction false} LaterElement(entries: seq<KvEntry>, k: nat)
    requires |entries| > 0 && k > 0
    ensures ElementAt(Fetched(entries), k) == Url(UrlsOf(entries)[Advance((k - 1) % |entries|, |entries|)])
  {
    var f := Fetched(entries);
    RunCycling(entries, k - 1);
    StepCycling(Run(f, k), f);
  }

  /** Round robin: with a non-empty snapshot `si`, element `k` is `si[k mod |si|]`, forever. */
  lemma {:induction false} RoundRobin(entries: seq<KvEntry>, k: nat)
    requires |entries| > 0
    ensures ElementAt(Fetched(entries), k) == Url(UrlsOf(entries)[k % |entries|])
  {
    if k == 0 {
      assert ElementAt(Fetched(entries), 0) == Step(Fresh(), Fetched(entries)).element;
    } else {
      var n, j := |entries|, k - 1;
      LaterElement(entries, k);
      AdvanceIsModular(j, n);
      var i := Advance(j % n, n);
      assert i == k % n;
      assert ElementAt(Fetched(entries), k) == Url(UrlsOf(entries)[i]);
    }
  }

  /** An empty snapshot: the first element is rejected, and then the generator is done. */
  lemma {:induction false} EmptySnapshot(k: nat)
    ensures ElementAt(Fetched([]), k) == if k == 0 then Rejected else Done
    ensures k > 0 ==> Run(Fetched([]), k).phase == Finished
    decreases k
  {
    var f := Fetched([]);
    assert UrlsOf([]) == [];
    assert Run(f, 1) == Step(Fresh(), f).gen == Generator(Finished, [], 0, 1);
    if k > 1 {
      EmptySnapshot(k - 1);
      assert Run(f, k) == Step(Run(f, k - 1), f).gen;
    }
  }

  /** A failed fetch: every element is the same rejection, and nothing is fetched again. */
  lemma {:induction false} FailedFetch(k: nat)
    ensures ElementAt(FetchFailed, k) == Rejected
    ensures k > 0 ==> Run(FetchFailed, k).phase == Stuck
    decreases k
  {
    assert Run(FetchFailed, 1) == Step(Fresh(), FetchFailed).gen == Generator(Stuck, [], 0, 1);
    if k > 1 {
      FailedFetch(k - 1);
      assert Run(FetchFailed, k) == Step(Run(FetchFailed, k - 1), FetchFailed).gen;
    }
  }

  /** `kv.get` is issued exactly once per generator instance, on the first call. */
  lemma FetchedOnce(fetched: FetchResult, k: nat)
    ensures Run(fetched, k).fetches == if k == 0 then 0 else 1
  {
  }

  /** Later fetch answers are ignored: the snapshot taken by the first call never changes. */
  lemma {:induction false} SnapshotFixed(fetched: FetchResult, other: FetchResult, k: nat)
    requires k > 0
    ensures Step(Run(fetched, k), other) == Step(Run(fetched, k), fetched)
    ensures Run(fetched, k + 1).snapshot == Run(fetched, 1).snapshot
    decreases k
  {
    if k > 1 {
      SnapshotFixed(fetched, other, k - 1);
    }
  }

  /** The generator object. */
  class ServiceUrls {
    /** The service whose URLs are fetched (key `services/${name}`). */
    const name: string
    var phase: Phase
    /** `si`: the snapshot of URLs. */
    var snapshot: seq<string>
    /** `i`: the index of the element yielded last. */
    var cursor: nat
    /** The number of `kv.get` calls issued. */
    var fetches: nat

    function State(): Generator
      reads this
    {
      Generator(phase, snapshot, cursor, fetches)
    }

    ghost predicate Invariant()
      reads this
    {
      Valid(State())
    }

    constructor (name: string)
      ensures this.name == name && Invariant() && State() == Fresh()
    {
      this.name := name;
      phase, snapshot, cursor, fetches := Pending, [], 0, 0;
    }

    /** `next()`, awaited; `fetched` is how the `kv.get` of `ServiceKey(name)` settles. */
    method Next(fetched: FetchResult) returns (e: Element)
      requires Invariant()
      modifies this
      ensures Invariant()
      ensures StepResult(State(), e) == Step(old(State()), fetched)
    {
      match phase
      case Pending =>
        fetches := 1;
        match fetched {
          case FetchFailed =>
            phase := Stuck;
            e := Rejected;
          case Fetched(entries) =>
            snapshot := UrlsOf(entries);
            if |snapshot| == 0 {
              phase := Finished;
              e := Rejected;
            } else {
              phase := Cycling;
              e := Url(snapshot[0]);
            }
        }
      case Stuck =>
        e := Rejected;
      case Cycling =>
        cursor := cursor + 1;
        if cursor >= |snapshot| {
          cursor := 0;
        }
        e := Url(snapshot[cursor]);
      case Finished =>
        e := Done;
    }
  }
}
