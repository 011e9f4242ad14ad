/** Which id a duplicate tool_use id is renamed to, and the bounded per-thread cache of server.ts
    that concurrent streams share. */
module ToolUseIds {
  import opened JsText

  // ---- choosing an id ---------------------------------------------------------------------------

  function Candidate(id: string, k: nat): string {
    id + "_dup" + Decimal(k)
  }

  lemma CandidateInjective(id: string, j: nat, k: nat)
    requires Candidate(id, j) == Candidate(id, k)
    ensures j == k
  {
    var n := |id + "_dup"|;
    assert Candidate(id, j)[n..] == Decimal(j) && Candidate(id, k)[n..] == Decimal(k);
    DecimalInjective(j, k);
  }

  lemma CandidateIsNew(id: string, k: nat)
    ensures Candidate(id, k) != id
  {
    assert |Candidate(id, k)| > |id|;
  }

  /** The taken ids that are candidates from number k on. */
  ghost function Ahead(id: string, taken: set<string>, k: nat): set<string> {
    set c | c in taken && exists j: nat :: k <= j && c == Candidate(id, j)
  }

  lemma FewerAhead(id: string, taken: set<string>, k: nat)
    requires Candidate(id, k) in taken
    ensures |Ahead(id, taken, k + 1)| < |Ahead(id, taken, k)|
  {
    var c := Candidate(id, k);
    assert c in Ahead(id, taken, k);
    assert c !in Ahead(id, taken, k + 1) by {
      forall j: nat | k + 1 <= j
        ensures c != Candidate(id, j)
      {
        if c == Candidate(id, j) {
          CandidateInjective(id, k, j);
        }
      }
    }
    assert Ahead(id, taken, k + 1) <= Ahead(id, taken, k) - {c};
    Smaller(Ahead(id, taken, k + 1), Ahead(id, taken, k) - {c});
  }

  lemma Smaller<T>(a: set<T>, b: set<T>)
    requires a <= b
    ensures |a| <= |b|
  {
    assert b == a + (b - a);
  }

  /** The least free number from k on; it exists because only finitely many ids are taken. */
  function LeastFree(id: string, taken: set<string>, k: nat): (n: nat)
    ensures n >= k && Candidate(id, n) !in taken
    ensures forall j | k <= j < n :: Candidate(id, j) in taken
    decreases |Ahead(id, taken, k)|
  {
    if Candidate(id, k) !in taken then k
    else
      FewerAhead(id, taken, k);
      LeastFree(id, taken, k + 1)
  }

  /** The id a stream passes on: the given one if it is free, else its first free `_dup` from 2 on. */
  function Resolved(id: string, taken: set<string>): (r: string)
    ensures r !in taken
    ensures id !in taken <==> r == id
    ensures id in taken ==>
              exists n: nat :: 2 <= n && r == Candidate(id, n) && forall j | 2 <= j < n :: Candidate(id, j) in taken
  {
    if id !in taken then id else
      CandidateIsNew(id, LeastFree(id, taken, 2));
      Candidate(id, LeastFree(id, taken, 2))
  }

  // ---- one stream --------------------------------------------------------------------------------

  /** A stream's results, each id resolved against what the shared cache held at that moment. */
  function StreamResults(used: set<string>, ids: seq<string>, shared: seq<set<string>>): (results: seq<string>)
    requires |shared| == |ids|
    ensures |results| == |ids|
    decreases |ids|
  {
    if ids == [] then []
    else
      var r := Resolved(ids[0], used + shared[0]);
      [r] + StreamResults(used + {r}, ids[1..], shared[1..])
  }

  /** Whatever the cache holds or forgets, the ids one stream passes on are pairwise distinct and
      differ from its history. */
  lemma {:induction false} StreamIdsDistinct(used: set<string>, ids: seq<string>, shared: seq<set<string>>)
    requires |shared| == |ids|
    ensures var r := StreamResults(used, ids, shared);
            && (forall i | 0 <= i < |r| :: r[i] !in used && r[i] !in shared[i])
            && (forall i, j | 0 <= i < j < |r| :: r[i] != r[j])
    decreases |ids|
  {
    if ids != [] {
      var first := Resolved(ids[0], used + shared[0]);
      StreamIdsDistinct(used + {first}, ids[1..], shared[1..]);
      var r, rest := StreamResults(used, ids, shared), StreamResults(used + {first}, ids[1..], shared[1..]);
      assert forall i | 1 <= i < |r| :: r[i] == rest[i - 1] && shared[i] == shared[1..][i - 1];
    }
  }

  // ---- the shared cache ----------------------------------------------------------------------------

  const MAX_CACHED_THREADS: nat := 1024
  const MAX_IDS_PER_THREAD: nat := 8192

  /** The Map of threads to Sets of ids, both in insertion order. */
  datatype Cache = Cache(threads: seq<string>, ids: map<string, seq<string>>)

  predicate Distinct(s: seq<string>) {
    forall i, j | 0 <= i < j < |s| :: s[i] != s[j]
  }

  predicate ValidCache(c: Cache) {
    && Distinct(c.threads) && |c.threads| <= MAX_CACHED_THREADS
    && (forall t <- c.threads :: t in c.ids) && (forall t <- c.ids :: t in c.threads)
    && (forall t <- c.ids :: Distinct(c.ids[t]) && |c.ids[t]| <= MAX_IDS_PER_THREAD)
  }

  function IdsOf(c: Cache, thread: string): seq<string> {
    if thread in c.ids then c.ids[thread] else []
  }

  /** Without the oldest thread. */
  function Evict(c: Cache): Cache
    requires c.threads != []
  {
    Cache(c.threads[1..], c.ids - {c.threads[0]})
  }

  function EvictOver(c: Cache): Cache
    decreases |c.threads|
  {
    if |c.threads| > MAX_CACHED_THREADS then EvictOver(Evict(c)) else c
  }

  function WithThread(c: Cache, thread: string): Cache {
    if thread in c.ids then c else EvictOver(Cache(c.threads + [thread], c.ids[thread := []]))
  }

  function WithId(ids: seq<string>, id: string): seq<string> {
    if id in ids then ids
    else if |ids| + 1 > MAX_IDS_PER_THREAD then (ids + [id])[1..]
    else ids + [id]
  }

  /** `addThreadMintedId` */
  function AddId(c: Cache, thread: string, id: string): Cache {
    var w := WithThread(c, thread);
    if thread !in w.ids then w else w.(ids := w.ids[thread := WithId(w.ids[thread], id)])
  }

  class ThreadMintedIdCache {
    var threads: seq<string>
    var ids: map<string, seq<string>>

    ghost function Now(): Cache
      reads this
    {
      Cache(threads, ids)
    }

    constructor ()
      ensures Now() == Cache([], map[]) && ValidCache(Now())
    {
      threads, ids := [], map[];
    }

    method AddThreadMintedId(thread: string, id: string)
      modifies this
      ensures Now() == AddId(old(Now()), thread, id)
    {
      if thread !in ids {
        threads, ids := threads + [thread], ids[thread := []];
        ghost var grown := Now();
        while |threads| > MAX_CACHED_THREADS
          invariant EvictOver(Now()) == EvictOver(grown)
        {
          var oldest := threads[0];
          threads, ids := threads[1..], ids - {oldest};
        }
      }
      if thread in ids && id !in ids[thread] {
        var set' := ids[thread] + [id];
        if |set'| > MAX_IDS_PER_THREAD {
          set' := set'[1..];
        }
        ids := ids[thread := set'];
      }
    }
  }

  lemma EvictsAtMostOne(c: Cache)
    requires |c.threads| <= MAX_CACHED_THREADS + 1
    ensures EvictOver(c) == if |c.threads| > MAX_CACHED_THREADS then Evict(c) else c
  {
  }

  lemma EvictedValid(c: Cache)
    requires Distinct(c.threads) && |c.threads| == MAX_CACHED_THREADS + 1
    requires (forall t <- c.threads :: t in c.ids) && (forall t <- c.ids :: t in c.threads)
    requires forall t <- c.ids :: Distinct(c.ids[t]) && |c.ids[t]| <= MAX_IDS_PER_THREAD
    ensures ValidCache(Evict(c))
    ensures forall t <- c.ids ::
              if t == c.threads[0] then t !in Evict(c).ids else t in Evict(c).ids && Evict(c).ids[t] == c.ids[t]
  {
    var left := Evict(c);
    assert forall i | 0 <= i < |left.threads| :: left.threads[i] == c.threads[i + 1];
    forall t <- left.ids
      ensures t in left.threads
    {
      var i :| 0 <= i < |c.threads| && c.threads[i] == t;
      assert left.threads[i - 1] == t;
    }
  }

  lemma WithThreadValid(c: Cache, thread: string)
    requires ValidCache(c)
    ensures ValidCache(WithThread(c, thread)) && thread in WithThread(c, thread).ids
    ensures IdsOf(WithThread(c, thread), thread) == IdsOf(c, thread)
    ensures forall t <- c.ids ::
              if thread !in c.ids && |c.threads| == MAX_CACHED_THREADS && t == c.threads[0]
              then t !in WithThread(c, thread).ids
              else t in WithThread(c, thread).ids && WithThread(c, thread).ids[t] == c.ids[t]
  {
    hide EvictOver;
    if thread !in c.ids {
      var grown := Cache(c.threads + [thread], c.ids[thread := []]);
      assert grown.threads[|c.threads|] == thread;
      assert forall t <- c.threads :: t in grown.threads;
      EvictsAtMostOne(grown);
      if |c.threads| == MAX_CACHED_THREADS {
        hide Evict;
        EvictedValid(grown);
      }
    }
  }

  lemma WithIdValid(ids: seq<string>, id: string)
    requires Distinct(ids) && |ids| <= MAX_IDS_PER_THREAD
    ensures var r := WithId(ids, id);
            && Distinct(r) && |r| <= MAX_IDS_PER_THREAD && id in r
            && (|ids| < MAX_IDS_PER_THREAD || id in ids ==> forall x :: x in r <==> x in ids || x == id)
  {
    if id !in ids {
      var grown := ids + [id];
      assert grown[|ids|] == id;
      if |ids| == MAX_IDS_PER_THREAD {
        assert grown[1..][|ids| - 1] == id;
      }
    }
  }

  /** Adding keeps the cache within both bounds and keeps the id just added; another thread loses
      its ids only if it is the oldest of a full cache that a new thread enters. */
  lemma AddIdKeepsBounds(c: Cache, thread: string, id: string)
    requires ValidCache(c)
    ensures var r := AddId(c, thread, id);
            && ValidCache(r) && thread in r.ids && id in r.ids[thread]
            && IdsOf(r, thread) == WithId(IdsOf(c, thread), id)
            && (forall t <- c.ids | t != thread ::
                  if thread !in c.ids && |c.threads| == MAX_CACHED_THREADS && t == c.threads[0] then t !in r.ids
                  else t in r.ids && r.ids[t] == c.ids[t])
  {
    WithThreadValid(c, thread);
    WithIdValid(IdsOf(c, thread), id);
  }

  // ---- concurrent streams ------------------------------------------------------------------------------

  /** A request of a thread arrives with the ids of its history and opens a stream; or a stream resolves
      one id. Streams are numbered. */
  datatype Step =
    | Arrives(thread: string, stream: nat, ids: seq<string>)
    | Resolves(thread: string, stream: nat, id: string)

  /** Each stream's own set of used ids, and the cache they share. */
  datatype World = World(cache: Cache, used: map<nat, set<string>>)

  function UsedBy(w: World, stream: nat): set<string> {
    if stream in w.used then w.used[stream] else {}
  }

  function Members(ids: seq<string>): set<string> {
    set x | x in ids
  }

  /** What the stream's cache check sees; a request without a thread id has no cache. */
  function SharedWith(c: Cache, thread: string): set<string> {
    if thread == "" then {} else Members(IdsOf(c, thread))
  }

  /** What `onObserved` does with the id passed on. */
  function Observe(c: Cache, thread: string, id: string): Cache {
    if thread == "" then c else AddId(c, thread, id)
  }

  function ResultOf(w: World, s: Step): string
    requires s.Resolves?
  {
    Resolved(s.id, UsedBy(w, s.stream) + SharedWith(w.cache, s.thread))
  }

  function AddAll(c: Cache, thread: string, ids: seq<string>): Cache {
    if ids == [] then c else AddId(AddAll(c, thread, ids[..|ids| - 1]), thread, ids[|ids| - 1])
  }

  /** The cached ids that the request itself does not carry, in their order. */
  function Absent(cached: seq<string>, ids: seq<string>): seq<string> {
    if cached == [] then []
    else
      var last := cached[|cached| - 1];
      Absent(cached[..|cached| - 1], ids) + if last in ids then [] else [last]
  }

  /** The seeds of a request's stream: its own ids and then those cached for its thread. */
  function Seeds(c: Cache, thread: string, ids: seq<string>): seq<string> {
    ids + if thread == "" then [] else Absent(IdsOf(c, thread), ids)
  }

  /** The handling of a request up to its stream: all its seeds, the cached ones included, are added
      to the cache. */
  function Arrive(w: World, thread: string, stream: nat, ids: seq<string>): World {
    var seeds := Seeds(w.cache, thread, ids);
    World(if thread == "" then w.cache else AddAll(w.cache, thread, seeds),
          w.used[stream := UsedBy(w, stream) + Members(seeds)])
  }

  /** A request's arrival, or `resolve` with its `onObserved`; no other callback can interrupt either. */
  function Take(w: World, s: Step): World {
    match s
    case Arrives(thread, stream, ids) => Arrive(w, thread, stream, ids)
    case Resolves(thread, stream, id) =>
      var r := ResultOf(w, s);
      World(Observe(w.cache, thread, r), w.used[stream := UsedBy(w, stream) + {r}])
  }

  function After(w: World, steps: seq<Step>): World {
    if steps == [] then w else Take(After(w, steps[..|steps| - 1]), steps[|steps| - 1])
  }

  function ResultAt(w: World, steps: seq<Step>, i: nat): string
    requires i < |steps| && steps[i].Resolves?
  {
    ResultOf(After(w, steps[..i]), steps[i])
  }

  lemma AfterStep(w: World, steps: seq<Step>, k: nat)
    requires k < |steps|
    ensures After(w, steps[..k + 1]) == Take(After(w, steps[..k]), steps[k])
  {
    assert steps[..k + 1][..k] == steps[..k];
  }

  /** What the cache holds for the thread after the first k steps. */
  function HeldAt(w: World, steps: seq<Step>, k: nat, thread: string): set<string>
    requires k <= |steps|
  {
    Members(IdsOf(After(w, steps[..k]).cache, thread))
  }

  /** The step makes the cache lose none of the thread's ids. */
  predicate Keeps(w: World, s: Step, thread: string) {
    Members(IdsOf(w.cache, thread)) <= Members(IdsOf(Take(w, s).cache, thread))
  }

  /** No step of the run does. */
  predicate NoneDropped(w: World, steps: seq<Step>, thread: string) {
    forall k | 0 <= k < |steps| :: Keeps(After(w, steps[..k]), steps[k], thread)
  }

  /** Adding an id drops another of a thread in two ways: it is new to that thread and the thread's set
      is full, or its own thread is new to a full cache and the oldest thread goes. */
  predicate Evicts(c: Cache, adding: string, id: string, thread: string) {
    && thread in c.ids
    && if adding == thread then |c.ids[thread]| == MAX_IDS_PER_THREAD && id !in c.ids[thread]
       else adding !in c.ids && |c.threads| == MAX_CACHED_THREADS && c.threads[0] == thread && c.ids[thread] != []
  }

  lemma AddDropsExactly(c: Cache, adding: string, id: string, thread: string)
    requires ValidCache(c)
    ensures Members(IdsOf(c, thread)) <= Members(IdsOf(AddId(c, adding, id), thread))
       <==> !Evicts(c, adding, id, thread)
  {
    hide AddId;
    AddIdKeepsBounds(c, adding, id);
    if adding == thread {
      WithIdValid(IdsOf(c, thread), id);
      if |IdsOf(c, thread)| == MAX_IDS_PER_THREAD && id !in IdsOf(c, thread) {
        OldestGoes(IdsOf(c, thread), id);
      }
    } else if thread in c.ids && c.ids[thread] != [] {
      assert c.ids[thread][0] in Members(IdsOf(c, thread));
    }
  }

  /** A resolving step drops an id of a thread in those two ways only, and its result is always new to
      its own thread. */
  lemma DropsExactly(w: World, s: Step, thread: string)
    requires ValidCache(w.cache) && s.Resolves?
    ensures Keeps(w, s, thread) <==> s.thread == "" || !Evicts(w.cache, s.thread, ResultOf(w, s), thread)
    ensures s.thread != "" ==> ResultOf(w, s) !in IdsOf(w.cache, s.thread)
  {
    hide AddId, Evicts;
    AddDropsExactly(w.cache, s.thread, ResultOf(w, s), thread);
  }

  lemma OldestGoes(ids: seq<string>, id: string)
    requires Distinct(ids) && |ids| == MAX_IDS_PER_THREAD && id !in ids
    ensures ids[0] in Members(ids) && ids[0] !in Members(WithId(ids, id))
  {
    assert forall k | 0 <= k < |ids| :: WithId(ids, id)[k] == if k + 1 < |ids| then ids[k + 1] else id;
  }

  lemma {:induction false} AddAllValid(c: Cache, thread: string, ids: seq<string>)
    requires ValidCache(c)
    ensures ValidCache(AddAll(c, thread, ids))
  {
    hide AddId, ValidCache;
    if ids != [] {
      AddAllValid(c, thread, ids[..|ids| - 1]);
      AddIdKeepsBounds(AddAll(c, thread, ids[..|ids| - 1]), thread, ids[|ids| - 1]);
    }
  }

  lemma TakeRecords(w: World, s: Step)
    requires ValidCache(w.cache)
    ensures var r := Take(w, s);
            && ValidCache(r.cache) && (forall n: nat :: UsedBy(w, n) <= UsedBy(r, n))
            && match s
               case Arrives(thread, stream, ids) =>
                 Members(ids) + SharedWith(w.cache, thread) <= UsedBy(r, stream)
               case Resolves(thread, stream, _) =>
                 && ResultOf(w, s) in UsedBy(r, stream)
                 && (thread != "" ==> ResultOf(w, s) in IdsOf(r.cache, thread))
  {
    hide AddId, AddAll, ValidCache, Absent;
    match s
    case Arrives(thread, stream, ids) =>
      AddAllValid(w.cache, thread, Seeds(w.cache, thread, ids));
      var absent := Absent(IdsOf(w.cache, thread), ids);
      AbsentExactly(IdsOf(w.cache, thread), ids);
      assert Members(ids + absent) == Members(ids) + Members(absent);
    case Resolves(thread, _, _) =>
      AddIdKeepsBounds(w.cache, thread, ResultOf(w, s));
  }

  lemma {:induction false} AbsentExactly(cached: seq<string>, ids: seq<string>)
    ensures Members(Absent(cached, ids)) == Members(cached) - Members(ids)
  {
    if cached != [] {
      var most, last := cached[..|cached| - 1], cached[|cached| - 1];
      AbsentExactly(most, ids);
      var absent := Absent(most, ids);
      assert Members(cached) == Members(most) + {last};
      if last in ids {
        assert absent + [] == absent;
      } else {
        assert Members(absent + [last]) == Members(absent) + {last};
      }
    }
  }

  lemma {:induction false} ValidAfter(w: World, steps: seq<Step>)
    requires ValidCache(w.cache)
    ensures ValidCache(After(w, steps).cache)
  {
    if steps != [] {
      ValidAfter(w, steps[..|steps| - 1]);
      TakeRecords(After(w, steps[..|steps| - 1]), steps[|steps| - 1]);
    }
  }

  /** A stream's own record only grows; the cache keeps what no step drops. */
  lemma {:induction false} Carried(w: World, steps: seq<Step>, i: nat, j: nat, thread: string, stream: nat)
    requires ValidCache(w.cache) && i <= j <= |steps|
    ensures UsedBy(After(w, steps[..i]), stream) <= UsedBy(After(w, steps[..j]), stream)
    ensures NoneDropped(w, steps, thread) ==> HeldAt(w, steps, i, thread) <= HeldAt(w, steps, j, thread)
    decreases j - i
  {
    hide Take, ValidCache;
    if i < j {
      Carried(w, steps, i, j - 1, thread, stream);
      ValidAfter(w, steps[..j - 1]);
      TakeRecords(After(w, steps[..j - 1]), steps[j - 1]);
      AfterStep(w, steps, j - 1);
      assert NoneDropped(w, steps, thread) ==> Keeps(After(w, steps[..j - 1]), steps[j - 1], thread);
    }
  }

  lemma KnownIsAvoided(w: World, s: Step, known: string)
    requires s.Resolves?
    requires known in UsedBy(w, s.stream) || (s.thread != "" && known in IdsOf(w.cache, s.thread))
    ensures ResultOf(w, s) != known
  {
  }

  /** Concurrent streams: over every interleaving of arriving requests and of the streams of any
      threads, two ids passed on by one stream are distinct, and so are two passed on for one thread as
      long as the cache drops none of that thread's ids. */
  lemma ConcurrentIdsDistinct(w: World, steps: seq<Step>, i: nat, j: nat)
    requires ValidCache(w.cache) && i < j < |steps| && steps[i].Resolves? && steps[j].Resolves?
    requires steps[i].stream == steps[j].stream
             || (steps[i].thread == steps[j].thread != "" && NoneDropped(w, steps, steps[i].thread))
    ensures ResultAt(w, steps, i) != ResultAt(w, steps, j)
  {
    hide Take, ValidCache, ResultOf, NoneDropped;
    ValidAfter(w, steps[..i]);
    TakeRecords(After(w, steps[..i]), steps[i]);
    AfterStep(w, steps, i);
    Carried(w, steps, i + 1, j, steps[i].thread, steps[i].stream);
    if steps[i].stream != steps[j].stream {
      assert ResultAt(w, steps, i) in HeldAt(w, steps, i + 1, steps[i].thread);
    }
    KnownIsAvoided(After(w, steps[..j]), steps[j], ResultAt(w, steps, i));
  }

  /** And none was used by its stream beforehand, nor, under the same condition, cached for its thread. */
  lemma ResultsAreNew(w: World, steps: seq<Step>, i: nat)
    requires ValidCache(w.cache) && i < |steps| && steps[i].Resolves?
    ensures ResultAt(w, steps, i) !in UsedBy(w, steps[i].stream)
    ensures steps[i].thread != "" && NoneDropped(w, steps, steps[i].thread)
            ==> ResultAt(w, steps, i) !in IdsOf(w.cache, steps[i].thread)
  {
    hide Take, ValidCache, NoneDropped;
    Carried(w, steps, 0, i, steps[i].thread, steps[i].stream);
    assert steps[..0] == [];
    assert Members(IdsOf(w.cache, steps[i].thread)) == HeldAt(w, steps, 0, steps[i].thread);
  }

  /** What a stream passes on was neither in its request's history nor cached for the thread when the
      request arrived. */
  lemma HistoryIsAvoided(w: World, steps: seq<Step>, i: nat, j: nat)
    requires ValidCache(w.cache) && i < j < |steps| && steps[i].Arrives? && steps[j].Resolves?
    requires steps[i].stream == steps[j].stream
    ensures ResultAt(w, steps, j) !in steps[i].ids
    ensures steps[i].thread != "" ==> ResultAt(w, steps, j) !in HeldAt(w, steps, i, steps[i].thread)
  {
    hide Take, ValidCache, NoneDropped;
    ValidAfter(w, steps[..i]);
    TakeRecords(After(w, steps[..i]), steps[i]);
    AfterStep(w, steps, i);
    Carried(w, steps, i + 1, j, steps[i].thread, steps[i].stream);
    assert ResultAt(w, steps, j) !in UsedBy(After(w, steps[..j]), steps[j].stream);
    assert ResultAt(w, steps, j) !in Members(steps[i].ids);
  }

  // ---- a condition to check beforehand ----------------------------------------------------------------

  /** The named threads of the steps. */
  function ThreadsOf(steps: seq<Step>): set<string> {
    set s <- steps | s.thread != "" :: s.thread
  }

  /** The ids that the steps can bring to the thread. */
  function IdsFor(steps: seq<Step>, thread: string): nat {
    if steps == [] then 0 else IdsFor(steps[..|steps| - 1], thread) + Brings(steps[|steps| - 1], thread)
  }

  function Brings(s: Step, thread: string): nat {
    if s.thread != thread then 0 else if s.Arrives? then |s.ids| else 1
  }

  /** The threads cached and to come fit in the cache, and the thread's ids, cached and to come, in
      its set. */
  predicate FitsThread(c: Cache, steps: seq<Step>, thread: string) {
    && |Members(c.threads) + ThreadsOf(steps)| <= MAX_CACHED_THREADS
    && |IdsOf(c, thread)| + IdsFor(steps, thread) <= MAX_IDS_PER_THREAD
  }

  lemma {:induction false} DistinctMembers(s: seq<string>)
    requires Distinct(s)
    ensures |Members(s)| == |s|
  {
    if s != [] {
      var before, x := s[..|s| - 1], s[|s| - 1];
      DistinctMembers(before);
      assert Members(s) == Members(before) + {x};
    }
  }

  lemma ThreadsAfterAdd(c: Cache, thread: string, id: string)
    requires ValidCache(c)
    ensures Members(AddId(c, thread, id).threads) <= Members(c.threads) + {thread}
  {
    hide EvictOver;
    EvictsAtMostOne(Cache(c.threads + [thread], c.ids[thread := []]));
  }

  lemma NotFull(c: Cache, thread: string, threads: set<string>)
    requires Distinct(c.threads) && thread !in c.threads
    requires Members(c.threads) + {thread} <= threads && |threads| <= MAX_CACHED_THREADS
    ensures |c.threads| < MAX_CACHED_THREADS
  {
    DistinctMembers(c.threads);
    assert thread !in Members(c.threads);
    Smaller(Members(c.threads) + {thread}, threads);
  }

  /** c became d with nothing of the thread lost and at most n ids gained. */
  predicate Grew(c: Cache, d: Cache, thread: string, n: nat, threads: set<string>) {
    && Members(IdsOf(c, thread)) <= Members(IdsOf(d, thread)) && |IdsOf(d, thread)| <= |IdsOf(c, thread)| + n
    && Members(d.threads) <= threads
  }

  lemma RoomyAdd(c: Cache, adding: string, id: string, thread: string, threads: set<string>)
    requires ValidCache(c) && Members(c.threads) <= threads && |threads| <= MAX_CACHED_THREADS && adding in threads
    requires adding == thread ==> |IdsOf(c, thread)| < MAX_IDS_PER_THREAD || id in IdsOf(c, thread)
    ensures var d := AddId(c, adding, id);
            && Grew(c, d, thread, if adding == thread && id !in IdsOf(c, thread) then 1 else 0, threads)
            && (adding == thread ==> id in IdsOf(d, thread))
  {
    hide AddId, Distinct;
    AddDropsExactly(c, adding, id, thread);
    ThreadsAfterAdd(c, adding, id);
    AddIdKeepsBounds(c, adding, id);
    var d := AddId(c, adding, id);
    assert thread in d.ids ==> thread in Members(d.threads);
    if adding !in c.ids {
      NotFull(c, adding, threads);
    }
  }

  /** Adding a request's seeds: the first n are new, the others are held already. */
  lemma {:induction false} RoomyAdds(c: Cache, adding: string, seeds: seq<string>, n: nat, thread: string,
      threads: set<string>)
    requires ValidCache(c) && Members(c.threads) <= threads && |threads| <= MAX_CACHED_THREADS && adding in threads
    requires adding == thread ==> |IdsOf(c, thread)| + n <= MAX_IDS_PER_THREAD
    requires adding == thread ==> forall k | n <= k < |seeds| :: seeds[k] in IdsOf(c, thread)
    ensures var d := AddAll(c, adding, seeds);
            && ValidCache(d) && Grew(c, d, thread, if adding == thread then Lesser(n, |seeds|) else 0, threads)
            && (adding == thread ==> Members(seeds) <= Members(IdsOf(d, thread)))
  {
    hide AddId, ValidCache;
    if seeds != [] {
      var most, last := seeds[..|seeds| - 1], seeds[|seeds| - 1];
      RoomyAdds(c, adding, most, n, thread, threads);
      var d := AddAll(c, adding, most);
      assert Members(seeds) == Members(most) + {last};
      assert adding == thread && n < |seeds| ==> last in Members(IdsOf(d, thread));
      AddIdKeepsBounds(d, adding, last);
      RoomyAdd(d, adding, last, thread, threads);
    }
  }

  function Lesser(a: nat, b: nat): nat {
    if a < b then a else b
  }

  lemma RoomyArrival(w: World, s: Step, thread: string, threads: set<string>)
    requires s.Arrives? && s.thread != ""
    requires ValidCache(w.cache) && Members(w.cache.threads) <= threads && |threads| <= MAX_CACHED_THREADS
    requires s.thread in threads && |IdsOf(w.cache, thread)| + Brings(s, thread) <= MAX_IDS_PER_THREAD
    ensures Grew(w.cache, Take(w, s).cache, thread, Brings(s, thread), threads)
    ensures s.thread == thread ==> Members(s.ids) <= Members(IdsOf(Take(w, s).cache, thread))
  {
    hide AddAll, ValidCache, Absent;
    var seeds := Seeds(w.cache, s.thread, s.ids);
    AbsentExactly(IdsOf(w.cache, s.thread), s.ids);
    forall k | |s.ids| <= k < |seeds|
      ensures seeds[k] in IdsOf(w.cache, s.thread)
    {
      assert seeds[k] in Members(Absent(IdsOf(w.cache, s.thread), s.ids));
    }
    assert Members(s.ids) <= Members(seeds);
    RoomyAdds(w.cache, s.thread, seeds, |s.ids|, thread, threads);
  }

  /** With room for its thread, a step drops nothing, and uses up no more places than it brings ids. */
  lemma RoomyStep(w: World, s: Step, thread: string, threads: set<string>)
    requires ValidCache(w.cache) && Members(w.cache.threads) <= threads && |threads| <= MAX_CACHED_THREADS
    requires s.thread != "" ==> s.thread in threads
    requires |IdsOf(w.cache, thread)| + Brings(s, thread) <= MAX_IDS_PER_THREAD
    ensures Grew(w.cache, Take(w, s).cache, thread, Brings(s, thread), threads)
    ensures s.Arrives? && s.thread == thread != "" ==> Members(s.ids) <= Members(IdsOf(Take(w, s).cache, thread))
  {
    hide AddAll, AddId, ValidCache, ResultOf, Seeds;
    if s.thread != "" {
      if s.Arrives? {
        RoomyArrival(w, s, thread, threads);
      } else {
        RoomyAdd(w.cache, s.thread, ResultOf(w, s), thread, threads);
      }
    }
  }

  lemma {:induction false} RoomyRun(w: World, steps: seq<Step>, thread: string, k: nat)
    requires ValidCache(w.cache) && FitsThread(w.cache, steps, thread) && k <= |steps|
    ensures var a := After(w, steps[..k]);
            && ValidCache(a.cache) && Members(a.cache.threads) <= Members(w.cache.threads) + ThreadsOf(steps)
            && |IdsOf(a.cache, thread)| <= |IdsOf(w.cache, thread)| + IdsFor(steps[..k], thread)
    ensures forall n | 0 <= n < k :: Keeps(After(w, steps[..n]), steps[n], thread)
    ensures forall n | 0 <= n < k && steps[n].Arrives? && steps[n].thread == thread != "" ::
              Members(steps[n].ids) <= HeldAt(w, steps, n + 1, thread)
  {
    hide Take, ValidCache, IdsOf, Brings;
    if k > 0 {
      RoomyRun(w, steps, thread, k - 1);
      AfterStep(w, steps, k - 1);
      IdsForGrows(steps, thread, k);
      assert steps[..k][..k - 1] == steps[..k - 1];
      ValidAfter(w, steps[..k]);
      RoomyStep(After(w, steps[..k - 1]), steps[k - 1], thread, Members(w.cache.threads) + ThreadsOf(steps));
    }
  }

  lemma {:induction false} IdsForGrows(steps: seq<Step>, thread: string, k: nat)
    requires k <= |steps|
    ensures IdsFor(steps[..k], thread) <= IdsFor(steps, thread)
    decreases |steps|
  {
    if k < |steps| {
      assert steps[..|steps| - 1][..k] == steps[..k];
      IdsForGrows(steps[..|steps| - 1], thread, k);
    } else {
      assert steps[..k] == steps;
    }
  }

  /** So a run drops none of a thread's ids if all its threads fit in the cache and the thread's own
      ids, resolved or brought by requests, fit in its set; however many ids the other threads have. */
  lemma EnoughRoomKeeps(w: World, steps: seq<Step>, thread: string)
    requires ValidCache(w.cache) && FitsThread(w.cache, steps, thread)
    ensures NoneDropped(w, steps, thread)
  {
    RoomyRun(w, steps, thread, |steps|);
  }

  /** Under that condition the history of a request is avoided by every stream of its thread. */
  lemma HistoryIsShared(w: World, steps: seq<Step>, i: nat, j: nat)
    requires ValidCache(w.cache) && i < j < |steps| && steps[i].Arrives? && steps[j].Resolves?
    requires steps[i].thread == steps[j].thread != "" && FitsThread(w.cache, steps, steps[i].thread)
    ensures ResultAt(w, steps, j) !in steps[i].ids
  {
    hide Take, ValidCache, FitsThread, NoneDropped;
    RoomyRun(w, steps, steps[i].thread, |steps|);
    EnoughRoomKeeps(w, steps, steps[i].thread);
    Carried(w, steps, i + 1, j, steps[i].thread, steps[i].stream);
    assert Members(steps[i].ids) <= HeldAt(w, steps, j, steps[i].thread);
    assert ResultAt(w, steps, j) !in HeldAt(w, steps, j, steps[i].thread);
    assert ResultAt(w, steps, j) !in Members(steps[i].ids);
  }

  // ---- the limits of the promise ------------------------------------------------------------------------

  /** An id is safe from a stream, whatever ids it is given, exactly as long as the stream has used it or
      the cache holds it for the thread; so every drop of the cache breaks the promise for a stream that
      has not used the id. */
  lemma AvoidedExactly(w: World, thread: string, stream: nat, known: string)
    ensures (forall id :: ResultOf(w, Resolves(thread, stream, id)) != known)
       <==> known in UsedBy(w, stream) + SharedWith(w.cache, thread)
  {
    if known !in UsedBy(w, stream) + SharedWith(w.cache, thread) {
      assert ResultOf(w, Resolves(thread, stream, known)) == known;
    }
  }

  /** Two streams of requests without a thread id share nothing: an id new to both passes twice. */
  lemma UnnamedThreadsCollide(w: World, id: string, m: nat, n: nat)
    requires m != n && id !in UsedBy(w, m)
    ensures var steps := [Resolves("", m, id), Resolves("", n, id)];
            ResultAt(w, steps, 0) == ResultAt(w, steps, 1) <==> id !in UsedBy(w, n)
  {
    var steps := [Resolves("", m, id), Resolves("", n, id)];
    assert steps[..0] == [] && steps[..1] == [steps[0]] && steps[..1][..0] == [];
    assert After(w, steps[..1]) == Take(w, steps[0]);
  }

  /** The limit of that promise: when a thread's set is full, one minted id from stream 0 makes the
      cache forget its oldest id, and a stream that had not seen it passes it on again. */
  lemma EvictionForgets(w: World, thread: string, minted: string)
    requires thread != "" && ValidCache(w.cache) && thread in w.cache.ids && |w.cache.ids[thread]| == MAX_IDS_PER_THREAD
    requires minted !in UsedBy(w, 0) && minted !in w.cache.ids[thread] && w.cache.ids[thread][0] !in UsedBy(w, 1)
    ensures var oldest := w.cache.ids[thread][0];
            ResultOf(Take(w, Resolves(thread, 0, minted)), Resolves(thread, 1, oldest)) == oldest
  {
    var ids := w.cache.ids[thread];
    AddIdKeepsBounds(w.cache, thread, minted);
    var left := (ids + [minted])[1..];
    assert IdsOf(Take(w, Resolves(thread, 0, minted)).cache, thread) == left;
    assert ids[0] !in left by {
      assert forall k | 0 <= k < |left| :: left[k] == if k + 1 < |ids| then ids[k + 1] else minted;
    }
  }
}
