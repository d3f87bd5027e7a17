/**
 * Ralloc's small-object allocator as a small-step machine: any number of threads run do_malloc and
 * do_free, and one step is one atomic load, store or compare-and-swap on shared memory (work on
 * memory only the running thread can reach is folded into the neighbouring step).
 */
module RallocMachine {
  import opened Common
  import opened CountedStack

  /** Block `idx` of superblock `sb`; idx may point one past the last block. */
  datatype Loc = Loc(sb: nat, idx: nat)

  datatype SbState = Error | Full | Partial | Empty

  datatype Anchor = Anchor(avail: nat, count: nat, state: SbState)

  /** maxcount: blocks per superblock of each small size class; expand: superblocks carved out at once. */
  datatype Config = Config(maxcount: map<nat, nat>, expand: nat) {
    ghost predicate Valid() {
      && expand >= 2
      && forall sc: nat :: sc in maxcount ==> maxcount[sc] >= 1
    }
  }

  /** A thread cache bin: an intrusive list of which only the first num links are meaningful. */
  datatype Cache = Cache(head: Loc, num: nat)

  /** The blocks flush_cache is handing back to one superblock. */
  datatype Batch = Batch(head: Loc, tail: Loc, len: nat)

  /** What a push onto the free-superblock list returns to. */
  datatype Cont =
    | ThenFill(sc: nat)
    | ThenFlush(sc: nat, pend: Option<Loc>)
    | ThenInit(sc: nat, d: nat)

  datatype PC =
    | Idle
    // do_malloc / fill_cache / heap_pop_partial / malloc_from_partial
    | Fill(sc: nat)
    | PopNext(sc: nat, was: Head)
    | PopCas(sc: nat, was: Head, nx: Option<nat>)
    | ResLoad(sc: nat, d: nat)
    | ResCas(sc: nat, d: nat, seen: Anchor)
    // small_sb_alloc / malloc_from_newsb
    | SbLoad(sc: nat)
    | SbNext(sc: nat, was: Head)
    | SbCas(sc: nat, was: Head, nx: Option<nat>)
    | GrowLoad(sc: nat)
    | GrowCheck(sc: nat, base: nat)
    | GrowCas(sc: nat, base: nat)
    | InitSb(sc: nat, d: nat)
    | TakeBlock(sc: nat)
    // flush_cache, with the block do_free still has to push
    | Flush(sc: nat, pend: Option<Loc>)
    | FlLoad(sc: nat, pend: Option<Loc>, run: Batch)
    | FlLink(sc: nat, pend: Option<Loc>, run: Batch, seen: Anchor)
    | FlCas(sc: nat, pend: Option<Loc>, run: Batch, seen: Anchor)
    // heap_push_partial
    | PpLoad(sc: nat, pend: Option<Loc>, d: nat)
    | PpLink(sc: nat, pend: Option<Loc>, d: nat, heap: nat, was: Head)
    | PpCas(sc: nat, pend: Option<Loc>, d: nat, heap: nat, was: Head)
    // small_sb_retire / organize_sb_list
    | Erase(d: nat, k: Cont)
    | ChLoad(first: nat, last: nat, k: Cont)
    | ChLink(first: nat, last: nat, k: Cont, was: Head)
    | ChCas(first: nat, last: nat, k: Cont, was: Head)

  datatype State = State(
    top: nat,
    availHead: Head, nextFree: map<nat, Option<nat>>,
    partialHead: map<nat, Head>, nextPartial: map<nat, Option<nat>>,
    cls: map<nat, nat>, anchor: map<nat, Anchor>,
    link: map<Loc, Loc>,
    cache: map<(nat, nat), Cache>,
    user: set<Loc>,
    pc: map<nat, PC>)

  const NULL_HEAD := Head(None, 0)
  const NO_ANCHOR := Anchor(0, 0, Error)
  const NO_CACHE := Cache(Loc(0, 0), 0)

  function PartialHead(s: State, sc: nat): Head { Get(s.partialHead, sc, NULL_HEAD) }

  function AnchorOf(s: State, d: nat): Anchor { Get(s.anchor, d, NO_ANCHOR) }

  function CacheOf(s: State, t: nat, sc: nat): Cache { Get(s.cache, (t, sc), NO_CACHE) }

  /** The first word of a block, whatever was last stored there. */
  function Word(link: map<Loc, Loc>, b: Loc): Loc { Get(link, b, Loc(0, 0)) }

  /** desc->maxcount, as written when the superblock was given its class. */
  function MaxOf(c: Config, cls: map<nat, nat>, d: nat): nat {
    Get(c.maxcount, Get(cls, d, 0), 0)
  }

  /**
   * The inner loop of flush_cache: starting at tail, how many more of the next `left` cache
   * entries lie in superblock sb, and which one is the last.
   */
  function RunFrom(link: map<Loc, Loc>, tail: Loc, sb: nat, left: nat): (Loc, nat)
    decreases left
  {
    if left == 0 || Word(link, tail).sb != sb then (tail, 0)
    else
      var (last, n) := RunFrom(link, Word(link, tail), sb, left - 1);
      (last, n + 1)
  }

  /** The anchor flush_cache tries to install over `seen`. */
  function FlushedAnchor(m: nat, seen: Anchor, run: Batch): Anchor {
    if m > 0 && seen.count + run.len == m then Anchor(run.head.idx, m - 1, Empty)
    else Anchor(run.head.idx, seen.count + run.len, if seen.state.Full? then Partial else seen.state)
  }

  function Resume(k: Cont): PC {
    match k
    case ThenFill(sc) => Fill(sc)
    case ThenFlush(sc, pend) => Flush(sc, pend)
    case ThenInit(sc, d) => InitSb(sc, d)
  }

  /** The free list of a fresh superblock; the last block keeps whatever word it held. */
  function FreshLinks(d: nat, m: nat, junk: Loc): map<Loc, Loc> {
    map i: nat | i < m :: Loc(d, i) := FreshWord(d, m, junk, i)
  }

  function FreshWord(d: nat, m: nat, junk: Loc, i: nat): Loc { if i + 1 < m then Loc(d, i + 1) else junk }

  /** next_free of the superblocks first..last, linked in address order. */
  function FreshChain(first: nat, last: nat): map<nat, Option<nat>> {
    map d: nat | first <= d <= last :: FreshNext(last, d)
  }

  function FreshNext(last: nat, d: nat): Option<nat> { if d < last then Some(d + 1) else None }

  function At(s: State, t: nat, p: PC): (r: State)
    ensures r.cls == s.cls && r.top == s.top && r.cache == s.cache
  {
    s.(pc := s.pc[t := p])
  }

  function WithCache(s: State, t: nat, sc: nat, q: Cache): (r: State)
    ensures r.cls == s.cls && r.top == s.top
  {
    s.(cache := s.cache[(t, sc) := q])
  }

  function SawPartial(sc: nat, h: Head): PC { if h.ptr.None? then SbLoad(sc) else PopNext(sc, h) }

  function SawAvail(sc: nat, h: Head): PC { if h.ptr.None? then GrowLoad(sc) else SbNext(sc, h) }

  /** A step of heap_pop_partial. */
  function ActPop(s: State, t: nat, fail: bool): State
    requires t in s.pc
  {
    match s.pc[t]
    case Fill(sc) => At(s, t, SawPartial(sc, PartialHead(s, sc)))
    case PopNext(sc, was) =>
      if was.ptr.None? then s else At(s, t, PopCas(sc, was, Get(s.nextPartial, was.ptr.value, None)))
    case PopCas(sc, was, nx) =>
      if was.ptr.None? then s
      else if !fail && PartialHead(s, sc) == was then
        At(s.(partialHead := s.partialHead[sc := Head(nx, was.cnt)]), t, ResLoad(sc, was.ptr.value))
      else At(s, t, SawPartial(sc, PartialHead(s, sc)))
    case _ => s
  }

  /** A step of malloc_from_partial. */
  function ActReserve(c: Config, s: State, t: nat, fail: bool): State
    requires t in s.pc
  {
    match s.pc[t]
    case ResLoad(sc, d) => At(s, t, ResCas(sc, d, AnchorOf(s, d)))
    case ResCas(sc, d, seen) =>
      if seen.state.Empty? then At(s, t, Erase(d, ThenFill(sc)))
      else if !fail && AnchorOf(s, d) == seen then
        At(WithCache(s.(anchor := s.anchor[d := Anchor(MaxOf(c, s.cls, d), 0, Full)]),
                     t, sc, Cache(Loc(d, seen.avail), seen.count)),
           t, if seen.count == 0 then SbLoad(sc) else TakeBlock(sc))
      else At(s, t, ResCas(sc, d, AnchorOf(s, d)))
    case _ => s
  }

  /** A step of small_sb_alloc, taking from the free list. */
  function ActSb(s: State, t: nat): State
    requires t in s.pc
  {
    match s.pc[t]
    case SbLoad(sc) => At(s, t, SawAvail(sc, s.availHead))
    case SbNext(sc, was) =>
      if was.ptr.None? then s else At(s, t, SbCas(sc, was, Get(s.nextFree, was.ptr.value, None)))
    case SbCas(sc, was, nx) =>
      if was.ptr.None? then s
      else if s.availHead == was then At(s.(availHead := Head(nx, was.cnt)), t, InitSb(sc, was.ptr.value))
      else At(s, t, SawAvail(sc, s.availHead))
    case _ => s
  }

  /** A step of small_sb_alloc, extending the region. */
  function ActGrow(c: Config, s: State, t: nat): State
    requires t in s.pc
  {
    match s.pc[t]
    case GrowLoad(sc) => At(s, t, GrowCheck(sc, s.top))
    case GrowCheck(sc, base) =>
      // the stale null head is kept when the free list turns out to be non-empty
      At(s, t, if s.availHead.ptr.Some? then GrowLoad(sc) else GrowCas(sc, base))
    case GrowCas(sc, base) =>
      if s.top == base && c.expand >= 2 then
        At(s.(top := base + c.expand, nextFree := s.nextFree + FreshChain(base + 1, base + c.expand - 1)),
           t, ChLoad(base + 1, base + c.expand - 1, ThenInit(sc, base)))
      else At(s, t, GrowLoad(sc))
    case _ => s
  }

  /** A step of malloc_from_newsb and the end of do_malloc. */
  function ActCache(c: Config, s: State, t: nat, junk: Loc): State
    requires t in s.pc
  {
    match s.pc[t]
    case InitSb(sc, d) =>
      var m := Get(c.maxcount, sc, 0);
      At(WithCache(s.(cls := s.cls[d := sc],
                      link := s.link + FreshLinks(d, m, junk),
                      anchor := s.anchor[d := Anchor(m, 0, Full)]),
                   t, sc, Cache(Loc(d, 0), m)),
         t, TakeBlock(sc))
    case TakeBlock(sc) =>
      var q := CacheOf(s, t, sc);
      if q.num == 0 then s
      else At(WithCache(s.(user := s.user + {q.head}), t, sc, Cache(Word(s.link, q.head), q.num - 1)), t, Idle)
    case _ => s
  }

  /** A step of flush_cache, cutting the next batch off the cache. */
  function ActCut(s: State, t: nat): State
    requires t in s.pc
  {
    match s.pc[t]
    case Flush(sc, pend) =>
      var q := CacheOf(s, t, sc);
      if q.num == 0 then At(if pend.Some? then PushBlock(s, t, sc, pend.value) else s, t, Idle)
      else
        var (tail, n) := RunFrom(s.link, q.head, q.head.sb, q.num - 1);
        At(WithCache(s, t, sc, Cache(Word(s.link, tail), if n + 1 <= q.num then q.num - (n + 1) else 0)),
           t, FlLoad(sc, pend, Batch(q.head, tail, n + 1)))
    case _ => s
  }

  /** A step of flush_cache, returning a batch. */
  function ActFlush(c: Config, s: State, t: nat, fail: bool): State
    requires t in s.pc
  {
    match s.pc[t]
    case FlLoad(sc, pend, run) => At(s, t, FlLink(sc, pend, run, AnchorOf(s, run.head.sb)))
    case FlLink(sc, pend, run, seen) =>
      At(s.(link := s.link[run.tail := Loc(run.head.sb, seen.avail)]), t, FlCas(sc, pend, run, seen))
    case FlCas(sc, pend, run, seen) =>
      var d := run.head.sb;
      if !fail && AnchorOf(s, d) == seen then
        var a := FlushedAnchor(MaxOf(c, s.cls, d), seen, run);
        At(s.(anchor := s.anchor[d := a]), t,
           if seen.state.Full? then
             if a.state.Empty? then Erase(d, ThenFlush(sc, pend)) else PpLoad(sc, pend, d)
           else Flush(sc, pend))
      else At(s, t, FlLink(sc, pend, run, AnchorOf(s, d)))
    case _ => s
  }

  /** A step of heap_push_partial. */
  function ActPush(s: State, t: nat, fail: bool): State
    requires t in s.pc
  {
    match s.pc[t]
    case PpLoad(sc, pend, d) =>
      var heap := Get(s.cls, d, 0);
      At(s, t, PpLink(sc, pend, d, heap, PartialHead(s, heap)))
    case PpLink(sc, pend, d, heap, was) =>
      At(s.(nextPartial := s.nextPartial[d := was.ptr]), t, PpCas(sc, pend, d, heap, was))
    case PpCas(sc, pend, d, heap, was) =>
      if !fail && PartialHead(s, heap) == was then
        At(s.(partialHead := s.partialHead[heap := Head(Some(d), was.cnt + 1)]), t, Flush(sc, pend))
      else At(s, t, PpLink(sc, pend, d, heap, PartialHead(s, heap)))
    case _ => s
  }

  /** A step of small_sb_retire and organize_sb_list. */
  function ActRetire(s: State, t: nat, fail: bool): State
    requires t in s.pc
  {
    match s.pc[t]
    case Erase(d, k) =>
      At(s.(nextFree := s.nextFree[d := None], nextPartial := s.nextPartial[d := None],
            cls := s.cls - {d}, anchor := s.anchor - {d}),
         t, ChLoad(d, d, k))
    case ChLoad(first, last, k) => At(s, t, ChLink(first, last, k, s.availHead))
    case ChLink(first, last, k, was) =>
      At(s.(nextFree := s.nextFree[last := was.ptr]), t, ChCas(first, last, k, was))
    case ChCas(first, last, k, was) =>
      if !fail && s.availHead == was then
        At(s.(availHead := Head(Some(first), was.cnt + 1)), t, Resume(k))
      else At(s, t, ChLink(first, last, k, s.availHead))
    case _ => s
  }

  /**
   * One step of thread t.  `fail` lets a weak compare-and-swap fail although the value matched;
   * `junk` is the leftover word in the last block of a recycled superblock.
   */
  function Act(c: Config, s: State, t: nat, fail: bool, junk: Loc): State
    requires t in s.pc
  {
    var p := s.pc[t];
    if p.Fill? || p.PopNext? || p.PopCas? then ActPop(s, t, fail)
    else if p.ResLoad? || p.ResCas? then ActReserve(c, s, t, fail)
    else if p.SbLoad? || p.SbNext? || p.SbCas? then ActSb(s, t)
    else if p.GrowLoad? || p.GrowCheck? || p.GrowCas? then ActGrow(c, s, t)
    else if p.InitSb? || p.TakeBlock? then ActCache(c, s, t, junk)
    else if p.Flush? then ActCut(s, t)
    else if p.FlLoad? || p.FlLink? || p.FlCas? then ActFlush(c, s, t, fail)
    else if p.PpLoad? || p.PpLink? || p.PpCas? then ActPush(s, t, fail)
    else if p.Erase? || p.ChLoad? || p.ChLink? || p.ChCas? then ActRetire(s, t, fail)
    else s
  }

  /** TCacheBin::push_block. */
  function PushBlock(s: State, t: nat, sc: nat, b: Loc): (r: State)
    ensures r.cls == s.cls && r.top == s.top
  {
    var q := CacheOf(s, t, sc);
    WithCache(s.(link := s.link[b := q.head]), t, sc, Cache(b, q.num + 1))
  }

  datatype Step =
    | Malloc(t: nat, sc: nat)
    | Free(t: nat, b: Loc)
    | FlushCache(t: nat, sc: nat)
    | UserWrite(b: Loc, v: Loc)
    | Run(t: nat, fail: bool, junk: Loc)

  /** The client's side of the contract: it frees and writes only blocks it holds, once. */
  predicate Enabled(c: Config, s: State, e: Step) {
    match e
    case Malloc(t, sc) => t in s.pc && s.pc[t].Idle? && sc in c.maxcount
    case Free(t, b) => t in s.pc && s.pc[t].Idle? && b in s.user
    case FlushCache(t, sc) => t in s.pc && s.pc[t].Idle? && sc in c.maxcount
    case UserWrite(b, v) => b in s.user
    case Run(t, _, _) => t in s.pc && !s.pc[t].Idle?
  }

  function Apply(c: Config, s: State, e: Step): State
    requires Enabled(c, s, e)
  {
    match e
    case Malloc(t, sc) => At(s, t, if CacheOf(s, t, sc).num == 0 then Fill(sc) else TakeBlock(sc))
    case Free(t, b) =>
      var sc := Get(s.cls, b.sb, 0);
      var s1 := s.(user := s.user - {b});
      if CacheOf(s, t, sc).num >= Get(c.maxcount, sc, 0) then At(s1, t, Flush(sc, Some(b)))
      else PushBlock(s1, t, sc, b)
    case FlushCache(t, sc) => At(s, t, Flush(sc, None))
    case UserWrite(b, v) => s.(link := s.link[b := v])
    case Run(t, fail, junk) => Act(c, s, t, fail, junk)
  }

  /** BaseMeta's constructor: one region carved out, its first superblock skipped. */
  predicate Init(c: Config, s: State) {
    && c.expand >= 2
    && s.top == c.expand
    && s.availHead == Head(Some(1), 1) && s.nextFree == FreshChain(1, c.expand - 1)
    && s.partialHead == map[] && s.nextPartial == map[]
    && s.cls == map[] && s.anchor == map[] && s.cache == map[] && s.user == {}
    && forall t: nat :: t in s.pc ==> s.pc[t].Idle?
  }

  /** states is a run: it starts in an initial state and each step leads from one state to the next. */
  ghost predicate IsRun(c: Config, states: seq<State>, steps: seq<Step>) {
    && c.Valid()
    && |states| == |steps| + 1
    && Init(c, states[0])
    && forall i :: 0 <= i < |steps| ==>
      Enabled(c, states[i], steps[i]) && states[i + 1] == Apply(c, states[i], steps[i])
  }
}
