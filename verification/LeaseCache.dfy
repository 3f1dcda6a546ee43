/**
 The DHCP lease cache (`network/dhcp.go`): building the index, the lookup, and
 what racing refreshes may leave in the cache.
 */
module LeaseCache {
  import opened Wrappers

  /** One row of the lease file; `expiry` is None when it does not parse. */
  datatype Row = Row(mac: string, ip: string, expiry: Option<int>)

  datatype Lease = Lease(mac: string, ip: string, expiresAt: int)

  // ---------------------------------------------------------------- parse and index

  /** The lease of the last row with this MAC, case folded by `lower`, and a parseable expiry. */
  function LastMatch(rows: seq<Row>, lower: string -> string, key: string): Option<Lease>
    decreases |rows|
  {
    if rows == [] then None
    else
      var r := rows[|rows| - 1];
      if r.expiry.Some? && lower(r.mac) == key then Some(Lease(r.mac, r.ip, r.expiry.value))
      else LastMatch(rows[..|rows| - 1], lower, key)
  }

  /** The same over parsed leases. */
  function LastLease(leases: seq<Lease>, lower: string -> string, key: string): Option<Lease>
    decreases |leases|
  {
    if leases == [] then None
    else if lower(leases[|leases| - 1].mac) == key then Some(leases[|leases| - 1])
    else LastLease(leases[..|leases| - 1], lower, key)
  }

  method Parse(rows: seq<Row>, lower: string -> string) returns (out: seq<Lease>)
    ensures forall key :: LastLease(out, lower, key) == LastMatch(rows, lower, key)
    ensures |out| <= |rows|
  {
    out := [];
    for i := 0 to |rows|
      invariant |out| <= i
      invariant forall key :: LastLease(out, lower, key) == LastMatch(rows[..i], lower, key)
    {
      assert rows[..i + 1][..i] == rows[..i];
      ghost var was := out;
      if rows[i].expiry.None? {
        continue;
      }
      out := out + [Lease(rows[i].mac, rows[i].ip, rows[i].expiry.value)];
      assert out[..|out| - 1] == was;
    }
    assert rows[..|rows|] == rows;
  }

  method BuildIndex(leases: seq<Lease>, lower: string -> string) returns (byMAC: map<string, Lease>)
    ensures forall key :: LastLease(leases, lower, key) == (if key in byMAC then Some(byMAC[key]) else None)
  {
    byMAC := map[];
    for i := 0 to |leases|
      invariant forall key :: LastLease(leases[..i], lower, key) == (if key in byMAC then Some(byMAC[key]) else None)
    {
      assert leases[..i + 1][..i] == leases[..i];
      byMAC := byMAC[lower(leases[i].mac) := leases[i]];
    }
    assert leases[..|leases|] == leases;
  }

  /** The file as a stat and a read see it. */
  datatype File = File(mtime: int, size: int, rows: seq<Row>)

  class LeaseParser {
    const lower: string -> string
    var loaded: bool
    var mtime: int
    var size: int
    var byMAC: map<string, Lease>

    constructor (lower: string -> string)
      ensures !loaded && this.lower == lower
    {
      this.lower, loaded, mtime, size, byMAC := lower, false, 0, 0, map[];
    }

    /** The cached index answers every lookup as a last-match scan of these rows would. */
    ghost predicate Indexes(rows: seq<Row>)
      reads this
    {
      loaded && forall key :: LastMatch(rows, lower, key) == (if key in byMAC then Some(byMAC[key]) else None)
    }

    /** The first section of `refresh`: is the cache of exactly this stamp? */
    method CheckFresh(st: File) returns (current: bool)
      ensures current <==> loaded && mtime == st.mtime && size == st.size
    {
      current := loaded && st.mtime == mtime && st.size == size;
    }

    /** Read and index outside the lock, then install under the stamp taken before. */
    method Install(st: File, read: File)
      modifies this
      ensures Indexes(read.rows) && mtime == st.mtime && size == st.size
    {
      var leases := Parse(read.rows, lower);
      var index := BuildIndex(leases, lower);
      byMAC, loaded := index, true;
      mtime, size := st.mtime, st.size;
    }

    /** `st` is what stat sees, `read` what the later read sees; None is an error. */
    method Refresh(st: Option<File>, read: Option<File>) returns (ok: bool)
      modifies this
      ensures ok <==> st.Some? && (read.Some? || old(loaded && mtime == st.value.mtime && size == st.value.size))
      ensures ok && !old(loaded && mtime == st.value.mtime && size == st.value.size) ==>
        Indexes(read.value.rows) && mtime == st.value.mtime && size == st.value.size
      ensures !ok || old(loaded && mtime == st.value.mtime && size == st.value.size) ==>
        loaded == old(loaded) && mtime == old(mtime) && size == old(size) && byMAC == old(byMAC)
    {
      if st.None? {
        return false;
      }
      var current := CheckFresh(st.value);
      if current {
        return true;
      }
      if read.None? {
        return false;
      }
      Install(st.value, read.value);
      ok := true;
    }

    /** The locked read of `LookupByMAC`. */
    method Lookup(mac: string, now: int, ghost rows: seq<Row>) returns (lease: Option<Lease>)
      requires Indexes(rows)
      ensures lease == (match LastMatch(rows, lower, lower(mac))
                        case None => None
                        case Some(l) => if now < l.expiresAt then Some(l) else None)
    {
      var key := lower(mac);
      if key in byMAC && now < byMAC[key].expiresAt {
        return Some(byMAC[key]);
      }
      return None;
    }
  }

  // ---------------------------------------------------------------- racing refreshes

  type Tid = nat

  /** Where a refresh stands; versions of the file are numbered as they are written. */
  datatype Point =
    | Called(at: nat)
    | Statted(at: nat, st: nat)
    | MustRead(at: nat, st: nat)
    | HasRead(at: nat, st: nat, read: nat)
    | Ended(at: nat)
    | Failed

  /** `parsed` is the version the index came from; `stamp` the version whose mtime and size are stored with it. */
  datatype Cache = Empty | Cache(parsed: nat, stamp: nat)

  /** `stamps` gives the mtime and size of each version of the file. */
  datatype World = World(stamps: nat -> (int, int), version: nat, cache: Cache, threads: map<Tid, Point>)

  datatype Event =
    | WriteFile
    | Call(t: Tid)
    | Stat(t: Tid)
    | Check(t: Tid)
    | Read(t: Tid)
    | Store(t: Tid)
    | Fail(t: Tid)

  predicate Enabled(w: World, e: Event) {
    match e
    case WriteFile => true
    case Call(t) => t !in w.threads
    case Stat(t) => t in w.threads && w.threads[t].Called?
    case Check(t) => t in w.threads && w.threads[t].Statted?
    case Read(t) => t in w.threads && w.threads[t].MustRead?
    case Store(t) => t in w.threads && w.threads[t].HasRead?
    case Fail(t) => t in w.threads && (w.threads[t].Called? || w.threads[t].MustRead?)
  }

  function Next(w: World, e: Event): World
    requires Enabled(w, e)
  {
    match e
    case WriteFile => w.(version := w.version + 1)
    case Call(t) => w.(threads := w.threads[t := Called(w.version)])
    case Stat(t) => w.(threads := w.threads[t := Statted(w.threads[t].at, w.version)])
    case Check(t) =>
      var p := w.threads[t];
      var current := w.cache.Cache? && w.stamps(w.cache.stamp) == w.stamps(p.st);
      w.(threads := w.threads[t := if current then Ended(p.at) else MustRead(p.at, p.st)])
    case Read(t) => w.(threads := w.threads[t := HasRead(w.threads[t].at, w.threads[t].st, w.version)])
    case Store(t) =>
      var p := w.threads[t];
      w.(cache := Cache(p.read, p.st), threads := w.threads[t := Ended(p.at)])
    case Fail(t) => w.(threads := w.threads[t := Point.Failed])
  }

  predicate Possible(w: World, es: seq<Event>)
    decreases |es|
  {
    es == [] || (Enabled(w, es[0]) && Possible(Next(w, es[0]), es[1..]))
  }

  function Run(w: World, es: seq<Event>): World
    requires Possible(w, es)
    decreases |es|
  {
    if es == [] then w else Run(Next(w, es[0]), es[1..])
  }

  function Init(stamps: nat -> (int, int)): World {
    World(stamps, 0, Empty, map[])
  }

  predicate Sound(p: Point, version: nat) {
    match p
    case Called(at) => at <= version
    case Statted(at, st) => at <= st <= version
    case MustRead(at, st) => at <= st <= version
    case HasRead(at, st, read) => at <= st <= read <= version
    case Ended(at) => at <= version
    case Failed => true
  }

  /** The index is at least as new as the version its stamp was taken of. */
  ghost predicate Coherent(w: World) {
    && (w.cache.Cache? ==> w.cache.stamp <= w.cache.parsed <= w.version)
    && (forall t :: t in w.threads ==> Sound(w.threads[t], w.version))
  }

  lemma {:induction false} CoherentRun(w: World, es: seq<Event>)
    requires Coherent(w) && Possible(w, es)
    ensures Coherent(Run(w, es)) && Run(w, es).stamps == w.stamps
    decreases |es|
  {
    if es != [] {
      CoherentRun(Next(w, es[0]), es[1..]);
    }
  }

  /** The refresh of `t` ends successfully in this event. */
  predicate Ends(w: World, e: Event, t: Tid) {
    Enabled(w, e) && (e == Check(t) || e == Store(t)) && Next(w, e).threads[t].Ended?
  }

  /** The index is no older than the file was when `t` called. */
  predicate FreshFor(w: World, t: Tid)
    requires t in w.threads && w.threads[t].Ended?
  {
    w.cache.Cache? && w.threads[t].at <= w.cache.parsed
  }

  /** No two versions of the file share both mtime and size. */
  ghost predicate StampsDiffer(stamps: nat -> (int, int)) {
    forall v: nat, u: nat :: v < u ==> stamps(v) != stamps(u)
  }

  ghost predicate EveryRefreshEndsFresh(stamps: nat -> (int, int)) {
    forall es, e, t ::
      Possible(Init(stamps), es) && Ends(Run(Init(stamps), es), e, t) ==> FreshFor(Next(Run(Init(stamps), es), e), t)
  }

  /**
   However refreshes race with each other and with writes, each one leaves in its
   own last section an index no older than the file when it was called. That holds
   exactly when no two versions share mtime and size.
   */
  lemma RefreshEndsFreshExactly(stamps: nat -> (int, int))
    ensures EveryRefreshEndsFresh(stamps) <==> StampsDiffer(stamps)
  {
    if StampsDiffer(stamps) {
      forall es, e, t | Possible(Init(stamps), es) && Ends(Run(Init(stamps), es), e, t)
        ensures FreshFor(Next(Run(Init(stamps), es), e), t)
      {
        CoherentRun(Init(stamps), es);
        EndsFresh(Run(Init(stamps), es), e, t);
      }
    } else {
      var v: nat, u: nat :| v < u && stamps(v) == stamps(u);
      RepeatedStampIsMissed(stamps, v, u);
    }
  }

  lemma EndsFresh(w: World, e: Event, t: Tid)
    requires Coherent(w) && StampsDiffer(w.stamps) && Ends(w, e, t)
    ensures FreshFor(Next(w, e), t)
  {
    if e.Check? {
      var a, b := w.cache.stamp, w.threads[t].st;
      assert !(a < b) && !(b < a);
    }
  }

  /** A refresh called at version `v` that runs undisturbed. */
  function Stored(v: nat): seq<Event> {
    Writes(v) + Refresh(0) + [Store(0)]
  }

  lemma StoredRun(stamps: nat -> (int, int), v: nat)
    ensures Possible(Init(stamps), Stored(v))
    ensures Run(Init(stamps), Stored(v)) == World(stamps, v, Cache(v, v), map[0 := Ended(v)])
  {
    var w0 := Init(stamps);
    WritesRun(w0, v);
    RefreshRun(Run(w0, Writes(v)), 0);
    RunConcat(w0, Writes(v), Refresh(0));
    RunSnoc(w0, Writes(v) + Refresh(0), Store(0));
  }

  /** After it, a refresh called at version `u` takes the index of `v` as current. */
  lemma RepeatedStampIsMissed(stamps: nat -> (int, int), v: nat, u: nat)
    requires v < u && stamps(v) == stamps(u)
    ensures !EveryRefreshEndsFresh(stamps)
  {
    var w0 := Init(stamps);
    StoredRun(stamps, v);
    WritesRun(Run(w0, Stored(v)), u - v);
    RunConcat(w0, Stored(v), Writes(u - v));
    var es := Stored(v) + Writes(u - v);
    RunSnoc(w0, es, Call(1));
    RunSnoc(w0, es + [Call(1)], Stat(1));
    var w := Run(w0, es + [Call(1)] + [Stat(1)]);
    assert w.threads[1] == Statted(u, u) && w.cache == Cache(v, v);
    assert Ends(w, Check(1), 1) && !FreshFor(Next(w, Check(1)), 1);
  }

  // ---------------------------------------------------------------- the lookup after the refresh

  /** A refresh has read an older version than the file now has, and not yet stored it. */
  ghost predicate StaleReader(w: World) {
    exists u :: u in w.threads && w.threads[u].HasRead? && w.threads[u].read < w.version
  }

  /** `LookupByMAC` reads the index in a later section than its refresh: whenever that is, it reads no older a version than at its call. */
  ghost predicate EveryLookupReadsFresh(w: World, t: Tid)
    requires Enabled(w, Call(t))
  {
    forall es :: Possible(Next(w, Call(t)), es) ==>
      var now := Run(Next(w, Call(t)), es);
      t in now.threads && now.threads[t].Ended? ==> FreshFor(now, t)
  }

  /**
   A lookup is safe from its call on exactly when no refresh sits on an older read at
   that moment; the one direction also needs the stamps to differ, as for refreshes.
   */
  lemma LookupIsFreshExactly(w: World, t: Tid)
    requires Coherent(w) && Enabled(w, Call(t))
    ensures EveryLookupReadsFresh(w, t) ==> !StaleReader(w)
    ensures StampsDiffer(w.stamps) && !StaleReader(w) ==> EveryLookupReadsFresh(w, t)
  {
    if StaleReader(w) {
      var u :| u in w.threads && w.threads[u].HasRead? && w.threads[u].read < w.version;
      SlowStoreIsRead(w, t, u);
    } else if StampsDiffer(w.stamps) {
      var w1 := Next(w, Call(t));
      forall es | Possible(w1, es) && t in Run(w1, es).threads && Run(w1, es).threads[t].Ended?
        ensures FreshFor(Run(w1, es), t)
      {
        SinceRun(w1, es, t, w.version);
      }
    }
  }

  /** Since a call of `t` at version `at`: whatever is stored from here on was read at `at` or later. */
  ghost predicate Since(w: World, t: Tid, at: nat) {
    && Coherent(w) && StampsDiffer(w.stamps)
    && t in w.threads && (!w.threads[t].Failed? ==> w.threads[t].at == at)
    && (forall u :: u in w.threads && w.threads[u].HasRead? ==> at <= w.threads[u].read)
    && at <= w.version
    && (w.threads[t].Ended? ==> w.cache.Cache? && at <= w.cache.parsed)
  }

  lemma SinceStep(w: World, e: Event, t: Tid, at: nat)
    requires Since(w, t, at) && Enabled(w, e)
    ensures Since(Next(w, e), t, at)
  {
    if e == Check(t) && Ends(w, e, t) {
      EndsFresh(w, e, t);
    }
  }

  lemma {:induction false} SinceRun(w: World, es: seq<Event>, t: Tid, at: nat)
    requires Since(w, t, at) && Possible(w, es)
    ensures Since(Run(w, es), t, at)
    decreases |es|
  {
    if es != [] {
      SinceStep(w, es[0], t, at);
      SinceRun(Next(w, es[0]), es[1..], t, at);
    }
  }

  /** The refresh of `t` runs to its end, and then `u` stores what it read before. */
  lemma SlowStoreIsRead(w: World, t: Tid, u: Tid)
    requires Coherent(w) && Enabled(w, Call(t))
    requires u in w.threads && w.threads[u].HasRead? && w.threads[u].read < w.version
    ensures !EveryLookupReadsFresh(w, t)
  {
    var w1 := Next(w, Call(t));
    var w2 := Next(w1, Stat(t));
    var w3 := Next(w2, Check(t));
    RunCons(w2, Check(t), []);
    RunCons(w1, Stat(t), [Check(t)] + []);
    var a := [Stat(t)] + ([Check(t)] + []);
    var es, last := a, w3;
    if w3.threads[t].MustRead? {
      RunSnoc(w1, a, Read(t));
      RunSnoc(w1, a + [Read(t)], Store(t));
      es := a + [Read(t)] + [Store(t)];
      last := Next(Next(w3, Read(t)), Store(t));
    }
    assert last == Run(w1, es) && last.threads[t] == Ended(w.version) && last.threads[u] == w.threads[u];
    RunSnoc(w1, es, Store(u));
    var now := Run(w1, es + [Store(u)]);
    assert now.cache.parsed == w.threads[u].read && now.threads[t] == Ended(w.version);
  }

  /**
   Such a call is reached, whatever the stamps: one refresh reads, the file is
   rewritten, a second call refreshes to the end, and then the first stores.
   */
  lemma LookupCanBeStale(stamps: nat -> (int, int))
    ensures exists es :: Possible(Init(stamps), es) && var w := Run(Init(stamps), es);
      1 in w.threads && w.threads[1].Ended? && !FreshFor(w, 1)
  {
    var w0 := Init(stamps);
    RefreshRun(w0, 0);
    RunSnoc(w0, Refresh(0), WriteFile);
    var a := Refresh(0) + [WriteFile];
    var w1 := Run(w0, a);
    RefreshRun(w1, 1);
    RunConcat(w0, a, Refresh(1));
    var b := a + Refresh(1);
    RunSnoc(w0, b, Store(1));
    RunSnoc(w0, b + [Store(1)], Store(0));
    var w := Run(w0, b + [Store(1)] + [Store(0)]);
    assert w.threads[1] == Ended(1) && w.cache == Cache(0, 0);
  }

  // ---------------------------------------------------------------- building runs

  function Writes(n: nat): seq<Event> {
    seq(n, _ => WriteFile)
  }

  /** A refresh up to its read. */
  function Refresh(t: Tid): seq<Event> {
    [Call(t), Stat(t), Check(t), Read(t)]
  }

  lemma {:induction false} WritesRun(w: World, n: nat)
    ensures Possible(w, Writes(n)) && Run(w, Writes(n)) == w.(version := w.version + n)
    decreases n
  {
    if n > 0 {
      WritesRun(Next(w, WriteFile), n - 1);
      assert Writes(n)[1..] == Writes(n - 1);
    }
  }

  /**
   One refresh, with the file written `m` times between its call and its stat and `n` times
   between its stat and its read. It is over at the check exactly when the cache bears the
   stamp of the file as it was at the stat; otherwise it installs the file as it is at the
   read, under the stamp of the stat.
   */
  lemma RefreshInstalls(w: World, t: Tid, m: nat, n: nat)
    requires t !in w.threads
    ensures var called := Next(w, Call(t));
            && Possible(called, Writes(m)) && Enabled(Run(called, Writes(m)), Stat(t))
            && var checked := Next(Next(Run(called, Writes(m)), Stat(t)), Check(t));
               var hit := w.cache.Cache? && w.stamps(w.cache.stamp) == w.stamps(w.version + m);
               && (checked.threads[t].Ended? <==> hit) && checked.cache == w.cache
               && Possible(checked, Writes(n))
               && (!hit ==>
                     var later := Run(checked, Writes(n));
                     && Enabled(later, Read(t)) && Enabled(Next(later, Read(t)), Store(t))
                     && Next(Next(later, Read(t)), Store(t)).cache == Cache(w.version + m + n, w.version + m))
  {
    var called := Next(w, Call(t));
    WritesRun(called, m);
    WritesRun(Next(Next(Run(called, Writes(m)), Stat(t)), Check(t)), n);
  }

  lemma RefreshRun(w: World, t: Tid)
    requires t !in w.threads && w.cache == Empty
    ensures Possible(w, Refresh(t))
    ensures Run(w, Refresh(t)) == w.(threads := w.threads[t := HasRead(w.version, w.version, w.version)])
  {
    var v := w.version;
    var w1 := Next(w, Call(t));
    var w2 := Next(w1, Stat(t));
    var w3 := Next(w2, Check(t));
    var w4 := Next(w3, Read(t));
    assert w4.threads == w.threads[t := HasRead(v, v, v)];
    RunCons(w3, Read(t), []);
    RunCons(w2, Check(t), [Read(t)]);
    RunCons(w1, Stat(t), [Check(t), Read(t)]);
    RunCons(w, Call(t), [Stat(t), Check(t), Read(t)]);
    assert [Read(t)] + [] == [Read(t)];
    assert [Check(t)] + [Read(t)] == [Check(t), Read(t)];
    assert [Stat(t)] + [Check(t), Read(t)] == [Stat(t), Check(t), Read(t)];
    assert [Call(t)] + [Stat(t), Check(t), Read(t)] == Refresh(t);
  }

  lemma RunCons(w: World, e: Event, es: seq<Event>)
    requires Enabled(w, e) && Possible(Next(w, e), es)
    ensures Possible(w, [e] + es) && Run(w, [e] + es) == Run(Next(w, e), es)
  {
    assert ([e] + es)[1..] == es;
  }

  lemma {:induction false} RunConcat(w: World, a: seq<Event>, b: seq<Event>)
    requires Possible(w, a) && Possible(Run(w, a), b)
    ensures Possible(w, a + b) && Run(w, a + b) == Run(Run(w, a), b)
    decreases |a|
  {
    if a == [] {
      assert a + b == b;
    } else {
      assert (a + b)[1..] == a[1..] + b;
      RunConcat(Next(w, a[0]), a[1..], b);
    }
  }

  lemma RunSnoc(w: World, a: seq<Event>, e: Event)
    requires Possible(w, a) && Enabled(Run(w, a), e)
    ensures Possible(w, a + [e]) && Run(w, a + [e]) == Next(Run(w, a), e)
  {
    RunConcat(w, a, [e]);
  }
}
