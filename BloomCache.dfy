/**
 * The per-segment Bloom-filter cache of an index (SimpleBloomCache).
 *
 * The cache is a two-level table: segment core key -> (field name -> entry).
 * Each entry records the live-document count it was built against, the filter,
 * and a "loading" flag that gates rebuilds. The model is sequential: the thread
 * pool is a queue of pending loader tasks that RunPendingTask drains, and the
 * atomic compare-and-set on "loading" is a test-and-set on the stored entry.
 */
module BloomCache {

  /** The core cache key of a segment reader; every reader of one segment core shares it. */
  datatype CoreKey = CoreKey(id: nat)

  type Term = string

  type Doc = nat

  /**
   * An index reader over one segment: its core key, its live document count
   * (reader.numDocs()), whether it is a SegmentReader (only those take close
   * listeners), the postings of each field and the set of live documents.
   */
  datatype Segment = Segment(
    key: CoreKey,
    numDocs: nat,
    isSegmentReader: bool,
    postings: map<string, map<Term, set<Doc>>>,
    liveDocs: set<Doc>)

  /**
   * A Bloom filter, abstracted to the set of keys added to it.
   * Empty answers "absent" for every key, None answers "possibly present" for
   * every key, and Built holds the keys added during a load.
   */
  datatype BloomFilter = Empty | None | Built(expectedInsertions: nat, keys: set<Term>)

  predicate MightContain(f: BloomFilter, t: Term) {
    match f
    case Empty => false
    case None => true
    case Built(_, keys) => t in keys
  }

  /** A cache entry (BloomFilterEntry): doc count at build time, filter, loading flag. */
  datatype Entry = Entry(numDocs: int, filter: BloomFilter, loading: bool)

  /** A loader submitted to the executor: the reader it captured and the field to load. */
  datatype Task = Task(segment: Segment, field: string)

  /** The cache as a value: tables, executor queue and registered close listeners. */
  datatype CacheState = CacheState(
    tables: map<CoreKey, map<string, Entry>>,
    pending: seq<Task>,
    listeners: seq<CoreKey>)

  /** The smallest recorded doc count for which deletions can trigger a reload. */
  const ReloadMinDocs := 1000

  /** Java's int division, which truncates toward zero. */
  function JavaIntDiv(a: int, b: int): (q: int)
    requires b != 0
    ensures a >= 0 && b > 0 ==> q == a / b
  {
    if (a >= 0) == (b > 0) then
      (if a >= 0 then a / b else (-a) / (-b))
    else
      -((if a >= 0 then a else -a) / (if b >= 0 then b else -b))
  }

  /**
   * The reload rule: recorded count above 1000, below maxSize, and the int
   * quotient currentNumDocs / recorded compared with the double 0.6
   * (for an integer q, q < 0.6 is 10 * q < 6).
   */
  predicate ReloadWanted(e: Entry, currentNumDocs: int, maxSize: int) {
    e.numDocs > ReloadMinDocs && e.numDocs < maxSize
    && 10 * JavaIntDiv(currentNumDocs, e.numDocs) < 6
  }

  /** Because the quotient is an int, the rule fires on any drop below the recorded count. */
  lemma ReloadWantedIff(e: Entry, currentNumDocs: nat, maxSize: int)
    ensures ReloadWanted(e, currentNumDocs, maxSize)
            <==> e.numDocs > ReloadMinDocs && e.numDocs < maxSize && currentNumDocs < e.numDocs
  {
    if e.numDocs > ReloadMinDocs {
      var q := JavaIntDiv(currentNumDocs, e.numDocs);
      assert q == currentNumDocs / e.numDocs;
      if currentNumDocs < e.numDocs {
        DivBelow(currentNumDocs, e.numDocs);
        assert 10 * q < 6;
      } else {
        DivAtLeastOne(currentNumDocs, e.numDocs);
        assert 10 * q >= 6;
      }
    }
  }

  lemma DivAtLeastOne(a: nat, b: int)
    requires 0 < b <= a
    ensures a / b >= 1
  {
  }

  lemma DivBelow(a: nat, b: int)
    requires a < b
    ensures a / b == 0
  {
  }

  /** The terms of the field that have at least one live document. */
  ghost function LiveTerms(seg: Segment, field: string): set<Term> {
    if field in seg.postings then
      set t | t in seg.postings[field] && seg.postings[field][t] * seg.liveDocs != {}
    else
      {}
  }

  /** The filter a successful load builds: sized for the reader's doc count, holding the live terms. */
  ghost function LoadedFilter(seg: Segment, field: string): BloomFilter {
    Built(seg.numDocs, LiveTerms(seg, field))
  }

  /**
   * What BloomFilterLoader.run does to the tables. A load that throws while
   * enumerating changes nothing. Otherwise the fresh entry (doc count at build
   * time, loading false) is published only if the segment's table still exists
   * and already holds the field.
   */
  ghost function Publish(tables: map<CoreKey, map<string, Entry>>, seg: Segment, field: string, fails: bool)
    : map<CoreKey, map<string, Entry>>
  {
    if !fails && seg.key in tables && field in tables[seg.key] then
      tables[seg.key := tables[seg.key][field := Entry(seg.numDocs, LoadedFilter(seg, field), false)]]
    else
      tables
  }

  /** Launching a loader: submitted to the executor when async, run inline otherwise. */
  ghost function Launch(st: CacheState, seg: Segment, field: string, async: bool, fails: bool): CacheState {
    if async then st.(pending := st.pending + [Task(seg, field)])
    else st.(tables := Publish(st.tables, seg, field, fails))
  }

  /** The result of one call of filter(reader, field, asyncLoad). */
  datatype LookupResult = LookupResult(state: CacheState, filter: BloomFilter, launches: nat)

  /** The table for the segment after the lazy-creation step of filter(). */
  ghost function WithTable(st: CacheState, seg: Segment): (r: CacheState)
    ensures seg.key in r.tables
  {
    if seg.key in st.tables then st
    else st.(tables := st.tables[seg.key := map[]],
             listeners := if seg.isSegmentReader then st.listeners + [seg.key] else st.listeners)
  }

  /** The entry for the field after the lazy-creation step of filter(), with its initial load. */
  ghost function WithEntry(st: CacheState, seg: Segment, field: string, async: bool, fails: bool, maxSize: int)
    : (r: CacheState)
    requires seg.key in st.tables
    ensures seg.key in r.tables && field in r.tables[seg.key]
  {
    if field in st.tables[seg.key] then st
    else
      var e := Entry(seg.numDocs, None, seg.numDocs < maxSize);
      var s := st.(tables := st.tables[seg.key := st.tables[seg.key][field := e]]);
      if seg.numDocs < maxSize then Launch(s, seg, field, async, fails) else s
  }

  /** The whole of filter(reader, field, asyncLoad) on a cache state. */
  ghost function Lookup(st: CacheState, seg: Segment, field: string, async: bool, fails: bool, maxSize: int)
    : LookupResult
  {
    if seg.numDocs == 0 then LookupResult(st, Empty, 0)
    else
      var st1 := WithTable(st, seg);
      var created := field !in st1.tables[seg.key];
      var st2 := WithEntry(st1, seg, field, async, fails, maxSize);
      var n := if created && seg.numDocs < maxSize then 1 else 0;
      var e := st2.tables[seg.key][field];
      if ReloadWanted(e, seg.numDocs, maxSize) && !e.loading then
        var st3 := st2.(tables := st2.tables[seg.key := st2.tables[seg.key][field := e.(loading := true)]]);
        var st4 := Launch(st3, seg, field, async, fails);
        LookupResult(st4, st4.tables[seg.key][field].filter, n + 1)
      else
        LookupResult(st2, e.filter, n)
  }

  /** The executor running the oldest submitted loader. */
  ghost function RunNext(st: CacheState, fails: bool): CacheState {
    if st.pending == [] then st
    else
      var t := st.pending[0];
      CacheState(Publish(st.tables, t.segment, t.field, fails), st.pending[1..], st.listeners)
  }

  // ---------------------------------------------------------------------------
  // Size accounting

  /** The sum of f over the values of a map, in no particular order. */
  ghost function SumMap<K, V>(m: map<K, V>, f: V -> int): int
    decreases |m|
  {
    if m == map[] then 0
    else
      var k :| k in m;
      f(m[k]) + SumMap(m - {k}, f)
  }

  /** Removing any one key takes exactly its value out of the sum. */
  lemma {:induction false} SumMapRemove<K, V>(m: map<K, V>, f: V -> int, k: K)
    requires k in m
    ensures SumMap(m, f) == f(m[k]) + SumMap(m - {k}, f)
    decreases |m|
  {
    var j :| j in m && SumMap(m, f) == f(m[j]) + SumMap(m - {j}, f);
    if j != k {
      var mj := m - {j};
      var mk := m - {k};
      SumMapRemove(mj, f, k);
      SumMapRemove(mk, f, j);
      assert mj - {k} == mk - {j};
    }
  }

  /** Adding up over a map where every value contributes 0 gives 0. */
  lemma {:induction false} SumMapZero<K, V>(m: map<K, V>, f: V -> int)
    requires forall k | k in m :: f(m[k]) == 0
    ensures SumMap(m, f) == 0
    decreases |m|
  {
    if m != map[] {
      var k :| k in m;
      SumMapRemove(m, f, k);
      SumMapZero(m - {k}, f);
    }
  }

  /** The bytes of one table: the sum of its filters' sizes. */
  ghost function TableSize(table: map<string, Entry>, sizeOf: BloomFilter -> int): int {
    SumMap(table, (e: Entry) => sizeOf(e.filter))
  }

  /** sizeInBytes(): the sum of filter sizes over every entry of every table. */
  ghost function TotalSize(tables: map<CoreKey, map<string, Entry>>, sizeOf: BloomFilter -> int): int {
    SumMap(tables, (t: map<string, Entry>) => TableSize(t, sizeOf))
  }

  /** The size of a table's entry named field, 0 if it has none. */
  function EntrySize(table: map<string, Entry>, field: string, sizeOf: BloomFilter -> int): int {
    if field in table then sizeOf(table[field].filter) else 0
  }

  /** sizeInBytes(field): the sum of the sizes of the entries named field, over all tables. */
  ghost function FieldSize(tables: map<CoreKey, map<string, Entry>>, field: string, sizeOf: BloomFilter -> int): int {
    SumMap(tables, (t: map<string, Entry>) => EntrySize(t, field, sizeOf))
  }

  /** The tables cut down to their entries named field. */
  function RestrictToField(tables: map<CoreKey, map<string, Entry>>, field: string)
    : map<CoreKey, map<string, Entry>>
  {
    map k | k in tables :: map f | f in tables[k] && f == field :: tables[k][f]
  }

  // ---------------------------------------------------------------------------
  // The cache object

  class SimpleBloomCache {
    /** index.cache.bloom.max_size: loads happen only for readers with fewer docs. */
    const maxSize: int

    var cache: map<CoreKey, map<string, Entry>>

    /** Loaders submitted to the executor and not yet run, oldest first. */
    var pending: seq<Task>

    /** The core keys this cache registered itself with as a close listener, in order. */
    var listeners: seq<CoreKey>

    ghost function State(): CacheState
      reads this
    {
      CacheState(cache, pending, listeners)
    }

    /** The invariant every public operation keeps (`Consistent`). */
    ghost predicate Valid()
      reads this
    {
      Consistent(State(), maxSize)
    }

    constructor (maxSize: int)
      ensures this.maxSize == maxSize
      ensures State() == CacheState(map[], [], [])
      ensures Valid()
    {
      this.maxSize := maxSize;
      cache := map[];
      pending := [];
      listeners := [];
    }

    /** close() and clear(): drop every table. */
    method Clear()
      modifies this
      ensures Valid()
      ensures cache == map[]
      ensures pending == old(pending) && listeners == old(listeners)
    {
      cache := map[];
    }

    method Close()
      modifies this
      ensures Valid()
      ensures cache == map[]
      ensures pending == old(pending) && listeners == old(listeners)
    {
      Clear();
    }

    /** clear(reader): drop the table of the reader's core key, and only that one. */
    method ClearReader(seg: Segment)
      modifies this
      requires Valid()
      ensures Valid()
      ensures cache == old(cache) - {seg.key}
      ensures pending == old(pending) && listeners == old(listeners)
    {
      ClearReaderConsistent(State(), seg.key, maxSize);
      if seg.key in cache {
        cache := cache - {seg.key};
      }
    }

    /** onClose(owner): the core-closed listener, which clears the owner's table. */
    method OnClose(owner: Segment)
      modifies this
      requires Valid()
      ensures Valid()
      ensures cache == old(cache) - {owner.key}
      ensures pending == old(pending) && listeners == old(listeners)
    {
      ClearReader(owner);
    }

    /** sizeInBytes(): a nested accumulator loop over all entries. */
    method SizeInBytes(sizeOf: BloomFilter -> int) returns (total: int)
      ensures total == TotalSize(cache, sizeOf)
    {
      total := 0;
      var rest := cache;
      while rest != map[]
        invariant total + TotalSize(rest, sizeOf) == TotalSize(cache, sizeOf)
        decreases |rest|
      {
        var k :| k in rest;
        var table := rest[k];
        var sub := 0;
        var entries := table;
        while entries != map[]
          invariant sub + TableSize(entries, sizeOf) == TableSize(table, sizeOf)
          decreases |entries|
        {
          var f :| f in entries;
          SumMapRemove(entries, (e: Entry) => sizeOf(e.filter), f);
          sub := sub + sizeOf(entries[f].filter);
          entries := entries - {f};
        }
        SumMapRemove(rest, (t: map<string, Entry>) => TableSize(t, sizeOf), k);
        total := total + sub;
        rest := rest - {k};
      }
    }

    /** sizeInBytes(fieldName): one lookup per table. */
    method SizeInBytesOf(field: string, sizeOf: BloomFilter -> int) returns (total: int)
      ensures total == FieldSize(cache, field, sizeOf)
    {
      total := 0;
      var rest := cache;
      while rest != map[]
        invariant total + FieldSize(rest, field, sizeOf) == FieldSize(cache, field, sizeOf)
        decreases |rest|
      {
        var k :| k in rest;
        var table := rest[k];
        SumMapRemove(rest, (t: map<string, Entry>) => EntrySize(t, field, sizeOf), k);
        if field in table {
          total := total + sizeOf(table[field].filter);
        }
        rest := rest - {k};
      }
    }

    /** BloomFilterLoader.run; fails says whether enumerating the terms throws. */
    method RunLoader(seg: Segment, field: string, fails: bool)
      modifies this
      ensures cache == Publish(old(cache), seg, field, fails)
      ensures pending == old(pending) && listeners == old(listeners)
    {
      var filter := LoadFilter(seg, field);
      if fails {
        // AlreadyClosedException, ClosedChannelException or any other exception: logged at most
        return;
      }
      if seg.key in cache {
        var fieldCache := cache[seg.key];
        if field in fieldCache {
          cache := cache[seg.key := fieldCache[field := Entry(seg.numDocs, filter, false)]];
        }
      }
    }

    /** A loader either goes to the executor queue or runs inline. */
    method StartLoader(seg: Segment, field: string, async: bool, fails: bool)
      modifies this
      ensures State() == Launch(old(State()), seg, field, async, fails)
    {
      if async {
        pending := pending + [Task(seg, field)];
      } else {
        RunLoader(seg, field, fails);
      }
    }

    /** The executor runs the oldest pending loader, if any. */
    method RunPendingTask(fails: bool) returns (ran: bool)
      modifies this
      requires Valid()
      ensures Valid()
      ensures ran == (old(pending) != [])
      ensures State() == RunNext(old(State()), fails)
    {
      RunNextConsistent(State(), fails, maxSize);
      if pending == [] {
        return false;
      }
      var t := pending[0];
      pending := pending[1..];
      RunLoader(t.segment, t.field, fails);
      return true;
    }

    /** The first step of filter(): the reader's table, created and listened to on first access. */
    method EnsureTable(seg: Segment)
      modifies this
      ensures State() == WithTable(old(State()), seg)
    {
      if seg.key !in cache {
        if seg.isSegmentReader {
          listeners := listeners + [seg.key];
        }
        cache := cache[seg.key := map[]];
      }
    }

    /** The second step of filter(): the field's entry, created with its first load when small enough. */
    method EnsureEntry(seg: Segment, field: string, async: bool, fails: bool)
      modifies this
      requires seg.key in cache
      ensures State() == WithEntry(old(State()), seg, field, async, fails, maxSize)
    {
      var currentNumDocs := seg.numDocs;
      if field !in cache[seg.key] {
        var filter := Entry(currentNumDocs, None, false);
        if currentNumDocs < maxSize {
          filter := filter.(loading := true);
        }
        cache := cache[seg.key := cache[seg.key][field := filter]];
        if currentNumDocs < maxSize {
          StartLoader(seg, field, async, fails);
        }
      }
    }

    /** filter(reader, fieldName, asyncLoad); fails says whether an inline load throws. */
    method Filter(seg: Segment, field: string, async: bool, fails: bool) returns (result: BloomFilter)
      modifies this
      requires Valid()
      ensures Valid()
      ensures seg.numDocs > 0 ==> result != Empty
      ensures State() == Lookup(old(State()), seg, field, async, fails, maxSize).state
      ensures result == Lookup(old(State()), seg, field, async, fails, maxSize).filter
    {
      LookupConsistent(State(), seg, field, async, fails, maxSize);
      if seg.numDocs > 0 {
        LookupNeverEmpty(State(), seg, field, async, fails, maxSize);
      }
      var currentNumDocs := seg.numDocs;
      if currentNumDocs == 0 {
        return Empty;
      }
      EnsureTable(seg);
      EnsureEntry(seg, field, async, fails);
      // the entry as the caller now sees it (re-read after an inline load)
      var filter := cache[seg.key][field];
      if ReloadWanted(filter, currentNumDocs, maxSize) {
        if !filter.loading {
          cache := cache[seg.key := cache[seg.key][field := filter.(loading := true)]];
          StartLoader(seg, field, async, fails);
          filter := cache[seg.key][field];
        }
      }
      return filter.filter;
    }
  }

  /** The doc loop of one term: the term is added once it meets a live document. */
  method AddTermDocs(keys: set<Term>, t: Term, termDocs: set<nat>, liveDocs: set<nat>) returns (r: set<Term>)
    ensures r == keys + (if termDocs * liveDocs != {} then {t} else {})
  {
    r := keys;
    var docs := termDocs;
    ghost var seen: set<nat> := {};
    while docs != {}
      invariant docs <= termDocs && seen == termDocs - docs
      invariant r == keys + (if seen * liveDocs != {} then {t} else {})
      decreases docs
    {
      var d :| d in docs;
      if d in liveDocs {
        // filter.add(term) once per live document of the term
        r := r + {t};
        assert d in (seen + {d}) * liveDocs;
      }
      seen := seen + {d};
      docs := docs - {d};
    }
    assert seen == termDocs;
  }

  /**
   * The term-by-doc loop of the loader: every term of the field that has a
   * live document is added to a filter sized for the reader's doc count.
   */
  method LoadFilter(seg: Segment, field: string) returns (f: BloomFilter)
    ensures f == LoadedFilter(seg, field)
    ensures forall t :: MightContain(f, t) <==>
      field in seg.postings && t in seg.postings[field] && exists d :: d in seg.postings[field][t] && d in seg.liveDocs
  {
    var keys: set<Term> := {};
    if field in seg.postings {
      var terms := seg.postings[field];
      var todo := terms.Keys;
      while todo != {}
        invariant todo <= terms.Keys
        invariant keys == set t | t in terms && t !in todo && terms[t] * seg.liveDocs != {}
        decreases todo
      {
        var t :| t in todo;
        keys := AddTermDocs(keys, t, terms[t], seg.liveDocs);
        todo := todo - {t};
      }
    }
    f := Built(seg.numDocs, keys);
    forall t
      ensures MightContain(f, t) <==> field in seg.postings && t in seg.postings[field]
                                      && exists d :: d in seg.postings[field][t] && d in seg.liveDocs
    {
      if field in seg.postings && t in seg.postings[field] {
        var live := seg.postings[field][t] * seg.liveDocs;
        if exists d :: d in seg.postings[field][t] && d in seg.liveDocs {
          var d :| d in seg.postings[field][t] && d in seg.liveDocs;
          assert d in live;
        }
      }
    }
  }

  // ---------------------------------------------------------------------------
  // Properties of filter()

  /** A reader with no live docs gets EMPTY and leaves the cache exactly as it was. */
  lemma LookupZeroDocs(st: CacheState, seg: Segment, field: string, async: bool, fails: bool, maxSize: int)
    requires seg.numDocs == 0
    ensures Lookup(st, seg, field, async, fails, maxSize) == LookupResult(st, Empty, 0)
  {
  }

  /**
   * The table step: afterwards the reader's key has a table holding the field;
   * a table created here holds only that field, an existing one keeps its other
   * entries, other keys' tables are untouched, and a close listener is
   * registered exactly when a table was created for a SegmentReader.
   */
  lemma LookupTables(st: CacheState, seg: Segment, field: string, async: bool, fails: bool, maxSize: int)
    requires seg.numDocs > 0
    ensures var r := Lookup(st, seg, field, async, fails, maxSize).state;
      && seg.key in r.tables
      && (seg.key !in st.tables ==> r.tables[seg.key].Keys == {field})
      && (seg.key in st.tables ==> r.tables[seg.key].Keys == st.tables[seg.key].Keys + {field})
      && (seg.key in st.tables ==>
            forall g | g in st.tables[seg.key] && g != field :: r.tables[seg.key][g] == st.tables[seg.key][g])
      && r.tables.Keys == st.tables.Keys + {seg.key}
      && (forall k | k in st.tables && k != seg.key :: r.tables[k] == st.tables[k])
      && r.listeners == (if seg.key !in st.tables && seg.isSegmentReader then st.listeners + [seg.key]
                         else st.listeners)
  {
    LookupShape(st, seg, field, async, fails, maxSize);
  }

  /** After the table step, filter() only adds or changes the field's entry of the reader's table. */
  lemma LookupShape(st: CacheState, seg: Segment, field: string, async: bool, fails: bool, maxSize: int)
    requires seg.numDocs > 0
    ensures SameShapeBut(WithTable(st, seg), Lookup(st, seg, field, async, fails, maxSize).state, seg.key, field)
  {
    var st1 := WithTable(st, seg);
    WithEntryShape(st1, seg, field, async, fails, maxSize);
    var st2 := WithEntry(st1, seg, field, async, fails, maxSize);
    var e := st2.tables[seg.key][field];
    if ReloadWanted(e, seg.numDocs, maxSize) && !e.loading {
      MarkAndLaunchShape(st2, seg, field, async, fails);
      var marked := st2.(tables := st2.tables[seg.key := st2.tables[seg.key][field := e.(loading := true)]]);
      SameShapeTrans(st1, st2, Launch(marked, seg, field, async, fails), seg.key, field);
    }
  }

  lemma SameShapeTrans(a: CacheState, b: CacheState, c: CacheState, key: CoreKey, field: string)
    requires SameShapeBut(a, b, key, field) && SameShapeBut(b, c, key, field)
    ensures SameShapeBut(a, c, key, field)
  {
  }

  /** Two cache states have the same tables except that table key may gain field and change its entry. */
  ghost predicate SameShapeBut(a: CacheState, b: CacheState, key: CoreKey, field: string) {
    && key in a.tables && key in b.tables
    && b.tables.Keys == a.tables.Keys
    && b.tables[key].Keys == a.tables[key].Keys + {field}
    && (forall k | k in a.tables && k != key :: b.tables[k] == a.tables[k])
    && (forall g | g in a.tables[key] && g != field :: b.tables[key][g] == a.tables[key][g])
    && b.listeners == a.listeners
  }

  lemma WithEntryShape(st: CacheState, seg: Segment, field: string, async: bool, fails: bool, maxSize: int)
    requires seg.key in st.tables
    ensures SameShapeBut(st, WithEntry(st, seg, field, async, fails, maxSize), seg.key, field)
  {
    if field !in st.tables[seg.key] {
      var e := Entry(seg.numDocs, None, seg.numDocs < maxSize);
      var s := st.(tables := st.tables[seg.key := st.tables[seg.key][field := e]]);
      assert SameShapeBut(st, s, seg.key, field);
      PublishOnlyReplaces(s.tables, seg, field, fails);
    }
  }

  lemma MarkAndLaunchShape(st: CacheState, seg: Segment, field: string, async: bool, fails: bool)
    requires seg.key in st.tables && field in st.tables[seg.key]
    ensures var e := st.tables[seg.key][field];
      var marked := st.(tables := st.tables[seg.key := st.tables[seg.key][field := e.(loading := true)]]);
      SameShapeBut(st, Launch(marked, seg, field, async, fails), seg.key, field)
  {
    var e := st.tables[seg.key][field];
    var marked := st.(tables := st.tables[seg.key := st.tables[seg.key][field := e.(loading := true)]]);
    PublishOnlyReplaces(marked.tables, seg, field, fails);
  }

  /**
   * First access to a field: the entry starts with the current doc count and
   * NONE; a load is launched (loading set) iff the reader has fewer than
   * maxSize docs; otherwise the entry is NONE with loading false.
   */
  lemma LookupFirstAccess(st: CacheState, seg: Segment, field: string, async: bool, fails: bool, maxSize: int)
    requires seg.numDocs > 0
    requires seg.key !in st.tables || field !in st.tables[seg.key]
    ensures var r := Lookup(st, seg, field, async, fails, maxSize);
      var n := seg.numDocs;
      && seg.key in r.state.tables && field in r.state.tables[seg.key]
      && var e := r.state.tables[seg.key][field];
      && r.launches == (if n < maxSize then 1 else 0)
      && r.filter == e.filter
      && (n >= maxSize ==> e == Entry(n, None, false) && r.state.pending == st.pending)
      && (n < maxSize && async ==> e == Entry(n, None, true) && r.state.pending == st.pending + [Task(seg, field)])
      && (n < maxSize && !async ==>
            r.state.pending == st.pending
            && e == (if fails then Entry(n, None, true) else Entry(n, LoadedFilter(seg, field), false)))
  {
    var st1 := WithTable(st, seg);
    var st2 := WithEntry(st1, seg, field, async, fails, maxSize);
    var e := st2.tables[seg.key][field];
    assert e.numDocs == seg.numDocs;
    JavaIntDivSelf(seg.numDocs);
    assert !ReloadWanted(e, seg.numDocs, maxSize);
  }

  lemma JavaIntDivSelf(n: nat)
    requires n > 0
    ensures JavaIntDiv(n, n) == 1
  {
  }

  /**
   * Access to an existing entry: a reload is launched iff the recorded count is
   * above 1000 and below maxSize, the live count has dropped below it, and the
   * entry is not loading. Without a launch nothing changes; with one the entry
   * is marked loading and the loader is queued, or run inline.
   */
  lemma LookupExisting(st: CacheState, seg: Segment, field: string, async: bool, fails: bool, maxSize: int)
    requires seg.numDocs > 0
    requires seg.key in st.tables && field in st.tables[seg.key]
    ensures var r := Lookup(st, seg, field, async, fails, maxSize);
      var e0 := st.tables[seg.key][field];
      var marked := st.tables[seg.key := st.tables[seg.key][field := e0.(loading := true)]];
      && r.launches == (if e0.numDocs > ReloadMinDocs && e0.numDocs < maxSize && seg.numDocs < e0.numDocs
                           && !e0.loading then 1 else 0)
      && (r.launches == 0 ==> r.state == st && r.filter == e0.filter)
      && (r.launches == 1 && async ==>
            r.state == st.(tables := marked, pending := st.pending + [Task(seg, field)]) && r.filter == e0.filter)
      && (r.launches == 1 && !async ==>
            r.state == st.(tables := Publish(marked, seg, field, fails))
            && r.filter == (if fails then e0.filter else LoadedFilter(seg, field)))
  {
    ReloadWantedIff(st.tables[seg.key][field], seg.numDocs, maxSize);
  }

  /** Single flight: one call of filter() launches at most one loader. */
  lemma LookupLaunchesAtMostOnce(st: CacheState, seg: Segment, field: string, async: bool, fails: bool, maxSize: int)
    ensures Lookup(st, seg, field, async, fails, maxSize).launches <= 1
  {
    if seg.numDocs > 0 {
      if seg.key !in st.tables || field !in st.tables[seg.key] {
        LookupFirstAccess(st, seg, field, async, fails, maxSize);
      } else {
        LookupExisting(st, seg, field, async, fails, maxSize);
      }
    }
  }

  /** While an entry is loading, no call of filter() for it launches anything or changes the cache. */
  lemma LookupWhileLoading(st: CacheState, seg: Segment, field: string, async: bool, fails: bool, maxSize: int)
    requires seg.key in st.tables && field in st.tables[seg.key] && st.tables[seg.key][field].loading
    ensures var r := Lookup(st, seg, field, async, fails, maxSize);
      r.launches == 0 && r.state == st
  {
    if seg.numDocs > 0 {
      LookupExisting(st, seg, field, async, fails, maxSize);
    }
  }

  /**
   * A failed inline reload never clears loading: afterwards no call of filter()
   * for that entry, with any reader of the same core, launches a loader again.
   */
  lemma FailedLoadBlocksReloads(st: CacheState, seg: Segment, field: string, maxSize: int,
                                later: Segment, async: bool, fails: bool)
    requires seg.key in st.tables && field in st.tables[seg.key]
    requires Lookup(st, seg, field, false, true, maxSize).launches == 1
    requires later.key == seg.key
    ensures var st' := Lookup(st, seg, field, false, true, maxSize).state;
      Lookup(st', later, field, async, fails, maxSize).launches == 0
  {
    LookupExisting(st, seg, field, false, true, maxSize);
    var st' := Lookup(st, seg, field, false, true, maxSize).state;
    assert st'.tables[seg.key][field].loading;
    LookupWhileLoading(st', later, field, async, fails, maxSize);
  }

  /** A reader that lost even one doc below a recorded 10000 triggers a reload (int quotient 0). */
  lemma ReloadOnSmallDrop(st: CacheState, seg: Segment, field: string, f: BloomFilter)
    requires seg.numDocs == 9999
    requires seg.key in st.tables && field in st.tables[seg.key]
    requires st.tables[seg.key][field] == Entry(10000, f, false)
    ensures Lookup(st, seg, field, true, false, 1000000).launches == 1
  {
    LookupExisting(st, seg, field, true, false, 1000000);
  }

  // ---------------------------------------------------------------------------
  // The loader

  /**
   * Publishing never creates a table or an entry; it replaces only the entry
   * of the loaded field, and only when the load succeeded and the table and
   * the field are still present.
   */
  lemma PublishOnlyReplaces(tables: map<CoreKey, map<string, Entry>>, seg: Segment, field: string, fails: bool)
    ensures var r := Publish(tables, seg, field, fails);
      && r.Keys == tables.Keys
      && (forall k | k in tables :: r[k].Keys == tables[k].Keys)
      && (forall k, g | k in tables && g in tables[k] && (k != seg.key || g != field) :: r[k][g] == tables[k][g])
      && (fails || seg.key !in tables || field !in tables[seg.key] ==> r == tables)
      && (!fails && seg.key in tables && field in tables[seg.key] ==>
            r[seg.key][field] == Entry(seg.numDocs, LoadedFilter(seg, field), false))
  {
  }

  /** A loaded filter answers "possibly present" exactly for the field's terms with a live doc. */
  lemma LoadedFilterMembership(seg: Segment, field: string, t: Term)
    ensures MightContain(LoadedFilter(seg, field), t) <==>
      field in seg.postings && t in seg.postings[field] && seg.postings[field][t] * seg.liveDocs != {}
  {
  }

  // ---------------------------------------------------------------------------
  // An invariant of every reachable cache state

  /**
   * EMPTY is never stored, and an entry that is NONE and not loading belongs to
   * a reader that had at least maxSize docs (no load was ever launched for it).
   */
  ghost predicate Consistent(st: CacheState, maxSize: int) {
    forall k, g | k in st.tables && g in st.tables[k] :: EntryOk(st.tables[k][g], maxSize)
  }

  ghost predicate EntryOk(e: Entry, maxSize: int) {
    e.filter != Empty && (e.filter == None && !e.loading ==> e.numDocs >= maxSize)
  }

  lemma SetEntryConsistent(st: CacheState, key: CoreKey, field: string, e: Entry, maxSize: int)
    requires Consistent(st, maxSize) && key in st.tables && EntryOk(e, maxSize)
    ensures Consistent(st.(tables := st.tables[key := st.tables[key][field := e]]), maxSize)
  {
  }

  lemma PublishConsistent(st: CacheState, seg: Segment, field: string, fails: bool, maxSize: int)
    requires Consistent(st, maxSize)
    ensures Consistent(st.(tables := Publish(st.tables, seg, field, fails)), maxSize)
  {
    if !fails && seg.key in st.tables && field in st.tables[seg.key] {
      SetEntryConsistent(st, seg.key, field, Entry(seg.numDocs, LoadedFilter(seg, field), false), maxSize);
    }
  }

  lemma LaunchConsistent(st: CacheState, seg: Segment, field: string, async: bool, fails: bool, maxSize: int)
    requires Consistent(st, maxSize)
    ensures Consistent(Launch(st, seg, field, async, fails), maxSize)
  {
    if !async {
      PublishConsistent(st, seg, field, fails, maxSize);
    }
  }

  lemma LookupConsistent(st: CacheState, seg: Segment, field: string, async: bool, fails: bool, maxSize: int)
    requires Consistent(st, maxSize)
    ensures Consistent(Lookup(st, seg, field, async, fails, maxSize).state, maxSize)
  {
    if seg.numDocs > 0 {
      var st1 := WithTable(st, seg);
      assert Consistent(st1, maxSize);
      if field !in st1.tables[seg.key] {
        var e := Entry(seg.numDocs, None, seg.numDocs < maxSize);
        SetEntryConsistent(st1, seg.key, field, e, maxSize);
        var s := st1.(tables := st1.tables[seg.key := st1.tables[seg.key][field := e]]);
        if seg.numDocs < maxSize {
          LaunchConsistent(s, seg, field, async, fails, maxSize);
        }
      }
      var st2 := WithEntry(st1, seg, field, async, fails, maxSize);
      assert Consistent(st2, maxSize);
      var e := st2.tables[seg.key][field];
      if ReloadWanted(e, seg.numDocs, maxSize) && !e.loading {
        SetEntryConsistent(st2, seg.key, field, e.(loading := true), maxSize);
        var st3 := st2.(tables := st2.tables[seg.key := st2.tables[seg.key][field := e.(loading := true)]]);
        LaunchConsistent(st3, seg, field, async, fails, maxSize);
      }
    }
  }

  /** On a consistent cache, `filter` hands back EMPTY only for a reader without documents. */
  lemma LookupNeverEmpty(st: CacheState, seg: Segment, field: string, async: bool, fails: bool, maxSize: int)
    requires Consistent(st, maxSize) && seg.numDocs > 0
    ensures Lookup(st, seg, field, async, fails, maxSize).filter != Empty
  {
    LookupConsistent(st, seg, field, async, fails, maxSize);
    var r := Lookup(st, seg, field, async, fails, maxSize);
    assert seg.key in r.state.tables && field in r.state.tables[seg.key];
    assert r.filter == r.state.tables[seg.key][field].filter;
  }

  lemma RunNextConsistent(st: CacheState, fails: bool, maxSize: int)
    requires Consistent(st, maxSize)
    ensures Consistent(RunNext(st, fails), maxSize)
  {
    if st.pending != [] {
      var t := st.pending[0];
      PublishConsistent(st, t.segment, t.field, fails, maxSize);
    }
  }

  lemma ClearReaderConsistent(st: CacheState, key: CoreKey, maxSize: int)
    requires Consistent(st, maxSize)
    ensures Consistent(st.(tables := st.tables - {key}), maxSize)
  {
  }

  // ---------------------------------------------------------------------------
  // Invalidation and size accounting

  /** clear(reader) is idempotent and leaves every other key's table alone. */
  lemma ClearReaderIdempotent(tables: map<CoreKey, map<string, Entry>>, key: CoreKey)
    ensures (tables - {key}) - {key} == tables - {key}
    ensures key !in tables - {key}
    ensures forall k | k in tables && k != key :: k in tables - {key} && (tables - {key})[k] == tables[k]
  {
  }

  /** After clear(reader) the size no longer counts that reader's table. */
  lemma ClearReaderSize(tables: map<CoreKey, map<string, Entry>>, key: CoreKey, sizeOf: BloomFilter -> int)
    ensures TotalSize(tables - {key}, sizeOf)
            == TotalSize(tables, sizeOf) - (if key in tables then TableSize(tables[key], sizeOf) else 0)
  {
    if key in tables {
      SumMapRemove(tables, (t: map<string, Entry>) => TableSize(t, sizeOf), key);
    } else {
      assert tables - {key} == tables;
    }
  }

  /** An empty cache reports size 0. */
  lemma ClearedSize(sizeOf: BloomFilter -> int, field: string)
    ensures TotalSize(map[], sizeOf) == 0 && FieldSize(map[], field, sizeOf) == 0
  {
  }

  lemma SumMapSingleton<K, V>(k: K, v: V, f: V -> int)
    ensures SumMap(map[k := v], f) == f(v)
  {
    var m := map[k := v];
    SumMapRemove(m, f, k);
    assert m - {k} == map[];
  }

  lemma RestrictRemove(tables: map<CoreKey, map<string, Entry>>, field: string, k: CoreKey)
    ensures RestrictToField(tables, field) - {k} == RestrictToField(tables - {k}, field)
  {
  }

  /** A table cut down to one field weighs what that field's entry weighs. */
  lemma RestrictedTableSize(table: map<string, Entry>, field: string, sizeOf: BloomFilter -> int)
    ensures TableSize(map f | f in table && f == field :: table[f], sizeOf) == EntrySize(table, field, sizeOf)
  {
    var r := map f | f in table && f == field :: table[f];
    if field in table {
      assert r == map[field := table[field]];
      SumMapSingleton(field, table[field], (e: Entry) => sizeOf(e.filter));
    } else {
      assert r == map[];
    }
  }

  /** sizeInBytes(field) is sizeInBytes() of the cache cut down to the entries named field. */
  lemma {:induction false} FieldSizeIsRestrictedTotal(tables: map<CoreKey, map<string, Entry>>, field: string,
                                                     sizeOf: BloomFilter -> int)
    ensures FieldSize(tables, field, sizeOf) == TotalSize(RestrictToField(tables, field), sizeOf)
    decreases |tables|
  {
    var r := RestrictToField(tables, field);
    if tables != map[] {
      var k :| k in tables;
      var rest := tables - {k};
      SumMapRemove(tables, (t: map<string, Entry>) => EntrySize(t, field, sizeOf), k);
      SumMapRemove(r, (t: map<string, Entry>) => TableSize(t, sizeOf), k);
      RestrictRemove(tables, field, k);
      FieldSizeIsRestrictedTotal(rest, field, sizeOf);
      RestrictedTableSize(tables[k], field, sizeOf);
    } else {
      assert r == map[];
    }
  }

  /**
   * The end-to-end case: three live docs, field "sku" with keys A1, A2, A3
   * (one per doc) and maxSize 1000000. The first inline call loads a filter that holds "A1" and
   * not "ZZZ"; a second call returns the same filter and loads nothing.
   */
  lemma SkuScenario(key: CoreKey)
    ensures var seg := Segment(key, 3, true, map["sku" := map["A1" := {0}, "A2" := {1}, "A3" := {2}]], {0, 1, 2});
      var first := Lookup(CacheState(map[], [], []), seg, "sku", false, false, 1000000);
      var second := Lookup(first.state, seg, "sku", false, false, 1000000);
      && first.launches == 1
      && MightContain(first.filter, "A1") && !MightContain(first.filter, "ZZZ")
      && second.launches == 0 && second.filter == first.filter && second.state == first.state
  {
    var seg := Segment(key, 3, true, map["sku" := map["A1" := {0}, "A2" := {1}, "A3" := {2}]], {0, 1, 2});
    var st0 := CacheState(map[], [], []);
    LookupFirstAccess(st0, seg, "sku", false, false, 1000000);
    var first := Lookup(st0, seg, "sku", false, false, 1000000);
    LoadedFilterMembership(seg, "sku", "A1");
    LoadedFilterMembership(seg, "sku", "ZZZ");
    assert 0 in seg.postings["sku"]["A1"] * seg.liveDocs;
    LookupExisting(first.state, seg, "sku", false, false, 1000000);
  }
}
