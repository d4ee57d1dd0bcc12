/**
 Reports cached under a generation number. A writer commits and then bumps the number; a reader
 reads the number first, so what it stores late goes under a number nobody reads any more.
 */
module ReportCache {
  import opened Results
  import opened Collections

  /** What a report saw: for each of its queries, how many writes had been committed by then. */
  type Report = seq<nat>

  /** A month summary asks four queries, at times of their own. */
  const QUERIES := 4

  predicate Reflects(report: Report, write: nat) {
    |report| == QUERIES && forall i :: 0 <= i < |report| ==> write < report[i]
  }

  // The counters and entries of the cache.

  datatype CacheKey = CacheKey(workspaceId: Id, generation: nat, day: nat)

  /** `SET key initial NX`. */
  function Initialised(counter: Option<nat>, initial: nat): nat {
    if counter.Some? then counter.value else initial
  }

  class RedisService {
    var counters: map<Id, nat>
    var entries: map<CacheKey, Report>

    function Counter(key: Id): Option<nat>
      reads this
    {
      if key in counters then Some(counters[key]) else None
    }

    method ReadCounter(key: Id, initialValue: nat) returns (value: nat)
      modifies this
      ensures value == Initialised(old(Counter(key)), initialValue)
      ensures counters == old(counters)[key := value] && entries == old(entries)
    {
      if key !in counters { counters := counters[key := initialValue]; }
      value := counters[key];
    }

    method IncrementCounter(key: Id, initialValue: nat) returns (value: nat)
      modifies this
      ensures value == Initialised(old(Counter(key)), initialValue) + 1
      ensures counters == old(counters)[key := value] && entries == old(entries)
    {
      if key !in counters { counters := counters[key := initialValue]; }
      counters := counters[key := counters[key] + 1];
      value := counters[key];
    }

    method Get(key: CacheKey) returns (report: Option<Report>)
      ensures report == if key in entries then Some(entries[key]) else None
    {
      report := if key in entries then Some(entries[key]) else None;
    }

    method Set(key: CacheKey, report: Report)
      modifies this
      ensures entries == old(entries)[key := report] && counters == old(counters)
    {
      entries := entries[key := report];
    }

    /** The report with no one else around: a cached one under the current generation, or a fresh one, kept. */
    method Execute(workspaceId: Id, now: nat, day: nat, queried: Report) returns (report: Report)
      modifies this
      ensures var generation := Initialised(old(Counter(workspaceId)), now);
              var key := CacheKey(workspaceId, generation, day);
              && counters == old(counters)[workspaceId := generation]
              && report == (if key in old(entries) then old(entries)[key] else queried)
              && entries == old(entries)[key := report]
    {
      var generation := ReadCounter(workspaceId, now);
      var key := CacheKey(workspaceId, generation, day);
      var cached := Get(key);
      if cached.Some? {
        assert entries == entries[key := cached.value];
        return cached.value;
      }
      Set(key, queried);
      return queried;
    }
  }

  // Readers and writers of one workspace, interleaved.

  datatype Stage = Looking | Querying(parts: Report) | Storing(report: Report) | Answered(report: Report)

  /** A reader, and the writes whose bump came before it read its generation. */
  datatype Reader = Reader(known: set<nat>, generation: Option<nat>, day: nat, stage: Stage)

  /** `writes` in order of commit, each with what its bump made of the counter, once it has bumped. */
  datatype System = System(
    clock: nat,
    counter: Option<nat>,
    issued: nat,
    entries: map<(nat, nat), Report>,
    writes: seq<Option<nat>>,
    readers: map<nat, Reader>
  )

  datatype Event =
    | Commit
    | Bump(write: nat)
    | ReadGeneration(c: nat, day: nat)
    | ReadGenerationFails(c: nat, day: nat)
    | Look(c: nat, fails: bool)
    | Query(c: nat)
    | Store(c: nat, fails: bool)
    | Evict(key: (nat, nat))
    | LoseCounter
    | Tick(to: nat)

  /** The counter, or the clock in its place: after a loss the clock must be at or past every number given out. */
  predicate CanCount(s: System) {
    s.counter.None? ==> s.clock >= s.issued
  }

  predicate CanHappen(s: System, e: Event) {
    match e
    case Bump(write) => write < |s.writes| && s.writes[write].None? && CanCount(s)
    case ReadGeneration(c, _) => c !in s.readers && CanCount(s)
    case ReadGenerationFails(c, _) => c !in s.readers
    case Look(c, _) => c in s.readers && s.readers[c].stage.Looking?
    case Query(c) => c in s.readers && s.readers[c].stage.Querying?
    case Store(c, _) => c in s.readers && s.readers[c].stage.Storing? && s.readers[c].generation.Some?
    case Tick(to) => to >= s.clock
    case _ => true
  }

  function Bumped(writes: seq<Option<nat>>): set<nat> {
    set w | 0 <= w < |writes| && writes[w].Some?
  }

  function AtStage(s: System, c: nat, stage: Stage): System
    requires c in s.readers
  {
    s.(readers := s.readers[c := s.readers[c].(stage := stage)])
  }

  function EntryKey(reader: Reader): (nat, nat)
    requires reader.generation.Some?
  {
    (reader.generation.value, reader.day)
  }

  function AfterLook(s: System, reader: Reader, fails: bool): Stage {
    if !fails && reader.generation.Some? && EntryKey(reader) in s.entries then Answered(s.entries[EntryKey(reader)])
    else Querying([])
  }

  function AfterQuery(parts: Report, generation: Option<nat>): Stage {
    if |parts| < QUERIES then Querying(parts)
    else if generation.Some? then Storing(parts)
    else Answered(parts)
  }

  function After(s: System, e: Event): System
    requires CanHappen(s, e)
  {
    match e
    case Commit => s.(writes := s.writes + [None])
    case Bump(write) =>
      var value := Initialised(s.counter, s.clock) + 1;
      s.(counter := Some(value), issued := value, writes := s.writes[write := Some(value)])
    case ReadGeneration(c, day) =>
      var value := Initialised(s.counter, s.clock);
      s.(counter := Some(value), issued := value, readers := s.readers[c := Reader(Bumped(s.writes), Some(value), day, Looking)])
    case ReadGenerationFails(c, day) => s.(readers := s.readers[c := Reader(Bumped(s.writes), None, day, Looking)])
    case Look(c, fails) => AtStage(s, c, AfterLook(s, s.readers[c], fails))
    case Query(c) =>
      var reader := s.readers[c];
      AtStage(s, c, AfterQuery(reader.stage.parts + [|s.writes|], reader.generation))
    case Store(c, fails) =>
      var reader := s.readers[c];
      var answered := AtStage(s, c, Answered(reader.stage.report));
      if fails then answered else answered.(entries := s.entries[EntryKey(reader) := reader.stage.report])
    case Evict(key) => s.(entries := s.entries - {key})
    case LoseCounter => s.(counter := None)
    case Tick(to) => s.(clock := to)
  }

  // The invariant.

  /** Every part read so far is later than the write. */
  predicate IsLaterThan(parts: Report, write: nat) {
    forall i :: 0 <= i < |parts| ==> write < parts[i]
  }

  predicate HasRead(parts: Report, reader: Reader, writes: seq<Option<nat>>) {
    && (forall w :: w in reader.known ==> IsLaterThan(parts, w))
    && (reader.generation.Some? ==>
          forall w :: 0 <= w < |writes| && writes[w].Some? && writes[w].value <= reader.generation.value ==> IsLaterThan(parts, w))
  }

  predicate IsReaderInOrder(reader: Reader, writes: seq<Option<nat>>, issued: nat) {
    && (forall w :: w in reader.known ==> w < |writes| && writes[w].Some?)
    && (reader.generation.Some? ==>
          && reader.generation.value <= issued
          && forall w :: w in reader.known && w < |writes| && writes[w].Some? ==> writes[w].value <= reader.generation.value)
    && match reader.stage
       case Looking => true
       case Querying(parts) => |parts| < QUERIES && HasRead(parts, reader, writes)
       case Storing(report) => |report| == QUERIES && HasRead(report, reader, writes)
       case Answered(report) => |report| == QUERIES && forall w :: w in reader.known ==> IsLaterThan(report, w)
  }

  /** What is stored under a generation reflects every write bumped up to it. */
  predicate IsEntryInOrder(key: (nat, nat), report: Report, writes: seq<Option<nat>>, issued: nat) {
    && key.0 <= issued && |report| == QUERIES
    && forall w :: 0 <= w < |writes| && writes[w].Some? && writes[w].value <= key.0 ==> IsLaterThan(report, w)
  }

  predicate IsCounterInOrder(s: System) {
    && (s.counter.Some? ==> s.counter.value == s.issued)
    && forall w :: 0 <= w < |s.writes| && s.writes[w].Some? ==> s.writes[w].value <= s.issued
  }

  predicate Inv(s: System) {
    && IsCounterInOrder(s)
    && (forall key :: key in s.entries ==> IsEntryInOrder(key, s.entries[key], s.writes, s.issued))
    && forall c :: c in s.readers ==> IsReaderInOrder(s.readers[c], s.writes, s.issued)
  }

  lemma CommitKeepsInv(s: System)
    requires Inv(s)
    ensures Inv(After(s, Commit))
  {
    var next := After(s, Commit);
    assert forall w :: 0 <= w < |next.writes| && next.writes[w].Some? ==> w < |s.writes| && s.writes[w] == next.writes[w];
  }

  /** A bump gives out a number above every one in a reader's hand or on a stored report. */
  lemma BumpKeepsInv(s: System, write: nat)
    requires Inv(s) && CanHappen(s, Bump(write))
    ensures Inv(After(s, Bump(write)))
  {
    var next := After(s, Bump(write));
    assert next.issued > s.issued;
    forall c | c in s.readers
      ensures IsReaderInOrder(s.readers[c], next.writes, next.issued)
    {
      assert IsReaderInOrder(s.readers[c], s.writes, s.issued);
      assert write !in s.readers[c].known;
    }
    forall key | key in s.entries
      ensures IsEntryInOrder(key, s.entries[key], next.writes, next.issued)
    {
      assert IsEntryInOrder(key, s.entries[key], s.writes, s.issued);
    }
  }

  lemma ReaderFollowsIssued(reader: Reader, writes: seq<Option<nat>>, issued: nat, more: nat)
    requires IsReaderInOrder(reader, writes, issued) && issued <= more
    ensures IsReaderInOrder(reader, writes, more)
  {
    hide HasRead;
  }

  lemma EntryFollowsIssued(key: (nat, nat), report: Report, writes: seq<Option<nat>>, issued: nat, more: nat)
    requires IsEntryInOrder(key, report, writes, issued) && issued <= more
    ensures IsEntryInOrder(key, report, writes, more)
  {
  }

  lemma ReadKeepsInv(s: System, c: nat, day: nat)
    requires Inv(s) && CanHappen(s, ReadGeneration(c, day))
    ensures Inv(After(s, ReadGeneration(c, day)))
  {
    hide IsEntryInOrder, IsReaderInOrder;
    var next := After(s, ReadGeneration(c, day));
    NewReaderIsInOrder(s.writes, next.issued, day);
    forall d | d in s.readers
      ensures IsReaderInOrder(s.readers[d], next.writes, next.issued)
    {
      ReaderFollowsIssued(s.readers[d], s.writes, s.issued, next.issued);
    }
    forall key | key in s.entries
      ensures IsEntryInOrder(key, s.entries[key], next.writes, next.issued)
    {
      EntryFollowsIssued(key, s.entries[key], s.writes, s.issued, next.issued);
    }
  }

  lemma NewReaderIsInOrder(writes: seq<Option<nat>>, issued: nat, day: nat)
    requires forall w :: 0 <= w < |writes| && writes[w].Some? ==> writes[w].value <= issued
    ensures IsReaderInOrder(Reader(Bumped(writes), Some(issued), day, Looking), writes, issued)
    ensures IsReaderInOrder(Reader(Bumped(writes), None, day, Looking), writes, issued)
  {
  }

  lemma LookIsInOrder(s: System, c: nat, fails: bool)
    requires Inv(s) && CanHappen(s, Look(c, fails))
    ensures IsReaderInOrder(After(s, Look(c, fails)).readers[c], s.writes, s.issued)
  {
    var reader := s.readers[c];
    assert IsReaderInOrder(reader, s.writes, s.issued);
    var stage := AfterLook(s, reader, fails);
    if stage.Answered? {
      assert IsEntryInOrder(EntryKey(reader), stage.report, s.writes, s.issued);
    }
  }

  /** A query sees every write committed before it, and so every one bumped before it. */
  lemma QueryIsInOrder(s: System, c: nat)
    requires Inv(s) && CanHappen(s, Query(c))
    ensures IsReaderInOrder(After(s, Query(c)).readers[c], s.writes, s.issued)
  {
    var reader := s.readers[c];
    assert IsReaderInOrder(reader, s.writes, s.issued);
    var more := reader.stage.parts + [|s.writes|];
    assert HasRead(more, reader, s.writes) by {
      forall w: nat | w < |s.writes| && IsLaterThan(reader.stage.parts, w)
        ensures IsLaterThan(more, w)
      {
      }
    }
  }

  lemma StoreKeepsInv(s: System, c: nat, fails: bool)
    requires Inv(s) && CanHappen(s, Store(c, fails))
    ensures Inv(After(s, Store(c, fails)))
  {
    hide IsLaterThan;
    var reader, next := s.readers[c], After(s, Store(c, fails));
    assert IsReaderInOrder(reader, s.writes, s.issued);
    assert IsEntryInOrder(EntryKey(reader), reader.stage.report, s.writes, s.issued);
    assert IsReaderInOrder(next.readers[c], s.writes, s.issued);
  }

  lemma EventKeepsInv(s: System, e: Event)
    requires Inv(s) && CanHappen(s, e)
    ensures Inv(After(s, e))
  {
    match e
    case Commit => CommitKeepsInv(s);
    case Bump(write) => BumpKeepsInv(s, write);
    case ReadGeneration(c, day) => ReadKeepsInv(s, c, day);
    case Store(c, fails) => StoreKeepsInv(s, c, fails);
    case ReadGenerationFails(c, day) => hide IsEntryInOrder, IsReaderInOrder; NewReaderIsInOrder(s.writes, s.issued, day);
    case Look(c, fails) => LookIsInOrder(s, c, fails); hide IsEntryInOrder, IsReaderInOrder, IsCounterInOrder;
    case Query(c) => QueryIsInOrder(s, c); hide IsEntryInOrder, IsReaderInOrder, IsCounterInOrder;
    case _ => hide IsEntryInOrder, IsReaderInOrder;
  }

  ghost predicate IsTrace(states: seq<System>, events: seq<Event>) {
    && |states| == |events| + 1
    && forall i :: 0 <= i < |events| ==> CanHappen(states[i], events[i]) && states[i + 1] == After(states[i], events[i])
  }

  predicate IsStart(s: System) {
    s.counter.None? && s.entries == map[] && s.readers == map[] && s.writes == [] && s.clock >= s.issued
  }

  lemma {:induction false} ReachableIsInOrder(states: seq<System>, events: seq<Event>)
    requires IsTrace(states, events) && IsStart(states[0])
    ensures Inv(states[|events|])
    decreases |events|
  {
    hide CanHappen, After;
    if events != [] {
      hide Inv;
      var n := |events| - 1;
      ReachableIsInOrder(states[..n + 1], events[..n]);
      EventKeepsInv(states[n], events[n]);
    }
  }

  // The property.

  /** A reader keeps the writes it knows of, from reading its generation to its answer. */
  lemma KnownIsKept(s: System, e: Event, c: nat)
    requires CanHappen(s, e) && c in s.readers
    ensures c in After(s, e).readers && After(s, e).readers[c].known == s.readers[c].known
  {
  }

  lemma {:induction false} KnownIsKeptThroughout(states: seq<System>, events: seq<Event>, i: nat, c: nat)
    requires IsTrace(states, events) && i <= |events| && c in states[i].readers
    ensures c in states[|events|].readers && states[|events|].readers[c].known == states[i].readers[c].known
    decreases |events|
  {
    hide CanHappen, After;
    if i < |events| {
      var n := |events| - 1;
      KnownIsKeptThroughout(states[..n + 1], events[..n], i, c);
      KnownIsKept(states[n], events[n], c);
    }
  }

  /**
   A report whose generation was read after a write's bump reflects that write: in every one of
   its queries, cached or not, even if another reader stored an older result late in between.
   */
  lemma ReportsReflectBumpedWrites(states: seq<System>, events: seq<Event>, i: nat, c: nat, write: nat)
    requires IsTrace(states, events) && IsStart(states[0]) && i < |events|
    requires (events[i].ReadGeneration? || events[i].ReadGenerationFails?) && events[i].c == c
    requires write < |states[i].writes| && states[i].writes[write].Some?
    requires c in states[|events|].readers && states[|events|].readers[c].stage.Answered?
    ensures Reflects(states[|events|].readers[c].stage.report, write)
  {
    hide Inv, IsCounterInOrder, IsEntryInOrder;
    ReachableIsInOrder(states, events);
    assert CanHappen(states[i], events[i]) && states[i + 1] == After(states[i], events[i]);
    assert write in states[i + 1].readers[c].known;
    KnownIsKeptThroughout(states, events, i + 1, c);
    AnswerIsInOrder(states[|events|], c);
  }

  lemma AnswerIsInOrder(s: System, c: nat)
    requires Inv(s) && c in s.readers && s.readers[c].stage.Answered?
    ensures forall w :: w in s.readers[c].known ==> Reflects(s.readers[c].stage.report, w)
  {
    assert IsReaderInOrder(s.readers[c], s.writes, s.issued);
  }

  // One reader that nobody interrupts.

  /** A reader alone: an entry of the current generation and day if there is one, else four queries of what is committed, kept. */
  lemma ReadingAlone(s: System, c: nat, day: nat)
    requires CanHappen(s, ReadGeneration(c, day))
    ensures var generation := if s.counter.Some? then s.counter.value else s.clock;
            var key := (generation, day);
            var read := After(s, ReadGeneration(c, day));
            var looked := After(read, Look(c, false));
            && read.counter == Some(generation) && read.entries == s.entries && read.writes == s.writes
            && read.readers[c].known == Bumped(s.writes)
            && CanHappen(read, Look(c, false)) && looked.entries == s.entries
            && (key in s.entries ==> looked.readers[c].stage == Answered(s.entries[key]))
            && (key !in s.entries ==>
                  && looked.readers[c].stage == Querying([])
                  && (var stored := FourQueries(looked, c);
                      && stored.readers[c].stage == Storing([|s.writes|, |s.writes|, |s.writes|, |s.writes|])
                      && stored.entries == s.entries
                      && CanHappen(stored, Store(c, false))
                      && After(stored, Store(c, false)).entries == s.entries[key := [|s.writes|, |s.writes|, |s.writes|, |s.writes|]]
                      && After(stored, Store(c, false)).readers[c].stage == Answered([|s.writes|, |s.writes|, |s.writes|, |s.writes|])
                      && After(stored, Store(c, true)).entries == s.entries
                      && After(stored, Store(c, true)).readers[c].stage == Answered([|s.writes|, |s.writes|, |s.writes|, |s.writes|])))
  {
    var read := After(s, ReadGeneration(c, day));
    var looked := After(read, Look(c, false));
    if (Initialised(s.counter, s.clock), day) !in s.entries {
      FourQueriesAlone(looked, c);
    }
  }

  function Asked(s: System, c: nat): System
    requires c in s.readers && s.readers[c].stage.Querying?
  {
    After(s, Query(c))
  }

  function FourQueries(s: System, c: nat): System
    requires c in s.readers && s.readers[c].stage == Querying([])
  {
    var one := Asked(s, c);
    var two := Asked(one, c);
    var three := Asked(two, c);
    Asked(three, c)
  }

  lemma FourQueriesAlone(s: System, c: nat)
    requires c in s.readers && s.readers[c].stage == Querying([])
    ensures var n := |s.writes|;
            var four := FourQueries(s, c);
            && four.readers[c] == s.readers[c].(stage := if s.readers[c].generation.Some? then Storing([n, n, n, n]) else Answered([n, n, n, n]))
            && four.entries == s.entries && four.writes == s.writes && four.counter == s.counter
  {
    var n := |s.writes|;
    assert [] + [n] == [n] && [n] + [n] == [n, n] && [n, n] + [n] == [n, n, n] && [n, n, n] + [n] == [n, n, n, n];
    var one := Asked(s, c);
    assert one.readers[c].stage == Querying([n]) && one.writes == s.writes;
    var two := Asked(one, c);
    assert two.readers[c].stage == Querying([n, n]) && two.writes == s.writes;
    var three := Asked(two, c);
    assert three.readers[c].stage == Querying([n, n, n]) && three.writes == s.writes;
  }

  /** A failed read of the generation keeps nothing and finds nothing, and asks its queries. */
  lemma ReadingWithoutAGeneration(s: System, c: nat, day: nat)
    requires CanHappen(s, ReadGenerationFails(c, day))
    ensures var read := After(s, ReadGenerationFails(c, day));
            && read == s.(readers := read.readers) && read.readers[c].generation.None? && read.readers[c].known == Bumped(s.writes)
            && After(read, Look(c, false)).readers[c].stage == Querying([])
            && FourQueries(After(read, Look(c, false)), c).readers[c].stage == Answered([|s.writes|, |s.writes|, |s.writes|, |s.writes|])
  {
    FourQueriesAlone(After(After(s, ReadGenerationFails(c, day)), Look(c, false)), c);
  }

  /** Writers and the cache itself: a commit adds one write not yet bumped, a bump gives it the next number, and so on. */
  lemma WritingAlone(s: System, e: Event)
    requires CanHappen(s, e)
    ensures e.Commit? ==> After(s, e) == s.(writes := s.writes + [None])
    ensures e.Bump? ==>
              var next := After(s, e);
              var value := (if s.counter.Some? then s.counter.value else s.clock) + 1;
              && next.counter == Some(value) && next.writes == s.writes[e.write := Some(value)]
              && next.entries == s.entries && next.readers == s.readers && next.clock == s.clock
    ensures e.Evict? ==> After(s, e) == s.(entries := s.entries - {e.key})
    ensures e.LoseCounter? ==> After(s, e) == s.(counter := None)
    ensures e.Tick? ==> After(s, e) == s.(clock := e.to)
  {
  }
}
