// The parallel workflow around the nodes: the graph runs initialize, assign, process and finalize
// in a line, and process_files turns the final state into the result record (the results list,
// the filename-to-agent map, per-agent task counts and per-agent worker-use counts), or into a
// failure record when running the graph raises. Durations, rates and percentages are floats over
// wall-clock time and are not part of this model; the counts they are computed from are.

module ParallelWorkflow {
  import opened Wrappers
  import opened Strings
  import opened PyValues
  import FileRouting
  import opened ParallelNodes

  // ------------------------------------------------------------ the results list

  /** One entry of the results list: `success` True for a completed task, False for a failed one. */
  datatype ResultEntry =
    | Succeeded(filename: string, fileType: FileRouting.FileType, fileSize: nat, documentId: Option<string>,
                agentType: string, agentName: string, propertyData: Option<Value>)
    | Unsuccessful(filename: string, fileType: FileRouting.FileType, fileSize: nat, agentType: string,
                   error: Option<string>)

  /** The entry of a completed task: one when the task carries a result, none otherwise. */
  function CompletedResult(t: Task): seq<ResultEntry>
  {
    match t.result
    case None => []
    case Some(r) => [Succeeded(t.filename, t.fileType, t.fileSize, r.documentId, r.agentType, r.agentName, r.propertyData)]
  }

  /** The entry of a failed task, with the task's own agent type and error message. */
  function FailedResult(t: Task): ResultEntry
  {
    Unsuccessful(t.filename, t.fileType, t.fileSize, AgentValue(t.agentType), t.errorMessage)
  }

  /** The tasks a list of positions names, in the list's order. */
  function At(ts: seq<Task>, idx: seq<nat>): (r: seq<Task>)
    requires forall k :: 0 <= k < |idx| ==> idx[k] < |ts|
    ensures |r| == |idx|
  {
    seq(|idx|, k requires 0 <= k < |idx| => ts[idx[k]])
  }

  /** The results list: the completed tasks' entries, then one entry per failed task. */
  function Results(cs: seq<Task>, fl: seq<Task>): seq<ResultEntry>
  {
    FlatMap(CompletedResult, cs) + MapSeq(FailedResult, fl)
  }

  /**
   * The results list is the successful entries followed by the unsuccessful ones: first the
   * entries of the completed tasks, then one entry for each failed task, in order, carrying its
   * agent type and error message.
   */
  lemma ResultsOrder(cs: seq<Task>, fl: seq<Task>)
    ensures var r := Results(cs, fl);
      var n := |FlatMap(CompletedResult, cs)|;
      && |r| == n + |fl|
      && (forall i :: 0 <= i < n ==> r[i].Succeeded?)
      && (forall j :: 0 <= j < |fl| ==> r[n + j] == FailedResult(fl[j]))
  {
    var s := FlatMap(CompletedResult, cs);
    SucceededOnly(cs);
    MapSeqAt(FailedResult, fl);
    assert forall i :: 0 <= i < |s| ==> s[i] in s;
  }

  /** Every entry a completed task contributes says success. */
  lemma {:induction false} SucceededOnly(cs: seq<Task>)
    ensures forall e :: e in FlatMap(CompletedResult, cs) ==> e.Succeeded?
  {
    FlatMapMembers(CompletedResult, cs);
  }

  /** A completed task has an entry exactly when it carries a result, and every entry comes from one. */
  lemma CompletedResultsFrom(cs: seq<Task>)
    ensures forall k :: 0 <= k < |cs| && cs[k].result.Some? ==> CompletedResult(cs[k])[0] in FlatMap(CompletedResult, cs)
    ensures forall e :: e in FlatMap(CompletedResult, cs) ==>
      exists k :: 0 <= k < |cs| && cs[k].result.Some? && e == CompletedResult(cs[k])[0]
  {
    FlatMapMembers(CompletedResult, cs);
    forall k | 0 <= k < |cs| && cs[k].result.Some?
      ensures CompletedResult(cs[k])[0] in FlatMap(CompletedResult, cs)
    {
      assert CompletedResult(cs[k])[0] in CompletedResult(cs[k]);
    }
  }

  /** When every completed task carries a result, each contributes exactly one entry. */
  lemma {:induction false} AllCompletedListed(cs: seq<Task>)
    requires forall k :: 0 <= k < |cs| ==> cs[k].result.Some?
    ensures |FlatMap(CompletedResult, cs)| == |cs|
  {
    if cs != [] {
      AllCompletedListed(cs[..|cs| - 1]);
    }
  }

  // ------------------------------------------------------------ the agent assignments

  /** Writing key/value pairs into a dict one after another. */
  function Written(m: map<string, string>, pairs: seq<(string, string)>): map<string, string>
  {
    if pairs == [] then m
    else
      var last := pairs[|pairs| - 1];
      Written(m, pairs[..|pairs| - 1])[last.0 := last.1]
  }

  /** A dict written pair by pair holds the keys it started with and the written ones. */
  lemma {:induction false} WrittenKeys(m: map<string, string>, pairs: seq<(string, string)>)
    ensures forall k :: k in Written(m, pairs) <==> k in m || exists p :: p in pairs && p.0 == k
  {
    if pairs != [] {
      var n := |pairs| - 1;
      WrittenKeys(m, pairs[..n]);
      assert pairs == pairs[..n] + [pairs[n]];
    }
  }

  /** Writing two runs of pairs is writing the first, then the second. */
  lemma {:induction false} WrittenAppend(m: map<string, string>, a: seq<(string, string)>, b: seq<(string, string)>)
    ensures Written(m, a + b) == Written(Written(m, a), b)
  {
    if b != [] {
      var n := |b| - 1;
      WrittenAppend(m, a, b[..n]);
      assert (a + b)[..|a + b| - 1] == a + b[..n];
    } else {
      assert a + b == a;
    }
  }

  /** A key no pair writes keeps the value it had. */
  lemma {:induction false} WrittenUntouched(m: map<string, string>, pairs: seq<(string, string)>, k: string)
    requires k in m && forall p :: p in pairs ==> p.0 != k
    ensures k in Written(m, pairs) && Written(m, pairs)[k] == m[k]
  {
    if pairs != [] {
      var n := |pairs| - 1;
      assert pairs == pairs[..n] + [pairs[n]];
      WrittenUntouched(m, pairs[..n], k);
    }
  }

  /** The last write of a key decides its value. */
  lemma WrittenLast(m: map<string, string>, a: seq<(string, string)>, x: (string, string), b: seq<(string, string)>)
    requires forall p :: p in b ==> p.0 != x.0
    ensures x.0 in Written(m, a + [x] + b) && Written(m, a + [x] + b)[x.0] == x.1
  {
    WrittenAppend(m, a + [x], b);
    assert (a + [x])[..|a|] == a;
    WrittenUntouched(Written(m, a + [x]), b, x.0);
  }

  /** A completed task with a result naming an agent type maps its filename to that type. */
  function CompletedPair(t: Task): seq<(string, string)>
  {
    if t.result.Some? && t.result.value.agentType != "" then [(t.filename, t.result.value.agentType)] else []
  }

  /** A failed task maps its filename to its own agent type's value. */
  function FailedPair(t: Task): (string, string)
  {
    (t.filename, AgentValue(t.agentType))
  }

  /** The agent_assignments dict: the completed tasks' pairs written first, then the failed tasks'. */
  function Assignments(cs: seq<Task>, fl: seq<Task>): map<string, string>
  {
    Written(map[], FlatMap(CompletedPair, cs) + MapSeq(FailedPair, fl))
  }

  /** The failed tasks' pairs: one per failed task. */
  lemma FailedPairsOf(fl: seq<Task>)
    ensures forall p :: p in MapSeq(FailedPair, fl) <==> exists j :: 0 <= j < |fl| && p == FailedPair(fl[j])
  {
    var fs := MapSeq(FailedPair, fl);
    MapSeqAt(FailedPair, fl);
    forall j | 0 <= j < |fl| ensures FailedPair(fl[j]) in fs {
      assert fs[j] == FailedPair(fl[j]);
    }
  }

  /**
   * Failed tasks win: the filename of a failed task maps to the agent type of the last failed
   * task with that filename, whatever the completed tasks wrote for it.
   */
  lemma FailedWin(cs: seq<Task>, fl: seq<Task>, j: nat)
    requires j < |fl|
    requires forall j' :: j < j' < |fl| ==> fl[j'].filename != fl[j].filename
    ensures fl[j].filename in Assignments(cs, fl)
    ensures Assignments(cs, fl)[fl[j].filename] == AgentValue(fl[j].agentType)
  {
    var pre := FlatMap(CompletedPair, cs);
    var fs := MapSeq(FailedPair, fl);
    MapSeqAt(FailedPair, fl);
    var x := FailedPair(fl[j]);
    var post := fs[j + 1..];
    assert fs == fs[..j] + [x] + post;
    assert pre + fs == (pre + fs[..j]) + [x] + post;
    forall p | p in post ensures p.0 != x.0 {
      var i :| 0 <= i < |post| && post[i] == p;
      assert post[i] == fs[j + 1 + i];
    }
    WrittenLast(map[], pre + fs[..j], x, post);
  }

  /**
   * A completed task's agent type is kept when no failed task and no later completed task with
   * a result naming an agent type has its filename.
   */
  lemma CompletedKept(cs: seq<Task>, fl: seq<Task>, k: nat)
    requires k < |cs| && CompletedPair(cs[k]) != []
    requires forall j :: 0 <= j < |fl| ==> fl[j].filename != cs[k].filename
    requires forall k' :: k < k' < |cs| && CompletedPair(cs[k']) != [] ==> cs[k'].filename != cs[k].filename
    ensures cs[k].filename in Assignments(cs, fl)
    ensures Assignments(cs, fl)[cs[k].filename] == cs[k].result.value.agentType
  {
    var x := CompletedPair(cs[k])[0];
    var pre := FlatMap(CompletedPair, cs[..k]);
    var post := FlatMap(CompletedPair, cs[k + 1..]);
    CompletedPairsAround(cs, k);
    PairsAfterElsewhere(cs, fl, k);
    AppendAssoc(pre + [x], post, MapSeq(FailedPair, fl));
    WrittenLast(map[], pre, x, post + MapSeq(FailedPair, fl));
  }

  /** The pairs of the completed tasks around task k, which writes one. */
  lemma CompletedPairsAround(cs: seq<Task>, k: nat)
    requires k < |cs| && CompletedPair(cs[k]) != []
    ensures FlatMap(CompletedPair, cs)
      == FlatMap(CompletedPair, cs[..k]) + [CompletedPair(cs[k])[0]] + FlatMap(CompletedPair, cs[k + 1..])
  {
    assert cs[..k + 1] + cs[k + 1..] == cs;
    FlatMapAppend(CompletedPair, cs[..k + 1], cs[k + 1..]);
    FlatMapStep(CompletedPair, cs, k);
  }

  /** No pair written after completed task k names its filename. */
  lemma PairsAfterElsewhere(cs: seq<Task>, fl: seq<Task>, k: nat)
    requires k < |cs|
    requires forall j :: 0 <= j < |fl| ==> fl[j].filename != cs[k].filename
    requires forall k' :: k < k' < |cs| && CompletedPair(cs[k']) != [] ==> cs[k'].filename != cs[k].filename
    ensures forall p :: p in FlatMap(CompletedPair, cs[k + 1..]) + MapSeq(FailedPair, fl) ==> p.0 != cs[k].filename
  {
    LaterPairsElsewhere(cs, k, cs[k].filename);
    FailedPairsOf(fl);
  }

  /** The pairs written after completed task k do not name its filename. */
  lemma LaterPairsElsewhere(cs: seq<Task>, k: nat, f: string)
    requires k < |cs|
    requires forall k' :: k < k' < |cs| && CompletedPair(cs[k']) != [] ==> cs[k'].filename != f
    ensures forall p :: p in FlatMap(CompletedPair, cs[k + 1..]) ==> p.0 != f
  {
    var post := cs[k + 1..];
    FlatMapMembers(CompletedPair, post);
    forall p | p in FlatMap(CompletedPair, post) ensures p.0 != f {
      var i :| 0 <= i < |post| && p in CompletedPair(post[i]);
      assert post[i] == cs[k + 1 + i];
    }
  }

  /** The dict's keys are exactly the filenames of failed tasks and of completed tasks with a typed result. */
  lemma AssignmentKeys(cs: seq<Task>, fl: seq<Task>, f: string)
    ensures f in Assignments(cs, fl) <==>
      (exists j :: 0 <= j < |fl| && fl[j].filename == f)
      || (exists k :: 0 <= k < |cs| && CompletedPair(cs[k]) != [] && cs[k].filename == f)
  {
    var pre := FlatMap(CompletedPair, cs);
    var fs := MapSeq(FailedPair, fl);
    WrittenKeys(map[], pre + fs);
    if exists j :: 0 <= j < |fl| && fl[j].filename == f {
      var j :| 0 <= j < |fl| && fl[j].filename == f;
      FailedPairsOf(fl);
      assert FailedPair(fl[j]) in pre + fs;
    }
    if exists k :: 0 <= k < |cs| && CompletedPair(cs[k]) != [] && cs[k].filename == f {
      var k :| 0 <= k < |cs| && CompletedPair(cs[k]) != [] && cs[k].filename == f;
      FlatMapMembers(CompletedPair, cs);
      assert CompletedPair(cs[k])[0] in CompletedPair(cs[k]);
      assert CompletedPair(cs[k])[0] in pre + fs;
    }
    if f in Assignments(cs, fl) {
      var p: (string, string) :| p in pre + fs && p.0 == f;
      PairOrigin(cs, fl, p);
    }
  }

  /** Every written pair comes from a failed task or from a completed task with a typed result. */
  lemma PairOrigin(cs: seq<Task>, fl: seq<Task>, p: (string, string))
    requires p in FlatMap(CompletedPair, cs) + MapSeq(FailedPair, fl)
    ensures (exists j :: 0 <= j < |fl| && fl[j].filename == p.0)
      || (exists k :: 0 <= k < |cs| && CompletedPair(cs[k]) != [] && cs[k].filename == p.0)
  {
    if p in FlatMap(CompletedPair, cs) {
      CompletedPairOrigin(cs, p);
    } else {
      FailedPairOrigin(fl, p);
    }
  }

  lemma CompletedPairOrigin(cs: seq<Task>, p: (string, string))
    requires p in FlatMap(CompletedPair, cs)
    ensures exists k :: 0 <= k < |cs| && CompletedPair(cs[k]) != [] && cs[k].filename == p.0
  {
    FlatMapMembers(CompletedPair, cs);
    var k :| 0 <= k < |cs| && p in CompletedPair(cs[k]);
    assert CompletedPair(cs[k]) != [] && cs[k].filename == p.0;
  }

  lemma FailedPairOrigin(fl: seq<Task>, p: (string, string))
    requires p in MapSeq(FailedPair, fl)
    ensures exists j :: 0 <= j < |fl| && fl[j].filename == p.0
  {
    FailedPairsOf(fl);
    var j :| 0 <= j < |fl| && p == FailedPair(fl[j]);
    assert fl[j].filename == p.0;
  }

  // ------------------------------------------------------------ per-agent statistics

  /** The integer part of an agent's statistics entry. */
  datatype AgentStats = AgentStats(total: nat, successful: nat, failed: nat)

  /** The counts over the tasks of one agent type: COMPLETED tasks succeeded, any other status failed. */
  function CountOf(ts: seq<Task>, a: AgentType): AgentStats
  {
    if ts == [] then AgentStats(0, 0, 0)
    else
      var s := CountOf(ts[..|ts| - 1], a);
      var t := ts[|ts| - 1];
      if t.agentType != a then s
      else if t.status == Completed then AgentStats(s.total + 1, s.successful + 1, s.failed)
      else AgentStats(s.total + 1, s.successful, s.failed + 1)
  }

  /**
   * The statistics loop: an entry per agent type present among the tasks, counting its tasks,
   * the COMPLETED ones and all the others. The dict is keyed by the agent type (the source keys
   * it by the type's value, and different types have different values).
   */
  method AgentStatistics(ts: seq<Task>) returns (stats: map<AgentType, AgentStats>)
    ensures forall a :: a in stats <==> CountOf(ts, a).total > 0
    ensures forall a :: a in stats ==> stats[a] == CountOf(ts, a)
  {
    stats := map[];
    for i := 0 to |ts|
      invariant forall a :: a in stats <==> CountOf(ts[..i], a).total > 0
      invariant forall a :: a in stats ==> stats[a] == CountOf(ts[..i], a)
    {
      var task := ts[i];
      var key := task.agentType;
      assert ts[..i + 1][..i] == ts[..i];
      assert ts[..i + 1][i] == task;
      if key !in stats {
        StatsPartition(ts[..i], key);
        stats := stats[key := AgentStats(0, 0, 0)];
      }
      var e := stats[key];
      if task.status == Completed {
        stats := stats[key := AgentStats(e.total + 1, e.successful + 1, e.failed)];
      } else {
        stats := stats[key := AgentStats(e.total + 1, e.successful, e.failed + 1)];
      }
    }
    assert ts[..|ts|] == ts;
  }

  /** Every agent's total is its successes plus its failures. */
  lemma {:induction false} StatsPartition(ts: seq<Task>, a: AgentType)
    ensures CountOf(ts, a).total == CountOf(ts, a).successful + CountOf(ts, a).failed
  {
    if ts != [] {
      StatsPartition(ts[..|ts| - 1], a);
    }
  }

  /** An agent's total is the size of its group: the tasks the assign node hands its workers. */
  lemma {:induction false} StatsGroupSize(ts: seq<Task>, a: AgentType)
    ensures CountOf(ts, a).total == |Members(ts, a, false)|
  {
    if ts != [] {
      StatsGroupSize(ts[..|ts| - 1], a);
    }
  }

  /** Over all nine agent types the totals count every task once. */
  lemma {:induction false} StatsCoverTasks(ts: seq<Task>)
    ensures CountOf(ts, PdfAgent).total + CountOf(ts, DocxAgent).total + CountOf(ts, PptxAgent).total
      + CountOf(ts, XlsxAgent).total + CountOf(ts, CsvAgent).total + CountOf(ts, TxtAgent).total
      + CountOf(ts, RtfAgent).total + CountOf(ts, OdtAgent).total + CountOf(ts, GeneralAgent).total == |ts|
  {
    if ts != [] {
      StatsCoverTasks(ts[..|ts| - 1]);
    }
  }

  // ------------------------------------------------------------ per-agent worker use

  /** The worker ids the tasks hold; `if task.assigned_agent` skips a missing or empty id. */
  function UsedIds(ts: seq<Task>): set<string>
  {
    if ts == [] then {}
    else
      var t := ts[|ts| - 1];
      UsedIds(ts[..|ts| - 1]) + (if t.assignedAgent.Some? && t.assignedAgent.value != "" then {t.assignedAgent.value} else {})
  }

  /** An id is used exactly when some task holds it and it is not empty. */
  lemma {:induction false} UsedIdsIn(ts: seq<Task>)
    ensures forall id :: id in UsedIds(ts) <==> id != "" && exists t :: 0 <= t < |ts| && ts[t].assignedAgent == Some(id)
  {
    if ts != [] {
      var n := |ts| - 1;
      UsedIdsIn(ts[..n]);
      assert forall t :: 0 <= t < n ==> ts[..n][t] == ts[t];
    }
  }

  /** The set loop of the utilisation calculation. */
  method UsedAgents(ts: seq<Task>) returns (used: set<string>)
    ensures used == UsedIds(ts)
  {
    used := {};
    for i := 0 to |ts|
      invariant used == UsedIds(ts[..i])
    {
      assert ts[..i + 1][..i] == ts[..i];
      var agent := ts[i].assignedAgent;
      if agent.Some? && agent.value != "" {
        used := used + {agent.value};
      }
    }
    assert ts[..|ts|] == ts;
  }

  /** used_count: how many used ids start with an agent's value. */
  function PrefixCount(used: set<string>, v: string): nat
  {
    |set id | id in used && StartsWith(id, v)|
  }

  /**
   * The utilisation loop, counts only: for each pool, 0 when it is empty, otherwise the number of
   * used ids that start with the pool's agent value (the percentage divides that by the pool
   * size). Keyed by the agent type, as the statistics are.
   */
  method AgentUtilization(ts: seq<Task>, pools: map<AgentType, seq<string>>) returns (counts: map<AgentType, nat>)
    ensures counts.Keys == pools.Keys
    ensures forall a :: a in pools ==>
      counts[a] == if pools[a] == [] then 0 else PrefixCount(UsedIds(ts), AgentValue(a))
  {
    counts := map[];
    for k := 0 to |AgentTypes|
      invariant forall a :: a in counts <==> a in pools && a in AgentTypes[..k]
      invariant forall a :: a in counts ==>
        counts[a] == if pools[a] == [] then 0 else PrefixCount(UsedIds(ts), AgentValue(a))
    {
      var a := AgentTypes[k];
      assert AgentTypes[..k + 1] == AgentTypes[..k] + [a];
      if a in pools {
        if |pools[a]| == 0 {
          counts := counts[a := 0];
        } else {
          var used := UsedAgents(ts);
          counts := counts[a := |set id | id in used && StartsWith(id, AgentValue(a))|];
        }
      }
    }
    assert AgentTypes[..|AgentTypes|] == AgentTypes;
    forall a ensures a in AgentTypes {
      EveryAgentType(a);
    }
  }

  lemma EveryAgentType(a: AgentType)
    ensures a in AgentTypes
  {
    match a
    case PdfAgent => assert AgentTypes[0] == a;
    case DocxAgent => assert AgentTypes[1] == a;
    case PptxAgent => assert AgentTypes[2] == a;
    case XlsxAgent => assert AgentTypes[3] == a;
    case CsvAgent => assert AgentTypes[4] == a;
    case TxtAgent => assert AgentTypes[5] == a;
    case RtfAgent => assert AgentTypes[6] == a;
    case OdtAgent => assert AgentTypes[7] == a;
    case GeneralAgent => assert AgentTypes[8] == a;
  }

  // ------------------------------------------------------------ worker use after round robin

  /** Every task's agent type has a non-empty pool among the ones the initialize node builds. */
  lemma PoolsCoverAll(ts: seq<Task>)
    ensures PoolsCover(ts, Pools())
  {
    forall t | 0 <= t < |ts| ensures ts[t].agentType in Pools() && Pools()[ts[t].agentType] != [] {
      EveryAgentType(ts[t].agentType);
      PoolShape(ts[t].agentType);
    }
  }

  /**
   * What the assign node relies on in the pools: no pool repeats an id, and a pool's ids start
   * with an agent's value exactly when the pool is that agent's.
   */
  predicate SeparatePools(pools: map<AgentType, seq<string>>)
  {
    && (forall b, i, j :: b in pools && 0 <= i < j < |pools[b]| ==> pools[b][i] != pools[b][j])
    && (forall a, b, i :: b in pools && 0 <= i < |pools[b]| ==> (StartsWith(pools[b][i], AgentValue(a)) <==> a == b))
  }

  /** The initialize node's pools are separate, and each has max_concurrent ids. */
  lemma InitialPoolsSeparate()
    ensures SeparatePools(Pools())
    ensures forall a :: a in Pools() && |Pools()[a]| == MaxConcurrent(a)
  {
    forall b, i, j | b in Pools() && 0 <= i < j < |Pools()[b]| ensures Pools()[b][i] != Pools()[b][j] {
      PoolShape(b);
    }
    forall a, b, i | b in Pools() && 0 <= i < |Pools()[b]|
      ensures StartsWith(Pools()[b][i], AgentValue(a)) <==> a == b
    {
      PoolPrefix(a, b, i);
    }
    forall a ensures a in Pools() && |Pools()[a]| == MaxConcurrent(a) {
      EveryAgentType(a);
    }
  }

  /** Each task of `ts` holds the worker the round robin over `pools` gives it in `ts0`. */
  predicate GivenWorkers(ts0: seq<Task>, pools: map<AgentType, seq<string>>, ts: seq<Task>)
  {
    && PoolsCover(ts0, pools)
    && |ts| == |ts0| && forall t :: 0 <= t < |ts| ==> ts[t].assignedAgent == Some(RoundRobin(ts0, pools, t))
  }

  /** The first q ids of a pool without repeats are q different ids. */
  lemma {:induction false} PrefixIdsDistinct(pool: seq<string>, q: nat)
    requires q <= |pool| && forall i, j :: 0 <= i < j < |pool| ==> pool[i] != pool[j]
    ensures |set j | 0 <= j < q :: pool[j]| == q
  {
    if q > 0 {
      PrefixIdsDistinct(pool, q - 1);
      var before := set j | 0 <= j < q - 1 :: pool[j];
      assert (set j | 0 <= j < q :: pool[j]) == before + {pool[q - 1]};
      assert pool[q - 1] !in before;
    }
  }

  lemma ValueNonEmpty(a: AgentType)
    ensures |AgentValue(a)| >= 2
  {
    if a == PdfAgent {
      ValuesDiffer(a, DocxAgent);
    } else {
      ValuesDiffer(a, PdfAgent);
    }
  }

  lemma ModBelow(x: nat, k: nat)
    requires k > 0
    ensures x % k <= x && x % k < k
    ensures x < k ==> x % k == x
  {
  }

  /** A used id starting with an agent's value is one of the first min(m, pool size) ids of its pool. */
  lemma UsedByType(ts0: seq<Task>, pools: map<AgentType, seq<string>>, ts: seq<Task>, a: AgentType, id: string)
    requires GivenWorkers(ts0, pools, ts) && SeparatePools(pools) && a in pools
    requires id in UsedIds(ts) && StartsWith(id, AgentValue(a))
    ensures exists j :: 0 <= j < |Members(ts0, a, false)| && j < |pools[a]| && id == pools[a][j]
  {
    UsedIdsIn(ts);
    var t :| 0 <= t < |ts| && ts[t].assignedAgent == Some(id);
    var b := ts0[t].agentType;
    var r := Rank(ts0, t) % |pools[b]|;
    assert id == pools[b][r];
    MembersComplete(ts0, a, false, t);
    ModBelow(Rank(ts0, t), |pools[b]|);
    assert r < |Members(ts0, a, false)| && r < |pools[a]| && id == pools[a][r];
  }

  /** Each of the first min(m, pool size) ids of a pool is used, and starts with the agent's value. */
  lemma TypeUsesPrefix(ts0: seq<Task>, pools: map<AgentType, seq<string>>, ts: seq<Task>, a: AgentType, j: nat)
    requires GivenWorkers(ts0, pools, ts) && SeparatePools(pools) && a in pools
    requires j < |Members(ts0, a, false)| && j < |pools[a]|
    ensures pools[a][j] in UsedIds(ts) && StartsWith(pools[a][j], AgentValue(a))
  {
    MembersShape(ts0, a, false);
    var t := Members(ts0, a, false)[j];
    assert Rank(ts0, t) == j;
    ModBelow(j, |pools[a]|);
    assert RoundRobin(ts0, pools, t) == pools[a][j];
    ValueNonEmpty(a);
    UsedIdsIn(ts);
  }

  /**
   * After the round robin, the used ids that start with an agent's value are min(m, k) ids, for
   * m tasks of that agent type and a pool of k workers: the utilisation count.
   */
  lemma WorkersUsed(ts0: seq<Task>, pools: map<AgentType, seq<string>>, ts: seq<Task>, a: AgentType)
    requires GivenWorkers(ts0, pools, ts) && SeparatePools(pools) && a in pools
    ensures var m := |Members(ts0, a, false)|;
      PrefixCount(UsedIds(ts), AgentValue(a)) == if m < |pools[a]| then m else |pools[a]|
  {
    var m := |Members(ts0, a, false)|;
    var q := if m < |pools[a]| then m else |pools[a]|;
    var used := set id | id in UsedIds(ts) && StartsWith(id, AgentValue(a));
    var first := set j | 0 <= j < q :: pools[a][j];
    forall id | id in used ensures id in first {
      UsedByType(ts0, pools, ts, a, id);
    }
    forall id | id in first ensures id in used {
      var j :| 0 <= j < q && id == pools[a][j];
      TypeUsesPrefix(ts0, pools, ts, a, j);
    }
    assert used == first;
    PrefixIdsDistinct(pools[a], q);
  }

  // ------------------------------------------------------------ one run of the graph

  /** The task list the assign node leaves: every task PROCESSING with its round-robin worker. */
  function AssignedAll(ts: seq<Task>): (r: seq<Task>)
    ensures |r| == |ts|
  {
    PoolsCoverAll(ts);
    seq(|ts|, t requires 0 <= t < |ts| => AssignedTask(ts, Pools(), t))
  }

  /** A list without repeats has as many distinct elements as positions. */
  lemma {:induction false} DistinctCount(s: seq<nat>)
    requires NoDuplicates(s)
    ensures |set x: nat | x in s| == |s|
  {
    if s != [] {
      var n := |s| - 1;
      var init := set x: nat | x in s[..n];
      assert NoDuplicates(s[..n]) by {
        forall i, j | 0 <= i < j < n ensures s[..n][i] != s[..n][j] {
          assert s[..n][i] == s[i] && s[..n][j] == s[j];
        }
      }
      DistinctCount(s[..n]);
      assert s[n] !in init by {
        forall i | 0 <= i < n ensures s[..n][i] != s[n] {
          assert s[..n][i] == s[i];
        }
      }
      assert s == s[..n] + [s[n]];
      assert (set x: nat | x in s) == init + {s[n]};
      assert init * {s[n]} == {};
    } else {
      assert (set x: nat | x in s) == {};
    }
  }

  /** The positions 0 .. n-1 in order. */
  function Indices(n: nat): (r: seq<nat>)
    ensures |r| == n && forall i :: 0 <= i < n ==> r[i] == i
  {
    seq(n, i requires 0 <= i < n => i)
  }

  /** When every task is PROCESSING, the processing node runs each of them once. */
  lemma RunsEveryTask(ts: seq<Task>)
    requires forall t :: 0 <= t < |ts| ==> ts[t].status == Processing
    ensures |RunOrder(ts)| == |ts|
  {
    var order := RunOrder(ts);
    var all := Indices(|ts|);
    RunOrderExact(ts);
    DistinctCount(order);
    DistinctCount(all);
    assert forall x :: x in all ==> x in order;
    assert forall x :: x in order ==> x in all by {
      forall x | x in order ensures x in all {
        assert all[x] == x;
      }
    }
    assert (set x: nat | x in order) == (set x: nat | x in all);
  }

  /** A position listed as completed comes from the order, and its run returned. */
  lemma CompletedWereReturned(ts: seq<Task>, order: seq<nat>, run: Task -> Outcome)
    requires forall k :: 0 <= k < |order| ==> order[k] < |ts|
    ensures forall x :: x in FlatMap(CompletedEntry, Gathered(ts, order, run)) ==>
      x in order && x < |ts| && run(ts[x]).Returned?
  {
    var rs := Gathered(ts, order, run);
    FlatMapMembers(CompletedEntry, rs);
    forall x | x in FlatMap(CompletedEntry, rs) ensures x in order && x < |ts| && run(ts[x]).Returned? {
      var i :| 0 <= i < |rs| && x in CompletedEntry(rs[i]);
      assert rs[i] == Ran(order[i], ts[order[i]].taskId, run(ts[order[i]]));
    }
  }

  /** Every task the processing node lists as completed carries the result its run returned. */
  lemma CompletedCarryResults(tl: Tally, run: Task -> Outcome)
    requires tl.completed == []
    ensures var p := Processed(tl, run);
      forall k :: 0 <= k < |p.completed| ==> p.completed[k] < |p.tasks| && p.tasks[p.completed[k]].result.Some?
  {
    var ts := tl.tasks;
    var p := Processed(tl, run);
    ProcessingCounts(tl, run);
    ProcessingEffect(tl, run);
    RunOrderExact(ts);
    CompletedWereReturned(ts, RunOrder(ts), run);
    forall k | 0 <= k < |p.completed| ensures p.completed[k] < |p.tasks| && p.tasks[p.completed[k]].result.Some? {
      var x := p.completed[k];
      assert x in FlatMap(CompletedEntry, Gathered(ts, RunOrder(ts), run));
      assert ts[x].status == Processing;
    }
  }

  /** The tally the processing node leaves after the initialize and assign nodes ran on `ts0`. */
  function AfterRun(ts0: seq<Task>, run: Task -> Outcome): Tally
  {
    Processed(Tally(AssignedAll(ts0), [], [], [], 0, 0, 0), run)
  }

  /**
   * A whole run on fresh tasks, counting: every task lands in exactly one of the completed and
   * failed lists, the counters match the lists, and no more documents are stored than tasks
   * completed.
   */
  lemma RunCounts(ts0: seq<Task>, run: Task -> Outcome)
    ensures var p := AfterRun(ts0, run);
      && ListsInRange(p)
      && |p.completed| + |p.failed| == |ts0|
      && p.successful == |p.completed| && p.failedCount == |p.failed| && p.stored <= p.successful
  {
    var ta := AssignedAll(ts0);
    var tl := Tally(ta, [], [], [], 0, 0, 0);
    RunsEveryTask(ta);
    ProcessingCounts(tl, run);
    EntriesPartition(Gathered(ta, RunOrder(ta), run));
    RunOrderExact(ta);
    RecordAllTasks(ta, RunOrder(ta), run, tl);
    RecordAllIndices(tl, Gathered(ta, RunOrder(ta), run));
  }

  /**
   * A whole run on fresh tasks, task by task: every task ends COMPLETED or FAILED with its agent
   * type, keeps the worker the round robin gave it, and every completed one carries its result.
   */
  lemma RunTasks(ts0: seq<Task>, run: Task -> Outcome)
    ensures var p := AfterRun(ts0, run);
      && (forall k :: 0 <= k < |p.completed| ==> p.completed[k] < |p.tasks| && p.tasks[p.completed[k]].result.Some?)
      && (forall t :: 0 <= t < |p.tasks| ==> p.tasks[t].status == Completed || p.tasks[t].status == Failed)
      && GivenWorkers(ts0, Pools(), p.tasks)
      && forall t :: 0 <= t < |p.tasks| ==> p.tasks[t].agentType == ts0[t].agentType
  {
    PoolsCoverAll(ts0);
    var tl := Tally(AssignedAll(ts0), [], [], [], 0, 0, 0);
    CompletedCarryResults(tl, run);
    ProcessingEffect(tl, run);
  }

  /** Only the agent types decide the groups of all tasks. */
  lemma {:induction false} MembersByType(ts: seq<Task>, us: seq<Task>, a: AgentType)
    requires |ts| == |us| && forall t :: 0 <= t < |ts| ==> ts[t].agentType == us[t].agentType
    ensures Members(ts, a, false) == Members(us, a, false)
  {
    if ts != [] {
      var n := |ts| - 1;
      MembersByType(ts[..n], us[..n], a);
    }
  }

  /**
   * What one run of the graph on fresh tasks formats: the counters cover every file, no more
   * documents are stored than files completed, and the overall status is FAILED exactly when
   * there were files and none completed.
   */
  lemma RunOutcome(ts0: seq<Task>, run: Task -> Outcome)
    ensures var p := AfterRun(ts0, run);
      && ListsInRange(p)
      && p.successful + p.failedCount == |ts0| && p.stored <= p.successful
      && (OverallStatus(p.failed, p.completed) == Failed <==> ts0 != [] && p.successful == 0)
  {
    RunCounts(ts0, run);
  }

  /** After one run every task contributes exactly one entry to the results list. */
  lemma RunResultsCount(ts0: seq<Task>, run: Task -> Outcome)
    ensures var p := AfterRun(ts0, run);
      ListsInRange(p) && |Results(At(p.tasks, p.completed), At(p.tasks, p.failed))| == |ts0|
  {
    var p := AfterRun(ts0, run);
    RunCounts(ts0, run);
    RunTasks(ts0, run);
    var cs := At(p.tasks, p.completed);
    assert forall k :: 0 <= k < |cs| ==> cs[k].result.Some?;
    AllCompletedListed(cs);
    ResultsOrder(cs, At(p.tasks, p.failed));
  }

  /**
   * Per agent type after one run: the statistics total is the size of the type's group and
   * splits into successes and failures, and the used-worker count is min(group size,
   * max_concurrent).
   */
  lemma RunAgents(ts0: seq<Task>, run: Task -> Outcome, a: AgentType)
    ensures var p := AfterRun(ts0, run);
      var m := |Members(ts0, a, false)|;
      && CountOf(p.tasks, a).total == m
      && CountOf(p.tasks, a).total == CountOf(p.tasks, a).successful + CountOf(p.tasks, a).failed
      && PrefixCount(UsedIds(p.tasks), AgentValue(a)) == if m < MaxConcurrent(a) then m else MaxConcurrent(a)
  {
    var p := AfterRun(ts0, run);
    RunTasks(ts0, run);
    InitialPoolsSeparate();
    StatsGroupSize(p.tasks, a);
    MembersByType(p.tasks, ts0, a);
    StatsPartition(p.tasks, a);
    WorkersUsed(ts0, Pools(), p.tasks, a);
  }

  // ------------------------------------------------------------ the formatted answer

  /**
   * What process_files returns. `usedAgents` holds the used-worker counts of the utilisation
   * metric (the percentage divides each by the pool size).
   */
  datatype WorkflowResult =
    | Formatted(success: bool, overallStatus: Status, totalFiles: nat, successfulUploads: nat,
                failedUploads: nat, totalDocumentsStored: nat, errors: seq<string>,
                results: seq<ResultEntry>, agentAssignments: map<string, string>,
                agentStatistics: map<AgentType, AgentStats>, usedAgents: map<AgentType, nat>)
    | Crashed(success: bool, error: string, totalFiles: nat, successfulUploads: nat,
              failedUploads: nat, totalDocumentsStored: nat, results: seq<ResultEntry>)

  /** The answer when running the graph raised: every file counted as failed. */
  function Crash(files: seq<FileInput>, message: string): WorkflowResult
  {
    Crashed(false, "Parallel processing workflow failed: " + message, |files|, 0, |files|, 0, [])
  }

  /**
   * _format_results: success when the final status is COMPLETED, the state's counters and
   * errors, the completed results then the failed ones, the filename-to-agent assignments, the
   * per-agent statistics and the used-worker counts per pool.
   */
  method FormatResults(st: ParallelState) returns (r: WorkflowResult)
    requires st.Valid()
    ensures r.Formatted?
    ensures r.success <==> st.overallStatus == Completed
    ensures r.overallStatus == st.overallStatus && r.totalFiles == st.totalFiles
    ensures r.successfulUploads == st.successfulUploads && r.failedUploads == st.failedUploads
    ensures r.totalDocumentsStored == st.totalDocumentsStored && r.errors == st.errors
    ensures r.results == Results(At(st.tasks, st.completedTasks), At(st.tasks, st.failedTasks))
    ensures r.agentAssignments == Assignments(At(st.tasks, st.completedTasks), At(st.tasks, st.failedTasks))
    ensures forall a :: a in r.agentStatistics <==> CountOf(st.tasks, a).total > 0
    ensures forall a :: a in r.agentStatistics ==> r.agentStatistics[a] == CountOf(st.tasks, a)
    ensures r.usedAgents.Keys == st.availableAgents.Keys
    ensures forall a :: a in st.availableAgents ==>
      r.usedAgents[a] == if st.availableAgents[a] == [] then 0 else PrefixCount(UsedIds(st.tasks), AgentValue(a))
  {
    var cs := At(st.tasks, st.completedTasks);
    var fl := At(st.tasks, st.failedTasks);
    var stats := AgentStatistics(st.tasks);
    var used := AgentUtilization(st.tasks, st.availableAgents);
    r := Formatted(st.overallStatus == Completed, st.overallStatus, st.totalFiles,
      st.successfulUploads, st.failedUploads, st.totalDocumentsStored, st.errors,
      Results(cs, fl), Assignments(cs, fl), stats, used);
  }

  /**
   * process_files: run the graph (initialize, assign agents, process, finalize) on fresh state
   * and format the final state; `raised` stands for an exception escaping the graph, which
   * turns into the failure answer. The finalize node only stamps times, which are not modelled.
   */
  method ProcessFiles(files: seq<FileInput>, newId: nat -> string, run: Task -> Outcome, raised: Option<string>)
    returns (r: WorkflowResult)
    ensures raised.Some? ==> r == Crash(files, raised.value)
    ensures r.totalFiles == |files| && r.successfulUploads + r.failedUploads == |files|
    ensures r.totalDocumentsStored <= r.successfulUploads
    ensures r.success <==> raised.None? && (files == [] || r.successfulUploads > 0)
    ensures raised.None? ==>
      var ts0 := InitialTasks(files, newId);
      && r.Formatted? && |r.results| == |files|
      && (forall a :: a in r.agentStatistics <==> |Members(ts0, a, false)| > 0)
      && (forall a :: a in r.agentStatistics ==>
            r.agentStatistics[a].total == |Members(ts0, a, false)|
            && r.agentStatistics[a].total == r.agentStatistics[a].successful + r.agentStatistics[a].failed)
      && (forall a :: a in r.usedAgents && var m := |Members(ts0, a, false)|;
            r.usedAgents[a] == if m < MaxConcurrent(a) then m else MaxConcurrent(a))
  {
    if raised.Some? {
      return Crash(files, raised.value);
    }
    var st := new ParallelState(files);
    st.Initialize(newId);
    ghost var ts0 := st.tasks;
    PoolsCoverAll(ts0);
    st.AssignAgents();
    assert st.tasks == AssignedAll(ts0);
    st.ProcessFiles(run);
    assert st.Progress() == AfterRun(ts0, run);
    r := FormatResults(st);
    RunOutcome(ts0, run);
    RunResultsCount(ts0, run);
    PoolsNonEmpty();
    RunAllAgents(ts0, run);
  }

  /** Every agent type has a pool, and no pool is empty. */
  lemma PoolsNonEmpty()
    ensures forall a :: a in Pools() && Pools()[a] != []
  {
    forall a ensures a in Pools() && Pools()[a] != [] {
      PoolShape(a);
      EveryAgentType(a);
    }
  }

  /** RunAgents for every agent type at once. */
  lemma RunAllAgents(ts0: seq<Task>, run: Task -> Outcome)
    ensures var ts := AfterRun(ts0, run).tasks;
      forall a :: var m := |Members(ts0, a, false)|;
        && CountOf(ts, a).total == m
        && CountOf(ts, a).total == CountOf(ts, a).successful + CountOf(ts, a).failed
        && PrefixCount(UsedIds(ts), AgentValue(a)) == if m < MaxConcurrent(a) then m else MaxConcurrent(a)
  {
    forall a ensures var ts := AfterRun(ts0, run).tasks; var m := |Members(ts0, a, false)|;
      && CountOf(ts, a).total == m
      && CountOf(ts, a).total == CountOf(ts, a).successful + CountOf(ts, a).failed
      && PrefixCount(UsedIds(ts), AgentValue(a)) == if m < MaxConcurrent(a) then m else MaxConcurrent(a)
    {
      RunAgents(ts0, run, a);
    }
  }
}
