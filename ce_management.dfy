/** The manager of concurrent events: it turns a request to find a path into a job of
    the executor, keeps one pending job per figurine, and on every clock tick collects
    the finished jobs and announces the paths they found
    (virtualhost concurrentevents/CEManagement.java).

    The executor is not modelled as threads: a submitted task becomes a job, named by
    its position in the list of submissions; the state of every job at the time of a
    tick is a parameter, as the executor's progress is outside the model. */
module ConcurrentEvents {
  import opened Common
  import opened Values
  import opened Broker
  import Names
  import Extractor
  import VHostErrorCodes

  /** A job of the executor: the position of its task among the submissions. */
  type JobId = nat

  /** What a job's future reports: still running, done with the value the pathfinder
      returned, or done by throwing (a cancelled job also throws on `get`). */
  datatype JobState = Running | Finished(result: Option<seq<Location>>) | Failed

  predicate IsDone(s: JobState)
  {
    !s.Running?
  }

  const ContentPrefix: string := "Expected content to be a FindPathForFigurine, but got an instance of class "

  /** The fetch command asking the board for a pathfinder between two fields. */
  function PathfinderFetch(from: int, to: int): (f: FetchCommand)
    ensures f.command == Names.BOARD_PATHFINDER && f.parms == PathCfg(PathfindingConfig(from, to))
  {
    FetchCommand(Names.BOARD_PATHFINDER, PathCfg(PathfindingConfig(from, to)))
  }

  /** The reply of the board channel to that command, empty answers skipped. */
  function PathfinderReply(subscribers: map<string, seq<ReceiverId>>, from: int, to: int, answer: Answers)
    : seq<Option<Value>>
  {
    if Names.GET_BOARD_DATA in subscribers then
      Collected(subscribers[Names.GET_BOARD_DATA], PathfinderFetch(from, to), true, answer)
    else []
  }

  /** The first answer of the reply, which must be a `Callable`, extracted with V97498. */
  function ExtractPathfinder(list: seq<Option<Value>>): (r: Result<Value>)
    ensures r.Ok? <==> list != [] && list[0].Some? && list[0].value.PathfinderTask?
    ensures r.Ok? ==> r.value == list[0].value
    ensures r.Err? ==> Contains(r.failure.message, VHostErrorCodes.V97498)
  {
    var e := Extractor.NewExtractor(Some(VHostErrorCodes.V97498));
    Extractor.ExtractFirstOutcomes(e, Some(list), Extractor.CallableType);
    e.ExtractFirst(Some(list), Extractor.CallableType)
  }

  /** The exception for a find-path message with the wrong content. */
  function ContentFailure(content: Value): Failure
    requires content != Null
  {
    Failure(ClassCast, VHostErrorCodes.AssembleCodedMsg(
      Some(ContentPrefix + SimpleName(content) + " instead"), Some(VHostErrorCodes.V42664)))
  }

  lemma ContentFailureCarriesCode(content: Value)
    requires content != Null
    ensures ContentFailure(content).kind == ClassCast
    ensures Contains(ContentFailure(content).message, VHostErrorCodes.V42664)
    ensures Contains(ContentFailure(content).message, ContentPrefix + SimpleName(content) + " instead")
  {
    VHostErrorCodes.AssembledMessageCarriesMsgAndCode(
      Some(ContentPrefix + SimpleName(content) + " instead"), Some(VHostErrorCodes.V42664));
  }

  /** When the board answers the pathfinder request empty, as its request map does
      when the path request is not registered, every find-path message fails: the
      extractor finds no element. When the board answers with the pathfinder, that
      pathfinder is what gets submitted. */
  lemma {:induction false} PathfinderComesFromTheBoard(subscribers: map<string, seq<ReceiverId>>,
                                                        board: ReceiverId, from: int, to: int, answer: Answers)
    requires Names.GET_BOARD_DATA in subscribers && subscribers[Names.GET_BOARD_DATA] == [board]
    ensures answer(board, PathfinderFetch(from, to)).None? ==>
      var r := ExtractPathfinder(PathfinderReply(subscribers, from, to, answer));
      r.Err? && r.failure.kind == NoSuchElement
    ensures answer(board, PathfinderFetch(from, to)) == Some(PathfinderTask(from, to)) ==>
      ExtractPathfinder(PathfinderReply(subscribers, from, to, answer)) == Ok(PathfinderTask(from, to))
  {
    var rs := [board];
    var f := PathfinderFetch(from, to);
    assert rs[..|rs| - 1] == [];
    assert PathfinderReply(subscribers, from, to, answer)
        == Collected([], f, true, answer) + (if answer(board, f).Some? then [answer(board, f)] else []);
    var e := Extractor.NewExtractor(Some(VHostErrorCodes.V97498));
    Extractor.ExtractFirstOutcomes(e, Some(PathfinderReply(subscribers, from, to, answer)), Extractor.CallableType);
  }

  // ---------------------------------------------------------------- the check step

  /** The pending jobs that stay: every job that is not done. */
  function Remaining(table: map<string, JobId>, state: JobId -> JobState): map<string, JobId>
  {
    map k | k in table && !IsDone(state(table[k])) :: table[k]
  }

  /** The paths announced for a table: one per done job that returned a path. */
  function FoundPaths(table: map<string, JobId>, state: JobId -> JobState): set<Value>
  {
    set k | k in table && state(table[k]).Finished? && state(table[k]).result.Some? ::
      PathFound(k, state(table[k]).result)
  }

  /** One more entry adds its path, if any, to the found paths. */
  lemma FoundPathsStep(table: map<string, JobId>, k: string, j: JobId, state: JobId -> JobState)
    requires k !in table
    ensures FoundPaths(table[k := j], state) ==
      FoundPaths(table, state) + (if state(j).Finished? && state(j).result.Some? then {PathFound(k, state(j).result)} else {})
  {
    var t' := table[k := j];
    forall p | p in FoundPaths(t', state)
      ensures p in FoundPaths(table, state) || (state(j).Finished? && state(j).result.Some? && p == PathFound(k, state(j).result))
    {
      var k' :| k' in t' && state(t'[k']).Finished? && state(t'[k']).result.Some? && p == PathFound(k', state(t'[k']).result);
      if k' != k {
        assert k' in table;
      }
    }
    forall p | p in FoundPaths(table, state) ensures p in FoundPaths(t', state)
    {
      var k' :| k' in table && state(table[k']).Finished? && state(table[k']).result.Some?
        && p == PathFound(k', state(table[k']).result);
      assert k' in t' && t'[k'] == table[k'];
    }
    if state(j).Finished? && state(j).result.Some? {
      assert k in t' && t'[k] == j;
      assert PathFound(k, state(j).result) in FoundPaths(t', state);
    }
  }

  /** The state of the traversal of `checkAndCleanPathfinders` over `table`, with `keys`
      still to visit: the visited entries are those outside `keys`, the done ones among
      them are gone, and `paths` lists their found paths once each. */
  ghost predicate Traversing(table: map<string, JobId>, state: JobId -> JobState, keys: set<string>,
                             visited: map<string, JobId>, remaining: map<string, JobId>, paths: seq<Value>)
  {
    && keys <= table.Keys
    && visited == (map k | k in table && k !in keys :: table[k])
    && remaining == (map k | k in table && (k in keys || !IsDone(state(table[k]))) :: table[k])
    && NoRepeats(paths)
    && (forall i :: 0 <= i < |paths| ==> paths[i].PathFound? && paths[i].pathOwner in visited)
    && (forall p :: p in paths <==> p in FoundPaths(visited, state))
  }

  /** Visiting one more key keeps the state of the traversal. */
  lemma {:induction false} TraversalStep(table: map<string, JobId>, state: JobId -> JobState, keys: set<string>,
                                         visited: map<string, JobId>, remaining: map<string, JobId>,
                                         paths: seq<Value>, k: string)
    requires Traversing(table, state, keys, visited, remaining, paths) && k in keys
    ensures k in remaining && remaining[k] == table[k]
    ensures var s := state(table[k]);
      var paths' := if IsDone(s) && s.Finished? && s.result.Some? then paths + [PathFound(k, s.result)] else paths;
      var remaining' := if IsDone(s) then remaining - {k} else remaining;
      Traversing(table, state, keys - {k}, visited[k := table[k]], remaining', paths')
  {
    var job := table[k];
    var s := state(job);
    assert k !in visited;
    FoundPathsStep(visited, k, job, state);
    var paths' := if IsDone(s) && s.Finished? && s.result.Some? then paths + [PathFound(k, s.result)] else paths;
    var visited' := visited[k := job];
    assert visited' == (map x | x in table && x !in keys - {k} :: table[x]);
    forall i | 0 <= i < |paths'| ensures paths'[i].PathFound? && paths'[i].pathOwner in visited'
    {
      if i < |paths| {
        assert paths'[i] == paths[i];
      }
    }
    if IsDone(s) && s.Finished? && s.result.Some? {
      assert PathFound(k, s.result) !in paths;
      assert NoRepeats(paths');
    }
  }

  /** The owners of the found paths are figurines of the table. */
  lemma FoundPathsOwners(table: map<string, JobId>, state: JobId -> JobState, p: Value)
    requires p in FoundPaths(table, state)
    ensures p.PathFound? && p.pathOwner in table && p.waypoints.Some?
  {
  }

  /** As written, the removal inside the traversal of the key set makes the traversal
      throw a `ConcurrentModificationException` once it has finished, whenever a job
      was done: the collected paths are never sent. */
  function CheckOutcomeAsWritten(table: map<string, JobId>, state: JobId -> JobState): (o: Outcome)
    ensures o.Fail? <==> exists k :: k in table && IsDone(state(table[k]))
    ensures o.Fail? ==> o.failure.kind == ConcurrentModification
  {
    if exists k :: k in table && IsDone(state(table[k])) then Fail(Failure(ConcurrentModification, "")) else Pass
  }

  /** The smallest instance: one figurine whose job has found a path. As written the
      check step throws and announces nothing; the intended step announces the path. */
  lemma {:induction false} FoundPathIsLostAsWritten(j: JobId, loc: Location)
    ensures var state := (x: JobId) => if x == j then Finished(Some([loc])) else Running;
      var table := map["0" := j];
      && CheckOutcomeAsWritten(table, state).Fail?
      && FoundPaths(table, state) == {PathFound("0", Some([loc]))}
      && Remaining(table, state) == map[]
  {
    var state := (x: JobId) => if x == j then Finished(Some([loc])) else Running;
    var table := map["0" := j];
    assert "0" in table && IsDone(state(table["0"]));
    FoundPathsStep(map[], "0", j, state);
    assert map[]["0" := j] == table;
    assert FoundPaths(map[], state) == {};
  }

  /** Every pending job was submitted and not cancelled, only submitted jobs are
      cancelled, and no two figurines share a job. */
  ghost predicate JobsConsistent(pathfinders: map<string, JobId>, submitted: seq<Value>, cancelled: set<JobId>)
  {
    && (forall k :: k in pathfinders ==> pathfinders[k] < |submitted| && pathfinders[k] !in cancelled)
    && (forall c :: c in cancelled ==> c < |submitted|)
    && (forall k1, k2 :: k1 in pathfinders && k2 in pathfinders && k1 != k2 ==> pathfinders[k1] != pathfinders[k2])
  }

  /** Submitting a new job for a figurine and cancelling its previous one keeps the
      jobs consistent. */
  lemma {:induction false} SubmitKeepsJobsConsistent(pathfinders: map<string, JobId>, submitted: seq<Value>,
                                                     cancelled: set<JobId>, figId: string, task: Value)
    requires JobsConsistent(pathfinders, submitted, cancelled)
    ensures JobsConsistent(pathfinders[figId := |submitted|], submitted + [task],
      cancelled + (if figId in pathfinders then {pathfinders[figId]} else {}))
  {
    var pf := pathfinders[figId := |submitted|];
    forall k1, k2 | k1 in pf && k2 in pf && k1 != k2 ensures pf[k1] != pf[k2]
    {
      if k1 != figId && k2 != figId {
        assert pf[k1] == pathfinders[k1] && pf[k2] == pathfinders[k2];
      }
    }
  }

  /** The manager: its receiver id, the broker, the pending job of every figurine, the
      tasks handed to the executor so far and the jobs cancelled. */
  class CEManagement {
    const me: ReceiverId
    const broker: SyncBroker
    var pathfinders: map<string, JobId>
    var submitted: seq<Value>
    var cancelled: set<JobId>

    /** Every pending job was submitted and not cancelled, only submitted jobs are
        cancelled, and no two figurines share a job. */
    ghost predicate Valid()
      reads this
    {
      JobsConsistent(pathfinders, submitted, cancelled)
    }

    /** Registers the manager on its channel. */
    constructor (broker: SyncBroker, me: ReceiverId)
      requires broker.Valid()
      modifies broker.Repr
      ensures broker.Valid() && fresh(broker.Repr - old(broker.Repr))
      ensures broker.Subscribers == old(broker.Subscribers)[Names.CONCURRENT_MANAGEMENT :=
        AddOnce(if Names.CONCURRENT_MANAGEMENT in old(broker.Subscribers)
                then old(broker.Subscribers)[Names.CONCURRENT_MANAGEMENT] else [], me)]
      ensures this.broker == broker && this.me == me
      ensures pathfinders == map[] && submitted == [] && cancelled == {}
      ensures Valid()
    {
      this.broker := broker;
      this.me := me;
      pathfinders := map[];
      submitted := [];
      cancelled := {};
      new;
      broker.RegisterToChannel(me, Names.CONCURRENT_MANAGEMENT);
    }

    /** `request`: the request map is empty, so every request is answered empty. */
    function Request(fetch: FetchCommand): (r: Option<Value>)
      ensures r.None?
    {
      None
    }

    /** `receive`: a find-path message is handled, every other headline ignored. */
    method Receive(msg: Message, answer: Answers) returns (outcome: Outcome)
      requires broker.Valid() && Valid()
      modifies this
      ensures Valid()
      ensures msg.headline != Names.PLEASE_FIND_PATH ==>
        outcome == Pass && pathfinders == old(pathfinders) && submitted == old(submitted) && cancelled == old(cancelled)
      ensures msg.headline == Names.PLEASE_FIND_PATH ==> FindPathDone(msg.content, answer, outcome)
    {
      if msg.headline == Names.PLEASE_FIND_PATH {
        outcome := FindPath(msg.content, answer);
      } else {
        outcome := Pass;
      }
    }

    /** The effect of `findPath` on the table, between the state before and after. */
    twostate predicate FindPathDone(content: Value, answer: Answers, outcome: Outcome)
      reads this, broker
    {
      if content.Null? then
        && outcome.Fail? && outcome.failure.kind == NullPointer
        && pathfinders == old(pathfinders) && submitted == old(submitted) && cancelled == old(cancelled)
      else if !content.FindPathRequest? then
        && outcome == Fail(ContentFailure(content))
        && pathfinders == old(pathfinders) && submitted == old(submitted) && cancelled == old(cancelled)
      else
        var x := ExtractPathfinder(PathfinderReply(broker.Subscribers, content.fromFieldId, content.toFieldId, answer));
        if x.Err? then
          && outcome == Fail(x.failure)
          && pathfinders == old(pathfinders) && submitted == old(submitted) && cancelled == old(cancelled)
        else
          && outcome == Pass
          && submitted == old(submitted) + [x.value]
          && pathfinders == old(pathfinders)[content.requester := |old(submitted)|]
          && cancelled == old(cancelled) +
               (if content.requester in old(pathfinders) then {old(pathfinders)[content.requester]} else {})
    }

    /** `findPath`: checks the content, asks the board for a pathfinder, submits it, and
        makes the new job the figurine's pending job, cancelling the previous one. A
        null content passes the cast and fails on its first getter. */
    method FindPath(content: Value, answer: Answers) returns (outcome: Outcome)
      requires broker.Valid() && Valid()
      modifies this
      ensures Valid()
      ensures FindPathDone(content, answer, outcome)
    {
      if content.Null? {
        return Fail(Failure(NullPointer, ""));
      }
      if !content.FindPathRequest? {
        return Fail(ContentFailure(content));
      }
      var fromField, toField, figId := content.fromFieldId, content.toFieldId, content.requester;
      var list := broker.Request(Names.GET_BOARD_DATA, PathfinderFetch(fromField, toField), true, answer);
      assert list == PathfinderReply(broker.Subscribers, fromField, toField, answer);
      var x := ExtractPathfinder(list);
      if x.Err? {
        return Fail(x.failure);
      }
      Submit(figId, x.value);
      outcome := Pass;
    }

    /** The end of `findPath`: the task is submitted as a new job, the figurine's
        previous job, if any, is cancelled, and the new job becomes its pending one. */
    method Submit(figId: string, task: Value)
      requires Valid()
      modifies this
      ensures Valid()
      ensures submitted == old(submitted) + [task]
      ensures pathfinders == old(pathfinders)[figId := |old(submitted)|]
      ensures cancelled == old(cancelled) + (if figId in old(pathfinders) then {old(pathfinders)[figId]} else {})
    {
      SubmitKeepsJobsConsistent(pathfinders, submitted, cancelled, figId, task);
      var job := |submitted|;
      submitted := submitted + [task];
      if figId in pathfinders {
        cancelled := cancelled + {pathfinders[figId]};
      }
      pathfinders := pathfinders[figId := job];
    }

    /** The traversal of `checkAndCleanPathfinders`: every done job leaves the table,
        and every one that returned a path yields one path message content. */
    method CollectDone(state: JobId -> JobState) returns (paths: seq<Value>)
      modifies this
      ensures pathfinders == Remaining(old(pathfinders), state)
      ensures NoRepeats(paths)
      ensures forall p :: p in paths <==> p in FoundPaths(old(pathfinders), state)
      ensures submitted == old(submitted) && cancelled == old(cancelled)
    {
      ghost var table := pathfinders;
      var remaining := pathfinders;
      var keys := remaining.Keys;
      ghost var visited: map<string, JobId> := map[];
      paths := [];
      while keys != {}
        modifies {}
        invariant Traversing(table, state, keys, visited, remaining, paths)
        decreases keys
      {
        var k :| k in keys;
        TraversalStep(table, state, keys, visited, remaining, paths, k);
        var job := remaining[k];
        var s := state(job);
        if IsDone(s) {
          if s.Finished? && s.result.Some? {
            paths := paths + [PathFound(k, s.result)];
          }
          remaining := remaining - {k};
        }
        visited := visited[k := job];
        keys := keys - {k};
      }
      assert visited == table;
      pathfinders := remaining;
    }

    /** `checkAndCleanPathfinders` as intended: the done jobs leave the table and one
        FOUND_PATH message per found path goes to the figurine channel. */
    method CheckAndClean(state: JobId -> JobState) returns (outbox: seq<(string, Message)>)
      requires Valid()
      modifies this
      ensures Valid()
      ensures pathfinders == Remaining(old(pathfinders), state)
      ensures forall e :: e in outbox ==> e.0 == Names.GET_FIGURINE_DATA && e.1.headline == Names.FOUND_PATH
      ensures forall p :: p in FoundPaths(old(pathfinders), state) <==>
        (Names.GET_FIGURINE_DATA, Message(Names.FOUND_PATH, p)) in outbox
      ensures |outbox| == |FoundPaths(old(pathfinders), state)|
      ensures submitted == old(submitted) && cancelled == old(cancelled)
    {
      var paths := CollectDone(state);
      outbox := [];
      var i := 0;
      while i < |paths|
        invariant 0 <= i <= |paths|
        invariant |outbox| == i
        invariant forall m :: 0 <= m < i ==> outbox[m] == (Names.GET_FIGURINE_DATA, Message(Names.FOUND_PATH, paths[m]))
      {
        outbox := outbox + [(Names.GET_FIGURINE_DATA, Message(Names.FOUND_PATH, paths[i]))];
        i := i + 1;
      }
      forall p | (Names.GET_FIGURINE_DATA, Message(Names.FOUND_PATH, p)) in outbox
        ensures p in FoundPaths(old(pathfinders), state)
      {
        var m :| 0 <= m < |outbox| && outbox[m] == (Names.GET_FIGURINE_DATA, Message(Names.FOUND_PATH, p));
      }
      forall p | p in FoundPaths(old(pathfinders), state)
        ensures (Names.GET_FIGURINE_DATA, Message(Names.FOUND_PATH, p)) in outbox
      {
        var m :| 0 <= m < |paths| && paths[m] == p;
      }
      DistinctCount(paths, FoundPaths(old(pathfinders), state));
    }

    /** `checkAndCleanPathfinders` as written: the same removals, but the traversal
        throws once a job was removed, and nothing is sent. */
    method CheckAndCleanAsWritten(state: JobId -> JobState) returns (outcome: Outcome, outbox: seq<(string, Message)>)
      requires Valid()
      modifies this
      ensures Valid()
      ensures pathfinders == Remaining(old(pathfinders), state)
      ensures outcome == CheckOutcomeAsWritten(old(pathfinders), state)
      ensures outbox == []
      ensures submitted == old(submitted) && cancelled == old(cancelled)
    {
      var table := pathfinders;
      var paths := CollectDone(state);
      outbox := [];
      if pathfinders != table {
        outcome := Fail(Failure(ConcurrentModification, ""));
        assert exists k :: k in table && IsDone(state(table[k]));
      } else {
        outcome := Pass;
        forall k | k in table ensures !IsDone(state(table[k]))
        {
          assert k in pathfinders;
        }
      }
    }

    /** `update` as intended: the check step, then the broker's time step, whose
        exception is swallowed. The stream to the clients is not part of this model. */
    method Update(tpf: Float, state: JobId -> JobState) returns (outbox: seq<(string, Message)>, ticks: seq<Tick>)
      requires broker.Valid() && Valid()
      modifies this
      ensures Valid()
      ensures pathfinders == Remaining(old(pathfinders), state)
      ensures forall p :: p in FoundPaths(old(pathfinders), state) <==>
        (Names.GET_FIGURINE_DATA, Message(Names.FOUND_PATH, p)) in outbox
      ensures |outbox| == |FoundPaths(old(pathfinders), state)|
      ensures CheckTimeStep(tpf).Fail? ==> ticks == []
      ensures CheckTimeStep(tpf).Pass? ==> TickedReceivers(ticks) == broker.timing.receivers
    {
      outbox := CheckAndClean(state);
      var outcome;
      outcome, ticks := broker.Update(tpf);
    }

    /** `update` as written, on the broker as written: when the check step throws, the
        broker's time step is skipped and the exception leaves `update`; otherwise the
        broker's empty `update` runs, so no clock receiver gets the step either way. */
    method UpdateAsWritten(tpf: Float, state: JobId -> JobState)
      returns (outcome: Outcome, outbox: seq<(string, Message)>, ticks: seq<Tick>)
      requires Valid()
      modifies this
      ensures Valid()
      ensures pathfinders == Remaining(old(pathfinders), state)
      ensures outcome == CheckOutcomeAsWritten(old(pathfinders), state) && outbox == []
      ensures ticks == []
    {
      outcome, outbox := CheckAndCleanAsWritten(state);
      ticks := [];
      if outcome.Pass? {
        var stepped := Broker.UpdateAsWritten(tpf);
        ticks := stepped.1;
      }
    }
  }

  /** A sequence without repeats whose elements are exactly a set has the set's size. */
  lemma {:induction false} DistinctCount<T>(s: seq<T>, t: set<T>)
    requires NoRepeats(s) && forall x :: x in s <==> x in t
    ensures |s| == |t|
    decreases |s|
  {
    if s != [] {
      var last := s[|s| - 1];
      var init := s[..|s| - 1];
      assert forall i :: 0 <= i < |init| ==> init[i] == s[i];
      assert last !in init;
      forall x ensures x in init <==> x in t - {last}
      {
        if x in init {
          var i :| 0 <= i < |init| && init[i] == x;
          assert s[i] == x;
        }
        if x in s && x != last {
          var i :| 0 <= i < |s| && s[i] == x;
          assert i < |s| - 1 && init[i] == x;
        }
      }
      DistinctCount(init, t - {last});
    } else {
      assert forall x :: x !in t;
      assert t == {};
    }
  }
}
