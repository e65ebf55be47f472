/**
 * `run_simulation_with_faults(users, posts, comments, servers)`
 * (Services/ServerWorkSimulationWithFaultsServices/ServerWorkSimulationWithFaultsService.py):
 * one fault-injection step. A fault (a frame of posts) is picked, a server
 * index is drawn from 0..9, and the integer value of the fault's first `Id`
 * is appended to that server's ledger.
 *
 * `pick_a_server_fault(posts)` is not part of this model: the picked fault is
 * a parameter. So is the drawn index, since the random generator is seeded
 * from the clock.
 */
module FaultSimulation {
  import opened Values
  import opened Frames
  import opened ServerModel
  import PostsPreprocess

  /** `randint(0, 9)` returns a number in this closed range. */
  const MaxServerIndex: nat := 9

  /** `int(fault["Id"].iloc[0])`, with the exceptions that each step can raise. */
  function FaultId(fault: Frame): (r: Result<int>)
    ensures "Id" !in fault.columns ==> r == Err(KeyError("Id"))
    ensures "Id" in fault.columns && fault.rows == [] ==> r == Err(IndexError)
    ensures "Id" in fault.columns && fault.rows != [] ==> r == ToInt(Get(fault.rows[0], "Id"))
    ensures r.Ok? ==> |fault.rows| > 0 && ToInt(Get(fault.rows[0], "Id")) == Ok(r.value)
  {
    if "Id" !in fault.columns then Err(KeyError("Id"))
    else if fault.rows == [] then Err(IndexError)
    else ToInt(Get(fault.rows[0], "Id"))
  }

  /**
   * What the step raises, if anything. `servers[i]` is evaluated before the
   * argument of `dodaj_otkaz`, so an index out of range wins over a bad fault.
   */
  function StepOutcome(fault: Frame, index: nat, count: nat): (r: Outcome)
    ensures index >= count ==> r == Fail(IndexError)
    ensures r == Pass <==> index < count && FaultId(fault).Ok?
  {
    if index >= count then Fail(IndexError)
    else match FaultId(fault)
      case Err(e) => Fail(e)
      case Ok(_) => Pass
  }

  /** An `Id` stored as an int, or as its decimal text, is read back as that int. */
  lemma FaultIdReadsFirstId(columns: seq<string>, first: Row, rest: seq<Row>, id: int)
    requires "Id" in columns
    requires Get(first, "Id") == Int(id) || Get(first, "Id") == Str(IntToString(id))
    ensures FaultId(Frame(columns, [first] + rest)) == Ok(id)
  {
    ToIntRoundTrip(id);
  }

  /** Every draw of the index is safe exactly when there are at least ten servers and the fault has an int Id. */
  lemma EveryDrawSafe(fault: Frame, count: nat)
    ensures (forall index :: 0 <= index <= MaxServerIndex ==> StepOutcome(fault, index, count) == Pass)
        <==> count > MaxServerIndex && FaultId(fault).Ok?
  {
    if forall index :: 0 <= index <= MaxServerIndex ==> StepOutcome(fault, index, count) == Pass {
      assert StepOutcome(fault, MaxServerIndex, count) == Pass;
    }
  }

  /**
   * A fault with the columns of preprocessed posts (that frame itself, or any
   * rows taken from it) can never be injected: `preprocess_posts_data` drops
   * the `Id` column that this step reads. With the index in range the step
   * raises KeyError('Id'); past the list it raises IndexError first.
   */
  lemma PreprocessedPostsHaveNoFaultId(posts: Frame, reputable: seq<Value>, fault: Frame, index: nat, count: nat)
    requires PostsPreprocess.PreprocessPosts(posts, reputable).Ok?
    requires fault.columns == PostsPreprocess.PreprocessPosts(posts, reputable).value.columns
    ensures FaultId(fault) == Err(KeyError("Id"))
    ensures StepOutcome(fault, index, count) != Pass
    ensures index < count ==> StepOutcome(fault, index, count) == Fail(KeyError("Id"))
  {
  }

  /** The ledgers of a fleet, in list order. */
  function Ledgers(servers: seq<Server>): (ls: seq<seq<int>>)
    reads servers
    ensures |ls| == |servers|
    ensures forall k :: 0 <= k < |servers| ==> ls[k] == servers[k].faults
  {
    seq(|servers|, k reads servers requires 0 <= k < |servers| => servers[k].faults)
  }

  /** The number of ledger entries across the fleet. */
  function TotalFaults(ledgers: seq<seq<int>>): nat
    decreases |ledgers|
  {
    if ledgers == [] then 0 else |ledgers[0]| + TotalFaults(ledgers[1..])
  }

  /** Appending one entry to one ledger raises the fleet total by exactly one. */
  lemma {:induction false} TotalAfterAppend(ledgers: seq<seq<int>>, k: nat, x: int)
    requires k < |ledgers|
    ensures TotalFaults(ledgers[k := ledgers[k] + [x]]) == TotalFaults(ledgers) + 1
    decreases |ledgers|
  {
    var after := ledgers[k := ledgers[k] + [x]];
    if k == 0 {
      assert after[1..] == ledgers[1..];
    } else {
      TotalAfterAppend(ledgers[1..], k - 1, x);
      assert after[1..] == ledgers[1..][k - 1 := ledgers[k] + [x]];
    }
  }

  /** No server object appears twice in the list. */
  predicate DistinctObjects(servers: seq<Server>) {
    forall i, j :: 0 <= i < j < |servers| ==> servers[i] != servers[j]
  }

  /**
   * One step. The list itself, its order, `users`, `posts` and `comments`
   * are not changed; only the chosen server's ledger can be. On success that
   * ledger grows by the fault's id; when the same object sits elsewhere in
   * the list, those positions see the same growth, otherwise every other
   * ledger is unchanged and the fleet total grows by one.
   */
  method RunSimulationWithFaults(users: Frame, posts: Frame, comments: Frame,
                                 fault: Frame, index: int, servers: seq<Server>)
    returns (r: Outcome)
    requires 0 <= index <= MaxServerIndex
    modifies if index < |servers| then {servers[index]} else {}
    ensures r == StepOutcome(fault, index, |servers|)
    ensures r == Pass ==> servers[index].faults == old(servers[index].faults) + [FaultId(fault).value]
    ensures r != Pass ==> forall k :: 0 <= k < |servers| ==> servers[k].faults == old(servers[k].faults)
    ensures index < |servers| ==>
      forall k :: 0 <= k < |servers| && servers[k] != servers[index] ==> servers[k].faults == old(servers[k].faults)
    ensures forall k :: 0 <= k < |servers| ==> servers[k].id == old(servers[k].id) && servers[k].name == old(servers[k].name)
    ensures r == Pass && DistinctObjects(servers) ==>
      Ledgers(servers) == old(Ledgers(servers))[index := old(servers[index].faults) + [FaultId(fault).value]]
    ensures r == Pass && DistinctObjects(servers) ==> TotalFaults(Ledgers(servers)) == old(TotalFaults(Ledgers(servers))) + 1
  {
    if index >= |servers| {
      return Fail(IndexError);
    }
    var server := servers[index];
    var id := FaultId(fault);
    if id.Err? {
      return Fail(id.error);
    }
    ghost var before := Ledgers(servers);
    r := server.AddFault(Int(id.value));
    if DistinctObjects(servers) {
      assert Ledgers(servers) == before[index := before[index] + [id.value]];
      TotalAfterAppend(before, index, id.value);
    }
  }
}
