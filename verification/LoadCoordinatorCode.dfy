/** How a load is split among workers (src/load/shared/load-coordinator.ts:48-59). */
module LoadCoordinatorCode {
  import opened Http1Engine
  import opened EngineScheduler

  function TotalConnections(workers: seq<Options>): nat {
    if workers == [] then 0 else TotalConnections(workers[..|workers| - 1]) + workers[|workers| - 1].connections
  }

  /** One worker's share of the connections. */
  function Share(base: nat, extra: nat, index: nat): nat {
    base + if index < extra then 1 else 0
  }

  function Shares(base: nat, extra: nat, n: nat): nat {
    if n == 0 then 0 else Shares(base, extra, n - 1) + Share(base, extra, n - 1)
  }

  lemma {:induction false} SharesSum(base: nat, extra: nat, n: nat)
    ensures Shares(base, extra, n) == n * base + if n < extra then n else extra
  {
    if n > 0 {
      SharesSum(base, extra, n - 1);
      assert n * base == (n - 1) * base + base;
    }
  }

  lemma Division(connections: nat, workers: nat)
    requires 0 < workers <= connections
    ensures connections == workers * (connections / workers) + connections % workers
    ensures connections / workers > 0 && connections % workers < workers
  {
  }

  /**
    * The workers' options: the connections are shared out evenly and completely, nobody gets none, and the
    * workers form one load, so that they partition its arrivals.
    */
  method StartWorkers(base: Options, connections: nat, workers: nat) returns (data: seq<Options>)
    requires OptionsOk(base) && 0 < workers <= connections
    ensures |data| == workers && OneLoad(data)
    ensures TotalConnections(data) == connections
    ensures forall i :: 0 <= i < workers ==>
              data[i].connections == connections / workers + if i < connections % workers then 1 else 0
    ensures forall i :: 0 <= i < workers ==>
              data[i] == base.(connections := data[i].connections, offset := i, stride := workers)
  {
    var baseConnections := connections / workers;
    var extraConnections := connections % workers;
    Division(connections, workers);
    SharesSum(baseConnections, extraConnections, workers);
    data := [];
    for index := 0 to workers
      invariant |data| == index
      invariant forall i :: 0 <= i < index ==>
                  data[i] == base.(connections := Share(baseConnections, extraConnections, i), offset := i,
                                   stride := workers)
      invariant TotalConnections(data) == Shares(baseConnections, extraConnections, index)
    {
      var share := Share(baseConnections, extraConnections, index);
      var next := base.(connections := share, offset := index, stride := workers);
      assert (data + [next])[..index] == data;
      data := data + [next];
    }
  }
}
