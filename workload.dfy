/**
 * The part of the loaded password database that the autotuner reads: the salt
 * list of the database it tunes against and that database's highest first cost.
 */
module Workload {
  import opened Wrappers

  /** One loaded salt: `id` stands for the opaque salt pointer handed to the
      format, `cost` for its first tunable cost (`cost[0]`). */
  datatype Salt = Salt(id: int, cost: int)

  /** The fields of a `db_main` the salt scan uses: the salt list in list order
      and `max_cost[0]`. */
  datatype SaltDb = SaltDb(salts: seq<Salt>, maxCost: int)

  /** The database given to the autotuner. `realDb` is the real database behind
      a test database, when there is one. */
  datatype Db = Db(own: SaltDb, realDb: Option<SaltDb>)

  /** The database the scan walks: the real one when present, else the one given. */
  function TuneDb(db: Db): SaltDb
  {
    if db.realDb.Some? then db.realDb.value else db.own
  }

  /** The cost cap of the scan: the smaller of the database's highest cost and
      the configured loader cap `options.loader.max_cost[0]`. */
  function TuneCost(d: SaltDb, loaderMaxCost: int): (c: int)
    ensures c <= d.maxCost && c <= loaderMaxCost
    ensures c == d.maxCost || c == loaderMaxCost
  {
    if d.maxCost < loaderMaxCost then d.maxCost else loaderMaxCost
  }

  /** The index the scan stops at: the first salt, in list order, whose cost
      reaches the cap, or the last salt when none does. */
  function ScanIndex(salts: seq<Salt>, tuneCost: int): (k: nat)
    requires |salts| > 0
    ensures k < |salts|
    ensures forall j :: 0 <= j < k ==> salts[j].cost < tuneCost
    ensures k == |salts| - 1 || salts[k].cost >= tuneCost
    decreases |salts|
  {
    if |salts| == 1 || salts[0].cost >= tuneCost then 0
    else 1 + ScanIndex(salts[1..], tuneCost)
  }

  /** The three facts ScanIndex ensures pin the index down. */
  lemma ScanIndexUnique(salts: seq<Salt>, tuneCost: int, k: nat)
    requires k < |salts|
    requires forall j :: 0 <= j < k ==> salts[j].cost < tuneCost
    requires k == |salts| - 1 || salts[k].cost >= tuneCost
    ensures k == ScanIndex(salts, tuneCost)
  {
  }

  /** The salt every trial of the search is run against. */
  function TuneSalt(db: Db, loaderMaxCost: int): Salt
    requires |TuneDb(db).salts| > 0
  {
    var d := TuneDb(db);
    d.salts[ScanIndex(d.salts, TuneCost(d, loaderMaxCost))]
  }

  /** The pointer walk over the salt list: advance while there is a next salt
      and the current one is cheaper than the cap. */
  method FindTuneSalt(salts: seq<Salt>, tuneCost: int) returns (k: nat)
    requires |salts| > 0
    ensures k < |salts|
    ensures forall j :: 0 <= j < k ==> salts[j].cost < tuneCost
    ensures k == |salts| - 1 || salts[k].cost >= tuneCost
    ensures k == ScanIndex(salts, tuneCost)
  {
    k := 0;
    while k + 1 < |salts| && salts[k].cost < tuneCost
      invariant k < |salts|
      invariant forall j :: 0 <= j < k ==> salts[j].cost < tuneCost
    {
      k := k + 1;
    }
    ScanIndexUnique(salts, tuneCost, k);
  }
}
