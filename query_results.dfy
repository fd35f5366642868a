/**
 * DmQueryResults: the batch of models a search returned and an upper bound
 * on the number of matches. Both properties are construct-only, so the
 * object cannot change after it is created.
 */
module QueryResults {
  import opened Wrappers
  import opened Objects

  const MinInt: int := -0x8000_0000
  const MaxInt: int := 0x7fff_ffff

  class Results {
    /** The models, in the order given at construction (a copy of the caller's list). */
    const models: seq<Model>
    /** A gint: any value of the property's range, negative ones included. */
    const upperBound: int

    /**
     * g_object_new with "models" and, optionally, "upper-bound"; an
     * absent upper bound takes the property default 0.
     */
    constructor(models: seq<Model>, upperBound: Option<int>)
      requires upperBound.Some? ==> MinInt <= upperBound.value <= MaxInt
      ensures this.models == models
      ensures upperBound.Some? ==> this.upperBound == upperBound.value
      ensures upperBound.None? ==> this.upperBound == 0
    {
      this.models := models;
      this.upperBound := if upperBound.Some? then upperBound.value else 0;
    }

    /** dm_query_results_get_models */
    function GetModels(): seq<Model> {
      models
    }

    /** dm_query_results_get_upper_bound */
    function GetUpperBound(): int {
      upperBound
    }
  }

  /** dm_query_results_new_for_testing: the given models and an upper bound of 42. */
  method NewForTesting(models: seq<Model>) returns (r: Results)
    ensures fresh(r) && r.GetModels() == models && r.GetUpperBound() == 42
  {
    r := new Results(models, Some(42));
  }
}
