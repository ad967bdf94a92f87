/**
 * The dictionary comprehensions that preload the caches: `carregar_mapeamento`
 * builds `{descricao: id for id, descricao in rows}` and the customer preload
 * builds `{cpf: cid for cpf, cid in rows}`. A later duplicate key overwrites
 * the value of an earlier one.
 */
module Mapping {

  /** `{k: v for k, v in kvs}`, folded in row order. */
  function FromPairs<K(==), V>(kvs: seq<(K, V)>): (m: map<K, V>)
    ensures m.Keys == set i | 0 <= i < |kvs| :: kvs[i].0
    decreases |kvs|
  {
    if kvs == [] then map[]
    else
      var init := kvs[..|kvs| - 1];
      var m := FromPairs(init);
      assert forall i :: 0 <= i < |init| ==> init[i] == kvs[i];
      m[kvs[|kvs| - 1].0 := kvs[|kvs| - 1].1]
  }

  /** The last row that carries a key decides its value. */
  lemma {:induction false} LastWins<K, V>(kvs: seq<(K, V)>, i: nat)
    requires i < |kvs|
    requires forall j :: i < j < |kvs| ==> kvs[j].0 != kvs[i].0
    ensures kvs[i].0 in FromPairs(kvs) && FromPairs(kvs)[kvs[i].0] == kvs[i].1
    decreases |kvs|
  {
    if i < |kvs| - 1 {
      var init := kvs[..|kvs| - 1];
      LastWins(init, i);
    }
  }

  /** `carregar_mapeamento`: rows of (id, description) become description -> id. */
  function LoadMapping(rows: seq<(int, string)>): map<string, int>
  {
    FromPairs(seq(|rows|, i requires 0 <= i < |rows| => (rows[i].1, rows[i].0)))
  }

  /**
   * The loaded map holds exactly the descriptions of the rows, and each maps to
   * the id of the last row that carries it.
   */
  lemma LoadMappingSpec(rows: seq<(int, string)>, i: nat)
    requires i < |rows|
    requires forall j :: i < j < |rows| ==> rows[j].1 != rows[i].1
    ensures LoadMapping(rows).Keys == set j | 0 <= j < |rows| :: rows[j].1
    ensures LoadMapping(rows)[rows[i].1] == rows[i].0
  {
    var kvs := seq(|rows|, k requires 0 <= k < |rows| => (rows[k].1, rows[k].0));
    LastWins(kvs, i);
    var descs := set j | 0 <= j < |rows| :: rows[j].1;
    assert (set j | 0 <= j < |kvs| :: kvs[j].0) == descs by {
      forall d | d in descs ensures d in (set j | 0 <= j < |kvs| :: kvs[j].0) {
        var j :| 0 <= j < |rows| && rows[j].1 == d;
        assert kvs[j].0 == d;
      }
    }
  }

  /** Every entry of the folded map comes from some row. */
  lemma {:induction false} FromPairsWitness<K, V>(kvs: seq<(K, V)>, k: K)
    requires k in FromPairs(kvs)
    ensures exists i :: 0 <= i < |kvs| && kvs[i] == (k, FromPairs(kvs)[k])
    decreases |kvs|
  {
    var n := |kvs| - 1;
    if kvs[n].0 != k {
      var init := kvs[..n];
      FromPairsWitness(init, k);
      var i :| 0 <= i < |init| && init[i] == (k, FromPairs(init)[k]);
      assert kvs[i] == init[i];
    }
  }
}
