/** The highest version number among the rows of one owner. Rows are given by owner and number. */
module VersionNumbers {

  type Numbers<O> = map<nat, (O, nat)>

  /** `n` is the highest number of the owner, or 0 if it has none. */
  ghost predicate IsLatest<O>(rows: Numbers<O>, owner: O, n: nat) {
    && (forall v :: v in rows && rows[v].0 == owner ==> rows[v].1 <= n)
    && (n == 0 || exists v :: v in rows && rows[v] == (owner, n))
  }

  ghost function Latest<O>(rows: Numbers<O>, owner: O): (n: nat)
    ensures IsLatest(rows, owner, n)
    decreases |rows|
  {
    if rows == map[] then 0
    else
      var k :| k in rows;
      var n := Latest(rows - {k}, owner);
      assert IsLatest(rows - {k}, owner, n);
      assert forall v :: v in rows && v != k ==> v in rows - {k} && (rows - {k})[v] == rows[v];
      if rows[k].0 == owner && rows[k].1 > n then rows[k].1 else n
  }

  lemma {:induction false} LatestIsUnique<O>(rows: Numbers<O>, owner: O, n: nat)
    requires IsLatest(rows, owner, n)
    ensures Latest(rows, owner) == n
  {
  }

  /** The query for the row with the highest number. */
  method FindLatest<O(==)>(rows: Numbers<O>, owner: O) returns (n: nat)
    ensures n == Latest(rows, owner) && IsLatest(rows, owner, n)
  {
    n := 0;
    var rest := rows.Keys;
    while rest != {}
      invariant rest <= rows.Keys
      invariant forall v :: v in rows && v !in rest && rows[v].0 == owner ==> rows[v].1 <= n
      invariant n == 0 || exists v :: v in rows && rows[v] == (owner, n)
      decreases |rest|
    {
      var v :| v in rest;
      if rows[v].0 == owner && rows[v].1 > n {
        n := rows[v].1;
      }
      rest := rest - {v};
    }
    LatestIsUnique(rows, owner, n);
  }
}
