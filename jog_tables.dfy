/** The per-joint unit velocity tables that both `JointJogKeyProcessor` and
    `JointJogMessageProvider` build in their constructors: row `i` of the
    increment table is `+1` at joint `i` and `0` elsewhere, row `i` of the
    decrement table is `-1` there. */
module JogTables {

  /** A length-`n` velocity vector that moves joint `i` alone, with velocity `v`. */
  function UnitRow(n: nat, i: nat, v: real): (row: seq<real>)
    requires i < n
    ensures |row| == n && row[i] == v
    ensures forall j | 0 <= j < n && j != i :: row[j] == 0.0
  {
    seq(n, j => if j == i then v else 0.0)
  }

  /** The table of unit rows for all `n` joints, with velocity `v`. */
  ghost predicate IsUnitTable(rows: seq<seq<real>>, n: nat, v: real) {
    |rows| == n && forall i | 0 <= i < n :: rows[i] == UnitRow(n, i, v)
  }

  /** The constructor loop: for every joint a zero-filled row with `1` (or `-1`)
      written at the joint's own index. */
  method BuildJogTables(n: nat) returns (inc: seq<seq<real>>, dec: seq<seq<real>>)
    ensures |inc| == n && |dec| == n
    ensures forall i | 0 <= i < n ::
      |inc[i]| == n && inc[i][i] == 1.0 && (forall j | 0 <= j < n && j != i :: inc[i][j] == 0.0)
    ensures forall i | 0 <= i < n ::
      |dec[i]| == n && dec[i][i] == -1.0 && (forall j | 0 <= j < n && j != i :: dec[i][j] == 0.0)
  {
    inc, dec := [], [];
    for i := 0 to n
      invariant |inc| == i && |dec| == i
      invariant forall k | 0 <= k < i :: inc[k] == UnitRow(n, k, 1.0)
      invariant forall k | 0 <= k < i :: dec[k] == UnitRow(n, k, -1.0)
    {
      var incRow := new real[n](_ => 0.0);
      incRow[i] := 1.0;
      var decRow := new real[n](_ => 0.0);
      decRow[i] := -1.0;
      assert incRow[..] == UnitRow(n, i, 1.0);
      assert decRow[..] == UnitRow(n, i, -1.0);
      inc := inc + [incRow[..]];
      dec := dec + [decRow[..]];
    }
  }

  lemma UnitTableRows(rows: seq<seq<real>>, n: nat, v: real)
    requires |rows| == n
    requires forall i | 0 <= i < n ::
      |rows[i]| == n && rows[i][i] == v && (forall j | 0 <= j < n && j != i :: rows[i][j] == 0.0)
    ensures IsUnitTable(rows, n, v)
  {
    forall i | 0 <= i < n ensures rows[i] == UnitRow(n, i, v) {
      assert rows[i] == UnitRow(n, i, v);
    }
  }
}
