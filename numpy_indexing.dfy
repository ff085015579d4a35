/** The two numpy idioms the experiment variants mutate with: fancy-index assignment
    `column[idx] = vals` and the buffered in-place add `column[idx] += deltas`. An index may
    occur more than once, and numpy does not say which of the writes to a repeated index
    takes effect. The model chooses index order, so the last write wins; FancyAssignSnoc,
    FancyAssignLast and FancyAddRepeated depend on that choice, while FancyAssignUntouched,
    FancyAssignFrom and FancyAddAt state only what every order gives. The buffered add reads
    every entry before writing any, so a repeated index receives one increment only. */
module NumpyIndexing {

  predicate IndicesBelow(idx: seq<nat>, n: nat) {
    forall j :: 0 <= j < |idx| ==> idx[j] < n
  }

  /** `column[idx] = vals`. */
  function FancyAssign<T>(column: seq<T>, idx: seq<nat>, vals: seq<T>): (r: seq<T>)
    requires |idx| == |vals| && IndicesBelow(idx, |column|)
    ensures |r| == |column|
  {
    if idx == [] then column
    else
      var n := |idx| - 1;
      FancyAssign(column, idx[..n], vals[..n])[idx[n] := vals[n]]
  }

  /** One more write extends the assignment, in the index order the model chooses. */
  lemma FancyAssignSnoc<T>(column: seq<T>, idx: seq<nat>, vals: seq<T>, j: nat)
    requires |idx| == |vals| && IndicesBelow(idx, |column|) && j < |idx|
    ensures IndicesBelow(idx[..j], |column|) && IndicesBelow(idx[..j + 1], |column|)
    ensures FancyAssign(column, idx[..j + 1], vals[..j + 1]) ==
            FancyAssign(column, idx[..j], vals[..j])[idx[j] := vals[j]]
  {
    assert idx[..j + 1][..j] == idx[..j];
    assert vals[..j + 1][..j] == vals[..j];
  }

  /** A position no index names keeps its entry. */
  lemma {:induction false} FancyAssignUntouched<T>(column: seq<T>, idx: seq<nat>, vals: seq<T>, i: nat)
    requires |idx| == |vals| && IndicesBelow(idx, |column|) && i < |column|
    requires forall j :: 0 <= j < |idx| ==> idx[j] != i
    ensures FancyAssign(column, idx, vals)[i] == column[i]
  {
    if idx != [] {
      var n := |idx| - 1;
      assert forall j :: 0 <= j < n ==> idx[..n][j] == idx[j];
      FancyAssignUntouched(column, idx[..n], vals[..n], i);
    }
  }

  /** A named position holds the value of the last write to it, in the index order the
      model chooses. */
  lemma {:induction false} FancyAssignLast<T>(column: seq<T>, idx: seq<nat>, vals: seq<T>, j: nat)
    requires |idx| == |vals| && IndicesBelow(idx, |column|) && j < |idx|
    requires forall l :: j < l < |idx| ==> idx[l] != idx[j]
    ensures FancyAssign(column, idx, vals)[idx[j]] == vals[j]
  {
    var n := |idx| - 1;
    if j < n {
      assert idx[..n][j] == idx[j] && vals[..n][j] == vals[j];
      assert forall l :: j < l < n ==> idx[..n][l] == idx[l];
      FancyAssignLast(column, idx[..n], vals[..n], j);
    }
  }

  /** Every entry afterwards is either the old entry or one of the values written there. */
  lemma {:induction false} FancyAssignFrom<T>(column: seq<T>, idx: seq<nat>, vals: seq<T>, i: nat)
    requires |idx| == |vals| && IndicesBelow(idx, |column|) && i < |column|
    ensures var r := FancyAssign(column, idx, vals);
      r[i] == column[i] || exists j :: 0 <= j < |idx| && idx[j] == i && r[i] == vals[j]
  {
    if idx != [] {
      var n := |idx| - 1;
      FancyAssignFrom(column, idx[..n], vals[..n], i);
      var prev := FancyAssign(column, idx[..n], vals[..n]);
      if idx[n] != i && prev[i] != column[i] {
        var j :| 0 <= j < n && idx[..n][j] == i && prev[i] == vals[..n][j];
        assert idx[j] == i && prev[i] == vals[j];
      }
    }
  }

  /** `column[idx] += deltas`: the entries named by `idx` are gathered from the old column,
      incremented and written back, in the index order the model chooses. */
  function FancyAdd(column: seq<real>, idx: seq<nat>, deltas: seq<real>): (r: seq<real>)
    requires |idx| == |deltas| && IndicesBelow(idx, |column|)
    ensures |r| == |column|
  {
    FancyAssign(column, idx, Gathered(column, idx, deltas))
  }

  /** `column[idx] + deltas`. */
  function Gathered(column: seq<real>, idx: seq<nat>, deltas: seq<real>): (g: seq<real>)
    requires |idx| == |deltas| && IndicesBelow(idx, |column|)
    ensures |g| == |idx| && forall j :: 0 <= j < |idx| ==> g[j] == column[idx[j]] + deltas[j]
  {
    seq(|idx|, j requires 0 <= j < |idx| => column[idx[j]] + deltas[j])
  }

  /** After the buffered add each entry has moved by at most one of the increments meant for
      it, never by their sum. */
  lemma FancyAddAt(column: seq<real>, idx: seq<nat>, deltas: seq<real>, i: nat)
    requires |idx| == |deltas| && IndicesBelow(idx, |column|) && i < |column|
    ensures var r := FancyAdd(column, idx, deltas);
      r[i] == column[i] || exists j :: 0 <= j < |idx| && idx[j] == i && r[i] == column[i] + deltas[j]
  {
    var g := Gathered(column, idx, deltas);
    FancyAssignFrom(column, idx, g, i);
    var r := FancyAdd(column, idx, deltas);
    if r[i] != column[i] {
      var j :| 0 <= j < |idx| && idx[j] == i && r[i] == g[j];
      assert r[i] == column[i] + deltas[j];
    }
  }

  /** Two increments aimed at one entry leave it moved by one of them only: by the later
      one, in the index order the model chooses. */
  lemma FancyAddRepeated(column: seq<real>, i: nat, d1: real, d2: real)
    requires i < |column|
    ensures FancyAdd(column, [i, i], [d1, d2])[i] == column[i] + d2
  {
    FancyAssignLast(column, [i, i], Gathered(column, [i, i], [d1, d2]), 1);
  }
}
