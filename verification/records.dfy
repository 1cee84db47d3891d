/** Dataset rows, Python's missing-key failure, and the row-by-row map a dataset applies. */
module Records {

  /** Why turning a row into a training example can fail: the code indexes a
      column the row does not have (a KeyError in the original scripts). */
  datatype Error = MissingField(name: string)

  /** The outcome of a step that may raise a missing-key error. */
  datatype Result<+T> = Ok(value: T) | Err(error: Error) {
    predicate IsFailure() { Err? }

    function PropagateFailure<U>(): Result<U>
      requires Err?
    {
      Err(error)
    }

    function Extract(): T
      requires Ok?
    {
      value
    }
  }

  /** One dataset row: column name to string value. */
  type Record = map<string, string>

  /** `m[key]`: the value, or a missing-key error naming the key. */
  function Lookup<V>(m: map<string, V>, key: string): (r: Result<V>)
    ensures r.Ok? <==> key in m
    ensures r.Ok? ==> r.value == m[key]
    ensures r.Err? ==> r.error == MissingField(key)
  {
    if key in m then Ok(m[key]) else Err(MissingField(key))
  }

  /** How a dataset folds the dictionary a per-row function returns into the
      row: returned columns are added, or overwrite columns of the same name. */
  function UpdateRow(row: Record, returned: Record): (r: Record)
    ensures r.Keys == row.Keys + returned.Keys
    ensures forall k :: k in returned ==> r[k] == returned[k]
    ensures forall k :: k in row && k !in returned ==> r[k] == row[k]
  {
    row + returned
  }

  /** A dataset map: the per-row function runs on every row, in order; the
      first row on which it raises aborts the whole map with that error. */
  function MapRows(f: Record -> Result<Record>, rows: seq<Record>): (r: Result<seq<Record>>)
    ensures r.Ok? <==> forall i :: 0 <= i < |rows| ==> f(rows[i]).Ok?
    ensures r.Ok? ==> |r.value| == |rows|
    ensures r.Ok? ==> forall i :: 0 <= i < |rows| ==> r.value[i] == f(rows[i]).value
    ensures r.Err? ==> exists k :: 0 <= k < |rows| && FirstFailure(f, rows, k) && r.error == f(rows[k]).error
    decreases |rows|
  {
    if rows == [] then Ok([])
    else
      var head :- f(rows[0]);
      var tail :- MapRows(f, rows[1..]);
      assert forall i :: 1 <= i < |rows| ==> rows[i] == rows[1..][i - 1];
      assert forall k :: 0 <= k < |rows| - 1 && FirstFailure(f, rows[1..], k) ==> FirstFailure(f, rows, k + 1);
      Ok([head] + tail)
  }

  /** Row k is the first row on which f raises. */
  ghost predicate FirstFailure(f: Record -> Result<Record>, rows: seq<Record>, k: int)
  {
    0 <= k < |rows| && f(rows[k]).Err? && forall j :: 0 <= j < k ==> f(rows[j]).Ok?
  }

  /** `rows[name]` for a column every row has: its values, in row order. */
  function Column(rows: seq<Record>, name: string): (values: seq<string>)
    requires forall i :: 0 <= i < |rows| ==> name in rows[i]
    ensures |values| == |rows|
    ensures forall i :: 0 <= i < |rows| ==> values[i] == rows[i][name]
  {
    seq(|rows|, i requires 0 <= i < |rows| => rows[i][name])
  }
}
