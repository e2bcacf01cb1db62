/** Python values as they sit in pandas cells, and the DataFrame both as a value
    (`Table`, for code that returns a new frame) and as an object updated in place
    (`Frame`, for code that assigns columns and drops rows on the frame it is given). */
module Tables {
  import opened Wrappers
  import opened Seqs

  /** A Python value: what a CSV cell, a parsed JSON document or a derived column holds.
      `NaN` is any float NaN (`np.nan` included), `NaT` is pandas' missing
      timestamp, `Float` is a finite float. */
  datatype Value =
    | PyNone
    | NaN
    | NaT
    | Bool(b: bool)
    | Int(i: int)
    | Float(x: real)
    | Str(s: string)
    | List(items: seq<Value>)
    | Dict(entries: map<string, Value>)
    | Timestamp(t: int)

  const EmptyDict: Value := Dict(map[])

  /** A text parser such as `json.loads`, `orjson.loads` or `ast.literal_eval`:
      the value it produces, or `None` when it raises. */
  type Parser = string -> Option<Value>

  /** `pd.isnull(v)` for a scalar. */
  predicate IsNull(v: Value) {
    v.PyNone? || v.NaN? || v.NaT?
  }

  /** `d.get(key)`: the entry, or `None` when the key is absent; a value that is
      not a dict has no `get` and raises. */
  function Get(d: Value, key: string): (r: Result<Value>)
    ensures r.Err? <==> !d.Dict?
    ensures d.Dict? && key !in d.entries ==> r == Ok(PyNone)
    ensures d.Dict? && key in d.entries ==> r == Ok(d.entries[key])
  {
    if !d.Dict? then Err("AttributeError")
    else if key in d.entries then Ok(d.entries[key])
    else Ok(PyNone)
  }

  /** One row of a frame, keyed by column name. */
  type Row = map<string, Value>

  function ColumnSet(columns: seq<string>): set<string> {
    set c | c in columns
  }

  /** A frame as a value: its column labels in order and its rows in order. */
  datatype Table = Table(columns: seq<string>, rows: seq<Row>)

  /** Column labels are unique and every row has exactly one cell per column. */
  predicate WellFormed(t: Table) {
    && Distinct(t.columns)
    && forall i :: 0 <= i < |t.rows| ==> t.rows[i].Keys == ColumnSet(t.columns)
  }

  /** The column list after `df[name] = ...`: a new label goes at the end. */
  function WithColumn(columns: seq<string>, name: string): (r: seq<string>)
    ensures ColumnSet(r) == ColumnSet(columns) + {name}
    ensures Distinct(columns) ==> Distinct(r)
  {
    if name in columns then columns else columns + [name]
  }

  /** The rows after `df[target] = df[source].apply(f)`. */
  function ApplyToColumn(rows: seq<Row>, target: string, source: string, f: Value -> Value): (r: seq<Row>)
    requires forall i :: 0 <= i < |rows| ==> source in rows[i]
    ensures |r| == |rows|
    ensures forall i :: 0 <= i < |rows| ==> r[i] == rows[i][target := f(rows[i][source])]
  {
    seq(|rows|, i requires 0 <= i < |rows| => rows[i][target := f(rows[i][source])])
  }

  /** The frame after `df[target] = df[source].apply(f)`: the column is added at the
      end, or replaced in place when it already exists. */
  function Applied(t: Table, target: string, source: string, f: Value -> Value): (r: Table)
    requires WellFormed(t) && source in t.columns
    ensures WellFormed(r)
    ensures ColumnSet(r.columns) == ColumnSet(t.columns) + {target}
    ensures |r.rows| == |t.rows|
    ensures forall i :: 0 <= i < |t.rows| ==> r.rows[i] == t.rows[i][target := f(t.rows[i][source])]
  {
    Table(WithColumn(t.columns, target), ApplyToColumn(t.rows, target, source, f))
  }

  /** The frame after `drop_duplicates()`: the same columns, and each distinct row
      once, at the position of its first occurrence. */
  function Deduplicated(t: Table): (r: Table)
    requires WellFormed(t)
    ensures WellFormed(r) && r.columns == t.columns
    ensures forall row :: row in r.rows <==> row in t.rows
  {
    var kept := Dedup(t.rows);
    forall i | 0 <= i < |kept| ensures kept[i].Keys == ColumnSet(t.columns) {
      DedupMembership(t.rows, kept[i]);
    }
    forall row ensures row in kept <==> row in t.rows {
      DedupMembership(t.rows, row);
    }
    Table(t.columns, kept)
  }

  /** The cell function actually stored once `f` has succeeded everywhere. */
  function Defaulted(f: Value -> Result<Value>): Value -> Value {
    v => f(v).GetOr(PyNone)
  }

  /** The rows after `df[target] = df.apply(f, axis=1)`. */
  function ApplyRowwise(rows: seq<Row>, target: string, f: Row -> Value): (r: seq<Row>)
    ensures |r| == |rows|
    ensures forall i :: 0 <= i < |rows| ==> r[i] == rows[i][target := f(rows[i])]
  {
    seq(|rows|, i requires 0 <= i < |rows| => rows[i][target := f(rows[i])])
  }

  /** Selecting rows keeps a frame well formed. */
  lemma FilterWellFormed(t: Table, keep: Row -> bool)
    requires WellFormed(t)
    ensures WellFormed(Table(t.columns, Filter(t.rows, keep)))
  {
    var kept := Filter(t.rows, keep);
    forall i | 0 <= i < |kept| ensures kept[i].Keys == ColumnSet(t.columns) {
      FilterMembership(t.rows, keep, kept[i]);
    }
  }

  /** Whether `df[source].apply(f)` runs to the end without raising. */
  predicate ApplySucceeds(rows: seq<Row>, source: string, f: Value -> Result<Value>)
    requires forall i :: 0 <= i < |rows| ==> source in rows[i]
  {
    forall i :: 0 <= i < |rows| ==> f(rows[i][source]).Ok?
  }

  /** A pandas DataFrame that methods update in place. */
  class Frame {
    var columns: seq<string>
    var rows: seq<Row>

    ghost predicate Valid()
      reads this
    {
      WellFormed(Table(columns, rows))
    }

    function Snapshot(): Table
      reads this
    {
      Table(columns, rows)
    }

    constructor (t: Table)
      requires WellFormed(t)
      ensures Valid() && Snapshot() == t
    {
      columns, rows := t.columns, t.rows;
    }

    /** `df[target] = df[source].apply(f)`. */
    method Apply(target: string, source: string, f: Value -> Value)
      requires Valid() && source in columns
      modifies this
      ensures Valid()
      ensures Snapshot() == Applied(old(Snapshot()), target, source, f)
    {
      rows := ApplyToColumn(rows, target, source, f);
      columns := WithColumn(columns, target);
    }

    /** `df[target] = df[source].apply(f)` where `f` may raise: the assignment happens
        only once every row has been computed, so a raise leaves the frame as it was. */
    method TryApply(target: string, source: string, f: Value -> Result<Value>) returns (ok: bool)
      requires Valid() && source in columns
      modifies this
      ensures Valid()
      ensures ok == ApplySucceeds(old(rows), source, f)
      ensures ok ==> Snapshot() == Applied(old(Snapshot()), target, source, Defaulted(f))
      ensures !ok ==> Snapshot() == old(Snapshot())
    {
      ok := ApplySucceeds(rows, source, f);
      if ok {
        Apply(target, source, Defaulted(f));
      }
    }

    /** `df[target] = df.apply(f, axis=1)`. */
    method ApplyRows(target: string, f: Row -> Value)
      requires Valid()
      modifies this
      ensures Valid()
      ensures columns == WithColumn(old(columns), target)
      ensures rows == ApplyRowwise(old(rows), target, f)
    {
      rows := ApplyRowwise(rows, target, f);
      columns := WithColumn(columns, target);
    }

    /** `df.drop_duplicates(inplace=True)`: rows equal in every column collapse to the first. */
    method DropDuplicates()
      requires Valid()
      modifies this
      ensures Valid()
      ensures Snapshot() == Deduplicated(old(Snapshot()))
    {
      var t := Deduplicated(Snapshot());
      rows := t.rows;
    }
  }
}
