/** Extracting dict entries into columns, `df[target] = df[source].apply(lambda x:
    x.get(key))`, one statement after the other, as `clean_data` in
    src/data_cleanup.py does: a statement raises `AttributeError` when a source cell
    is not a dict, and the statements after it do not run. */
module ColumnExtraction {
  import opened Wrappers
  import opened Tables

  /** `df[target] = df[source].apply(lambda x: x.get(key))`. */
  datatype Extraction = Extraction(target: string, source: string, key: string)

  /** `lambda x: x.get(key)`. */
  function Lookup(key: string): Value -> Result<Value> {
    d => Get(d, key)
  }

  /** One extraction on a frame: the new frame, or the `AttributeError` a cell
      that is not a dict raises. */
  function ExtractStep(t: Table, e: Extraction): (r: Result<Table>)
    requires WellFormed(t) && e.source in t.columns
    ensures r.Ok? <==> forall i :: 0 <= i < |t.rows| ==> t.rows[i][e.source].Dict?
    ensures r.Ok? ==> r.value == Applied(t, e.target, e.source, Defaulted(Lookup(e.key)))
  {
    if ApplySucceeds(t.rows, e.source, Lookup(e.key)) then
      Ok(Applied(t, e.target, e.source, Defaulted(Lookup(e.key))))
    else
      Err("AttributeError")
  }

  function Targets(es: seq<Extraction>): set<string> {
    set k | 0 <= k < |es| :: es[k].target
  }

  /** The extractions in order: the frame when they stop, and whether all of them ran. */
  function ExtractAll(t: Table, es: seq<Extraction>): (r: (Table, bool))
    requires WellFormed(t) && forall k :: 0 <= k < |es| ==> es[k].source in t.columns
    ensures WellFormed(r.0)
    ensures r.1 ==> ColumnSet(r.0.columns) == ColumnSet(t.columns) + Targets(es)
    ensures r.1 ==> |r.0.rows| == |t.rows|
    decreases |es|
  {
    if es == [] then (t, true)
    else
      match ExtractStep(t, es[0])
      case Err(_) => (t, false)
      case Ok(next) =>
        var r := ExtractAll(next, es[1..]);
        assert Targets(es) == {es[0].target} + Targets(es[1..]) by {
          forall c | c in Targets(es) ensures c in {es[0].target} + Targets(es[1..]) {
            var k :| 0 <= k < |es| && es[k].target == c;
            if k > 0 { assert es[1..][k - 1].target == c; }
          }
        }
        r
  }

  /** Every source column exists, so every source cell can be read. */
  predicate SourcesReadable(t: Table, es: seq<Extraction>) {
    WellFormed(t) && forall k :: 0 <= k < |es| ==> es[k].source in t.columns
  }

  /** Every source cell is a dict, so no `get` raises. */
  predicate SourcesAreDicts(t: Table, es: seq<Extraction>)
    requires SourcesReadable(t, es)
  {
    forall k, i :: 0 <= k < |es| && 0 <= i < |t.rows| ==> t.rows[i][es[k].source].Dict?
  }

  /** No extraction writes a column that an extraction reads. */
  predicate SourcesUntouched(es: seq<Extraction>) {
    forall k, l :: 0 <= k < |es| && 0 <= l < |es| ==> es[k].target != es[l].source
  }

  /** No extraction overwrites another one's result or a source. */
  predicate Independent(es: seq<Extraction>) {
    && SourcesUntouched(es)
    && forall k, l :: 0 <= k < l < |es| ==> es[k].target != es[l].target
  }

  /** The extractions after the first one, against the frame the first one produced. */
  lemma RestReadable(t: Table, es: seq<Extraction>, next: Table)
    requires SourcesReadable(t, es) && es != [] && SourcesUntouched(es)
    requires ExtractStep(t, es[0]) == Ok(next)
    ensures SourcesReadable(next, es[1..]) && SourcesUntouched(es[1..])
    ensures forall k, i :: 0 <= k < |es| - 1 && 0 <= i < |t.rows| ==>
              next.rows[i][es[1..][k].source] == t.rows[i][es[1..][k].source]
  {
    var rest := es[1..];
    forall k | 0 <= k < |rest| ensures rest[k].source in next.columns {
      assert rest[k] == es[k + 1];
    }
    forall k, i | 0 <= k < |rest| && 0 <= i < |t.rows|
      ensures next.rows[i][rest[k].source] == t.rows[i][rest[k].source]
    {
      assert rest[k] == es[k + 1] && es[k + 1].source != es[0].target;
    }
  }

  /** The extractions run to the end exactly when every source cell is a dict. */
  lemma {:induction false} ExtractAllSucceeds(t: Table, es: seq<Extraction>)
    requires SourcesReadable(t, es) && SourcesUntouched(es)
    ensures ExtractAll(t, es).1 <==> SourcesAreDicts(t, es)
    decreases |es|
  {
    if es != [] {
      var e, rest := es[0], es[1..];
      match ExtractStep(t, e)
      case Err(_) =>
        var i :| 0 <= i < |t.rows| && !t.rows[i][e.source].Dict?;
        assert !t.rows[i][es[0].source].Dict?;
      case Ok(next) =>
        RestReadable(t, es, next);
        ExtractAllSucceeds(next, rest);
        assert ExtractAll(t, es) == ExtractAll(next, rest);
        DictsAfterStep(t, es, next);
    }
  }

  /** After a successful first extraction, the rest find dicts exactly where all did. */
  lemma DictsAfterStep(t: Table, es: seq<Extraction>, next: Table)
    requires SourcesReadable(t, es) && es != [] && SourcesUntouched(es)
    requires ExtractStep(t, es[0]) == Ok(next)
    requires SourcesReadable(next, es[1..])
    ensures SourcesAreDicts(t, es) <==> SourcesAreDicts(next, es[1..])
  {
    var rest := es[1..];
    RestReadable(t, es, next);
    if SourcesAreDicts(next, rest) {
      forall k, i | 0 <= k < |es| && 0 <= i < |t.rows| ensures t.rows[i][es[k].source].Dict? {
        if k > 0 {
          assert es[k] == rest[k - 1];
          assert next.rows[i][rest[k - 1].source].Dict?;
        }
      }
    }
    if SourcesAreDicts(t, es) {
      forall k, i | 0 <= k < |rest| && 0 <= i < |next.rows| ensures next.rows[i][rest[k].source].Dict? {
        assert es[k + 1] == rest[k];
        assert t.rows[i][es[k + 1].source].Dict?;
      }
    }
  }

  /** A column no extraction targets keeps its cells. */
  lemma {:induction false} ExtractAllKeeps(t: Table, es: seq<Extraction>, i: nat, c: string)
    requires SourcesReadable(t, es) && SourcesUntouched(es)
    requires ExtractAll(t, es).1
    requires i < |t.rows| && c in t.rows[i] && c !in Targets(es)
    ensures c in ExtractAll(t, es).0.rows[i] && ExtractAll(t, es).0.rows[i][c] == t.rows[i][c]
    decreases |es|
  {
    if es != [] {
      var e, rest := es[0], es[1..];
      var next := ExtractStep(t, e).value;
      RestReadable(t, es, next);
      assert c != es[0].target;
      ExtractAllKeeps(next, rest, i, c);
    }
  }

  /** Dropping the first extraction keeps the rest independent, and the first
      target is not written again. */
  lemma RestIndependent(es: seq<Extraction>)
    requires es != [] && Independent(es)
    ensures Independent(es[1..]) && es[0].target !in Targets(es[1..])
  {
    var rest := es[1..];
    forall k1, l1 | 0 <= k1 < l1 < |rest| ensures rest[k1].target != rest[l1].target {
      assert es[k1 + 1].target != es[l1 + 1].target;
    }
    forall k1, l1 | 0 <= k1 < |rest| && 0 <= l1 < |rest| ensures rest[k1].target != rest[l1].source {
      assert es[k1 + 1].target != es[l1 + 1].source;
    }
  }

  /** The first extraction stores its lookup in every row. */
  lemma FirstStepValue(t: Table, e: Extraction, next: Table, i: nat)
    requires WellFormed(t) && e.source in t.columns
    requires ExtractStep(t, e) == Ok(next) && i < |t.rows|
    ensures e.target in next.rows[i]
    ensures next.rows[i][e.target] == Get(t.rows[i][e.source], e.key).GetOr(PyNone)
  {
  }

  /** Each target holds its key's entry in the row's source dict, or `None`. */
  lemma {:induction false} ExtractAllValue(t: Table, es: seq<Extraction>, k: nat, i: nat)
    requires SourcesReadable(t, es) && Independent(es)
    requires ExtractAll(t, es).1
    requires k < |es| && i < |t.rows|
    ensures es[k].target in ExtractAll(t, es).0.rows[i]
    ensures ExtractAll(t, es).0.rows[i][es[k].target] == Get(t.rows[i][es[k].source], es[k].key).GetOr(PyNone)
    decreases |es|, 1
  {
    var next := ExtractStep(t, es[0]).value;
    assert ExtractAll(t, es) == ExtractAll(next, es[1..]);
    RestReadable(t, es, next);
    if k == 0 {
      HeadValue(t, es, next, i);
    } else {
      TailValue(t, es, next, k, i);
    }
  }

  /** A later extraction's column, read through the rest of the run. */
  lemma TailValue(t: Table, es: seq<Extraction>, next: Table, k: nat, i: nat)
    requires SourcesReadable(t, es) && Independent(es) && 0 < k < |es|
    requires ExtractStep(t, es[0]) == Ok(next) && i < |t.rows|
    requires SourcesReadable(next, es[1..]) && ExtractAll(next, es[1..]).1
    requires forall k, i :: 0 <= k < |es| - 1 && 0 <= i < |t.rows| ==>
               next.rows[i][es[1..][k].source] == t.rows[i][es[1..][k].source]
    ensures es[k].target in ExtractAll(next, es[1..]).0.rows[i]
    ensures ExtractAll(next, es[1..]).0.rows[i][es[k].target]
            == Get(t.rows[i][es[k].source], es[k].key).GetOr(PyNone)
    decreases |es|, 0
  {
    var rest := es[1..];
    assert rest[k - 1] == es[k];
    RestIndependent(es);
    ExtractAllValue(next, rest, k - 1, i);
  }

  /** The first extraction's column survives the rest of them. */
  lemma HeadValue(t: Table, es: seq<Extraction>, next: Table, i: nat)
    requires SourcesReadable(t, es) && Independent(es) && es != []
    requires ExtractStep(t, es[0]) == Ok(next) && i < |t.rows|
    requires SourcesReadable(next, es[1..]) && ExtractAll(next, es[1..]).1
    ensures es[0].target in ExtractAll(next, es[1..]).0.rows[i]
    ensures ExtractAll(next, es[1..]).0.rows[i][es[0].target]
            == Get(t.rows[i][es[0].source], es[0].key).GetOr(PyNone)
  {
    RestIndependent(es);
    FirstStepValue(t, es[0], next, i);
    ExtractAllKeeps(next, es[1..], i, es[0].target);
  }

  /** `ExtractAllValue` once the source cell is known to be a dict. */
  lemma ExtractAllEntry(p: Table, es: seq<Extraction>, k: nat, i: nat)
    requires SourcesReadable(p, es) && Independent(es) && ExtractAll(p, es).1
    requires k < |es| && i < |p.rows|
    ensures var e, d := es[k], p.rows[i][es[k].source];
            && d.Dict?
            && e.target in ExtractAll(p, es).0.rows[i]
            && ExtractAll(p, es).0.rows[i][e.target]
               == if e.key in d.entries then d.entries[e.key] else PyNone
  {
    ExtractAllSucceeds(p, es);
    ExtractAllValue(p, es, k, i);
  }

  /** One extraction statement against the first of the remaining extractions: when it raises, the run stops with the frame unchanged; when it
      succeeds, the rest continue from the new frame. */
  lemma ExtractOne(t: Table, es: seq<Extraction>, after: Table, ok: bool)
    requires SourcesReadable(t, es) && es != []
    requires ok == ApplySucceeds(t.rows, es[0].source, Lookup(es[0].key))
    requires ok ==> after == Applied(t, es[0].target, es[0].source, Defaulted(Lookup(es[0].key)))
    requires !ok ==> after == t
    ensures !ok ==> ExtractAll(t, es) == (after, false)
    ensures ok ==> SourcesReadable(after, es[1..]) && ExtractAll(t, es) == ExtractAll(after, es[1..])
  {
    if ok {
      forall k | 0 <= k < |es| - 1 ensures es[1..][k].source in after.columns {
        assert es[1..][k] == es[k + 1];
      }
    }
  }

  /** One extraction statement `df[e.target] = df[e.source].apply(lambda x: x.get(e.key))`
      on a frame, where `e` is the first of the extractions `es` still to run. */
  method RunExtraction(df: Frame, ghost es: seq<Extraction>, e: Extraction) returns (ok: bool)
    requires df.Valid() && SourcesReadable(df.Snapshot(), es) && es != [] && es[0] == e
    modifies df
    ensures df.Valid()
    ensures !ok ==> ExtractAll(old(df.Snapshot()), es) == (df.Snapshot(), false)
    ensures ok ==> SourcesReadable(df.Snapshot(), es[1..])
    ensures ok ==> ExtractAll(old(df.Snapshot()), es) == ExtractAll(df.Snapshot(), es[1..])
  {
    ghost var t := df.Snapshot();
    ok := df.TryApply(e.target, e.source, Lookup(e.key));
    ExtractOne(t, es, df.Snapshot(), ok);
  }
}
