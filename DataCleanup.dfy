/** Record cleaning and the fighter view of src/data_cleanup.py: a JSON parse that
    never raises, the in-place `clean_data` pipeline (dates, duplicate removal,
    JSON columns, key extraction), the Rabindra Dhant filter with its
    perspective-corrected outcome, and the career mind map. */
module DataCleanup {
  import opened Wrappers
  import opened Text
  import opened Seqs
  import opened Tables
  import opened ColumnExtraction

  // ---------------------------------------------------------------------------
  // parse_json_safe

  /** `parse_json_safe(x)`: a missing value, or a string that is empty or only
      whitespace, gives `{}`; any other string gives what `json.loads` returns, or
      `{}` when it raises; any other value makes `json.loads` raise and gives `{}`. */
  function ParseJsonSafe(x: Value, loads: Parser): (r: Value)
    ensures IsNull(x) || !x.Str? ==> r == EmptyDict
    ensures x.Str? && AllSpace(x.s) ==> r == EmptyDict
    ensures x.Str? && !AllSpace(x.s) ==> r == loads(x.s).GetOr(EmptyDict)
  {
    if IsNull(x) then EmptyDict
    else if !x.Str? then EmptyDict
    else if Strip(x.s) == "" then EmptyDict
    else loads(x.s).GetOr(EmptyDict)
  }

  /** When `json.loads` only ever produces objects, every parsed cell is a dict. */
  lemma ParseJsonSafeIsDict(x: Value, loads: Parser)
    requires forall s :: loads(s).Some? ==> loads(s).value.Dict?
    ensures ParseJsonSafe(x, loads).Dict?
  {
    if x.Str? && !AllSpace(x.s) {
      var parsed := loads(x.s);
      assert parsed.Some? ==> parsed.value.Dict?;
    }
  }

  /** `parse_json_safe` as a cell function. */
  function ParseCell(loads: Parser): Value -> Value {
    v => ParseJsonSafe(v, loads)
  }

  // ---------------------------------------------------------------------------
  // clean_data

  /** The six extractions, in the order `clean_data` performs them. */
  const Extractions: seq<Extraction> := [
    Extraction("fighter_a_record_at_fight", "stats", "fighter_a_record_at_fight"),
    Extraction("fighter_b_record_at_fight", "stats", "fighter_b_record_at_fight"),
    Extraction("fighter_a_age", "extras", "fighter_a_age_at_fight_years"),
    Extraction("fighter_b_age", "extras", "fighter_b_age_at_fight_years"),
    Extraction("fighter_a_height_cm", "extras", "fighter_a_height_cm"),
    Extraction("fighter_b_height_cm", "extras", "fighter_b_height_cm")
  ]

  /** The four input columns `clean_data` reads before extracting. */
  predicate HasCleanInputs(t: Table) {
    && "published_date" in t.columns && "accessed_date" in t.columns
    && "stats_json" in t.columns && "extras_json" in t.columns
  }

  /** The frame before the extractions: both date columns converted, duplicate rows
      dropped, and the parsed `stats` and `extras` columns added. */
  function Prepared(t: Table, toDate: Value -> Value, loads: Parser): (r: Table)
    requires WellFormed(t) && HasCleanInputs(t)
    ensures HasCleanInputs(r) && Parsed(r)
  {
    var dated := Applied(t, "published_date", "published_date", toDate);
    var dated2 := Applied(dated, "accessed_date", "accessed_date", toDate);
    var unique := Deduplicated(dated2);
    var parsed := Applied(unique, "stats", "stats_json", ParseCell(loads));
    Applied(parsed, "extras", "extras_json", ParseCell(loads))
  }

  /** Each remaining row's `stats` and `extras` are the parses of its own
      `stats_json` and `extras_json`. */
  lemma PreparedParses(t: Table, toDate: Value -> Value, loads: Parser, i: nat)
    requires WellFormed(t) && HasCleanInputs(t)
    requires i < |Prepared(t, toDate, loads).rows|
    ensures var row := Prepared(t, toDate, loads).rows[i];
            && row["stats"] == ParseJsonSafe(row["stats_json"], loads)
            && row["extras"] == ParseJsonSafe(row["extras_json"], loads)
  {
    var dated := Applied(t, "published_date", "published_date", toDate);
    var dated2 := Applied(dated, "accessed_date", "accessed_date", toDate);
    var unique := Deduplicated(dated2);
    var parsed := Applied(unique, "stats", "stats_json", ParseCell(loads));
    var p := Applied(parsed, "extras", "extras_json", ParseCell(loads));
    assert p == Prepared(t, toDate, loads);
    assert p.rows[i] == parsed.rows[i]["extras" := ParseJsonSafe(parsed.rows[i]["extras_json"], loads)];
    assert parsed.rows[i] == unique.rows[i]["stats" := ParseJsonSafe(unique.rows[i]["stats_json"], loads)];
  }

  lemma ExtractionsIndependent()
    ensures Independent(Extractions)
    ensures forall k :: 0 <= k < |Extractions| ==> Extractions[k].source in {"stats", "extras"}
  {
    var es := Extractions;
    forall k | 0 <= k < |es| ensures es[k].source in {"stats", "extras"} && es[k].target[0] == 'f' {
    }
    forall k, l | 0 <= k < |es| && 0 <= l < |es| ensures es[k].target != es[l].source {
      assert es[k].target[0] != es[l].source[0];
    }
    forall k, l | 0 <= k < l < |es| ensures es[k].target != es[l].target {
      if |es[k].target| == |es[l].target| {
        assert es[k].target[8] != es[l].target[8];
      }
    }
  }

  /** A frame on which the extractions can run: its `stats` and `extras` exist. */
  predicate Parsed(p: Table) {
    WellFormed(p) && "stats" in p.columns && "extras" in p.columns
  }

  lemma ExtractionsReadable(p: Table)
    requires Parsed(p)
    ensures SourcesReadable(p, Extractions) && Independent(Extractions)
  {
    ExtractionsIndependent();
  }

  /** The six extraction statements of `clean_data` run against `p`: the frame they
      leave and whether they all returned. */
  function Extracted(p: Table): (r: (Table, bool))
    requires Parsed(p)
    ensures WellFormed(r.0)
    ensures r.1 ==> |r.0.rows| == |p.rows| && ColumnSet(p.columns) <= ColumnSet(r.0.columns)
  {
    ExtractionsReadable(p);
    ExtractAll(p, Extractions)
  }

  /** Every row's `stats` and `extras` are dicts. */
  predicate StatsAndExtrasAreDicts(p: Table)
    requires Parsed(p)
  {
    forall i :: 0 <= i < |p.rows| ==> p.rows[i]["stats"].Dict? && p.rows[i]["extras"].Dict?
  }

  lemma DictColumnsFromSources(p: Table)
    requires Parsed(p) && SourcesReadable(p, Extractions) && SourcesAreDicts(p, Extractions)
    ensures StatsAndExtrasAreDicts(p)
  {
    forall i | 0 <= i < |p.rows| ensures p.rows[i]["stats"].Dict? && p.rows[i]["extras"].Dict? {
      assert p.rows[i][Extractions[0].source].Dict? && p.rows[i][Extractions[2].source].Dict?;
    }
  }

  lemma SourcesFromDictColumns(p: Table)
    requires Parsed(p) && SourcesReadable(p, Extractions) && StatsAndExtrasAreDicts(p)
    ensures SourcesAreDicts(p, Extractions)
  {
    ExtractionsIndependent();
  }

  /** The extractions of `clean_data` run to the end exactly when every row's
      `stats` and `extras` are dicts. */
  lemma ExtractionsSucceedIff(p: Table)
    requires Parsed(p)
    ensures Extracted(p).1 <==> StatsAndExtrasAreDicts(p)
  {
    ExtractionsReadable(p);
    ExtractAllSucceeds(p, Extractions);
    if SourcesAreDicts(p, Extractions) {
      DictColumnsFromSources(p);
    }
    if StatsAndExtrasAreDicts(p) {
      SourcesFromDictColumns(p);
    }
  }

  /** When the extractions run to the end, every column they do not write keeps its cells. */
  lemma ExtractionsKeepOtherColumns(p: Table, i: nat, c: string)
    requires Parsed(p) && Extracted(p).1
    requires i < |p.rows| && c in p.rows[i] && c !in Targets(Extractions)
    ensures c in Extracted(p).0.rows[i]
    ensures Extracted(p).0.rows[i][c] == p.rows[i][c]
  {
    ExtractionsReadable(p);
    ExtractAllKeeps(p, Extractions, i, c);
  }

  /** When `json.loads` only ever produces objects, `clean_data` always returns. */
  lemma CleanSucceedsOnJsonObjects(t: Table, toDate: Value -> Value, loads: Parser)
    requires WellFormed(t) && HasCleanInputs(t)
    requires forall s :: loads(s).Some? ==> loads(s).value.Dict?
    ensures Extracted(Prepared(t, toDate, loads)).1
  {
    var p := Prepared(t, toDate, loads);
    forall i | 0 <= i < |p.rows| ensures p.rows[i]["stats"].Dict? && p.rows[i]["extras"].Dict? {
      PreparedParses(t, toDate, loads, i);
      ParseJsonSafeIsDict(p.rows[i]["stats_json"], loads);
      ParseJsonSafeIsDict(p.rows[i]["extras_json"], loads);
    }
    ExtractionsSucceedIff(p);
  }

  /** The first half of `clean_data`: convert both date columns, drop duplicate
      rows, parse the two JSON columns. */
  method PrepareColumns(df: Frame, toDate: Value -> Value, loads: Parser)
    requires df.Valid() && HasCleanInputs(df.Snapshot())
    modifies df
    ensures df.Valid()
    ensures df.Snapshot() == Prepared(old(df.Snapshot()), toDate, loads)
  {
    df.Apply("published_date", "published_date", toDate);
    df.Apply("accessed_date", "accessed_date", toDate);
    df.DropDuplicates();
    df.Apply("stats", "stats_json", ParseCell(loads));
    df.Apply("extras", "extras_json", ParseCell(loads));
  }

  /** The second half of `clean_data`: the six extraction statements; `ok` is false
      when one of them raised, and the frame keeps the columns added before it. */
  method ExtractColumns(df: Frame) returns (ok: bool)
    requires df.Valid() && Parsed(df.Snapshot())
    modifies df
    ensures df.Valid()
    ensures (df.Snapshot(), ok) == Extracted(old(df.Snapshot()))
  {
    ghost var es := Extractions;
    ExtractionsReadable(df.Snapshot());
    ok := RunExtraction(df, es, Extraction("fighter_a_record_at_fight", "stats", "fighter_a_record_at_fight"));
    if !ok { return; }
    ok := RunExtraction(df, es[1..], Extraction("fighter_b_record_at_fight", "stats", "fighter_b_record_at_fight"));
    if !ok { return; }
    ok := RunExtraction(df, es[2..], Extraction("fighter_a_age", "extras", "fighter_a_age_at_fight_years"));
    if !ok { return; }
    ok := RunExtraction(df, es[3..], Extraction("fighter_b_age", "extras", "fighter_b_age_at_fight_years"));
    if !ok { return; }
    ok := RunExtraction(df, es[4..], Extraction("fighter_a_height_cm", "extras", "fighter_a_height_cm"));
    if !ok { return; }
    ok := RunExtraction(df, es[5..], Extraction("fighter_b_height_cm", "extras", "fighter_b_height_cm"));
    assert es[5..][1..] == [];
  }

  /** `clean_data(df)`, updating `df` in place; `toDate` is `pd.to_datetime(...,
      errors='coerce')` on one cell and `loads` is `json.loads`. `ok` is false when
      an extraction raised. */
  method CleanData(df: Frame, toDate: Value -> Value, loads: Parser) returns (ok: bool)
    requires df.Valid() && HasCleanInputs(df.Snapshot())
    modifies df
    ensures df.Valid()
    ensures (df.Snapshot(), ok) == Extracted(Prepared(old(df.Snapshot()), toDate, loads))
  {
    PrepareColumns(df, toDate, loads);
    ok := ExtractColumns(df);
  }

  // ---------------------------------------------------------------------------
  // filter_rabindra_fights

  const Rabindra: string := "Rabindra Dhant"

  /** The cell of a column the frame is required to have. */
  function Cell(row: Row, column: string): Value {
    if column in row then row[column] else PyNone
  }

  /** The boolean mask: Rabindra Dhant is fighter A or fighter B. */
  predicate InvolvesRabindra(row: Row) {
    Cell(row, "fighter_a") == Str(Rabindra) || Cell(row, "fighter_b") == Str(Rabindra)
  }

  /** Whether `str(outcome).lower() == 'win'`; only a string can print as `win`. */
  predicate IsWin(outcome: Value)
    ensures outcome in {Str("win"), Str("Win"), Str("WIN")} ==> IsWin(outcome)
    ensures IsWin(outcome) ==> outcome.Str? && |outcome.s| == 3
  {
    outcome.Str? && Lower(outcome.s) == "win"
  }

  /** `rabindra_outcome(row)`: the outcome from Rabindra Dhant's side. */
  function RabindraOutcome(row: Row): (r: Value)
    ensures Cell(row, "fighter_a") == Str(Rabindra) ==> r == Cell(row, "outcome")
    ensures Cell(row, "fighter_a") != Str(Rabindra) && Cell(row, "fighter_b") == Str(Rabindra) ==>
              (r == Str("Loss") <==> IsWin(Cell(row, "outcome"))) && r in {Str("Win"), Str("Loss")}
    ensures !InvolvesRabindra(row) ==> r == PyNone
  {
    if Cell(row, "fighter_a") == Str(Rabindra) then Cell(row, "outcome")
    else if Cell(row, "fighter_b") == Str(Rabindra) then
      if IsWin(Cell(row, "outcome")) then Str("Loss") else Str("Win")
    else PyNone
  }

  /** `filter_rabindra_fights(df)` as a value: the rows involving Rabindra Dhant, in
      their order, each with its `rabindra_outcome`. */
  function RabindraFights(t: Table): (r: Table)
    ensures r.columns == WithColumn(t.columns, "rabindra_outcome")
    ensures |r.rows| <= |t.rows|
    ensures forall i :: 0 <= i < |r.rows| ==>
              && InvolvesRabindra(r.rows[i])
              && "rabindra_outcome" in r.rows[i]
              && r.rows[i]["rabindra_outcome"] == RabindraOutcome(r.rows[i])
  {
    var kept := Filter(t.rows, InvolvesRabindra);
    FilterPasses(t.rows, InvolvesRabindra);
    Table(WithColumn(t.columns, "rabindra_outcome"), ApplyRowwise(kept, "rabindra_outcome", RabindraOutcome))
  }

  /** `filter_rabindra_fights(df)`: a new frame; `df` itself is not changed. */
  method FilterRabindraFights(df: Frame) returns (r: Frame)
    requires df.Valid()
    requires "fighter_a" in df.columns && "fighter_b" in df.columns && "outcome" in df.columns
    ensures fresh(r) && r.Valid()
    ensures r.Snapshot() == RabindraFights(df.Snapshot())
  {
    FilterWellFormed(df.Snapshot(), InvolvesRabindra);
    r := new Frame(Table(df.columns, Filter(df.rows, InvolvesRabindra)));
    r.ApplyRows("rabindra_outcome", RabindraOutcome);
  }

  /** The result's rows are exactly the fights of Rabindra Dhant, in order, each
      carrying its outcome from his side; every other cell is unchanged. */
  lemma RabindraFightsSelects(t: Table)
    ensures var kept, r := Filter(t.rows, InvolvesRabindra), RabindraFights(t);
            && IsSubsequence(kept, t.rows)
            && (forall row :: row in kept <==> row in t.rows && InvolvesRabindra(row))
            && (forall row :: multiset(kept)[row] == if InvolvesRabindra(row) then multiset(t.rows)[row] else 0)
            && |r.rows| == |kept|
            && forall i :: 0 <= i < |kept| ==>
                 && r.rows[i]["rabindra_outcome"] == RabindraOutcome(kept[i])
                 && forall c :: c in kept[i] && c != "rabindra_outcome" ==> r.rows[i][c] == kept[i][c]
  {
    var kept := Filter(t.rows, InvolvesRabindra);
    FilterSubsequence(t.rows, InvolvesRabindra);
    forall row ensures row in kept <==> row in t.rows && InvolvesRabindra(row) {
      FilterMembership(t.rows, InvolvesRabindra, row);
    }
    forall row ensures multiset(kept)[row] == if InvolvesRabindra(row) then multiset(t.rows)[row] else 0 {
      FilterCount(t.rows, InvolvesRabindra, row);
    }
  }

  /** On a kept row the outcome is missing only when Rabindra Dhant is fighter A and
      the row's own outcome is missing. */
  lemma KeptOutcomeMissing(row: Row)
    requires InvolvesRabindra(row)
    ensures RabindraOutcome(row) == PyNone
            <==> Cell(row, "fighter_a") == Str(Rabindra) && Cell(row, "outcome") == PyNone
  {
  }

  /** Outcomes seen from fighter B's corner: a win (in any letter case) is his loss;
      a draw, a loss or anything else counts as his win. */
  lemma OutcomeFromCornerB(opponent: string, outcome: string)
    requires opponent != Rabindra
    ensures RabindraOutcome(map["fighter_a" := Str(opponent), "fighter_b" := Str(Rabindra), "outcome" := Str("WIN")])
            == Str("Loss")
    ensures RabindraOutcome(map["fighter_a" := Str(opponent), "fighter_b" := Str(Rabindra), "outcome" := Str("Draw")])
            == Str("Win")
    ensures RabindraOutcome(map["fighter_a" := Str(opponent), "fighter_b" := Str(Rabindra), "outcome" := Str("Loss")])
            == Str("Win")
  {
    assert Lower("WIN") == "win";
    assert Lower("Draw")[0] == 'd';
    assert Lower("Loss")[0] == 'l';
  }

  /** With Rabindra Dhant in both corners the outcome is taken verbatim. */
  lemma OutcomeBothCorners(outcome: Value)
    ensures RabindraOutcome(map["fighter_a" := Str(Rabindra), "fighter_b" := Str(Rabindra), "outcome" := outcome])
            == outcome
  {
  }
}
