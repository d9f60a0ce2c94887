/**
 * The current processor (`DataProcessor` of the ETL package): it builds
 * the operator master keyed by RegistroANS, extracts the expense lines,
 * joins them to the master, fills the registry fields of unmatched lines
 * with sentinels, drops null and zero balances, consolidates by the
 * seven-column identity, validates, reports per (RazaoSocial, UF) and
 * sorts the consolidated rows by period and name.
 */
module Processor {
  import opened Wrappers
  import opened Text
  import opened Collections
  import opened Table
  import opened Frames
  import opened Extraction
  import opened Enrichment
  import opened Validator

  /** The current layout: registry aliases, kept columns and accounting renames. */
  const Current := Variant(
    RegistroAns,
    map["REGISTRO_ANS" := RegistroAns, "REGISTRO_OPERADORA" := RegistroAns, "CD_NOTA" := RegistroAns,
        "CNPJ" := CnpjCol,
        "RAZAO_SOCIAL" := RazaoCol, "NO_RAZAO_SOCIAL" := RazaoCol, "NM_RAZAO_SOCIAL" := RazaoCol,
        "MODALIDADE" := ModalidadeCol, "UF" := UfCol],
    [RegistroAns, CnpjCol, RazaoCol, ModalidadeCol, UfCol],
    map["CD_CONTA" := ContaCol, "DESCRI\U{00C7}\U{00C3}O" := DescricaoCol, "SALDO_FINAL" := SaldoCol,
        "REG_ANS" := RegistroAns])

  // ---------------------------------------------------------------------
  // Sentinel fill and balance cleaning

  const CnpjSentinel := "NAO_ENCONTRADO"
  const RazaoSentinel := "OPERADORA_NAO_IDENTIFICADA"
  const ModalidadeSentinel := "DESCONHECIDA"
  const UfSentinel := "XX"

  /** fillna with a per-column value: only columns the frame has are filled. */
  function FillCell(columns: seq<string>, name: string, v: Option<string>, sentinel: string): Option<string> {
    if name in columns then Some(v.GetOr(sentinel)) else None
  }

  function FillRow(j: Joined, columns: seq<string>): Joined {
    j.(cnpj := FillCell(columns, CnpjCol, j.cnpj, CnpjSentinel),
       razao := FillCell(columns, RazaoCol, j.razao, RazaoSentinel),
       modalidade := FillCell(columns, ModalidadeCol, j.modalidade, ModalidadeSentinel),
       uf := FillCell(columns, UfCol, j.uf, UfSentinel))
  }

  function FillAll(js: seq<Joined>, columns: seq<string>): seq<Joined> {
    seq(|js|, i requires 0 <= i < |js| => FillRow(js[i], columns))
  }

  /** The balance is neither null nor zero. */
  predicate HasBalance(j: Joined) {
    j.saldo.Some? && j.saldo.value != 0.0
  }

  predicate LineHasBalance(e: Expense) {
    e.saldo.Some? && e.saldo.value != 0.0
  }

  /** The merged, filled and cleaned rows, from key-trimmed accounting lines and master. */
  function Enriched(acc: seq<Expense>, m: Master): seq<Joined> {
    Filter(FillAll(MergeUnique(acc, m), m.columns), HasBalance)
  }

  /** The filled row of accounting line e against master m. */
  function EnrichedLine(e: Expense, m: Master): Joined {
    FillRow(JoinRow(e, m.columns, FirstWithKey(m.rows, MasterRowKey, e.registro)), m.columns)
  }

  // ---------------------------------------------------------------------
  // Consolidation: groupby(identity, dropna=False).sum()

  const GroupColumns := [CnpjCol, RazaoCol, RegistroAns, ModalidadeCol, UfCol, TrimestreCol, AnoCol]

  /** The merged frame's columns: the accounting columns, then the master's other columns. */
  function MergedColumns(masterColumns: seq<string>): seq<string> {
    [RegistroAns, AnoCol, TrimestreCol, SaldoCol] + Filter(masterColumns, (c: string) => c != RegistroAns)
  }

  /** The consolidated frame's columns: the grouping columns present, then ValorDespesas. */
  function ConsolidatedColumns(masterColumns: seq<string>): seq<string> {
    Filter(GroupColumns, (c: string) => c in MergedColumns(masterColumns)) + [ValorCol]
  }

  function IdentityOf(j: Joined): Identity {
    Identity(j.cnpj, j.razao, j.registro, j.modalidade, j.uf, j.trimestre, j.ano)
  }

  function Keyed(js: seq<Joined>): seq<(Identity, real)> {
    seq(|js|, i requires 0 <= i < |js| => (IdentityOf(js[i]), JoinedBalance(js[i])))
  }

  function RowOf(b: Bucket<Identity>): ConsolidatedRow {
    ConsolidatedRow(b.key, Sum(b.values), None)
  }

  function RowsOf(bs: seq<Bucket<Identity>>): seq<ConsolidatedRow> {
    seq(|bs|, i requires 0 <= i < |bs| => RowOf(bs[i]))
  }

  function Consolidate(js: seq<Joined>): seq<ConsolidatedRow> {
    RowsOf(Group(Keyed(js)))
  }

  function RowId(r: ConsolidatedRow): Identity { r.id }

  function RowValor(r: ConsolidatedRow): real { r.valor }

  // ---------------------------------------------------------------------
  // The aggregation report: groupby([RazaoSocial, UF]) with sum, mean, std

  datatype ReportRow = ReportRow(razao: string, uf: string, total: real, mean: real, std: real)

  function ReportKey(r: ReportRow): (string, string) { (r.razao, r.uf) }

  /** Each row's ValorDespesas under its (RazaoSocial, UF); rows with a null in either are dropped. */
  function ReportKeyed(rows: seq<ConsolidatedRow>): seq<((string, string), real)> {
    if rows == [] then []
    else
      var r := rows[|rows| - 1];
      ReportKeyed(rows[..|rows| - 1])
      + (if r.id.razao.Some? && r.id.uf.Some? then [((r.id.razao.value, r.id.uf.value), r.valor)] else [])
  }

  /**
   * One report line: total, mean, and the standard deviation, which is
   * undefined for a single observation and then set to 0.0. `deviation`
   * stands for the floating-point sample deviation.
   */
  function Statistics(b: Bucket<(string, string)>, deviation: seq<real> -> real): ReportRow
    requires |b.values| > 0
  {
    var total := Sum(b.values);
    ReportRow(b.key.0, b.key.1, total, total / (|b.values| as real),
              if |b.values| < 2 then 0.0 else deviation(b.values))
  }

  function Aggregate(rows: seq<ConsolidatedRow>, deviation: seq<real> -> real): seq<ReportRow> {
    var bs := Group(ReportKeyed(rows));
    seq(|bs|, i requires 0 <= i < |bs| => Statistics(bs[i], deviation))
  }

  predicate TotalAtLeast(a: ReportRow, b: ReportRow) {
    a.total >= b.total
  }

  /** sort_values(by="ValorTotal", ascending=False) */
  function Report(rows: seq<ConsolidatedRow>, deviation: seq<real> -> real): seq<ReportRow> {
    SortBy(Aggregate(rows, deviation), TotalAtLeast)
  }

  // ---------------------------------------------------------------------
  // sort_values(by=["Ano", "Trimestre", "RazaoSocial"])

  /** Strings in code-point order, nulls last. */
  predicate NullsLastLe(a: Option<string>, b: Option<string>) {
    b.None? || (a.Some? && StrLe(a.value, b.value))
  }

  predicate PeriodOrder(a: ConsolidatedRow, b: ConsolidatedRow) {
    if a.id.ano != b.id.ano then StrLe(a.id.ano, b.id.ano)
    else if a.id.trimestre != b.id.trimestre then StrLe(a.id.trimestre, b.id.trimestre)
    else NullsLastLe(a.id.razao, b.id.razao)
  }

  // ---------------------------------------------------------------------
  // The outcome of enrich_and_export

  /**
   * Skipped: an input was empty. Crashed: a KeyError ended the run.
   * Exported: the consolidated file's columns and rows, and the report.
   */
  datatype Outcome =
    | Skipped
    | Crashed
    | Exported(columns: seq<string>, rows: seq<ConsolidatedRow>, report: seq<ReportRow>)

  /**
   * Validation, report and sort of the consolidated rows: validation
   * needs CNPJ and RazaoSocial on a non-empty frame, the report needs
   * RazaoSocial and UF.
   */
  function Finish(rows: seq<ConsolidatedRow>, columns: seq<string>, deviation: seq<real> -> real): Outcome {
    if rows != [] && !(CnpjCol in columns && RazaoCol in columns && ValorCol in columns) then Crashed
    else if RazaoCol !in columns || UfCol !in columns then Crashed
    else
      Exported(if rows == [] then columns else FlaggedColumns(columns),
               SortBy(Flagged(rows), PeriodOrder), Report(Flagged(rows), deviation))
  }

  /** The rows after run_quality_checks: flagged unless there are none. */
  function Flagged(rows: seq<ConsolidatedRow>): seq<ConsolidatedRow> {
    if rows == [] then rows else FlagRows(rows)
  }

  /** enrich_and_export, with the master deduplicated on the trimmed key and an empty consolidation exported. */
  function EnrichOutcome(acc: seq<Expense>, m: Master, deviation: seq<real> -> real): Outcome {
    if acc == [] || m.rows == [] then Skipped
    else
      var js := Enriched(TrimExpenseKeys(acc), TrimMasterKeys(m));
      Finish(Consolidate(js), ConsolidatedColumns(m.columns), deviation)
  }

  /**
   * enrich_and_export as written: the merge repeats lines whose trimmed
   * key is shared by several registry rows, and an empty consolidation
   * ends in a KeyError on Registro_Conforme, which validation only adds
   * to non-empty frames.
   */
  function EnrichOutcomeAsWritten(acc: seq<Expense>, m: Master, deviation: seq<real> -> real): Outcome {
    if acc == [] || m.rows == [] then Skipped
    else
      var js := Filter(FillAll(Merge(TrimExpenseKeys(acc), TrimMasterKeys(m)), m.columns), HasBalance);
      var rows := Consolidate(js);
      if rows == [] then Crashed
      else Finish(rows, ConsolidatedColumns(m.columns), deviation)
  }

  // ---------------------------------------------------------------------
  // Enrichment properties

  /**
   * The cleaned rows are exactly the filled rows of the accounting lines
   * with a non-null, non-zero balance, one per line; a registry column
   * the master has is never null in them, one it lacks is always absent.
   */
  lemma EnrichedSpec(acc: seq<Expense>, m: Master)
    ensures forall j :: j in Enriched(acc, m) ==>
              HasBalance(j) && exists i :: 0 <= i < |acc| && j == EnrichedLine(acc[i], m)
    ensures forall i :: 0 <= i < |acc| && LineHasBalance(acc[i]) ==> EnrichedLine(acc[i], m) in Enriched(acc, m)
    ensures forall j :: j in Enriched(acc, m) ==>
              && (j.cnpj.Some? <==> CnpjCol in m.columns)
              && (j.razao.Some? <==> RazaoCol in m.columns)
              && (j.modalidade.Some? <==> ModalidadeCol in m.columns)
              && (j.uf.Some? <==> UfCol in m.columns)
  {
    EnrichedFrom(acc, m);
    EnrichedCovers(acc, m);
    EnrichedColumns(acc, m);
  }

  lemma EnrichedFrom(acc: seq<Expense>, m: Master)
    ensures forall j :: j in Enriched(acc, m) ==>
              HasBalance(j) && exists i :: 0 <= i < |acc| && j == EnrichedLine(acc[i], m)
  {
    MergeUniqueSpec(acc, m);
    var filled := FillAll(MergeUnique(acc, m), m.columns);
    assert forall i :: 0 <= i < |acc| ==> filled[i] == EnrichedLine(acc[i], m);
    forall j | j in Enriched(acc, m) ensures exists i :: 0 <= i < |acc| && j == EnrichedLine(acc[i], m) {
      var i :| 0 <= i < |filled| && filled[i] == j;
    }
  }

  lemma EnrichedCovers(acc: seq<Expense>, m: Master)
    ensures forall i :: 0 <= i < |acc| && LineHasBalance(acc[i]) ==> EnrichedLine(acc[i], m) in Enriched(acc, m)
  {
    MergeUniqueSpec(acc, m);
    var filled := FillAll(MergeUnique(acc, m), m.columns);
    forall i | 0 <= i < |acc| && LineHasBalance(acc[i]) ensures EnrichedLine(acc[i], m) in Enriched(acc, m) {
      assert filled[i] == EnrichedLine(acc[i], m);
      assert filled[i] in filled;
    }
  }

  lemma EnrichedColumns(acc: seq<Expense>, m: Master)
    ensures forall j :: j in Enriched(acc, m) ==>
              && (j.cnpj.Some? <==> CnpjCol in m.columns)
              && (j.razao.Some? <==> RazaoCol in m.columns)
              && (j.modalidade.Some? <==> ModalidadeCol in m.columns)
              && (j.uf.Some? <==> UfCol in m.columns)
  {
    var filled := FillAll(MergeUnique(acc, m), m.columns);
    forall j | j in Enriched(acc, m) ensures j in filled {
    }
  }

  /** Dropping null and zero balances, filling, and the intended merge together keep the accounting total. */
  lemma EnrichedTotal(acc: seq<Expense>, m: Master)
    ensures SumBy(Enriched(acc, m), JoinedBalance) == SumBy(acc, ExpenseBalance)
  {
    var merged := MergeUnique(acc, m);
    var filled := FillAll(merged, m.columns);
    SumByFilter(filled, HasBalance, JoinedBalance);
    SumByPointwise(filled, merged, JoinedBalance, JoinedBalance);
    MergeUniqueTotal(acc, m);
  }

  /**
   * A line with a balance whose key matches no registry row still reaches
   * the consolidation, with its balance, and with the sentinel in every
   * registry column the master has.
   */
  lemma UnmatchedLineFilled(acc: seq<Expense>, m: Master, i: nat)
    requires i < |acc| && LineHasBalance(acc[i])
    requires !HasKey(m.rows, MasterRowKey, acc[i].registro)
    ensures var j := EnrichedLine(acc[i], m);
            && j in Enriched(acc, m)
            && j.saldo == acc[i].saldo
            && j.cnpj == (if CnpjCol in m.columns then Some(CnpjSentinel) else None)
            && j.razao == (if RazaoCol in m.columns then Some(RazaoSentinel) else None)
            && j.modalidade == (if ModalidadeCol in m.columns then Some(ModalidadeSentinel) else None)
            && j.uf == (if UfCol in m.columns then Some(UfSentinel) else None)
  {
    EnrichedSpec(acc, m);
  }

  // ---------------------------------------------------------------------
  // Consolidation properties

  lemma {:induction false} RowsOfTotal(bs: seq<Bucket<Identity>>)
    ensures SumBy(RowsOf(bs), RowValor) == BucketTotals(bs)
  {
    if bs != [] {
      RowsOfTotal(bs[1..]);
      var x := RowOf(bs[0]);
      assert RowsOf(bs) == [x] + RowsOf(bs[1..]);
      SumByAppend([x], RowsOf(bs[1..]), RowValor);
      assert [x][..0] == [];
    }
  }

  lemma {:induction false} KeyedTotal(js: seq<Joined>)
    ensures Sum(SecondOf(Keyed(js))) == SumBy(js, JoinedBalance)
  {
    if js != [] {
      var init := js[..|js| - 1];
      KeyedTotal(init);
      assert SecondOf(Keyed(js))[..|js| - 1] == SecondOf(Keyed(init));
    }
  }

  lemma ConsolidateKeys(js: seq<Joined>)
    ensures UniqueKeys(Consolidate(js), RowId)
    ensures forall id :: HasKey(Consolidate(js), RowId, id) <==> HasKey(js, IdentityOf, id)
  {
    var s := Keyed(js);
    var bs := Group(s);
    GroupSpec(s);
    KeysPointwise(bs, Consolidate(js), BucketKey, RowId);
    KeysPointwise(s, js, PairKey, IdentityOf);
  }

  lemma ConsolidateValues(js: seq<Joined>)
    ensures forall r :: r in Consolidate(js) ==> r.flags.None? && r.valor == Sum(Select(Keyed(js), r.id))
  {
    var s := Keyed(js);
    var bs := Group(s);
    var c := Consolidate(js);
    GroupSpec(s);
    forall r | r in c ensures r.flags.None? && r.valor == Sum(Select(s, r.id)) {
      var i :| 0 <= i < |c| && c[i] == r;
      FirstWithKeyOfUnique(bs, BucketKey, i);
    }
  }

  lemma ConsolidateTotal(js: seq<Joined>)
    ensures SumBy(Consolidate(js), RowValor) == SumBy(js, JoinedBalance)
  {
    GroupSpec(Keyed(js));
    RowsOfTotal(Group(Keyed(js)));
    KeyedTotal(js);
  }

  /**
   * Consolidation gives one row per distinct identity among its input
   * rows, each carrying the sum of that identity's balances, so the total
   * is preserved; no row is flagged yet.
   */
  lemma ConsolidateSpec(js: seq<Joined>)
    ensures UniqueKeys(Consolidate(js), RowId)
    ensures forall id :: HasKey(Consolidate(js), RowId, id) <==> HasKey(js, IdentityOf, id)
    ensures forall r :: r in Consolidate(js) ==> r.flags.None? && r.valor == Sum(Select(Keyed(js), r.id))
    ensures SumBy(Consolidate(js), RowValor) == SumBy(js, JoinedBalance)
  {
    ConsolidateKeys(js);
    ConsolidateValues(js);
    ConsolidateTotal(js);
  }

  // ---------------------------------------------------------------------
  // Report properties

  /** Some row carries RazaoSocial k.0 and UF k.1, neither null. */
  predicate PairListed(rows: seq<ConsolidatedRow>, k: (string, string)) {
    exists r :: r in rows && r.id.razao == Some(k.0) && r.id.uf == Some(k.1)
  }

  lemma {:induction false} ReportKeyedKeys(rows: seq<ConsolidatedRow>)
    ensures forall k :: HasKey(ReportKeyed(rows), PairKey, k) <==>
              PairListed(rows, k)
  {
    if rows != [] {
      var init, last := rows[..|rows| - 1], rows[|rows| - 1];
      ReportKeyedKeys(init);
      var tail := if last.id.razao.Some? && last.id.uf.Some? then [((last.id.razao.value, last.id.uf.value), last.valor)] else [];
      forall k ensures HasKey(ReportKeyed(rows), PairKey, k) <==>
                       PairListed(rows, k)
      {
        HasKeyAppend(ReportKeyed(init), tail, PairKey, k);
        assert rows == init + [last];
        if tail != [] {
          assert HasKey(tail, PairKey, k) <==> tail[0].0 == k;
        }
      }
    }
  }

  lemma TotalAtLeastTotal()
    ensures Total(TotalAtLeast)
  {
  }

  lemma AggregateUnique(rows: seq<ConsolidatedRow>, deviation: seq<real> -> real)
    ensures UniqueKeys(Aggregate(rows, deviation), ReportKey)
  {
    var s := ReportKeyed(rows);
    GroupSpec(s);
    KeysPointwise(Group(s), Aggregate(rows, deviation), BucketKey, ReportKey);
  }

  lemma AggregateKeysPresent(rows: seq<ConsolidatedRow>, deviation: seq<real> -> real)
    ensures forall k :: HasKey(Aggregate(rows, deviation), ReportKey, k) <==>
              PairListed(rows, k)
  {
    var s := ReportKeyed(rows);
    GroupSpec(s);
    ReportKeyedKeys(rows);
    KeysPointwise(Group(s), Aggregate(rows, deviation), BucketKey, ReportKey);
  }

  lemma AggregateValues(rows: seq<ConsolidatedRow>, deviation: seq<real> -> real)
    ensures forall line :: line in Aggregate(rows, deviation) ==>
              var vs := Select(ReportKeyed(rows), ReportKey(line));
              && |vs| > 0 && line.total == Sum(vs) && line.mean == line.total / (|vs| as real)
              && (|vs| == 1 ==> line.std == 0.0)
  {
    var s := ReportKeyed(rows);
    var bs := Group(s);
    var a := Aggregate(rows, deviation);
    GroupSpec(s);
    forall line | line in a
      ensures var vs := Select(s, ReportKey(line));
              && |vs| > 0 && line.total == Sum(vs) && line.mean == line.total / (|vs| as real)
              && (|vs| == 1 ==> line.std == 0.0)
    {
      var j :| 0 <= j < |a| && a[j] == line;
      FirstWithKeyOfUnique(bs, BucketKey, j);
      assert ReportKey(line) == bs[j].key;
    }
  }

  lemma ReportOrder(rows: seq<ConsolidatedRow>, deviation: seq<real> -> real)
    ensures Sorted(Report(rows, deviation), TotalAtLeast)
  {
    TotalAtLeastTotal();
    SortBySorted(Aggregate(rows, deviation), TotalAtLeast);
  }

  lemma ReportKeys(rows: seq<ConsolidatedRow>, deviation: seq<real> -> real)
    ensures UniqueKeys(Report(rows, deviation), ReportKey)
    ensures forall k :: HasKey(Report(rows, deviation), ReportKey, k) <==>
              PairListed(rows, k)
  {
    ReportUnique(rows, deviation);
    ReportKeysPresent(rows, deviation);
  }

  lemma ReportUnique(rows: seq<ConsolidatedRow>, deviation: seq<real> -> real)
    ensures UniqueKeys(Report(rows, deviation), ReportKey)
  {
    var a := Aggregate(rows, deviation);
    AggregateUnique(rows, deviation);
    UniqueKeysPermutation(a, Report(rows, deviation), ReportKey);
  }

  lemma ReportKeysPresent(rows: seq<ConsolidatedRow>, deviation: seq<real> -> real)
    ensures forall k :: HasKey(Report(rows, deviation), ReportKey, k) <==>
              PairListed(rows, k)
  {
    AggregateKeysPresent(rows, deviation);
    HasKeyPermutation(Aggregate(rows, deviation), Report(rows, deviation), ReportKey);
  }

  lemma ReportValues(rows: seq<ConsolidatedRow>, deviation: seq<real> -> real)
    ensures forall line :: line in Report(rows, deviation) ==>
              var vs := Select(ReportKeyed(rows), ReportKey(line));
              && |vs| > 0 && line.total == Sum(vs) && line.mean == line.total / (|vs| as real)
              && (|vs| == 1 ==> line.std == 0.0)
  {
    var a := Aggregate(rows, deviation);
    AggregateValues(rows, deviation);
    forall line | line in SortBy(a, TotalAtLeast) ensures line in a {
      assert line in multiset(SortBy(a, TotalAtLeast));
    }
  }

  /**
   * The report has one line per (RazaoSocial, UF) pair present (with no
   * null in either), in descending order of total; each line's total is
   * the sum of that pair's values, its mean the total over their count,
   * and its deviation 0.0 when there is a single value.
   */
  lemma ReportSpec(rows: seq<ConsolidatedRow>, deviation: seq<real> -> real)
    ensures Sorted(Report(rows, deviation), TotalAtLeast)
    ensures UniqueKeys(Report(rows, deviation), ReportKey)
    ensures forall k :: HasKey(Report(rows, deviation), ReportKey, k) <==>
              PairListed(rows, k)
    ensures forall line :: line in Report(rows, deviation) ==>
              var vs := Select(ReportKeyed(rows), ReportKey(line));
              && |vs| > 0 && line.total == Sum(vs) && line.mean == line.total / (|vs| as real)
              && (|vs| == 1 ==> line.std == 0.0)
  {
    ReportOrder(rows, deviation);
    ReportKeys(rows, deviation);
    ReportValues(rows, deviation);
  }

  // ---------------------------------------------------------------------
  // Sorting and export properties

  lemma PeriodOrderTotal()
    ensures Total(PeriodOrder)
  {
    forall a: ConsolidatedRow, b: ConsolidatedRow ensures PeriodOrder(a, b) || PeriodOrder(b, a) {
      StrLeTotal(a.id.ano, b.id.ano);
      StrLeTotal(a.id.trimestre, b.id.trimestre);
      if a.id.razao.Some? && b.id.razao.Some? {
        StrLeTotal(a.id.razao.value, b.id.razao.value);
      }
    }
  }

  lemma FlaggedKeepsRows(rows: seq<ConsolidatedRow>)
    ensures |Flagged(rows)| == |rows|
    ensures forall i :: 0 <= i < |rows| ==> Flagged(rows)[i].id == rows[i].id && Flagged(rows)[i].valor == rows[i].valor
    ensures rows != [] ==> forall r :: r in Flagged(rows) ==> r.flags == Some(RowFlags(r))
  {
    FlagRowsKeepsRows(rows);
    if rows != [] {
      forall r | r in Flagged(rows) ensures r.flags == Some(RowFlags(r)) {
        var j :| 0 <= j < |rows| && FlagRows(rows)[j] == r;
        assert RowFlags(r) == RowFlags(rows[j]);
      }
    }
  }

  lemma ExportKeys(rows: seq<ConsolidatedRow>)
    requires UniqueKeys(rows, RowId)
    ensures UniqueKeys(SortBy(Flagged(rows), PeriodOrder), RowId)
    ensures forall id :: HasKey(SortBy(Flagged(rows), PeriodOrder), RowId, id) <==> HasKey(rows, RowId, id)
  {
    var f := Flagged(rows);
    FlaggedKeepsRows(rows);
    KeysPointwise(f, rows, RowId, RowId);
    UniqueKeysPermutation(f, SortBy(f, PeriodOrder), RowId);
    HasKeyPermutation(f, SortBy(f, PeriodOrder), RowId);
  }

  lemma ExportTotal(rows: seq<ConsolidatedRow>)
    ensures SumBy(SortBy(Flagged(rows), PeriodOrder), RowValor) == SumBy(rows, RowValor)
  {
    var f := Flagged(rows);
    FlaggedKeepsRows(rows);
    SumByPermutation(SortBy(f, PeriodOrder), f, RowValor);
    SumByPointwise(f, rows, RowValor, RowValor);
  }

  lemma ExportFlags(rows: seq<ConsolidatedRow>)
    requires rows != []
    ensures forall r :: r in SortBy(Flagged(rows), PeriodOrder) ==> r.flags == Some(RowFlags(r))
  {
    var f := Flagged(rows);
    FlaggedKeepsRows(rows);
    forall r | r in SortBy(f, PeriodOrder) ensures r in f {
      assert r in multiset(SortBy(f, PeriodOrder));
    }
  }

  /**
   * The exported rows are the validated rows sorted by (Ano, Trimestre,
   * RazaoSocial): the same identities, each once, with the same total,
   * and each flagged according to its own contents.
   */
  lemma SortedExport(rows: seq<ConsolidatedRow>)
    requires UniqueKeys(rows, RowId)
    ensures var out := SortBy(Flagged(rows), PeriodOrder);
            && Sorted(out, PeriodOrder)
            && UniqueKeys(out, RowId)
            && SumBy(out, RowValor) == SumBy(rows, RowValor)
            && (forall id :: HasKey(out, RowId, id) <==> HasKey(rows, RowId, id))
            && (rows != [] ==> forall r :: r in out ==> r.flags == Some(RowFlags(r)))
  {
    PeriodOrderTotal();
    SortBySorted(Flagged(rows), PeriodOrder);
    ExportKeys(rows);
    ExportTotal(rows);
    if rows != [] {
      ExportFlags(rows);
    }
  }

  // ---------------------------------------------------------------------
  // Outcome properties

  /** The registry columns reach the consolidated frame exactly when the master has them; ValorDespesas always does. */
  lemma ConsolidatedColumnsSpec(masterColumns: seq<string>)
    ensures CnpjCol in ConsolidatedColumns(masterColumns) <==> CnpjCol in masterColumns
    ensures RazaoCol in ConsolidatedColumns(masterColumns) <==> RazaoCol in masterColumns
    ensures UfCol in ConsolidatedColumns(masterColumns) <==> UfCol in masterColumns
    ensures ValorCol in ConsolidatedColumns(masterColumns)
  {
    assert GroupColumns[0] == CnpjCol && GroupColumns[1] == RazaoCol && GroupColumns[4] == UfCol;
    RegistryColumnReaches(masterColumns, CnpjCol);
    RegistryColumnReaches(masterColumns, RazaoCol);
    RegistryColumnReaches(masterColumns, UfCol);
    assert ConsolidatedColumns(masterColumns)[|ConsolidatedColumns(masterColumns)| - 1] == ValorCol;
  }

  /** A grouping column other than the accounting ones reaches the consolidated frame exactly when the master has it. */
  lemma RegistryColumnReaches(masterColumns: seq<string>, c: string)
    requires c in GroupColumns && c != ValorCol
    requires c != RegistroAns && c != AnoCol && c != TrimestreCol && c != SaldoCol
    ensures c in ConsolidatedColumns(masterColumns) <==> c in masterColumns
  {
    var others := Filter(masterColumns, (c: string) => c != RegistroAns);
    assert c in MergedColumns(masterColumns) <==> c in others;
  }

  lemma ConsolidateEmpty(js: seq<Joined>)
    ensures Consolidate(js) == [] <==> js == []
  {
    GroupSpec(Keyed(js));
    if js != [] {
      assert PairKey(Keyed(js)[0]) == IdentityOf(js[0]);
      assert HasKey(Keyed(js), PairKey, IdentityOf(js[0]));
    }
  }

  /** Something is left to consolidate exactly when some accounting line has a non-null, non-zero balance. */
  lemma EnrichedEmpty(acc: seq<Expense>, m: Master)
    ensures Enriched(TrimExpenseKeys(acc), m) == [] <==> forall e :: e in acc ==> !LineHasBalance(e)
  {
    if Enriched(TrimExpenseKeys(acc), m) != [] {
      EnrichedHasBalance(acc, m);
    }
    if exists e :: e in acc && LineHasBalance(e) {
      var e :| e in acc && LineHasBalance(e);
      var i :| 0 <= i < |acc| && acc[i] == e;
      BalanceReachesEnriched(acc, m, i);
    }
  }

  lemma EnrichedHasBalance(acc: seq<Expense>, m: Master)
    requires Enriched(TrimExpenseKeys(acc), m) != []
    ensures exists e :: e in acc && LineHasBalance(e)
  {
    var ta := TrimExpenseKeys(acc);
    var merged := MergeUnique(ta, m);
    var filled := FillAll(merged, m.columns);
    var j := Enriched(ta, m)[0];
    assert j in Enriched(ta, m);
    var k :| 0 <= k < |filled| && filled[k] == j;
    MergeUniqueSpec(ta, m);
    assert j.saldo == merged[k].saldo == ta[k].saldo == acc[k].saldo;
    assert acc[k] in acc;
  }

  lemma BalanceReachesEnriched(acc: seq<Expense>, m: Master, i: nat)
    requires i < |acc| && LineHasBalance(acc[i])
    ensures Enriched(TrimExpenseKeys(acc), m) != []
  {
    var ta := TrimExpenseKeys(acc);
    EnrichedCovers(ta, m);
    assert ta[i].saldo == acc[i].saldo;
    assert EnrichedLine(ta[i], m) in Enriched(ta, m);
  }

  /**
   * enrich_and_export skips exactly when an input is empty, and otherwise
   * ends in a KeyError exactly when the master lacks RazaoSocial or UF,
   * or lacks CNPJ while some line has a balance to consolidate.
   */
  lemma OutcomeSpec(acc: seq<Expense>, m: Master, deviation: seq<real> -> real)
    ensures EnrichOutcome(acc, m, deviation).Skipped? <==> acc == [] || m.rows == []
    ensures EnrichOutcome(acc, m, deviation).Crashed? <==>
              && acc != [] && m.rows != []
              && (|| RazaoCol !in m.columns || UfCol !in m.columns
                  || (CnpjCol !in m.columns && exists e :: e in acc && LineHasBalance(e)))
  {
    ConsolidatedColumnsSpec(m.columns);
    var js := Enriched(TrimExpenseKeys(acc), TrimMasterKeys(m));
    EnrichedEmpty(acc, TrimMasterKeys(m));
    ConsolidateEmpty(js);
  }

  /** The current master has CNPJ, RazaoSocial and UF exactly when the renamed registry does. */
  lemma CurrentMasterColumns(tables: seq<RawTable>)
    requires tables != [] && RegistroAns in Rename(Concat(tables), Current.aliases).header
    ensures var t := Rename(Concat(tables), Current.aliases);
            var m := BuildMaster(tables, Current);
            && (m.rows != [] <==> t.rows != [])
            && (CnpjCol in m.columns <==> CnpjCol in t.header)
            && (RazaoCol in m.columns <==> RazaoCol in t.header)
            && (UfCol in m.columns <==> UfCol in t.header)
  {
    var v := Current;
    assert v.key == RegistroAns && v.keep == [RegistroAns, CnpjCol, RazaoCol, ModalidadeCol, UfCol];
    BuildMasterSpec(tables, v);
    var t := Rename(Concat(tables), v.aliases);
    var all := RegistryRows(v, t);
    var m := BuildMaster(tables, v);
    if t.rows != [] {
      assert HasKey(all, MasterRowKey, MasterRowKey(all[0]));
      assert HasKey(m.rows, MasterRowKey, MasterRowKey(all[0]));
    }
    if m.rows != [] {
      assert HasKey(m.rows, MasterRowKey, MasterRowKey(m.rows[0]));
    }
  }

  /**
   * A run over registry rows whose files name the key, CNPJ, RazaoSocial
   * and UF (after the alias renames) never crashes: it exports, or skips when
   * there is no accounting line.
   */
  lemma RegistryColumnsAvoidCrash(acc: seq<Expense>, tables: seq<RawTable>, deviation: seq<real> -> real)
    requires tables != []
    requires var t := Rename(Concat(tables), Current.aliases);
             && t.rows != []
             && RegistroAns in t.header && CnpjCol in t.header && RazaoCol in t.header && UfCol in t.header
    ensures var out := EnrichOutcome(acc, BuildMaster(tables, Current), deviation);
            && (out.Skipped? <==> acc == [])
            && (out.Exported? <==> acc != [])
  {
    CurrentMasterColumns(tables);
    OutcomeSpec(acc, BuildMaster(tables, Current), deviation);
  }

  lemma ExportedTotal(acc: seq<Expense>, m: Master)
    ensures var rows := Consolidate(Enriched(TrimExpenseKeys(acc), TrimMasterKeys(m)));
            SumBy(SortBy(Flagged(rows), PeriodOrder), RowValor) == SumBy(acc, ExpenseBalance)
  {
    var ta := TrimExpenseKeys(acc);
    var js := Enriched(ta, TrimMasterKeys(m));
    ExportTotal(Consolidate(js));
    ConsolidateTotal(js);
    EnrichedTotal(ta, TrimMasterKeys(m));
    SumByPointwise(ta, acc, ExpenseBalance, ExpenseBalance);
  }

  /** The identities among the cleaned rows are those of the accounting lines with a balance. */
  lemma EnrichedIdentities(acc: seq<Expense>, m: Master)
    ensures forall id :: HasKey(Enriched(acc, m), IdentityOf, id) <==>
              exists e :: e in acc && LineHasBalance(e) && IdentityOf(EnrichedLine(e, m)) == id
  {
    forall id | HasKey(Enriched(acc, m), IdentityOf, id)
      ensures exists e :: e in acc && LineHasBalance(e) && IdentityOf(EnrichedLine(e, m)) == id
    {
      EnrichedIdentityFrom(acc, m, id);
    }
    forall e | e in acc && LineHasBalance(e) ensures HasKey(Enriched(acc, m), IdentityOf, IdentityOf(EnrichedLine(e, m))) {
      EnrichedIdentityOf(acc, m, e);
    }
  }

  lemma EnrichedIdentityFrom(acc: seq<Expense>, m: Master, id: Identity)
    requires HasKey(Enriched(acc, m), IdentityOf, id)
    ensures exists e :: e in acc && LineHasBalance(e) && IdentityOf(EnrichedLine(e, m)) == id
  {
    var js := Enriched(acc, m);
    EnrichedFrom(acc, m);
    var k :| 0 <= k < |js| && IdentityOf(js[k]) == id;
    assert js[k] in js;
    var i :| 0 <= i < |acc| && js[k] == EnrichedLine(acc[i], m);
    assert acc[i] in acc && LineHasBalance(acc[i]);
  }

  lemma EnrichedIdentityOf(acc: seq<Expense>, m: Master, e: Expense)
    requires e in acc && LineHasBalance(e)
    ensures HasKey(Enriched(acc, m), IdentityOf, IdentityOf(EnrichedLine(e, m)))
  {
    var js := Enriched(acc, m);
    EnrichedCovers(acc, m);
    var i :| 0 <= i < |acc| && acc[i] == e;
    var j := EnrichedLine(e, m);
    assert j in js;
    var k :| 0 <= k < |js| && js[k] == j;
  }

  /** What an exported outcome consists of. */
  lemma ExportedShape(acc: seq<Expense>, m: Master, deviation: seq<real> -> real)
    requires EnrichOutcome(acc, m, deviation).Exported?
    ensures var rows := Consolidate(Enriched(TrimExpenseKeys(acc), TrimMasterKeys(m)));
            var out := EnrichOutcome(acc, m, deviation);
            && out.rows == SortBy(Flagged(rows), PeriodOrder)
            && out.columns == (if rows == [] then ConsolidatedColumns(m.columns) else FlaggedColumns(ConsolidatedColumns(m.columns)))
  {
  }

  /**
   * When the run exports, the consolidated rows are sorted by (Ano,
   * Trimestre, RazaoSocial), hold one row per identity of an accounting
   * line with a balance, add up to the accounting total, and carry their
   * own quality flags.
   */
  lemma ExportedRowsSpec(acc: seq<Expense>, m: Master, deviation: seq<real> -> real)
    requires EnrichOutcome(acc, m, deviation).Exported?
    ensures var out := EnrichOutcome(acc, m, deviation).rows;
            var ta := TrimExpenseKeys(acc);
            && Sorted(out, PeriodOrder)
            && UniqueKeys(out, RowId)
            && (forall id :: HasKey(out, RowId, id) <==>
                  exists e :: e in ta && LineHasBalance(e) && IdentityOf(EnrichedLine(e, TrimMasterKeys(m))) == id)
            && SumBy(out, RowValor) == SumBy(acc, ExpenseBalance)
            && (forall r :: r in out ==> r.flags == Some(RowFlags(r)))
  {
    var ta := TrimExpenseKeys(acc);
    var js := Enriched(ta, TrimMasterKeys(m));
    var rows := Consolidate(js);
    ExportedShape(acc, m, deviation);
    var out := EnrichOutcome(acc, m, deviation).rows;
    assert out == SortBy(Flagged(rows), PeriodOrder);
    ConsolidateKeys(js);
    EnrichedIdentities(ta, TrimMasterKeys(m));
    SortedExport(rows);
    ExportedTotal(acc, m);
    if rows == [] {
      assert Flagged(rows) == [];
      assert out == [];
    }
  }

  /** The exported identities are those of the accounting lines with a balance. */
  lemma ExportedKeys(acc: seq<Expense>, m: Master, deviation: seq<real> -> real)
    requires EnrichOutcome(acc, m, deviation).Exported?
    ensures forall id :: HasKey(EnrichOutcome(acc, m, deviation).rows, RowId, id) <==>
              exists e :: e in TrimExpenseKeys(acc) && LineHasBalance(e) && IdentityOf(EnrichedLine(e, TrimMasterKeys(m))) == id
  {
    var ta := TrimExpenseKeys(acc);
    var js := Enriched(ta, TrimMasterKeys(m));
    var rows := Consolidate(js);
    ExportedShape(acc, m, deviation);
    ConsolidateKeys(js);
    EnrichedIdentities(ta, TrimMasterKeys(m));
    ExportKeys(rows);
  }

  /** The exported columns start with the consolidated ones and, when there are rows, hold every flag column. */
  lemma ExportedColumnsSpec(acc: seq<Expense>, m: Master, deviation: seq<real> -> real)
    requires EnrichOutcome(acc, m, deviation).Exported?
    ensures var out := EnrichOutcome(acc, m, deviation);
            var cc := ConsolidatedColumns(m.columns);
            && |cc| <= |out.columns|
            && out.columns[..|cc|] == cc
            && (out.rows != [] ==> forall f :: f in FlagColumns ==> f in out.columns)
  {
    var rows := Consolidate(Enriched(TrimExpenseKeys(acc), TrimMasterKeys(m)));
    ExportedShape(acc, m, deviation);
    FlaggedColumnsSpec(ConsolidatedColumns(m.columns));
    if rows == [] {
      assert Flagged(rows) == [];
    }
  }

  // ---------------------------------------------------------------------
  // An empty consolidation

  lemma NothingToConsolidateAsWritten(acc: seq<Expense>, m: Master)
    requires forall e :: e in acc ==> !LineHasBalance(e)
    ensures Consolidate(Filter(FillAll(Merge(TrimExpenseKeys(acc), TrimMasterKeys(m)), m.columns), HasBalance)) == []
  {
    var filled := FillAll(Merge(TrimExpenseKeys(acc), TrimMasterKeys(m)), m.columns);
    MergedWithoutBalance(acc, m);
    FilterNone(filled, HasBalance);
    ConsolidateEmpty([]);
  }

  /** Trimming, merging and filling carry balances along, so no balance appears from nowhere. */
  lemma MergedWithoutBalance(acc: seq<Expense>, m: Master)
    requires forall e :: e in acc ==> !LineHasBalance(e)
    ensures forall x :: x in FillAll(Merge(TrimExpenseKeys(acc), TrimMasterKeys(m)), m.columns) ==> !HasBalance(x)
  {
    var ta := TrimExpenseKeys(acc);
    TrimmedWithoutBalance(acc);
    var merged := Merge(ta, TrimMasterKeys(m));
    JoinAllBalances(ta, m.columns, TrimMasterKeys(m).rows);
    assert forall j :: j in merged ==> !HasBalance(j);
    FilledWithoutBalance(merged, m.columns);
  }

  lemma TrimmedWithoutBalance(acc: seq<Expense>)
    requires forall e :: e in acc ==> !LineHasBalance(e)
    ensures forall e :: e in TrimExpenseKeys(acc) ==> !LineHasBalance(e)
  {
    var ta := TrimExpenseKeys(acc);
    forall e | e in ta ensures !LineHasBalance(e) {
      var i :| 0 <= i < |ta| && ta[i] == e;
      assert acc[i] in acc;
    }
  }

  lemma FilledWithoutBalance(js: seq<Joined>, columns: seq<string>)
    requires forall j :: j in js ==> !HasBalance(j)
    ensures forall x :: x in FillAll(js, columns) ==> !HasBalance(x)
  {
    var filled := FillAll(js, columns);
    forall x | x in filled ensures !HasBalance(x) {
      var k :| 0 <= k < |filled| && filled[k] == x;
      assert js[k] in js;
    }
  }

  /**
   * As written, when no accounting line has a non-null, non-zero balance
   * the consolidated frame is empty, validation returns it without its
   * flag columns, and reading Registro_Conforme raises KeyError.
   */
  lemma NothingToConsolidateCrashesAsWritten(acc: seq<Expense>, m: Master, deviation: seq<real> -> real)
    requires acc != [] && m.rows != []
    requires forall e :: e in acc ==> !LineHasBalance(e)
    ensures EnrichOutcomeAsWritten(acc, m, deviation) == Crashed
  {
    NothingToConsolidateAsWritten(acc, m);
  }

  /**
   * With nothing to consolidate, the intended run exports an empty
   * consolidated file under the consolidated columns and an empty report,
   * as long as the report's columns exist.
   */
  lemma NothingToConsolidateExported(acc: seq<Expense>, m: Master, deviation: seq<real> -> real)
    requires acc != [] && m.rows != []
    requires forall e :: e in acc ==> !LineHasBalance(e)
    requires RazaoCol in m.columns && UfCol in m.columns
    ensures EnrichOutcome(acc, m, deviation) == Exported(ConsolidatedColumns(m.columns), [], [])
  {
    EnrichedEmpty(acc, TrimMasterKeys(m));
    ConsolidateEmpty([]);
    ConsolidatedColumnsSpec(m.columns);
    assert Aggregate([], deviation) == [];
  }

  /**
   * The as-written run and the intended one agree whenever the trimmed
   * registry keys are already distinct and something is left to
   * consolidate.
   */
  lemma AsWrittenAgrees(acc: seq<Expense>, m: Master, deviation: seq<real> -> real)
    requires UniqueKeys(TrimMasterKeys(m).rows, MasterRowKey)
    requires exists e :: e in acc && LineHasBalance(e)
    ensures EnrichOutcomeAsWritten(acc, m, deviation) == EnrichOutcome(acc, m, deviation)
  {
    DedupByOfUnique(TrimMasterKeys(m).rows, MasterRowKey);
    var js := Enriched(TrimExpenseKeys(acc), TrimMasterKeys(m));
    EnrichedEmpty(acc, TrimMasterKeys(m));
    ConsolidateEmpty(js);
  }

  // ---------------------------------------------------------------------
  // The processor object

  const TempDirName := "_temp_extraction"

  /**
   * os.path.join(dir, name) on POSIX: an absolute name replaces the
   * directory; otherwise the name follows the directory after one '/'.
   */
  function JoinPath(dir: string, name: string): (p: string)
    ensures |name| > 0 && name[0] == '/' ==> p == name
    ensures !(|name| > 0 && name[0] == '/') ==>
              && |dir| + |name| <= |p| <= |dir| + |name| + 1
              && p[..|dir|] == dir && p[|p| - |name|..] == name
              && (dir != [] ==> p[|p| - |name| - 1] == '/')
  {
    if |name| > 0 && name[0] == '/' then name
    else if dir == [] || dir[|dir| - 1] == '/' then dir + name
    else dir + "/" + name
  }

  /** A plain file name joined to a directory is the basename of the result. */
  lemma JoinPathBasename(dir: string, name: string)
    requires '/' !in name
    ensures Basename(JoinPath(dir, name)) == name
  {
    var p := JoinPath(dir, name);
    var k := BaseStart(p);
    var start := |p| - |name|;
    assert p[start..] == name;
    if dir != [] {
      assert p[start - 1] == '/';
      forall i | start <= i < |p| ensures p[i] != '/' {
        assert p[i] == name[i - start];
      }
      assert k == start;
    } else {
      assert p == name;
    }
  }

  /** Adding the flag columns neither adds nor removes RazaoSocial or UF. */
  lemma FlaggedColumnsKeep(columns: seq<string>)
    ensures RazaoCol in FlaggedColumns(columns) <==> RazaoCol in columns
    ensures UfCol in FlaggedColumns(columns) <==> UfCol in columns
  {
    FlaggedColumnsSpec(columns);
    assert columns == FlaggedColumns(columns)[..|columns|];
  }

  class DataProcessor {
    const inputFiles: seq<string>
    const outputDir: string
    const tempDir: string

    /** The temporary extraction directory lives inside the output directory. */
    constructor (inputFiles: seq<string>, outputDir: string)
      ensures this.inputFiles == inputFiles && this.outputDir == outputDir
      ensures this.tempDir == JoinPath(outputDir, TempDirName)
    {
      this.inputFiles := inputFiles;
      this.outputDir := outputDir;
      this.tempDir := JoinPath(outputDir, TempDirName);
    }

    /** _load_cadop_master: the master built from the input files whose name mentions "cadop". */
    method LoadCadopMaster(io: Storage) returns (m: Master)
      ensures m == BuildMaster(RegistryTables(io, Filter(inputFiles, IsRegistryFile)), Current)
    {
      m := LoadRegistryMaster(io, Current, inputFiles);
    }

    /** process_accounting_files: the expense lines of the input archives, in order. */
    method ProcessAccountingFiles(io: Storage) returns (rows: seq<Expense>)
      ensures rows == AccountingExpenses(io, Current, Filter(inputFiles, IsArchive))
    {
      rows := Extraction.ProcessAccountingFiles(io, Current, inputFiles);
    }

    /**
     * enrich_and_export: nothing happens when either frame is empty;
     * otherwise both key columns are trimmed in place and the outcome is
     * the one EnrichOutcome describes.
     */
    method EnrichAndExport(contabil: ExpenseFrame, cadop: MasterFrame, deviation: seq<real> -> real)
      returns (out: Outcome)
      modifies contabil, cadop
      ensures out == EnrichOutcome(old(contabil.rows), old(cadop.master), deviation)
      ensures out.Skipped? ==> contabil.rows == old(contabil.rows) && cadop.master == old(cadop.master)
      ensures !out.Skipped? ==> contabil.rows == TrimExpenseKeys(old(contabil.rows))
                                && cadop.master == TrimMasterKeys(old(cadop.master))
    {
      var acc, m := contabil.rows, cadop.master;
      if acc == [] || m.rows == [] {
        return Skipped;
      }
      contabil.rows := TrimExpenseKeys(acc);
      cadop.master := TrimMasterKeys(m);
      var columns := ConsolidatedColumns(cadop.master.columns);
      var rows := Consolidate(Enriched(contabil.rows, cadop.master));
      assert EnrichOutcome(acc, m, deviation) == Finish(rows, columns, deviation);
      var df := new ConsolidatedFrame(columns, rows);
      var ok := RunQualityChecks(df);
      if !ok {
        return Crashed;
      }
      assert df.rows == Flagged(rows);
      assert df.columns == if rows == [] then columns else FlaggedColumns(columns);
      FlaggedColumnsKeep(columns);
      if RazaoCol !in df.columns || UfCol !in df.columns {
        return Crashed;
      }
      out := Exported(df.columns, SortBy(df.rows, PeriodOrder), Report(df.rows, deviation));
    }

    /** run: load the master, read the archives, then enrich and export. */
    method Run(io: Storage, deviation: seq<real> -> real) returns (out: Outcome)
      ensures out == EnrichOutcome(AccountingExpenses(io, Current, Filter(inputFiles, IsArchive)),
                                   BuildMaster(RegistryTables(io, Filter(inputFiles, IsRegistryFile)), Current),
                                   deviation)
    {
      var master := LoadCadopMaster(io);
      var lines := ProcessAccountingFiles(io);
      var contabil := new ExpenseFrame(lines);
      var cadop := new MasterFrame(master);
      out := EnrichAndExport(contabil, cadop, deviation);
    }
  }
}
