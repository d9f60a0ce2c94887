/**
 * The superseded processor (src/processor.py): the same extraction keyed
 * on REG_ANS and keeping only [REG_ANS, CNPJ, RazaoSocial] from the
 * registry, then a left join without sentinels, a drop of the lines
 * without a balance or without a registry CNPJ, and a sum per (CNPJ,
 * RazaoSocial, Trimestre, Ano).
 */
module LegacyProcessor {
  import opened Wrappers
  import opened Text
  import opened Collections
  import opened Table
  import opened Frames
  import opened Extraction
  import opened Enrichment
  import Processor

  const LegacyKey := "REG_ANS"

  /** The legacy layout: registry aliases onto REG_ANS, three kept columns, no accounting rename of the key. */
  const Legacy := Variant(
    LegacyKey,
    map["REGISTRO_ANS" := LegacyKey, "REGISTRO_OPERADORA" := LegacyKey, "CD_NOTA" := LegacyKey,
        "CNPJ" := CnpjCol,
        "RAZAO_SOCIAL" := RazaoCol, "NO_RAZAO_SOCIAL" := RazaoCol, "NM_RAZAO_SOCIAL" := RazaoCol],
    [LegacyKey, CnpjCol, RazaoCol],
    map["CD_CONTA" := ContaCol, "DESCRI\U{00C7}\U{00C3}O" := DescricaoCol, "SALDO_FINAL" := SaldoCol])

  // ---------------------------------------------------------------------
  // Extraction under the legacy layout

  /** A registry column a layout does not keep is null in every row of its master. */
  lemma MasterWithout(tables: seq<RawTable>, v: Variant, c: string)
    requires v.key in v.keep && c !in v.keep && c != v.key
    requires c == ModalidadeCol || c == UfCol
    ensures c !in BuildMaster(tables, v).columns
    ensures forall r :: r in BuildMaster(tables, v).rows ==>
              (c == ModalidadeCol ==> r.modalidade.None?) && (c == UfCol ==> r.uf.None?)
  {
    BuildMasterSpec(tables, v);
    var m := BuildMaster(tables, v);
    if tables != [] {
      var t := Rename(Concat(tables), v.aliases);
      if v.key in t.header {
        var all := RegistryRows(v, t);
        forall r | r in m.rows ensures (c == ModalidadeCol ==> r.modalidade.None?) && (c == UfCol ==> r.uf.None?) {
          assert FirstWithKey(all, MasterRowKey, r.registro) == Some(r);
          var i :| 0 <= i < |all| && all[i] == r;
        }
      }
    }
  }

  /**
   * The legacy master: empty exactly when no table loaded or none names
   * the key, unique on REG_ANS, it has CNPJ and RazaoSocial exactly when
   * the renamed registry does, and it never has Modalidade or UF.
   */
  lemma LegacyMasterSpec(tables: seq<RawTable>)
    ensures var m := BuildMaster(tables, Legacy);
            && (m == EmptyMaster <==> tables == [] || LegacyKey !in Rename(Concat(tables), Legacy.aliases).header)
            && UniqueKeys(m.rows, MasterRowKey)
            && ModalidadeCol !in m.columns && UfCol !in m.columns
            && (forall r :: r in m.rows ==> r.modalidade.None? && r.uf.None?)
    ensures var t := Rename(Concat(tables), Legacy.aliases);
            var m := BuildMaster(tables, Legacy);
            tables != [] && LegacyKey in t.header ==>
              && (CnpjCol in m.columns <==> CnpjCol in t.header)
              && (RazaoCol in m.columns <==> RazaoCol in t.header)
  {
    var v := Legacy;
    assert v.key == LegacyKey && v.keep == [LegacyKey, CnpjCol, RazaoCol];
    BuildMasterSpec(tables, v);
    MasterWithout(tables, v, ModalidadeCol);
    MasterWithout(tables, v, UfCol);
  }

  /** A name that the rename map neither renames nor produces is present after renaming exactly when before. */
  lemma RenameKeepsName(t: RawTable, rename: map<string, string>, k: string)
    requires k !in rename && k !in rename.Values
    ensures k in Rename(t, rename).header <==> k in t.header
  {
    var r := Rename(t, rename);
    forall i | 0 <= i < |t.header| ensures r.header[i] == k <==> t.header[i] == k {
      var h := t.header[i];
      if h in rename {
        assert rename[h] in rename.Values;
      }
    }
    if k in r.header {
      var i :| 0 <= i < |r.header| && r.header[i] == k;
      assert t.header[i] == k;
    }
    if k in t.header {
      var i :| 0 <= i < |t.header| && t.header[i] == k;
      assert r.header[i] == k;
    }
  }

  /**
   * An accounting member contributes only if its own header already reads
   * REG_ANS after normalisation: no legacy rename produces that name.
   */
  lemma LegacyKeyNotRenamed(t: RawTable)
    ensures LegacyKey in NormalisedMember(t, Legacy).header <==>
            LegacyKey in MapHeader(t, NormaliseAccountingHeader).header
  {
    var rename := Legacy.accountingRename;
    assert LegacyKey[0] == 'R' && ContaCol[0] == 'C' && DescricaoCol[0] == 'D' && SaldoCol[0] == 'V';
    assert forall h :: h in rename ==> rename[h] != LegacyKey;
    assert LegacyKey !in rename;
    RenameKeepsName(MapHeader(t, NormaliseAccountingHeader), rename, LegacyKey);
  }

  // ---------------------------------------------------------------------
  // Enrichment: left join, dropna(VL_SALDO_FINAL), != 0, dropna(CNPJ)

  /** The merged line of accounting line e against master m. */
  function MergedLine(e: Expense, m: Master): Joined {
    JoinRow(e, m.columns, FirstWithKey(m.rows, MasterRowKey, e.registro))
  }

  /** The merged lines with a non-null, non-zero balance. */
  function Cleaned(acc: seq<Expense>, m: Master): seq<Joined> {
    Filter(MergeUnique(acc, m), Processor.HasBalance)
  }

  /**
   * A merged line takes part in the sum when it has a CNPJ (the others
   * are dropped) and a RazaoSocial (groupby drops null keys).
   */
  predicate Groupable(j: Joined) {
    j.cnpj.Some? && j.razao.Some?
  }

  /** An accounting line reaches the legacy output: it has a balance and a registry CNPJ and name. */
  predicate Reaches(e: Expense, m: Master) {
    Processor.LineHasBalance(e) && Groupable(MergedLine(e, m))
  }

  /** What line e adds to the legacy total. */
  function ReachedBalance(e: Expense, m: Master): real {
    if Reaches(e, m) then ExpenseBalance(e) else 0.0
  }

  // ---------------------------------------------------------------------
  // Consolidation: groupby([CNPJ, RazaoSocial, Trimestre, Ano]).sum()

  datatype LegacyIdentity = LegacyIdentity(cnpj: string, razao: string, trimestre: string, ano: string)

  datatype LegacyRow = LegacyRow(id: LegacyIdentity, valor: real)

  function IdentityOf(j: Joined): LegacyIdentity
    requires Groupable(j)
  {
    LegacyIdentity(j.cnpj.value, j.razao.value, j.trimestre, j.ano)
  }

  function GroupedBalance(j: Joined): real {
    if Groupable(j) then JoinedBalance(j) else 0.0
  }

  /** Each groupable line's balance under its identity, in order. */
  function Keyed(js: seq<Joined>): seq<(LegacyIdentity, real)> {
    if js == [] then []
    else
      var j := js[|js| - 1];
      Keyed(js[..|js| - 1]) + (if Groupable(j) then [(IdentityOf(j), JoinedBalance(j))] else [])
  }

  function RowsOf(bs: seq<Bucket<LegacyIdentity>>): seq<LegacyRow> {
    seq(|bs|, i requires 0 <= i < |bs| => LegacyRow(bs[i].key, Sum(bs[i].values)))
  }

  function Consolidate(js: seq<Joined>): seq<LegacyRow> {
    RowsOf(Group(Keyed(js)))
  }

  function RowId(r: LegacyRow): LegacyIdentity { r.id }

  function RowValor(r: LegacyRow): real { r.valor }

  /** sort_values(by=["Ano", "Trimestre", "RazaoSocial"]); every key is a string here. */
  predicate PeriodOrder(a: LegacyRow, b: LegacyRow) {
    if a.id.ano != b.id.ano then StrLe(a.id.ano, b.id.ano)
    else if a.id.trimestre != b.id.trimestre then StrLe(a.id.trimestre, b.id.trimestre)
    else StrLe(a.id.razao, b.id.razao)
  }

  /** Skipped: an input was empty. Crashed: a KeyError on CNPJ or RazaoSocial. Exported: the sorted rows. */
  datatype Outcome = Skipped | Crashed | Exported(rows: seq<LegacyRow>)

  /**
   * enrich_and_export of the legacy processor, with the master
   * deduplicated on the trimmed key (the as-written merge shares the
   * flaw of the current one).
   */
  function EnrichOutcome(acc: seq<Expense>, m: Master): Outcome {
    if acc == [] || m.rows == [] then Skipped
    else if CnpjCol !in m.columns || RazaoCol !in m.columns then Crashed
    else Exported(SortBy(Consolidate(Cleaned(TrimExpenseKeys(acc), TrimMasterKeys(m))), PeriodOrder))
  }

  // ---------------------------------------------------------------------
  // Properties

  lemma {:induction false} KeyedKeys(js: seq<Joined>)
    ensures forall k :: HasKey(Keyed(js), PairKey, k) <==> exists j :: j in js && Groupable(j) && IdentityOf(j) == k
  {
    if js != [] {
      var init, last := js[..|js| - 1], js[|js| - 1];
      KeyedKeys(init);
      var tail := if Groupable(last) then [(IdentityOf(last), JoinedBalance(last))] else [];
      assert js == init + [last];
      forall k ensures HasKey(Keyed(js), PairKey, k) <==> exists j :: j in js && Groupable(j) && IdentityOf(j) == k {
        HasKeyAppend(Keyed(init), tail, PairKey, k);
        if tail != [] {
          assert HasKey(tail, PairKey, k) <==> tail[0].0 == k;
        }
        if exists j :: j in js && Groupable(j) && IdentityOf(j) == k {
          var j :| j in js && Groupable(j) && IdentityOf(j) == k;
          if j != last {
            assert j in init;
          }
        }
      }
    }
  }

  lemma {:induction false} KeyedTotal(js: seq<Joined>)
    ensures Sum(SecondOf(Keyed(js))) == SumBy(js, GroupedBalance)
  {
    if js != [] {
      var init, last := js[..|js| - 1], js[|js| - 1];
      var tail := if Groupable(last) then [(IdentityOf(last), JoinedBalance(last))] else [];
      assert init + [last] == js;
      assert [last][..0] == [];
      assert Keyed(js) == Keyed(init) + tail;
      assert SecondOf(Keyed(js)) == SecondOf(Keyed(init)) + SecondOf(tail);
      assert Sum(SecondOf(tail)) == GroupedBalance(last) by {
        if tail != [] {
          assert SecondOf(tail) == [JoinedBalance(last)];
          assert SecondOf(tail)[..0] == [];
        }
      }
      KeyedTotal(init);
      SumAppend(SecondOf(Keyed(init)), SecondOf(tail));
      SumByAppend(init, [last], GroupedBalance);
    }
  }

  lemma {:induction false} RowsOfTotal(bs: seq<Bucket<LegacyIdentity>>)
    ensures SumBy(RowsOf(bs), RowValor) == BucketTotals(bs)
  {
    if bs != [] {
      RowsOfTotal(bs[1..]);
      var x := LegacyRow(bs[0].key, Sum(bs[0].values));
      assert RowsOf(bs) == [x] + RowsOf(bs[1..]);
      SumByAppend([x], RowsOf(bs[1..]), RowValor);
      assert [x][..0] == [];
    }
  }

  /**
   * The legacy consolidation has one row per identity of a line with a
   * CNPJ and a RazaoSocial, each the sum of that identity's balances,
   * and its total is the total of those lines.
   */
  lemma ConsolidateKeys(js: seq<Joined>)
    ensures UniqueKeys(Consolidate(js), RowId)
    ensures forall id :: HasKey(Consolidate(js), RowId, id) <==>
              exists j :: j in js && Groupable(j) && IdentityOf(j) == id
  {
    var s := Keyed(js);
    GroupSpec(s);
    KeysPointwise(Group(s), Consolidate(js), BucketKey, RowId);
    KeyedKeys(js);
  }

  lemma ConsolidateValues(js: seq<Joined>)
    ensures forall r :: r in Consolidate(js) ==> r.valor == Sum(Select(Keyed(js), r.id))
  {
    var s := Keyed(js);
    var bs := Group(s);
    var c := Consolidate(js);
    GroupSpec(s);
    forall r | r in c ensures r.valor == Sum(Select(s, r.id)) {
      var i :| 0 <= i < |c| && c[i] == r;
      FirstWithKeyOfUnique(bs, BucketKey, i);
    }
  }

  lemma ConsolidateTotal(js: seq<Joined>)
    ensures SumBy(Consolidate(js), RowValor) == SumBy(js, GroupedBalance)
  {
    GroupSpec(Keyed(js));
    RowsOfTotal(Group(Keyed(js)));
    KeyedTotal(js);
  }

  /**
   * The lines that reach the sum are the accounting lines with a balance
   * that matched a registry row with a CNPJ and a name; their total is
   * what those lines carry.
   */
  lemma CleanedSpec(acc: seq<Expense>, m: Master)
    ensures forall j :: j in Cleaned(acc, m) && Groupable(j) ==>
              exists e :: e in acc && Reaches(e, m) && j == MergedLine(e, m)
    ensures forall e :: e in acc && Reaches(e, m) ==> MergedLine(e, m) in Cleaned(acc, m)
    ensures SumBy(Cleaned(acc, m), GroupedBalance) == SumBy(acc, e => ReachedBalance(e, m))
  {
    CleanedFrom(acc, m);
    CleanedCovers(acc, m);
    CleanedTotal(acc, m);
  }

  lemma CleanedFrom(acc: seq<Expense>, m: Master)
    ensures forall j :: j in Cleaned(acc, m) && Groupable(j) ==>
              exists e :: e in acc && Reaches(e, m) && j == MergedLine(e, m)
  {
    var merged := MergeUnique(acc, m);
    MergeUniqueSpec(acc, m);
    forall j | j in Cleaned(acc, m) && Groupable(j) ensures exists e :: e in acc && Reaches(e, m) && j == MergedLine(e, m) {
      var i :| 0 <= i < |merged| && merged[i] == j;
      assert merged[i] == MergedLine(acc[i], m);
      assert acc[i] in acc && Reaches(acc[i], m);
    }
  }

  lemma CleanedCovers(acc: seq<Expense>, m: Master)
    ensures forall e :: e in acc && Reaches(e, m) ==> MergedLine(e, m) in Cleaned(acc, m)
  {
    var merged := MergeUnique(acc, m);
    MergeUniqueSpec(acc, m);
    forall e | e in acc && Reaches(e, m) ensures MergedLine(e, m) in Cleaned(acc, m) {
      var i :| 0 <= i < |acc| && acc[i] == e;
      assert merged[i] == MergedLine(acc[i], m);
      assert merged[i] in merged;
    }
  }

  lemma CleanedTotal(acc: seq<Expense>, m: Master)
    ensures SumBy(Cleaned(acc, m), GroupedBalance) == SumBy(acc, e => ReachedBalance(e, m))
  {
    var merged := MergeUnique(acc, m);
    MergeUniqueSpec(acc, m);
    assert forall i :: 0 <= i < |acc| ==> merged[i] == MergedLine(acc[i], m);
    SumByFilter(merged, Processor.HasBalance, GroupedBalance);
    SumByPointwise(merged, acc, GroupedBalance, e => ReachedBalance(e, m));
  }

  /** With no registry match, no cleaned line has a CNPJ, so none is summed. */
  lemma CleanedUngroupable(acc: seq<Expense>, m: Master)
    requires forall e :: e in acc ==> !HasKey(m.rows, MasterRowKey, e.registro)
    ensures forall j :: j in Cleaned(acc, m) ==> !Groupable(j)
  {
    var merged := MergeUnique(acc, m);
    MergeUniqueSpec(acc, m);
    forall j | j in Cleaned(acc, m) ensures !Groupable(j) {
      var i :| 0 <= i < |merged| && merged[i] == j;
      assert acc[i] in acc;
      assert merged[i] == MergedLine(acc[i], m);
    }
  }

  lemma PeriodOrderTotal()
    ensures Total(PeriodOrder)
  {
    forall a: LegacyRow, b: LegacyRow ensures PeriodOrder(a, b) || PeriodOrder(b, a) {
      StrLeTotal(a.id.ano, b.id.ano);
      StrLeTotal(a.id.trimestre, b.id.trimestre);
      StrLeTotal(a.id.razao, b.id.razao);
    }
  }

  /** Sorting keeps the rows, each once, and the total. */
  lemma SortedExport(rows: seq<LegacyRow>)
    requires UniqueKeys(rows, RowId)
    ensures var out := SortBy(rows, PeriodOrder);
            && Sorted(out, PeriodOrder)
            && UniqueKeys(out, RowId)
            && (forall id :: HasKey(out, RowId, id) <==> HasKey(rows, RowId, id))
            && SumBy(out, RowValor) == SumBy(rows, RowValor)
  {
    PeriodOrderTotal();
    SortBySorted(rows, PeriodOrder);
    UniqueKeysPermutation(rows, SortBy(rows, PeriodOrder), RowId);
    HasKeyPermutation(rows, SortBy(rows, PeriodOrder), RowId);
    SumByPermutation(SortBy(rows, PeriodOrder), rows, RowValor);
  }

  /** The consolidated identities are those of the accounting lines that reach the sum. */
  lemma ConsolidatedIdentities(acc: seq<Expense>, m: Master)
    ensures forall id :: HasKey(Consolidate(Cleaned(acc, m)), RowId, id) <==>
              exists e :: e in acc && Reaches(e, m) && IdentityOf(MergedLine(e, m)) == id
  {
    var js := Cleaned(acc, m);
    ConsolidateKeys(js);
    CleanedFrom(acc, m);
    CleanedCovers(acc, m);
    forall id ensures HasKey(Consolidate(js), RowId, id) <==>
                      exists e :: e in acc && Reaches(e, m) && IdentityOf(MergedLine(e, m)) == id
    {
      if HasKey(Consolidate(js), RowId, id) {
        var j :| j in js && Groupable(j) && IdentityOf(j) == id;
        var e :| e in acc && Reaches(e, m) && j == MergedLine(e, m);
      }
      if exists e :: e in acc && Reaches(e, m) && IdentityOf(MergedLine(e, m)) == id {
        var e :| e in acc && Reaches(e, m) && IdentityOf(MergedLine(e, m)) == id;
        assert MergedLine(e, m) in js;
      }
    }
  }

  /**
   * When the legacy run exports, its rows are sorted by (Ano, Trimestre,
   * RazaoSocial), hold one row per (CNPJ, RazaoSocial, Trimestre, Ano) of
   * an accounting line that reached the sum, and add up to the balances
   * of exactly those lines: an unmatched registry code contributes nothing.
   */
  lemma ExportedRowsSpec(acc: seq<Expense>, m: Master)
    requires EnrichOutcome(acc, m).Exported?
    ensures var out := EnrichOutcome(acc, m).rows;
            var ta, tm := TrimExpenseKeys(acc), TrimMasterKeys(m);
            && Sorted(out, PeriodOrder)
            && UniqueKeys(out, RowId)
            && (forall id :: HasKey(out, RowId, id) <==>
                  exists e :: e in ta && Reaches(e, tm) && IdentityOf(MergedLine(e, tm)) == id)
  {
    ExportedOrder(acc, m);
    ExportedKeys(acc, m);
  }

  lemma ExportedOrder(acc: seq<Expense>, m: Master)
    requires EnrichOutcome(acc, m).Exported?
    ensures Sorted(EnrichOutcome(acc, m).rows, PeriodOrder) && UniqueKeys(EnrichOutcome(acc, m).rows, RowId)
  {
    var rows := Consolidate(Cleaned(TrimExpenseKeys(acc), TrimMasterKeys(m)));
    assert EnrichOutcome(acc, m).rows == SortBy(rows, PeriodOrder);
    ConsolidateKeys(Cleaned(TrimExpenseKeys(acc), TrimMasterKeys(m)));
    PeriodOrderTotal();
    SortBySorted(rows, PeriodOrder);
    UniqueKeysPermutation(rows, SortBy(rows, PeriodOrder), RowId);
  }

  lemma ExportedKeys(acc: seq<Expense>, m: Master)
    requires EnrichOutcome(acc, m).Exported?
    ensures forall id :: HasKey(EnrichOutcome(acc, m).rows, RowId, id) <==>
              exists e :: e in TrimExpenseKeys(acc) && Reaches(e, TrimMasterKeys(m)) && IdentityOf(MergedLine(e, TrimMasterKeys(m))) == id
  {
    var ta, tm := TrimExpenseKeys(acc), TrimMasterKeys(m);
    var rows := Consolidate(Cleaned(ta, tm));
    assert EnrichOutcome(acc, m).rows == SortBy(rows, PeriodOrder);
    ConsolidatedIdentities(ta, tm);
    HasKeyPermutation(rows, SortBy(rows, PeriodOrder), RowId);
  }

  lemma ExportedTotal(acc: seq<Expense>, m: Master)
    requires EnrichOutcome(acc, m).Exported?
    ensures var tm := TrimMasterKeys(m);
            SumBy(EnrichOutcome(acc, m).rows, RowValor) == SumBy(TrimExpenseKeys(acc), e => ReachedBalance(e, tm))
  {
    var ta, tm := TrimExpenseKeys(acc), TrimMasterKeys(m);
    var js := Cleaned(ta, tm);
    var rows := Consolidate(js);
    assert EnrichOutcome(acc, m).rows == SortBy(rows, PeriodOrder);
    SumByPermutation(SortBy(rows, PeriodOrder), rows, RowValor);
    ConsolidateTotal(js);
    CleanedTotal(ta, tm);
  }

  // ---------------------------------------------------------------------
  // What the two processors do differently

  /**
   * When no accounting line matches a registry row, the legacy run
   * exports nothing at all.
   */
  lemma NoMatchNothingExported(acc: seq<Expense>, m: Master)
    requires EnrichOutcome(acc, m).Exported?
    requires forall e :: e in TrimExpenseKeys(acc) ==> !HasKey(TrimMasterKeys(m).rows, MasterRowKey, e.registro)
    ensures EnrichOutcome(acc, m).rows == []
  {
    var ta, tm := TrimExpenseKeys(acc), TrimMasterKeys(m);
    var js := Cleaned(ta, tm);
    CleanedUngroupable(ta, tm);
    KeyedNone(js);
    assert Consolidate(js) == [];
  }

  lemma {:induction false} KeyedNone(js: seq<Joined>)
    requires forall j :: j in js ==> !Groupable(j)
    ensures Keyed(js) == []
  {
    if js != [] {
      assert js[|js| - 1] in js;
      KeyedNone(js[..|js| - 1]);
    }
  }

  /**
   * A line with a balance whose registry code matches no registry row
   * reaches the current export under the sentinel CNPJ, but never reaches
   * the legacy sum.
   */
  lemma UnmatchedLineContrast(acc: seq<Expense>, m: Master, deviation: seq<real> -> real, i: nat)
    requires i < |acc| && Processor.LineHasBalance(acc[i])
    requires !HasKey(TrimMasterKeys(m).rows, MasterRowKey, TrimExpenseKeys(acc)[i].registro)
    requires CnpjCol in m.columns
    requires Processor.EnrichOutcome(acc, m, deviation).Exported?
    ensures var ta, tm := TrimExpenseKeys(acc), TrimMasterKeys(m);
            var j := Processor.EnrichedLine(ta[i], tm);
            && j.cnpj == Some(Processor.CnpjSentinel)
            && HasKey(Processor.EnrichOutcome(acc, m, deviation).rows, Processor.RowId, Processor.IdentityOf(j))
            && !Reaches(ta[i], tm)
  {
    var ta, tm := TrimExpenseKeys(acc), TrimMasterKeys(m);
    assert ta[i].saldo == acc[i].saldo;
    Processor.UnmatchedLineFilled(ta, tm, i);
    UnmatchedNotReached(ta, tm, i);
    Processor.ExportedKeys(acc, m, deviation);
    assert ta[i] in ta;
  }

  /** A line whose registry code matches no registry row has no CNPJ after the legacy merge. */
  lemma UnmatchedNotReached(acc: seq<Expense>, m: Master, i: nat)
    requires i < |acc| && !HasKey(m.rows, MasterRowKey, acc[i].registro)
    ensures !Reaches(acc[i], m)
  {
    assert MergedLine(acc[i], m).cnpj.None?;
  }

  /**
   * Two lines of one period under different registry codes that belong to
   * the same CNPJ and RazaoSocial: the legacy run sums them into a single
   * row, the current run keeps one row per code.
   */
  lemma SharedOperatorContrast(acc: seq<Expense>, m: Master, deviation: seq<real> -> real, i: nat, k: nat)
    requires i < |acc| && k < |acc|
    requires var ta, tm := TrimExpenseKeys(acc), TrimMasterKeys(m);
             && Reaches(ta[i], tm) && Reaches(ta[k], tm)
             && ta[i].registro != ta[k].registro
             && MergedLine(ta[i], tm).cnpj == MergedLine(ta[k], tm).cnpj
             && MergedLine(ta[i], tm).razao == MergedLine(ta[k], tm).razao
             && acc[i].ano == acc[k].ano && acc[i].trimestre == acc[k].trimestre
    requires EnrichOutcome(acc, m).Exported?
    requires Processor.EnrichOutcome(acc, m, deviation).Exported?
    ensures var ta, tm := TrimExpenseKeys(acc), TrimMasterKeys(m);
            var id := IdentityOf(MergedLine(ta[i], tm));
            && id == IdentityOf(MergedLine(ta[k], tm))
            && HasKey(EnrichOutcome(acc, m).rows, RowId, id)
            && UniqueKeys(EnrichOutcome(acc, m).rows, RowId)
    ensures var ta, tm := TrimExpenseKeys(acc), TrimMasterKeys(m);
            var a, b := Processor.IdentityOf(Processor.EnrichedLine(ta[i], tm)), Processor.IdentityOf(Processor.EnrichedLine(ta[k], tm));
            && a != b
            && HasKey(Processor.EnrichOutcome(acc, m, deviation).rows, Processor.RowId, a)
            && HasKey(Processor.EnrichOutcome(acc, m, deviation).rows, Processor.RowId, b)
  {
    var ta, tm := TrimExpenseKeys(acc), TrimMasterKeys(m);
    ExportedRowsSpec(acc, m);
    Processor.ExportedRowsSpec(acc, m, deviation);
    assert ta[i] in ta && ta[k] in ta;
    assert Processor.EnrichedLine(ta[i], tm).registro == KeyString(ta[i].registro);
    assert Processor.EnrichedLine(ta[k], tm).registro == KeyString(ta[k].registro);
  }

  // ---------------------------------------------------------------------
  // The legacy processor object

  class DataProcessor {
    const inputFiles: seq<string>
    const outputDir: string
    const tempDir: string

    /** The temporary extraction directory lives inside the output directory. */
    constructor (inputFiles: seq<string>, outputDir: string)
      ensures this.inputFiles == inputFiles && this.outputDir == outputDir
      ensures this.tempDir == Processor.JoinPath(outputDir, Processor.TempDirName)
    {
      this.inputFiles := inputFiles;
      this.outputDir := outputDir;
      this.tempDir := Processor.JoinPath(outputDir, Processor.TempDirName);
    }

    /** _load_cadop_master: the REG_ANS-keyed master of the input files whose name mentions "cadop". */
    method LoadCadopMaster(io: Storage) returns (m: Master)
      ensures m == BuildMaster(RegistryTables(io, Filter(inputFiles, IsRegistryFile)), Legacy)
    {
      m := LoadRegistryMaster(io, Legacy, inputFiles);
    }

    /** process_accounting_files: the REG_ANS-keyed expense lines of the input archives. */
    method ProcessAccountingFiles(io: Storage) returns (rows: seq<Expense>)
      ensures rows == AccountingExpenses(io, Legacy, Filter(inputFiles, IsArchive))
    {
      rows := Extraction.ProcessAccountingFiles(io, Legacy, inputFiles);
    }

    /**
     * enrich_and_export: nothing happens when either frame is empty;
     * otherwise both key columns are trimmed in place and the outcome is
     * the one EnrichOutcome describes.
     */
    method EnrichAndExport(contabil: ExpenseFrame, cadop: MasterFrame) returns (out: Outcome)
      modifies contabil, cadop
      ensures out == EnrichOutcome(old(contabil.rows), old(cadop.master))
      ensures out.Skipped? ==> contabil.rows == old(contabil.rows) && cadop.master == old(cadop.master)
      ensures !out.Skipped? ==> contabil.rows == TrimExpenseKeys(old(contabil.rows))
                                && cadop.master == TrimMasterKeys(old(cadop.master))
    {
      if contabil.rows == [] || cadop.master.rows == [] {
        return Skipped;
      }
      contabil.rows := TrimExpenseKeys(contabil.rows);
      cadop.master := TrimMasterKeys(cadop.master);
      if CnpjCol !in cadop.master.columns || RazaoCol !in cadop.master.columns {
        return Crashed;
      }
      var rows := Consolidate(Cleaned(contabil.rows, cadop.master));
      out := Exported(SortBy(rows, PeriodOrder));
    }

    /** run: load the master, read the archives, then enrich and export. */
    method Run(io: Storage) returns (out: Outcome)
      ensures out == EnrichOutcome(AccountingExpenses(io, Legacy, Filter(inputFiles, IsArchive)),
                                   BuildMaster(RegistryTables(io, Filter(inputFiles, IsRegistryFile)), Legacy))
    {
      var master := LoadCadopMaster(io);
      var lines := ProcessAccountingFiles(io);
      var contabil := new ExpenseFrame(lines);
      var cadop := new MasterFrame(master);
      out := EnrichAndExport(contabil, cadop);
    }
  }
}
