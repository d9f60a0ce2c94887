/**
 * The extraction stages shared by both processor versions: building the
 * operator master from the registry (CADOP) files, and pulling the
 * expense lines out of the quarterly accounting archives. A `Variant`
 * carries what the two versions name differently. File system access is
 * the `Storage` oracle: what each file or archive member reads as.
 */
module Extraction {
  import opened Wrappers
  import opened Text
  import opened Collections
  import opened Table
  import opened Period
  import opened Locale
  import opened Frames

  /**
   * What a processor version fixes: the key column's name, the registry
   * alias map, the registry columns kept (in order), and the rename map
   * applied to accounting headers.
   */
  datatype Variant = Variant(
    key: string,
    aliases: map<string, string>,
    keep: seq<string>,
    accountingRename: map<string, string>)

  /** Extracting an archive member can fail (the exception ends that archive), or the file can be unreadable. */
  datatype MemberRead = ExtractFailed | Unreadable | Loaded(table: RawTable)

  /**
   * readTable: _load_dataframe_robust on a registry file (None when it
   * cannot be read); listArchive: the member names of a zip (None when it
   * cannot be opened); openMember: extracting and reading one member.
   */
  datatype Storage = Storage(
    readTable: string -> Option<RawTable>,
    listArchive: string -> Option<seq<string>>,
    openMember: (string, string) -> MemberRead)

  // ---------------------------------------------------------------------
  // The operator master

  predicate IsRegistryFile(path: string) {
    Contains(Lower(Basename(path)), "cadop")
  }

  /** df.columns.str.upper().str.strip() */
  function NormaliseRegistryHeader(h: string): string {
    Strip(Upper(h))
  }

  /** The registry files that loaded, in order, with normalised headers. */
  function RegistryTables(io: Storage, files: seq<string>): seq<RawTable> {
    if files == [] then []
    else
      var loaded := RegistryTables(io, files[..|files| - 1]);
      match io.readTable(files[|files| - 1])
      case None => loaded
      case Some(t) => loaded + [MapHeader(t, NormaliseRegistryHeader)]
  }

  function KeptCell(v: Variant, header: seq<string>, row: Row, name: string): Option<string> {
    if name in v.keep then Cell(header, row, name) else None
  }

  function MasterRowOf(v: Variant, header: seq<string>, row: Row): MasterRow {
    MasterRow(
      Cell(header, row, v.key),
      KeptCell(v, header, row, CnpjCol),
      KeptCell(v, header, row, RazaoCol),
      KeptCell(v, header, row, ModalidadeCol),
      KeptCell(v, header, row, UfCol))
  }

  function MasterRowKey(r: MasterRow): Option<string> { r.registro }

  /** The registry rows of the renamed concatenation, before deduplication. */
  function RegistryRows(v: Variant, t: RawTable): seq<MasterRow> {
    seq(|t.rows|, i requires 0 <= i < |t.rows| => MasterRowOf(v, t.header, t.rows[i]))
  }

  /** Concatenate, rename the aliases, check the key, keep the canonical columns, deduplicate on the key. */
  function BuildMaster(tables: seq<RawTable>, v: Variant): Master {
    if tables == [] then EmptyMaster
    else
      var t := Rename(Concat(tables), v.aliases);
      if v.key !in t.header then EmptyMaster
      else Master(Filter(v.keep, (c: string) => c in t.header), DedupBy(RegistryRows(v, t), MasterRowKey))
  }

  /**
   * _load_cadop_master: reads every file whose base name contains "cadop"
   * (in any case), normalises each header, and builds the master.
   */
  method LoadRegistryMaster(io: Storage, v: Variant, files: seq<string>) returns (m: Master)
    ensures m == BuildMaster(RegistryTables(io, Filter(files, IsRegistryFile)), v)
  {
    var cadop := Filter(files, IsRegistryFile);
    var dfs: seq<RawTable> := [];
    var i := 0;
    while i < |cadop|
      invariant 0 <= i <= |cadop|
      invariant dfs == RegistryTables(io, cadop[..i])
    {
      assert cadop[..i + 1][..i] == cadop[..i];
      var df := io.readTable(cadop[i]);
      if df.Some? {
        dfs := dfs + [MapHeader(df.value, NormaliseRegistryHeader)];
      }
      i := i + 1;
    }
    assert cadop[..i] == cadop;
    m := BuildMaster(dfs, v);
  }

  /**
   * The master is empty exactly when no registry table loaded or the key
   * column is missing after renaming; otherwise its columns are exactly
   * the kept canonical columns that the renamed registry has, its keys are unique,
   * every key of the registry rows survives, and each kept row is the
   * first registry row with its key.
   */
  lemma BuildMasterSpec(tables: seq<RawTable>, v: Variant)
    requires v.key in v.keep
    ensures var m := BuildMaster(tables, v);
            && (m == EmptyMaster
                <==> tables == [] || v.key !in Rename(Concat(tables), v.aliases).header)
            && (forall c :: c in m.columns ==> c in v.keep)
            && UniqueKeys(m.rows, MasterRowKey)
    ensures tables != [] && v.key in Rename(Concat(tables), v.aliases).header ==>
              var all := RegistryRows(v, Rename(Concat(tables), v.aliases));
              var m := BuildMaster(tables, v);
              && (forall c :: c in m.columns <==> c in v.keep && c in Rename(Concat(tables), v.aliases).header)
              && (forall k :: HasKey(m.rows, MasterRowKey, k) <==> HasKey(all, MasterRowKey, k))
              && (forall r :: r in m.rows ==> FirstWithKey(all, MasterRowKey, r.registro) == Some(r))
  {
    var m := BuildMaster(tables, v);
    if tables != [] {
      var t := Rename(Concat(tables), v.aliases);
      if v.key in t.header {
        var all := RegistryRows(v, t);
        DedupByKeys(all, MasterRowKey);
        DedupByKeepsFirst(all, MasterRowKey);
        assert v.key in Filter(v.keep, (c: string) => c in t.header);
      }
    }
  }

  /** Building the master from its own rows' perspective is stable: deduplicating it again changes nothing. */
  lemma MasterDedupStable(tables: seq<RawTable>, v: Variant)
    requires v.key in v.keep
    ensures DedupBy(BuildMaster(tables, v).rows, MasterRowKey) == BuildMaster(tables, v).rows
  {
    BuildMasterSpec(tables, v);
    DedupByOfUnique(BuildMaster(tables, v).rows, MasterRowKey);
  }

  // ---------------------------------------------------------------------
  // The accounting archives

  /** df.columns.str.strip().str.upper().str.replace("Ç", "C").str.replace("Ã", "A") */
  function NormaliseAccountingHeader(h: string): string {
    ReplaceChar(ReplaceChar(Upper(Strip(h)), '\U{00C7}', 'C'), '\U{00C3}', 'A')
  }

  const DescricaoCol := "DESCRICAO"
  const ContaCol := "CD_CONTA_CONTABIL"

  function Required(v: Variant): seq<string> {
    [v.key, ContaCol, DescricaoCol, SaldoCol]
  }

  predicate IsTabularMember(name: string) {
    var lower := Lower(name);
    EndsWith(lower, ".csv") || EndsWith(lower, ".txt") || EndsWith(lower, ".xlsx")
  }

  /** str.contains("EVENTO|SINISTRO", case=False, na=False) on one description cell. */
  predicate IsExpenseLine(desc: Option<string>) {
    desc.Some? && (ContainsIgnoringCase(desc.value, "EVENTO") || ContainsIgnoringCase(desc.value, "SINISTRO"))
  }

  /**
   * Spellings the IGNORECASE search accepts beyond plain case changes: a
   * dotted or dotless capital I and a long s still make an expense line,
   * while a description naming neither word does not, and a null one never does.
   */
  lemma ExpenseLineSpellings()
    ensures IsExpenseLine(Some("S\U{0130}N\U{0130}STRO"))
    ensures IsExpenseLine(Some("s\U{0131}n\U{0131}stro"))
    ensures IsExpenseLine(Some("\U{017F}INISTRO"))
    ensures IsExpenseLine(Some("Eventos"))
    ensures !IsExpenseLine(Some("TAXAS"))
    ensures !IsExpenseLine(None)
  {
    assert OccursAt(Fold("S\U{0130}N\U{0130}STRO"), Fold("SINISTRO"), 0);
    assert OccursAt(Fold("s\U{0131}n\U{0131}stro"), Fold("SINISTRO"), 0);
    assert OccursAt(Fold("\U{017F}INISTRO"), Fold("SINISTRO"), 0);
    assert OccursAt(Fold("Eventos"), Fold("EVENTO"), 0);
  }

  /** A member table after header normalisation and the rename map. */
  function NormalisedMember(t: RawTable, v: Variant): RawTable {
    Rename(MapHeader(t, NormaliseAccountingHeader), v.accountingRename)
  }

  predicate HasRequired(n: RawTable, v: Variant) {
    forall c :: c in Required(v) ==> c in n.header
  }

  function ToExpense(n: RawTable, v: Variant, ano: string, trimestre: string, row: Row): Expense {
    Expense(Cell(n.header, row, v.key), ano, trimestre, ToNumber(Cell(n.header, row, SaldoCol)))
  }

  /** The expense lines of one member, converted and tagged with the archive's period. */
  function MemberExpenses(t: RawTable, v: Variant, ano: string, trimestre: string): seq<Expense> {
    var n := NormalisedMember(t, v);
    if !HasRequired(n, v) then []
    else
      var kept := Filter(n.rows, (r: Row) => IsExpenseLine(Cell(n.header, r, DescricaoCol)));
      seq(|kept|, i requires 0 <= i < |kept| => ToExpense(n, v, ano, trimestre, kept[i]))
  }

  /** Progress through an archive's members: the rows so far, and whether an exception ended it. */
  datatype Scan = Scan(rows: seq<Expense>, stopped: bool)

  /** One member of the archive: read it unless the scan has stopped or the member is not tabular. */
  function ScanNext(io: Storage, v: Variant, zip: string, s: Scan, name: string, ano: string, trimestre: string): Scan {
    if s.stopped || !IsTabularMember(name) then s
    else
      match io.openMember(zip, name)
      case ExtractFailed => Scan(s.rows, true)
      case Unreadable => s
      case Loaded(t) => Scan(s.rows + MemberExpenses(t, v, ano, trimestre), false)
  }

  function ScanMembers(io: Storage, v: Variant, zip: string, members: seq<string>, ano: string, trimestre: string): Scan {
    if members == [] then Scan([], false)
    else ScanNext(io, v, zip, ScanMembers(io, v, zip, members[..|members| - 1], ano, trimestre), members[|members| - 1], ano, trimestre)
  }

  lemma ScanPrefix(io: Storage, v: Variant, zip: string, members: seq<string>, j: nat, ano: string, trimestre: string)
    requires j < |members|
    ensures ScanMembers(io, v, zip, members[..j + 1], ano, trimestre)
            == ScanNext(io, v, zip, ScanMembers(io, v, zip, members[..j], ano, trimestre), members[j], ano, trimestre)
  {
    assert members[..j + 1][..j] == members[..j];
  }

  /** What one archive contributes: nothing without a year and a quarter in its name. */
  function ArchiveExpenses(io: Storage, v: Variant, zip: string): seq<Expense> {
    var period := IdentifyPeriod(Basename(zip));
    if period.0.None? || period.1.None? then []
    else
      match io.listArchive(zip)
      case None => []
      case Some(members) => ScanMembers(io, v, zip, members, period.0.value, period.1.value).rows
  }

  function AccountingExpenses(io: Storage, v: Variant, zips: seq<string>): seq<Expense> {
    if zips == [] then []
    else AccountingExpenses(io, v, zips[..|zips| - 1]) + ArchiveExpenses(io, v, zips[|zips| - 1])
  }

  predicate IsArchive(path: string) {
    EndsWith(path, ".zip")
  }

  /**
   * A member lacking one of the required columns contributes nothing;
   * otherwise a line is taken exactly when its description mentions
   * EVENTO or SINISTRO in any case (a null description never does), and
   * every line taken carries the archive's Ano and Trimestre.
   */
  lemma MemberExpensesSpec(t: RawTable, v: Variant, ano: string, trimestre: string)
    ensures var n := NormalisedMember(t, v);
            var out := MemberExpenses(t, v, ano, trimestre);
            && (!HasRequired(n, v) ==> out == [])
            && (forall e :: e in out ==> e.ano == ano && e.trimestre == trimestre)
            && (forall e :: e in out ==>
                  exists r :: r in n.rows && IsExpenseLine(Cell(n.header, r, DescricaoCol)) && e == ToExpense(n, v, ano, trimestre, r))
            && (HasRequired(n, v) ==>
                  forall r :: r in n.rows && IsExpenseLine(Cell(n.header, r, DescricaoCol)) ==> ToExpense(n, v, ano, trimestre, r) in out)
  {
    var n := NormalisedMember(t, v);
    var out := MemberExpenses(t, v, ano, trimestre);
    if HasRequired(n, v) {
      var kept := Filter(n.rows, (r: Row) => IsExpenseLine(Cell(n.header, r, DescricaoCol)));
      forall e | e in out
        ensures exists r :: r in n.rows && IsExpenseLine(Cell(n.header, r, DescricaoCol)) && e == ToExpense(n, v, ano, trimestre, r)
      {
        var i :| 0 <= i < |out| && out[i] == e;
        assert kept[i] in kept;
      }
      forall r | r in n.rows && IsExpenseLine(Cell(n.header, r, DescricaoCol))
        ensures ToExpense(n, v, ano, trimestre, r) in out
      {
        assert r in kept;
        var i :| 0 <= i < |kept| && kept[i] == r;
        assert out[i] == ToExpense(n, v, ano, trimestre, r);
      }
    }
  }

  /** What a member row adds to the accounting total: its converted balance when its description marks an expense. */
  function RowExpenseAmount(n: RawTable, r: Row): real {
    if IsExpenseLine(Cell(n.header, r, DescricaoCol)) then Balance(ToNumber(Cell(n.header, r, SaldoCol))) else 0.0
  }

  /**
   * Every expense line of a member reaches the extracted lines once:
   * their total is the total of the member's EVENTO/SINISTRO rows, so no
   * sub-account line is lost or counted twice.
   */
  lemma MemberExpensesTotal(t: RawTable, v: Variant, ano: string, trimestre: string)
    ensures var n := NormalisedMember(t, v);
            SumBy(MemberExpenses(t, v, ano, trimestre), ExpenseBalance)
              == if HasRequired(n, v) then SumBy(n.rows, (r: Row) => RowExpenseAmount(n, r)) else 0.0
  {
    var n := NormalisedMember(t, v);
    if HasRequired(n, v) {
      var p := (r: Row) => IsExpenseLine(Cell(n.header, r, DescricaoCol));
      var f := (r: Row) => RowExpenseAmount(n, r);
      var kept := Filter(n.rows, (r: Row) => IsExpenseLine(Cell(n.header, r, DescricaoCol)));
      var out := MemberExpenses(t, v, ano, trimestre);
      assert |out| == |kept|;
      forall i | 0 <= i < |out| ensures ExpenseBalance(out[i]) == f(kept[i]) {
        assert kept[i] in kept;
        assert out[i] == ToExpense(n, v, ano, trimestre, kept[i]);
      }
      SumByPointwise(out, kept, ExpenseBalance, f);
      SumByFilter(n.rows, p, f);
    }
  }

  /** What one archive member adds to the total: the expense total of its rows, when it is tabular and loads. */
  function MemberAmount(io: Storage, v: Variant, zip: string, name: string): real {
    if !IsTabularMember(name) then 0.0
    else
      match io.openMember(zip, name)
      case Loaded(t) =>
        var n := NormalisedMember(t, v);
        if HasRequired(n, v) then SumBy(n.rows, (r: Row) => RowExpenseAmount(n, r)) else 0.0
      case _ => 0.0
  }

  /** Extracting the member raises no exception (only tabular members are extracted). */
  predicate ExtractsCleanly(io: Storage, zip: string, name: string) {
    IsTabularMember(name) ==> !io.openMember(zip, name).ExtractFailed?
  }

  /**
   * When no member fails to extract, the scan reads every member and the
   * total of its lines is the sum of the members' expense totals.
   */
  lemma {:induction false} ScanMembersTotal(io: Storage, v: Variant, zip: string, members: seq<string>, ano: string, trimestre: string)
    requires forall name :: name in members ==> ExtractsCleanly(io, zip, name)
    ensures !ScanMembers(io, v, zip, members, ano, trimestre).stopped
    ensures SumBy(ScanMembers(io, v, zip, members, ano, trimestre).rows, ExpenseBalance)
            == SumBy(members, (name: string) => MemberAmount(io, v, zip, name))
  {
    if members != [] {
      var init, last := members[..|members| - 1], members[|members| - 1];
      assert forall name :: name in init ==> name in members;
      assert last in members;
      ScanMembersTotal(io, v, zip, init, ano, trimestre);
      var s := ScanMembers(io, v, zip, init, ano, trimestre);
      if IsTabularMember(last) {
        match io.openMember(zip, last)
        case Loaded(t) =>
          SumByAppend(s.rows, MemberExpenses(t, v, ano, trimestre), ExpenseBalance);
          MemberExpensesTotal(t, v, ano, trimestre);
        case Unreadable =>
      }
    }
  }

  /**
   * An archive whose members all extract contributes the sum of its
   * members' expense totals when its name carries a year and a quarter,
   * and nothing otherwise.
   */
  lemma ArchiveExpensesTotal(io: Storage, v: Variant, zip: string, members: seq<string>)
    requires io.listArchive(zip) == Some(members)
    requires forall name :: name in members ==> ExtractsCleanly(io, zip, name)
    ensures var period := IdentifyPeriod(Basename(zip));
            SumBy(ArchiveExpenses(io, v, zip), ExpenseBalance)
              == if period.0.None? || period.1.None? then 0.0
                 else SumBy(members, (name: string) => MemberAmount(io, v, zip, name))
  {
    var period := IdentifyPeriod(Basename(zip));
    if period.0.Some? && period.1.Some? {
      var ano, trimestre := period.0.value, period.1.value;
      assert ArchiveExpenses(io, v, zip) == ScanMembers(io, v, zip, members, ano, trimestre).rows;
      ScanMembersTotal(io, v, zip, members, ano, trimestre);
    } else {
      assert ArchiveExpenses(io, v, zip) == [];
    }
  }

  /** The accounting lines of several archives add up to the sum of the archives' totals. */
  lemma {:induction false} AccountingExpensesTotal(io: Storage, v: Variant, zips: seq<string>)
    ensures SumBy(AccountingExpenses(io, v, zips), ExpenseBalance)
            == SumBy(zips, (z: string) => SumBy(ArchiveExpenses(io, v, z), ExpenseBalance))
  {
    if zips != [] {
      var init, last := zips[..|zips| - 1], zips[|zips| - 1];
      AccountingExpensesTotal(io, v, init);
      SumByAppend(AccountingExpenses(io, v, init), ArchiveExpenses(io, v, last), ExpenseBalance);
    }
  }

  lemma {:induction false} ScanMembersTagged(io: Storage, v: Variant, zip: string, members: seq<string>, ano: string, trimestre: string)
    ensures forall e :: e in ScanMembers(io, v, zip, members, ano, trimestre).rows ==> e.ano == ano && e.trimestre == trimestre
  {
    if members != [] {
      ScanMembersTagged(io, v, zip, members[..|members| - 1], ano, trimestre);
      var name := members[|members| - 1];
      match io.openMember(zip, name)
      case Loaded(t) => MemberExpensesSpec(t, v, ano, trimestre);
      case _ =>
    }
  }

  /** Every row an archive contributes carries exactly the year and quarter found in the archive's name. */
  lemma ArchiveExpensesTagged(io: Storage, v: Variant, zip: string)
    ensures forall e :: e in ArchiveExpenses(io, v, zip) ==>
              IdentifyPeriod(Basename(zip)) == (Some(e.ano), Some(e.trimestre))
  {
    var period := IdentifyPeriod(Basename(zip));
    if period.0.Some? && period.1.Some? {
      match io.listArchive(zip)
      case None =>
      case Some(members) => ScanMembersTagged(io, v, zip, members, period.0.value, period.1.value);
    }
  }

  /** Every accounting row is tagged with the period named by one of the archives it came from. */
  lemma {:induction false} AccountingExpensesTagged(io: Storage, v: Variant, zips: seq<string>)
    ensures forall e :: e in AccountingExpenses(io, v, zips) ==>
              exists z :: z in zips && IdentifyPeriod(Basename(z)) == (Some(e.ano), Some(e.trimestre))
  {
    if zips != [] {
      var init, last := zips[..|zips| - 1], zips[|zips| - 1];
      AccountingExpensesTagged(io, v, init);
      ArchiveExpensesTagged(io, v, last);
      assert forall z :: z in init ==> z in zips;
    }
  }

  /** Normalised headers never contain Ç or Ã, so the rename entry for "DESCRIÇÃO" can never apply. */
  lemma NormalisedHeaderUnaccented(h: string)
    ensures '\U{00C7}' !in NormaliseAccountingHeader(h)
    ensures '\U{00C3}' !in NormaliseAccountingHeader(h)
    ensures NormaliseAccountingHeader(h) != "DESCRI\U{00C7}\U{00C3}O"
  {
    var inner := ReplaceChar(Upper(Strip(h)), '\U{00C7}', 'C');
    assert '\U{00C7}' !in inner;
    assert "DESCRI\U{00C7}\U{00C3}O"[6] == '\U{00C7}';
  }

  lemma {:induction false} ScanStaysStopped(io: Storage, v: Variant, zip: string, members: seq<string>, j: nat, ano: string, trimestre: string)
    requires j <= |members|
    requires ScanMembers(io, v, zip, members[..j], ano, trimestre).stopped
    ensures ScanMembers(io, v, zip, members, ano, trimestre) == ScanMembers(io, v, zip, members[..j], ano, trimestre)
    decreases |members| - j
  {
    if j < |members| {
      assert members[..j + 1][..j] == members[..j];
      ScanStaysStopped(io, v, zip, members, j + 1, ano, trimestre);
    } else {
      assert members[..j] == members;
    }
  }

  /**
   * The body of process_accounting_files for one archive: skipped without
   * a period in its name; otherwise its members are read in order,
   * members with another extension are skipped, and an extraction failure
   * abandons the rest of the archive (the rows already taken from it stay).
   */
  method ReadArchive(io: Storage, v: Variant, zip: string) returns (rows: seq<Expense>)
    ensures rows == ArchiveExpenses(io, v, zip)
  {
    rows := [];
    var period := IdentifyPeriod(Basename(zip));
    if period.0.None? || period.1.None? {
      return;
    }
    var listing := io.listArchive(zip);
    if listing.None? {
      return;
    }
    var members := listing.value;
    var ano, trimestre := period.0.value, period.1.value;
    ghost var goal := ScanMembers(io, v, zip, members, ano, trimestre).rows;
    assert goal == ArchiveExpenses(io, v, zip);
    var j := 0;
    while j < |members|
      invariant 0 <= j <= |members|
      invariant !ScanMembers(io, v, zip, members[..j], ano, trimestre).stopped
      invariant rows == ScanMembers(io, v, zip, members[..j], ano, trimestre).rows
    {
      var name := members[j];
      ScanPrefix(io, v, zip, members, j, ano, trimestre);
      if IsTabularMember(name) {
        var read := io.openMember(zip, name);
        if read.ExtractFailed? {
          ScanStaysStopped(io, v, zip, members, j + 1, ano, trimestre);
          return;
        }
        if read.Loaded? {
          rows := rows + MemberExpenses(read.table, v, ano, trimestre);
        }
      }
      j := j + 1;
    }
    assert members[..j] == members;
  }

  /** process_accounting_files: the rows of every archive whose path ends in ".zip", archive after archive. */
  method ProcessAccountingFiles(io: Storage, v: Variant, files: seq<string>) returns (allData: seq<Expense>)
    ensures allData == AccountingExpenses(io, v, Filter(files, IsArchive))
  {
    var zips := Filter(files, IsArchive);
    allData := [];
    var i := 0;
    while i < |zips|
      invariant 0 <= i <= |zips|
      invariant allData == AccountingExpenses(io, v, zips[..i])
    {
      assert zips[..i + 1][..i] == zips[..i];
      var rows := ReadArchive(io, v, zips[i]);
      allData := allData + rows;
      i := i + 1;
    }
    assert zips[..i] == zips;
  }
}
