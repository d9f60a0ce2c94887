/**
 * The left join shared by both processor versions: the key column of the
 * accounting lines and of the operator master is read as text and
 * trimmed, and every accounting line is matched against the master's
 * rows bearing the same key.
 *
 * Both versions deduplicate the master on the key as it was read and
 * trim it only afterwards, so two registry keys that differ only in
 * surrounding blanks survive deduplication and then collide in the join
 * (`Merge`, and `SplitKeyDuplicatesLine` for an input). The join the rest
 * of the model uses deduplicates the trimmed master first (`MergeUnique`).
 */
module Enrichment {
  import opened Wrappers
  import opened Text
  import opened Collections
  import opened Frames
  import opened Extraction

  /** astype(str) on a key cell: a null reads "nan". */
  function KeyString(k: Option<string>): string {
    match k
    case None => "nan"
    case Some(s) => s
  }

  /** astype(str).str.strip() on a key cell. */
  function KeyText(k: Option<string>): string {
    Strip(KeyString(k))
  }

  /** The accounting lines after their key column is overwritten with its trimmed text. */
  function TrimExpenseKeys(rows: seq<Expense>): seq<Expense> {
    seq(|rows|, i requires 0 <= i < |rows| => rows[i].(registro := Some(KeyText(rows[i].registro))))
  }

  /** The master after its key column is overwritten with its trimmed text. */
  function TrimMasterKeys(m: Master): Master {
    m.(rows := seq(|m.rows|, i requires 0 <= i < |m.rows| => m.rows[i].(registro := Some(KeyText(m.rows[i].registro)))))
  }

  /**
   * One row of the merged frame: the accounting line's columns and the
   * registry columns of its match; a registry field is None when the line
   * is unmatched, the cell is null, or the master lacks the column.
   */
  datatype Joined = Joined(
    registro: string,
    ano: string,
    trimestre: string,
    saldo: Option<real>,
    cnpj: Option<string>,
    razao: Option<string>,
    modalidade: Option<string>,
    uf: Option<string>)

  function Take(columns: seq<string>, name: string, v: Option<string>): Option<string> {
    if name in columns then v else None
  }

  /** The merged row for accounting line e and its registry match (None: unmatched). */
  function JoinRow(e: Expense, columns: seq<string>, m: Option<MasterRow>): Joined {
    match m
    case None => Joined(KeyString(e.registro), e.ano, e.trimestre, e.saldo, None, None, None, None)
    case Some(r) =>
      Joined(KeyString(e.registro), e.ano, e.trimestre, e.saldo,
             Take(columns, CnpjCol, r.cnpj), Take(columns, RazaoCol, r.razao),
             Take(columns, ModalidadeCol, r.modalidade), Take(columns, UfCol, r.uf))
  }

  /** The registry rows whose key equals k, in master order. */
  function Matches(rows: seq<MasterRow>, k: Option<string>): seq<MasterRow> {
    Filter(rows, (r: MasterRow) => r.registro == k)
  }

  /** The merged rows of one accounting line: one per match, or a single unmatched row. */
  function JoinOne(e: Expense, columns: seq<string>, rows: seq<MasterRow>): seq<Joined> {
    var ms := Matches(rows, e.registro);
    if ms == [] then [JoinRow(e, columns, None)]
    else seq(|ms|, i requires 0 <= i < |ms| => JoinRow(e, columns, Some(ms[i])))
  }

  /** pd.merge(acc, master, on=key, how="left"): the lines in order, each repeated once per match. */
  function JoinAll(acc: seq<Expense>, columns: seq<string>, rows: seq<MasterRow>): seq<Joined> {
    if acc == [] then []
    else JoinAll(acc[..|acc| - 1], columns, rows) + JoinOne(acc[|acc| - 1], columns, rows)
  }

  /** The merge as written: against the master as it stands after trimming (deduplicated on the untrimmed key). */
  function Merge(acc: seq<Expense>, m: Master): seq<Joined> {
    JoinAll(acc, m.columns, m.rows)
  }

  /** The merge as intended: against the master deduplicated on the trimmed key. */
  function MergeUnique(acc: seq<Expense>, m: Master): seq<Joined> {
    JoinAll(acc, m.columns, DedupBy(m.rows, MasterRowKey))
  }

  function JoinedBalance(j: Joined): real { Balance(j.saldo) }

  // ---------------------------------------------------------------------
  // Properties

  /** With distinct keys a line has at most one match: the first (and only) row with its key. */
  lemma {:induction false} MatchesOfUnique(rows: seq<MasterRow>, k: Option<string>)
    requires UniqueKeys(rows, MasterRowKey)
    ensures Matches(rows, k) == match FirstWithKey(rows, MasterRowKey, k)
                                case None => []
                                case Some(r) => [r]
  {
    if rows != [] {
      var init, last := rows[..|rows| - 1], rows[|rows| - 1];
      assert Matches(rows, k) == Matches(init, k) + (if last.registro == k then [last] else []);
      assert rows == init + [last];
      UniqueKeysInit(rows);
      MatchesOfUnique(init, k);
      FirstWithKeyAppend(init, [last], MasterRowKey, k);
      if last.registro == k {
        LastKeyIsNew(rows);
        assert FirstWithKey([last], MasterRowKey, k) == Some(last);
      } else {
        assert !HasKey([last], MasterRowKey, k);
      }
    }
  }

  lemma UniqueKeysInit(rows: seq<MasterRow>)
    requires rows != [] && UniqueKeys(rows, MasterRowKey)
    ensures UniqueKeys(rows[..|rows| - 1], MasterRowKey)
  {
    var init := rows[..|rows| - 1];
    forall i, j | 0 <= i < j < |init| ensures MasterRowKey(init[i]) != MasterRowKey(init[j]) {
      assert init[i] == rows[i] && init[j] == rows[j];
    }
  }

  /** With distinct keys, no earlier row carries the last row's key. */
  lemma LastKeyIsNew(rows: seq<MasterRow>)
    requires rows != [] && UniqueKeys(rows, MasterRowKey)
    ensures !HasKey(rows[..|rows| - 1], MasterRowKey, rows[|rows| - 1].registro)
  {
    var init := rows[..|rows| - 1];
    forall i | 0 <= i < |init| ensures MasterRowKey(init[i]) != rows[|rows| - 1].registro {
      assert init[i] == rows[i];
    }
  }

  /** With distinct keys one accounting line yields exactly one merged row. */
  lemma JoinOneOfUnique(e: Expense, columns: seq<string>, rows: seq<MasterRow>)
    requires UniqueKeys(rows, MasterRowKey)
    ensures JoinOne(e, columns, rows) == [JoinRow(e, columns, FirstWithKey(rows, MasterRowKey, e.registro))]
  {
    MatchesOfUnique(rows, e.registro);
  }

  /**
   * Against a master with distinct keys the left join keeps every
   * accounting line exactly once, in order, next to the registry row
   * bearing its key (or unmatched).
   */
  lemma {:induction false} JoinAllOfUnique(acc: seq<Expense>, columns: seq<string>, rows: seq<MasterRow>)
    requires UniqueKeys(rows, MasterRowKey)
    ensures |JoinAll(acc, columns, rows)| == |acc|
    ensures forall i :: 0 <= i < |acc| ==>
              JoinAll(acc, columns, rows)[i] == JoinRow(acc[i], columns, FirstWithKey(rows, MasterRowKey, acc[i].registro))
  {
    if acc != [] {
      var init, last := acc[..|acc| - 1], acc[|acc| - 1];
      var head := JoinAll(init, columns, rows);
      var j := JoinRow(last, columns, FirstWithKey(rows, MasterRowKey, last.registro));
      JoinOneOfUnique(last, columns, rows);
      assert JoinAll(acc, columns, rows) == head + [j];
      JoinAllOfUnique(init, columns, rows);
      forall i | 0 <= i < |acc|
        ensures (head + [j])[i] == JoinRow(acc[i], columns, FirstWithKey(rows, MasterRowKey, acc[i].registro))
      {
        if i < |init| {
          assert acc[i] == init[i] && (head + [j])[i] == head[i];
        }
      }
    }
  }

  /**
   * The intended merge keeps every accounting line exactly once, in order,
   * joined with the first master row bearing its (trimmed) key.
   */
  lemma MergeUniqueSpec(acc: seq<Expense>, m: Master)
    ensures |MergeUnique(acc, m)| == |acc|
    ensures forall i :: 0 <= i < |acc| ==>
              MergeUnique(acc, m)[i] == JoinRow(acc[i], m.columns, FirstWithKey(m.rows, MasterRowKey, acc[i].registro))
  {
    DedupByKeys(m.rows, MasterRowKey);
    JoinAllOfUnique(acc, m.columns, DedupBy(m.rows, MasterRowKey));
    forall i | 0 <= i < |acc|
      ensures FirstWithKey(DedupBy(m.rows, MasterRowKey), MasterRowKey, acc[i].registro)
              == FirstWithKey(m.rows, MasterRowKey, acc[i].registro)
    {
      FirstWithKeyOfDedup(m.rows, MasterRowKey, acc[i].registro);
    }
  }

  /** The intended merge neither loses nor repeats a balance: its total is the accounting total. */
  lemma MergeUniqueTotal(acc: seq<Expense>, m: Master)
    ensures SumBy(MergeUnique(acc, m), JoinedBalance) == SumBy(acc, ExpenseBalance)
  {
    MergeUniqueSpec(acc, m);
    SumByPointwise(MergeUnique(acc, m), acc, JoinedBalance, ExpenseBalance);
  }

  /** Every merged row carries the balance of some accounting line (the as-written merge included). */
  lemma {:induction false} JoinAllBalances(acc: seq<Expense>, columns: seq<string>, rows: seq<MasterRow>)
    ensures forall j :: j in JoinAll(acc, columns, rows) ==> exists e :: e in acc && j.saldo == e.saldo
  {
    if acc != [] {
      var init, last := acc[..|acc| - 1], acc[|acc| - 1];
      JoinAllBalances(init, columns, rows);
      assert forall e :: e in init ==> e in acc;
      forall j | j in JoinOne(last, columns, rows) ensures j.saldo == last.saldo {
      }
    }
  }

  /** A registry whose two keys differ only by a trailing blank, and one accounting line for the first. */
  const SplitMaster := Master([RegistroAns], [MasterRow(Some("1"), None, None, None, None),
                                              MasterRow(Some("1 "), None, None, None, None)])
  const SplitLines := [Expense(Some("1"), "2024", "1", Some(5.0))]

  lemma SplitKeysTrimAlike()
    ensures KeyText(Some("1")) == "1" && KeyText(Some("1 ")) == "1"
  {
    assert LeadingSpaces("1") == 0 && TrailingSpaces("1") == 0;
    assert LeadingSpaces("1 ") == 0;
    assert TrailingSpaces("1 ") == 1;
  }

  /** Distinct as read, so deduplication on the untrimmed key keeps both registry rows. */
  lemma SplitKeysSurviveDedup()
    ensures DedupBy(SplitMaster.rows, MasterRowKey) == SplitMaster.rows
  {
    var a, b := SplitMaster.rows[0], SplitMaster.rows[1];
    assert "1" != "1 ";
    assert !HasKey([a], MasterRowKey, b.registro);
    assert SplitMaster.rows[..1] == [a];
    assert [a][..0] == [];
  }

  const TrimmedSplitRow := MasterRow(Some("1"), None, None, None, None)

  lemma SplitLinesTrimmed()
    ensures TrimExpenseKeys(SplitLines) == SplitLines
  {
    SplitKeysTrimAlike();
    var r := TrimExpenseKeys(SplitLines);
    assert |r| == 1 && r[0] == SplitLines[0];
  }

  lemma SplitMasterTrimmed()
    ensures TrimMasterKeys(SplitMaster) == Master([RegistroAns], [TrimmedSplitRow, TrimmedSplitRow])
  {
    SplitKeysTrimAlike();
    var r := TrimMasterKeys(SplitMaster).rows;
    assert |r| == 2 && r[0] == TrimmedSplitRow && r[1] == TrimmedSplitRow;
  }

  lemma SplitKeysTrimmed()
    ensures TrimExpenseKeys(SplitLines) == SplitLines
    ensures TrimMasterKeys(SplitMaster) == Master([RegistroAns], [TrimmedSplitRow, TrimmedSplitRow])
  {
    SplitLinesTrimmed();
    SplitMasterTrimmed();
  }

  /** Both trimmed registry rows match the line, so the merge repeats it. */
  lemma SplitMergeRepeats()
    ensures var joined := Merge(SplitLines, Master([RegistroAns], [TrimmedSplitRow, TrimmedSplitRow]));
            |joined| == 2 && SumBy(joined, JoinedBalance) == 10.0
  {
    var rows := [TrimmedSplitRow, TrimmedSplitRow];
    assert Matches(rows, Some("1")) == rows by {
      assert rows[..1] == [TrimmedSplitRow];
      assert [TrimmedSplitRow][..0] == [];
    }
    var line := SplitLines[0];
    var joined := Merge(SplitLines, Master([RegistroAns], rows));
    assert |SplitLines| == 1 && SplitLines[..|SplitLines| - 1] == [];
    assert JoinAll([], [RegistroAns], rows) == [];
    assert joined == [] + JoinOne(line, [RegistroAns], rows);
    var j := JoinRow(line, [RegistroAns], Some(TrimmedSplitRow));
    assert joined == [j, j];
    assert j.saldo == Some(5.0);
    assert [j, j][..1] == [j] && [j][..0] == [];
    assert JoinedBalance(j) == 5.0;
    assert SumBy([j], JoinedBalance) == 5.0;
    assert SumBy([j, j], JoinedBalance) == SumBy([j], JoinedBalance) + JoinedBalance(j);
  }

  /**
   * Registry keys "1" and "1 " are distinct as read, so deduplicating on
   * the untrimmed key keeps both rows; after trimming both read "1", and
   * the as-written merge repeats the accounting line, doubling its
   * balance, where the intended merge keeps it once.
   */
  lemma SplitKeyDuplicatesLine()
    ensures DedupBy(SplitMaster.rows, MasterRowKey) == SplitMaster.rows
    ensures var joined := Merge(TrimExpenseKeys(SplitLines), TrimMasterKeys(SplitMaster));
            |joined| == 2 && SumBy(joined, JoinedBalance) == 2.0 * SumBy(SplitLines, ExpenseBalance)
    ensures |MergeUnique(TrimExpenseKeys(SplitLines), TrimMasterKeys(SplitMaster))| == |SplitLines|
  {
    SplitKeysSurviveDedup();
    SplitKeysTrimmed();
    SplitMergeRepeats();
    MergeUniqueSpec(TrimExpenseKeys(SplitLines), TrimMasterKeys(SplitMaster));
    assert SplitLines[..0] == [];
  }
}
