/**
 * Data-quality validation of the consolidated table: the modulus-11
 * check digits of a CNPJ (the Brazilian company registry number) and
 * the soft-validation flags added to every consolidated row.
 */
module Validator {
  import opened Wrappers
  import opened Text
  import opened Frames
  import Collections

  const Weights1: seq<nat> := [5, 4, 3, 2, 9, 8, 7, 6, 5, 4, 3, 2]
  const Weights2: seq<nat> := [6, 5, 4, 3, 2, 9, 8, 7, 6, 5, 4, 3, 2]

  /** Σ digit × weight over the pairs that zip(digits, weights) forms. */
  function WeightedSum(ds: string, ws: seq<nat>): nat
    requires AllDigits(ds)
  {
    if |ds| == 0 || |ws| == 0 then 0
    else DigitValue(ds[0]) * ws[0] + WeightedSum(ds[1..], ws[1..])
  }

  /**
   * One check digit: 0 when the weighted sum leaves a remainder below 2
   * modulo 11, otherwise the digit that makes sum + digit a multiple of 11.
   */
  function CheckDigit(ds: string, ws: seq<nat>): (d: nat)
    requires AllDigits(ds)
    ensures d <= 9
    ensures WeightedSum(ds, ws) % 11 < 2 ==> d == 0
    ensures WeightedSum(ds, ws) % 11 >= 2 ==> (WeightedSum(ds, ws) + d) % 11 == 0
  {
    var r := WeightedSum(ds, ws) % 11;
    if r < 2 then 0 else 11 - r
  }

  /** re.sub(r"\D", "", s): the digits of s in order. */
  function OnlyDigits(s: string): (r: string)
    ensures AllDigits(r)
    ensures |r| <= |s|
    ensures AllDigits(s) ==> r == s
  {
    if s == [] then []
    else (if IsDigit(s[0]) then [s[0]] else []) + OnlyDigits(s[1..])
  }

  lemma {:induction false} OnlyDigitsAppend(s: string, t: string)
    ensures OnlyDigits(s + t) == OnlyDigits(s) + OnlyDigits(t)
  {
    if s == [] {
      assert s + t == t;
    } else {
      assert (s + t)[1..] == s[1..] + t;
      OnlyDigitsAppend(s[1..], t);
    }
  }

  /** len(set(c)) == 1: c is one character repeated. */
  predicate SingleDigitRepeated(c: string) {
    |c| > 0 && forall i :: 0 <= i < |c| ==> c[i] == c[0]
  }

  /**
   * validate_cnpj: a non-string (None) is invalid; otherwise the digits
   * must number 14, not all be equal, and end in the two check digits.
   */
  function ValidateCnpj(cnpj: Option<string>): (b: bool)
    ensures cnpj.None? ==> !b
    ensures b ==> |OnlyDigits(cnpj.value)| == 14 && !SingleDigitRepeated(OnlyDigits(cnpj.value))
  {
    match cnpj
    case None => false
    case Some(s) =>
      var c := OnlyDigits(s);
      if |c| != 14 || SingleDigitRepeated(c) then false
      else
        var d1 := CheckDigit(c[..12], Weights1);
        var d2 := CheckDigit(c[..13], Weights2);
        c[12..] == [DigitChar(d1), DigitChar(d2)]
  }

  /**
   * The registry's own definition of a well-formed number: twelve base
   * digits, then the first check digit of the base, then the second check
   * digit of the base followed by the first.
   */
  function WithCheckDigits(base: string): (c: string)
    requires |base| == 12 && AllDigits(base)
    ensures |c| == 14 && AllDigits(c) && c[..12] == base
  {
    var b13 := base + [DigitChar(CheckDigit(base, Weights1))];
    b13 + [DigitChar(CheckDigit(b13, Weights2))]
  }

  /**
   * The validator accepts exactly the numbers whose digits are 14, not
   * one repeated digit, and carry the check digits of their first twelve.
   * (The code computes the second digit over the input's own 13th digit;
   * this shows that agrees with using the computed first digit.)
   */
  lemma ValidateCnpjMeaning(s: string)
    ensures ValidateCnpj(Some(s))
            <==> (var c := OnlyDigits(s);
                  |c| == 14 && !SingleDigitRepeated(c) && c == WithCheckDigits(c[..12]))
  {
    var c := OnlyDigits(s);
    if |c| == 14 && !SingleDigitRepeated(c) {
      var base := c[..12];
      var d1 := CheckDigit(base, Weights1);
      var w := WithCheckDigits(base);
      assert c == base + [c[12], c[13]];
      assert w == base + [DigitChar(d1), w[13]];
      if c[12] == DigitChar(d1) {
        assert c[..13] == base + [DigitChar(d1)];
      }
      if c == w {
        assert c[12] == w[12];
        assert c[..13] == base + [DigitChar(d1)];
      }
    }
  }

  /** Mask characters are ignored: inserting a non-digit anywhere never changes the verdict. */
  lemma NonDigitIgnored(s: string, i: nat, ch: char)
    requires i <= |s| && !IsDigit(ch)
    ensures ValidateCnpj(Some(s[..i] + [ch] + s[i..])) == ValidateCnpj(Some(s))
  {
    OnlyDigitsInsert(s, i, ch);
  }

  lemma {:induction false} OnlyDigitsInsert(s: string, i: nat, ch: char)
    requires i <= |s| && !IsDigit(ch)
    ensures OnlyDigits(s[..i] + [ch] + s[i..]) == OnlyDigits(s)
  {
    var a, b := s[..i], s[i..];
    assert OnlyDigits([ch]) == [] by {
      assert [ch][1..] == [];
    }
    calc {
      OnlyDigits(a + [ch] + b);
      { OnlyDigitsAppend(a + [ch], b); }
      OnlyDigits(a + [ch]) + OnlyDigits(b);
      { OnlyDigitsAppend(a, [ch]); }
      OnlyDigits(a) + OnlyDigits(b);
      { OnlyDigitsAppend(a, b); }
      OnlyDigits(a + b);
      { assert a + b == s; }
      OnlyDigits(s);
    }
  }

  /** Changing the first check digit of a valid number makes it invalid. */
  lemma FirstCheckDigitMatters(c: string, e: char)
    requires |c| == 14 && AllDigits(c) && ValidateCnpj(Some(c))
    requires IsDigit(e) && e != c[12]
    ensures !ValidateCnpj(Some(c[..12] + [e] + c[13..]))
  {
    var c' := c[..12] + [e] + c[13..];
    assert AllDigits(c');
    assert c'[..12] == c[..12];
    assert c'[12] == e;
  }

  /** Changing the second check digit of a valid number makes it invalid. */
  lemma SecondCheckDigitMatters(c: string, e: char)
    requires |c| == 14 && AllDigits(c) && ValidateCnpj(Some(c))
    requires IsDigit(e) && e != c[13]
    ensures !ValidateCnpj(Some(c[..13] + [e]))
  {
    var c' := c[..13] + [e];
    assert AllDigits(c');
    assert c'[..12] == c[..12] && c'[..13] == c[..13];
    assert c'[13] == e;
  }

  /** A number built by the registry's rule passes unless it is one repeated digit. */
  lemma WithCheckDigitsAccepted(base: string)
    requires |base| == 12 && AllDigits(base)
    ensures ValidateCnpj(Some(WithCheckDigits(base))) <==> !SingleDigitRepeated(WithCheckDigits(base))
  {
    ValidateCnpjMeaning(WithCheckDigits(base));
  }

  /** One digit repeated fourteen times is rejected whatever its check digits. */
  lemma RepeatedDigitRejected(c: string)
    requires |c| == 14 && SingleDigitRepeated(c) && IsDigit(c[0])
    ensures !ValidateCnpj(Some(c))
  {
    assert AllDigits(c);
  }

  /**
   * Twelve zeros get the check digits 0 and 0: fourteen zeros pass the
   * checksum, and only the repeated-digit rule rejects them.
   */
  lemma ZerosCarryCheckDigits(z: string)
    requires |z| == 12 && forall i :: 0 <= i < |z| ==> z[i] == '0'
    ensures SingleDigitRepeated(WithCheckDigits(z))
    ensures !ValidateCnpj(Some(WithCheckDigits(z)))
  {
    ZeroWeightedSum(z, Weights1);
    var z13 := z + [DigitChar(0)];
    ZeroWeightedSum(z13, Weights2);
    var c := WithCheckDigits(z);
    assert c == z13 + [DigitChar(0)];
    assert SingleDigitRepeated(c);
    RepeatedDigitRejected(c);
  }

  lemma {:induction false} ZeroWeightedSum(ds: string, ws: seq<nat>)
    requires forall i :: 0 <= i < |ds| ==> ds[i] == '0'
    ensures AllDigits(ds) && WeightedSum(ds, ws) == 0
  {
    if |ds| > 0 && |ws| > 0 {
      ZeroWeightedSum(ds[1..], ws[1..]);
    }
  }

  // ---------------------------------------------------------------------
  // Soft validation (run_quality_checks)

  /** The four flags of one consolidated row. */
  function RowFlags(row: ConsolidatedRow): (f: QualityFlags)
    ensures f.cnpjValido == ValidateCnpj(row.id.cnpj)
    ensures f.razaoValida
            <==> (&& row.id.razao.Some?
                  && exists k :: 0 <= k < |row.id.razao.value| && !IsSpace(row.id.razao.value[k]))
    ensures f.valorValido <==> row.valor > 0.0
    ensures f.conforme <==> f.cnpjValido && f.razaoValida && f.valorValido
  {
    var cnpjOk := ValidateCnpj(row.id.cnpj);
    var razaoOk := row.id.razao.Some? && Strip(row.id.razao.value) != [];
    var valorOk := row.valor > 0.0;
    QualityFlags(cnpjOk, razaoOk, valorOk, cnpjOk && razaoOk && valorOk)
  }

  function FlagRows(rows: seq<ConsolidatedRow>): seq<ConsolidatedRow> {
    seq(|rows|, i requires 0 <= i < |rows| => rows[i].(flags := Some(RowFlags(rows[i]))))
  }

  /** The columns after flagging: the flag columns not yet present are appended. */
  function FlaggedColumns(columns: seq<string>): seq<string> {
    columns + Collections.Filter(FlagColumns, (f: string) => f !in columns)
  }

  /**
   * Flagging keeps every row, in order, with its key and value intact, and
   * gives each row exactly the flags of its own contents.
   */
  lemma FlagRowsKeepsRows(rows: seq<ConsolidatedRow>)
    ensures |FlagRows(rows)| == |rows|
    ensures forall i :: 0 <= i < |rows| ==>
              (&& FlagRows(rows)[i].id == rows[i].id
               && FlagRows(rows)[i].valor == rows[i].valor
               && FlagRows(rows)[i].flags == Some(RowFlags(rows[i])))
  {
  }

  /** Flagging a second time changes nothing. */
  lemma FlagRowsIdempotent(rows: seq<ConsolidatedRow>)
    ensures FlagRows(FlagRows(rows)) == FlagRows(rows)
  {
    var once := FlagRows(rows);
    forall i | 0 <= i < |rows| ensures FlagRows(once)[i] == once[i] {
      assert RowFlags(once[i]) == RowFlags(rows[i]);
    }
  }

  /**
   * The flag columns keep the existing columns in front, contain all four
   * flags, add nothing else, and a second pass adds no more columns.
   */
  lemma FlaggedColumnsSpec(columns: seq<string>)
    ensures FlaggedColumns(columns)[..|columns|] == columns
    ensures forall f :: f in FlagColumns ==> f in FlaggedColumns(columns)
    ensures forall c :: c in FlaggedColumns(columns) ==> c in columns || c in FlagColumns
    ensures FlaggedColumns(FlaggedColumns(columns)) == FlaggedColumns(columns)
  {
    var r := FlaggedColumns(columns);
    assert forall c :: c in r <==> c in columns || c in Collections.Filter(FlagColumns, (f: string) => f !in columns);
    var none := Collections.Filter(FlagColumns, (f: string) => f !in r);
    Collections.FilterNone(FlagColumns, (f: string) => f !in r);
    assert r + [] == r;
  }

  /**
   * run_quality_checks on a frame: an empty frame is returned unchanged;
   * a frame lacking CNPJ, RazaoSocial or ValorDespesas raises KeyError
   * (ok is false); otherwise every row gets its four flags and the flag
   * columns are added.
   */
  method RunQualityChecks(df: ConsolidatedFrame) returns (ok: bool)
    modifies df
    ensures ok <==> (|| old(df.rows) == []
                     || (CnpjCol in old(df.columns) && RazaoCol in old(df.columns) && ValorCol in old(df.columns)))
    ensures !ok || old(df.rows) == [] ==> df.rows == old(df.rows) && df.columns == old(df.columns)
    ensures ok && old(df.rows) != [] ==> df.rows == FlagRows(old(df.rows)) && df.columns == FlaggedColumns(old(df.columns))
  {
    if df.rows == [] {
      return true;
    }
    if CnpjCol !in df.columns || RazaoCol !in df.columns || ValorCol !in df.columns {
      return false;
    }
    df.rows := FlagRows(df.rows);
    df.columns := FlaggedColumns(df.columns);
    ok := true;
  }
}
