/**
 * The rows that flow between the pipeline stages, and the data frames
 * that a stage changes in place (the caller's accounting and registry
 * frames, whose key columns are overwritten during enrichment, and the
 * consolidated frame the validator adds its flag columns to).
 */
module Frames {
  import opened Wrappers

  /** Column names of the current layout. */
  const RegistroAns := "RegistroANS"
  const CnpjCol := "CNPJ"
  const RazaoCol := "RazaoSocial"
  const ModalidadeCol := "Modalidade"
  const UfCol := "UF"
  const AnoCol := "Ano"
  const TrimestreCol := "Trimestre"
  const SaldoCol := "VL_SALDO_FINAL"
  const ValorCol := "ValorDespesas"
  const FlagColumns := ["CNPJ_Valido", "RazaoSocial_Valida", "Valor_Valido", "Registro_Conforme"]

  /**
   * One filtered accounting line tagged with its archive's period:
   * the columns [key, Ano, Trimestre, VL_SALDO_FINAL]. A null cell is None.
   */
  datatype Expense = Expense(registro: Option<string>, ano: string, trimestre: string, saldo: Option<real>)

  /** A balance as it counts toward a sum: a null counts as nothing. */
  function Balance(saldo: Option<real>): real {
    saldo.GetOr(0.0)
  }

  function ExpenseBalance(e: Expense): real { Balance(e.saldo) }

  /** One operator of the registry; a field is None when the cell is null or the column is absent. */
  datatype MasterRow = MasterRow(
    registro: Option<string>,
    cnpj: Option<string>,
    razao: Option<string>,
    modalidade: Option<string>,
    uf: Option<string>)

  /** The registry master: its columns (in order) and its rows. No columns means pd.DataFrame(). */
  datatype Master = Master(columns: seq<string>, rows: seq<MasterRow>)

  const EmptyMaster := Master([], [])

  /** The consolidation key; a field is None when its column is absent from the joined frame. */
  datatype Identity = Identity(
    cnpj: Option<string>,
    razao: Option<string>,
    registro: string,
    modalidade: Option<string>,
    uf: Option<string>,
    trimestre: string,
    ano: string)

  datatype QualityFlags = QualityFlags(cnpjValido: bool, razaoValida: bool, valorValido: bool, conforme: bool)

  /** One consolidated line: its key, the summed ValorDespesas and, once validated, its flags. */
  datatype ConsolidatedRow = ConsolidatedRow(id: Identity, valor: real, flags: Option<QualityFlags>)

  /** The accounting frame handed to enrichment; its key column is rewritten in place. */
  class ExpenseFrame {
    var rows: seq<Expense>

    constructor (rows: seq<Expense>)
      ensures this.rows == rows
    {
      this.rows := rows;
    }
  }

  /** The registry frame handed to enrichment; its key column is rewritten in place. */
  class MasterFrame {
    var master: Master

    constructor (master: Master)
      ensures this.master == master
    {
      this.master := master;
    }
  }

  /** The consolidated frame the validator flags in place. */
  class ConsolidatedFrame {
    var columns: seq<string>
    var rows: seq<ConsolidatedRow>

    constructor (columns: seq<string>, rows: seq<ConsolidatedRow>)
      ensures this.columns == columns && this.rows == rows
    {
      this.columns := columns;
      this.rows := rows;
    }
  }
}
