/** `InstrumentFactory.create_instrument`: an instrument row (a dict of
    text columns) becomes a `Stock`, `Bond` or `ETF`.  Column names are
    looked up lower-case first, then capitalised; Python's `or` skips a
    missing column and an empty one alike. */
module InstrumentFactory {
  import opened Wrappers
  import PyText
  import PortfolioModels

  type Row = map<string, string>

  /** `row.get(key)`. */
  function Get(row: Row, key: string): Option<string> {
    if key in row then Some(row[key]) else None
  }

  /** Python's `a or b` on two optional strings: `a` unless it is `None`
      or empty, and otherwise `b` as it is. */
  function Or(a: Option<string>, b: Option<string>): (r: Option<string>)
    ensures a.Some? && a.value != "" ==> r == a
    ensures a.None? || a.value == "" ==> r == b
  {
    if a.Some? && a.value != "" then a else b
  }

  /** The lower-cased type: `type`, else `Type`, else "". */
  function TypeOf(row: Row): string {
    PyText.Lower(Or(Or(Get(row, "type"), Get(row, "Type")), Some("")).value)
  }

  /** The subclass chosen for a lower-cased type; anything unknown is a
      stock. */
  function KindOf(t: string): (k: PortfolioModels.InstrumentKind)
    ensures k == PortfolioModels.Bond <==> t == "bond"
    ensures k == PortfolioModels.ETF <==> t == "etf"
    ensures k == PortfolioModels.Stock <==> t != "bond" && t != "etf"
  {
    if t == "stock" then PortfolioModels.Stock
    else if t == "bond" then PortfolioModels.Bond
    else if t == "etf" then PortfolioModels.ETF
    else PortfolioModels.Stock
  }

  /** The constructor arguments the factory computes: subclass, symbol and
      name. */
  datatype InstrumentSpec = InstrumentSpec(kind: PortfolioModels.InstrumentKind,
                                           symbol: Option<string>, name: Option<string>)

  function Spec(row: Row): InstrumentSpec {
    var symbol := Or(Get(row, "symbol"), Get(row, "Symbol"));
    var name := Or(Or(Get(row, "name"), Get(row, "Name")), symbol);
    InstrumentSpec(KindOf(TypeOf(row)), symbol, name)
  }

  /** `create_instrument`: a fresh instrument with no prices. */
  method CreateInstrument(row: Row) returns (inst: PortfolioModels.Instrument)
    ensures fresh(inst) && inst.prices == []
    ensures var spec := Spec(row);
      inst.kind == spec.kind && inst.symbol == spec.symbol && inst.name == spec.name
  {
    var spec := Spec(row);
    inst := new PortfolioModels.Instrument(spec.kind, spec.symbol, spec.name);
  }

  /** The type is read from `type` when that is non-empty, else from
      `Type`, and compared without regard to ASCII case. */
  lemma TypeLookup(row: Row)
    ensures "type" in row && row["type"] != "" ==> TypeOf(row) == PyText.Lower(row["type"])
    ensures ("type" !in row || row["type"] == "") && "Type" in row ==> TypeOf(row) == PyText.Lower(row["Type"])
    ensures ("type" !in row || row["type"] == "") && "Type" !in row ==> TypeOf(row) == ""
  {
  }

  /** "Bond", "BOND" and "bond" all make a bond. */
  lemma BondAnyCase(row: Row)
    requires "type" in row && row["type"] in {"bond", "Bond", "BOND"}
    ensures Spec(row).kind == PortfolioModels.Bond
  {
    var t := row["type"];
    assert PyText.Lower(t) == "bond" by {
      assert |PyText.Lower(t)| == 4;
      assert forall i :: 0 <= i < 4 ==> PyText.Lower(t)[i] == "bond"[i];
    }
  }

  /** A row without a type column makes a stock. */
  lemma MissingTypeIsStock(row: Row)
    requires "type" !in row && "Type" !in row
    ensures Spec(row).kind == PortfolioModels.Stock
  {
  }

  /** The symbol comes from `symbol` when that is non-empty, else from
      `Symbol`; the name comes from `name`, else `Name`, and otherwise falls
      back to the symbol. */
  lemma SymbolAndName(row: Row)
    ensures "symbol" in row && row["symbol"] != "" ==> Spec(row).symbol == Some(row["symbol"])
    ensures ("symbol" !in row || row["symbol"] == "") ==> Spec(row).symbol == Get(row, "Symbol")
    ensures "name" in row && row["name"] != "" ==> Spec(row).name == Some(row["name"])
    ensures ("name" !in row || row["name"] == "") && ("Name" !in row || row["Name"] == "") ==>
      Spec(row).name == Spec(row).symbol
  {
  }
}
