/**
 * The records of the portfolio ledger: holdings ("assets"), the buy/sell
 * log ("transactions") and the derived portfolio statistics.
 */
module Types {

  /** An optional value; `None` stands for a field that is absent (`undefined`). */
  datatype Option<+T> = None | Some(value: T) {
    function GetOr(default: T): T {
      match this
      case Some(v) => v
      case None => default
    }
  }

  /** The two kinds of ledger entry: a buy (or regular investment) and a sell (redemption). */
  datatype TransactionType = Buy | Sell

  /** Lifecycle of an asset: soft deletion only flips the status. */
  datatype Status = Active | Deleted

  /**
   * A tracked fund position. `costBasis` is the net amount invested (buys
   * minus sells); `currentValue` is the market value, changed only by a
   * manual correction or by a transaction.
   */
  datatype Asset = Asset(
    id: string,
    name: string,
    code: Option<string>,
    investmentDirection: string,
    costBasis: real,
    currentValue: real,
    targetAmount: real,
    status: Status,
    notes: Option<string>)

  /**
   * An immutable ledger entry. `assetId` refers back to the asset, and
   * `assetName` is a snapshot of the asset's name when the entry was logged.
   */
  datatype Transaction = Transaction(
    id: string,
    assetId: string,
    assetName: string,
    txType: TransactionType,
    amount: real,
    date: string,
    notes: Option<string>)

  /** Aggregates over the active assets. */
  datatype PortfolioStats = PortfolioStats(
    totalValue: real,
    totalCost: real,
    totalGain: real,
    gainPercentage: real,
    targetTotal: real)
}
