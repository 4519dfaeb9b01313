/**
 * The write side of the ledger: the three handlers of the dashboard that
 * change the asset list and the transaction log. Each new list is computed
 * from the old one by a pure function (as the handlers do with `map`), and
 * the class `Ledger` holds the two lists and replaces them.
 *
 * The bookkeeping invariant the handlers keep: every asset's cost basis is
 * its opening cost basis plus the net flow (buys minus sells) logged for
 * it, and the opening cost basis of an asset created here with its initial
 * buy is zero.
 */
module Ledger {
  import opened Types
  import opened Derivations
  import opened Modal

  // ---------------------------------------------------------------------
  // Trades on one asset
  // ---------------------------------------------------------------------

  /** The signed cash flow of a trade: a buy adds its amount, a sell takes it away. */
  function Delta(txType: TransactionType, amount: real): real {
    if txType == Buy then amount else -amount
  }

  /**
   * A buy or sell moves cost basis and market value by the same amount;
   * only the market value is then kept from going below zero.
   */
  function ApplyTrade(a: Asset, t: TransactionData): (r: Asset)
    ensures r.costBasis == a.costBasis + Delta(t.txType, t.amount)
    ensures r.currentValue >= 0.0
    ensures a.currentValue + Delta(t.txType, t.amount) >= 0.0 ==> r.currentValue == a.currentValue + Delta(t.txType, t.amount)
    ensures a.currentValue + Delta(t.txType, t.amount) < 0.0 ==> r.currentValue == 0.0
    ensures r == a.(costBasis := r.costBasis, currentValue := r.currentValue)
  {
    var moved :=
      if t.txType == Buy then a.(costBasis := a.costBasis + t.amount, currentValue := a.currentValue + t.amount)
      else a.(costBasis := a.costBasis - t.amount, currentValue := a.currentValue - t.amount);
    if moved.currentValue < 0.0 then moved.(currentValue := 0.0) else moved
  }

  /** Buying and then selling the same amount restores the asset, as long as no value was floored. */
  lemma BuyThenSellRestores(a: Asset, amount: real, buyDate: string, sellDate: string)
    requires a.currentValue >= 0.0 && a.currentValue + amount >= 0.0
    ensures ApplyTrade(ApplyTrade(a, TransactionData(Buy, amount, buyDate)), TransactionData(Sell, amount, sellDate)) == a
  {
  }

  /** Selling and then buying back the same amount restores the asset, as long as no value was floored. */
  lemma SellThenBuyRestores(a: Asset, amount: real, sellDate: string, buyDate: string)
    requires a.currentValue >= 0.0 && a.currentValue - amount >= 0.0
    ensures ApplyTrade(ApplyTrade(a, TransactionData(Sell, amount, sellDate)), TransactionData(Buy, amount, buyDate)) == a
  {
  }

  /**
   * Selling more than the market value: the value stops at zero while the
   * cost basis takes the whole sale, so the recorded gain jumps by the
   * floored difference.
   */
  lemma OversellFloorsValueOnly(a: Asset, amount: real, date: string)
    requires a.currentValue >= 0.0 && amount > a.currentValue
    ensures var r := ApplyTrade(a, TransactionData(Sell, amount, date));
            && r.currentValue == 0.0
            && r.costBasis == a.costBasis - amount
            && Amount(r, Gain) == Amount(a, Gain) + (amount - a.currentValue)
  {
  }

  // ---------------------------------------------------------------------
  // Submissions on the asset list
  // ---------------------------------------------------------------------

  /** The payload shapes the submission handler relies on. */
  predicate Accepted(data: SubmitData) {
    && (data.isNewAsset ==> data.transactionData.Some?)
    && (!data.isNewAsset ==> data.assetData.id.Some?)
  }

  /** The asset created by a new-asset submission: it starts at its initial amount. */
  function NewAsset(id: string, d: AssetData, t: TransactionData): Asset {
    Asset(id, d.name, Some(d.code), d.investmentDirection, t.amount, t.amount, d.targetAmount, Active, Some(""))
  }

  /** The log entry of a trade; `assetName` is the name the asset had before the submission. */
  function Logged(txId: string, assetId: string, assetName: string, t: TransactionData): Transaction {
    Transaction(txId, assetId, assetName, t.txType, t.amount, t.date, None)
  }

  /** A submission applied to the asset it names: settings first, then the trade. */
  function UpdatedAsset(a: Asset, data: SubmitData): (r: Asset)
    ensures r.id == a.id && r.status == a.status && r.notes == a.notes
    ensures data.isSettingsUpdate ==>
              && r.name == data.assetData.name && r.code == Some(data.assetData.code)
              && r.investmentDirection == data.assetData.investmentDirection
              && r.targetAmount == data.assetData.targetAmount
    ensures !data.isSettingsUpdate ==>
              r.name == a.name && r.code == a.code && r.investmentDirection == a.investmentDirection
              && r.targetAmount == a.targetAmount
    ensures data.transactionData.None? ==> r.costBasis == a.costBasis && r.currentValue == a.currentValue
    ensures data.transactionData.Some? ==>
              var delta := Delta(data.transactionData.value.txType, data.transactionData.value.amount);
              && r.costBasis == a.costBasis + delta
              && r.currentValue == (if a.currentValue + delta < 0.0 then 0.0 else a.currentValue + delta)
  {
    var d := data.assetData;
    var configured :=
      if data.isSettingsUpdate then
        a.(name := d.name, code := Some(d.code), investmentDirection := d.investmentDirection, targetAmount := d.targetAmount)
      else a;
    match data.transactionData
    case None => configured
    case Some(t) => ApplyTrade(configured, t)
  }

  /** The asset list after a submission about an existing asset: every asset with that id is updated, no other. */
  function UpdateMatching(assets: seq<Asset>, id: string, data: SubmitData): (r: seq<Asset>)
    ensures |r| == |assets|
    ensures forall i :: 0 <= i < |r| ==> r[i].id == assets[i].id
    ensures forall i :: 0 <= i < |r| && assets[i].id != id ==> r[i] == assets[i]
    ensures forall i :: 0 <= i < |r| && assets[i].id == id ==> r[i] == UpdatedAsset(assets[i], data)
  {
    seq(|assets|, i requires 0 <= i < |assets| => if assets[i].id == id then UpdatedAsset(assets[i], data) else assets[i])
  }

  /** A submission naming an id that no asset has leaves the asset list as it was. */
  lemma UnknownIdKeepsAssets(assets: seq<Asset>, id: string, data: SubmitData)
    requires forall a :: a in assets ==> a.id != id
    ensures UpdateMatching(assets, id, data) == assets
  {
  }

  /**
   * Two lists that agree position by position on the status and on one
   * measure of each asset have the same total of that measure over their
   * active assets.
   */
  lemma {:induction false} PointwiseTotals(before: seq<Asset>, after: seq<Asset>, m: Measure)
    requires |after| == |before|
    requires forall i :: 0 <= i < |before| ==> after[i].status == before[i].status && Amount(after[i], m) == Amount(before[i], m)
    ensures Total(ActiveAssets(after), m) == Total(ActiveAssets(before), m)
  {
    if before != [] {
      var n := |before| - 1;
      var x, y := before[n], after[n];
      var pb, pa := ActiveAssets(before[..n]), ActiveAssets(after[..n]);
      var lb := if x.status == Active then [x] else [];
      var la := if y.status == Active then [y] else [];
      assert Total(pa, m) == Total(pb, m) by { PointwiseTotals(before[..n], after[..n], m); }
      assert Total(la, m) == Total(lb, m) by { TotalSingle(x, m); TotalSingle(y, m); }
      calc {
        Total(ActiveAssets(after), m);
        == { assert after == after[..n] + [y]; ActiveLast(after[..n], y); }
        Total(pa + la, m);
        == { TotalConcat(pa, la, m); }
        Total(pb, m) + Total(lb, m);
        == { TotalConcat(pb, lb, m); }
        Total(pb + lb, m);
        == { assert before == before[..n] + [x]; ActiveLast(before[..n], x); }
        Total(ActiveAssets(before), m);
      }
    }
  }

  lemma TotalSingle(a: Asset, m: Measure)
    ensures Total([a], m) == Amount(a, m)
  {
    assert [a][..0] == [];
  }

  /** A settings save moves no money: the portfolio totals of value, cost and gain stay as they were. */
  lemma SettingsKeepTotals(assets: seq<Asset>, id: string, data: SubmitData)
    requires data.transactionData.None?
    ensures var after := ActiveAssets(UpdateMatching(assets, id, data));
            && Total(after, Value) == Total(ActiveAssets(assets), Value)
            && Total(after, Cost) == Total(ActiveAssets(assets), Cost)
            && Total(after, Gain) == Total(ActiveAssets(assets), Gain)
  {
    SettingsKeepTotal(assets, id, data, Value);
    SettingsKeepTotal(assets, id, data, Cost);
    SettingsKeepTotal(assets, id, data, Gain);
  }

  lemma SettingsKeepTotal(assets: seq<Asset>, id: string, data: SubmitData, m: Measure)
    requires data.transactionData.None? && (m.Value? || m.Cost? || m.Gain?)
    ensures Total(ActiveAssets(UpdateMatching(assets, id, data)), m) == Total(ActiveAssets(assets), m)
  {
    SettingsKeepBalances(assets, id, data);
    PointwiseTotals(assets, UpdateMatching(assets, id, data), m);
  }

  /** A settings save keeps every asset's status, cost basis and market value. */
  lemma SettingsKeepBalances(assets: seq<Asset>, id: string, data: SubmitData)
    requires data.transactionData.None?
    ensures var r := UpdateMatching(assets, id, data);
            forall i :: 0 <= i < |assets| ==>
              r[i].status == assets[i].status && r[i].costBasis == assets[i].costBasis && r[i].currentValue == assets[i].currentValue
  {
  }

  /** The active assets of a list with one more asset at the end. */
  lemma ActiveLast(assets: seq<Asset>, a: Asset)
    ensures ActiveAssets(assets + [a]) == ActiveAssets(assets) + (if a.status == Active then [a] else [])
  {
    assert (assets + [a])[..|assets + [a]| - 1] == assets;
  }

  /** The name the log records for a trade on `id`: the first matching asset's name, or empty. */
  function NameOf(assets: seq<Asset>, id: string): (name: string)
    ensures (forall a :: a in assets ==> a.id != id) ==> name == ""
    ensures forall i :: 0 <= i < |assets| && assets[i].id == id && (forall j :: 0 <= j < i ==> assets[j].id != id) ==>
              name == assets[i].name
  {
    if assets == [] then ""
    else if assets[0].id == id then assets[0].name
    else NameOf(assets[1..], id)
  }

  // ---------------------------------------------------------------------
  // Deletion and value correction
  // ---------------------------------------------------------------------

  /** Soft deletion: the assets with that id are marked deleted and nothing else changes. */
  function SoftDeleted(assets: seq<Asset>, id: string): (r: seq<Asset>)
    ensures |r| == |assets|
    ensures forall i :: 0 <= i < |r| ==> r[i] == assets[i].(status := r[i].status)
    ensures forall i :: 0 <= i < |r| ==> r[i].status == (if assets[i].id == id then Deleted else assets[i].status)
  {
    seq(|assets|, i requires 0 <= i < |assets| => if assets[i].id == id then assets[i].(status := Deleted) else assets[i])
  }

  /** Deleting twice is deleting once. */
  lemma DeleteIdempotent(assets: seq<Asset>, id: string)
    ensures SoftDeleted(SoftDeleted(assets, id), id) == SoftDeleted(assets, id)
  {
  }

  /** The assets carrying `id`, in order. */
  function WithId(s: seq<Asset>, id: string): seq<Asset> {
    if s == [] then [] else WithId(s[..|s| - 1], id) + (if s[|s| - 1].id == id then [s[|s| - 1]] else [])
  }

  /** The assets not carrying `id`, in order. */
  function WithoutId(s: seq<Asset>, id: string): seq<Asset> {
    if s == [] then [] else WithoutId(s[..|s| - 1], id) + (if s[|s| - 1].id != id then [s[|s| - 1]] else [])
  }

  lemma WithIdLast(s: seq<Asset>, a: Asset, id: string)
    ensures WithId(s + [a], id) == WithId(s, id) + (if a.id == id then [a] else [])
    ensures WithoutId(s + [a], id) == WithoutId(s, id) + (if a.id != id then [a] else [])
  {
    assert (s + [a])[..|s + [a]| - 1] == s;
  }

  /** Every total splits into the part carried by `id` and the rest. */
  lemma {:induction false} TotalSplitsById(s: seq<Asset>, id: string, m: Measure)
    ensures Total(s, m) == Total(WithId(s, id), m) + Total(WithoutId(s, id), m)
  {
    if s != [] {
      var n := |s| - 1;
      var init, x := s[..n], s[n];
      var w, o := WithId(init, id), WithoutId(init, id);
      var lw := if x.id == id then [x] else [];
      var lo := if x.id != id then [x] else [];
      assert Total(init, m) == Total(w, m) + Total(o, m) by { TotalSplitsById(init, id, m); }
      assert Total(lw, m) + Total(lo, m) == Amount(x, m) by { TotalSingle(x, m); }
      assert WithId(s, id) == w + lw;
      assert WithoutId(s, id) == o + lo;
      TotalConcat(w, lw, m);
      TotalConcat(o, lo, m);
      assert Total(s, m) == Total(init, m) + Amount(x, m);
    }
  }

  /** After a deletion, the dashboard sees exactly the active assets that do not carry the deleted id. */
  lemma {:induction false} DeleteHidesAsset(assets: seq<Asset>, id: string)
    ensures ActiveAssets(SoftDeleted(assets, id)) == WithoutId(ActiveAssets(assets), id)
  {
    if assets != [] {
      var n := |assets| - 1;
      var init, x := assets[..n], assets[n];
      var r := SoftDeleted(assets, id);
      var y := r[n];
      var p := ActiveAssets(init);
      assert r[..n] == SoftDeleted(init, id);
      assert ActiveAssets(r[..n]) == WithoutId(p, id) by { DeleteHidesAsset(init, id); }
      assert ActiveAssets(r) == WithoutId(p, id) + (if y.status == Active then [y] else []);
      assert ActiveAssets(assets) == p + (if x.status == Active then [x] else []);
      if x.status == Active {
        WithIdLast(p, x, id);
        if x.id == id {
          assert y.status == Deleted;
          assert WithoutId(p + [x], id) == WithoutId(p, id) + [];
        } else {
          assert y == x;
        }
      } else {
        assert y.status == Deleted;
        assert p + [] == p;
      }
    }
  }

  /** Deleting an asset takes exactly its value, cost and target out of the portfolio totals. */
  lemma DeleteStats(assets: seq<Asset>, id: string)
    ensures var before, after := ActiveAssets(assets), ActiveAssets(SoftDeleted(assets, id));
            && StatsOf(after).totalValue == StatsOf(before).totalValue - Total(WithId(before, id), Value)
            && StatsOf(after).totalCost == StatsOf(before).totalCost - Total(WithId(before, id), Cost)
            && StatsOf(after).targetTotal == StatsOf(before).targetTotal - Total(WithId(before, id), Target)
  {
    var before := ActiveAssets(assets);
    DeleteHidesAsset(assets, id);
    TotalSplitsById(before, id, Value);
    TotalSplitsById(before, id, Cost);
    TotalSplitsById(before, id, Target);
  }

  /** A manual correction: the market value of the assets with that id becomes `newValue`, unfloored. */
  function ValueUpdated(assets: seq<Asset>, id: string, newValue: real): (r: seq<Asset>)
    ensures |r| == |assets|
    ensures forall i :: 0 <= i < |r| ==> r[i] == assets[i].(currentValue := r[i].currentValue)
    ensures forall i :: 0 <= i < |r| ==> r[i].currentValue == (if assets[i].id == id then newValue else assets[i].currentValue)
  {
    seq(|assets|, i requires 0 <= i < |assets| => if assets[i].id == id then assets[i].(currentValue := newValue) else assets[i])
  }

  /** A value correction leaves the invested amount and the targets of the portfolio untouched. */
  lemma ValueUpdateKeepsCost(assets: seq<Asset>, id: string, newValue: real)
    ensures var before, after := ActiveAssets(assets), ActiveAssets(ValueUpdated(assets, id, newValue));
            && Total(after, Cost) == Total(before, Cost)
            && Total(after, Target) == Total(before, Target)
  {
    var r := ValueUpdated(assets, id, newValue);
    PointwiseTotals(assets, r, Cost);
    PointwiseTotals(assets, r, Target);
  }

  /** No two assets share an id. */
  predicate DistinctIds(assets: seq<Asset>) {
    forall i, j :: 0 <= i < j < |assets| ==> assets[i].id != assets[j].id
  }

  /** Saving the value tab without editing it (the dialog preloads the current value) changes nothing. */
  lemma ValueUpdateWithCurrentValue(assets: seq<Asset>, k: nat)
    requires DistinctIds(assets) && k < |assets|
    ensures ValueUpdated(assets, assets[k].id, assets[k].currentValue) == assets
  {
    var r := ValueUpdated(assets, assets[k].id, assets[k].currentValue);
    forall i | 0 <= i < |assets| ensures r[i] == assets[i] {
      if i != k {
        assert assets[i].id != assets[k].id by {
          if i < k { assert assets[i].id != assets[k].id; } else { assert assets[k].id != assets[i].id; }
        }
      }
    }
  }

  // ---------------------------------------------------------------------
  // The transaction log
  // ---------------------------------------------------------------------

  /** Net amount invested in `id` according to the log: buys minus sells. */
  function NetFlow(txs: seq<Transaction>, id: string): real {
    if txs == [] then 0.0
    else (if txs[0].assetId == id then Delta(txs[0].txType, txs[0].amount) else 0.0) + NetFlow(txs[1..], id)
  }

  /** The total amount of the logged trades of one kind on `id`. */
  function Volume(txs: seq<Transaction>, id: string, txType: TransactionType): real {
    if txs == [] then 0.0
    else (if txs[0].assetId == id && txs[0].txType == txType then txs[0].amount else 0.0) + Volume(txs[1..], id, txType)
  }

  /** The net flow is the bought volume minus the sold volume. */
  lemma {:induction false} NetFlowIsBuysMinusSells(txs: seq<Transaction>, id: string)
    ensures NetFlow(txs, id) == Volume(txs, id, Buy) - Volume(txs, id, Sell)
  {
    if txs != [] {
      NetFlowIsBuysMinusSells(txs[1..], id);
    }
  }

  /** An id no log entry refers to has no net flow. */
  lemma {:induction false} NetFlowUnreferenced(txs: seq<Transaction>, id: string)
    requires forall t :: t in txs ==> t.assetId != id
    ensures NetFlow(txs, id) == 0.0
  {
    if txs != [] {
      assert txs[0] in txs;
      assert forall t :: t in txs[1..] ==> t in txs;
      NetFlowUnreferenced(txs[1..], id);
    }
  }

  /** Prepending an entry adds its flow to its own asset only. */
  lemma NetFlowPrepend(t: Transaction, txs: seq<Transaction>, id: string)
    ensures NetFlow([t] + txs, id) == (if t.assetId == id then Delta(t.txType, t.amount) else 0.0) + NetFlow(txs, id)
  {
    assert ([t] + txs)[1..] == txs;
  }

  // ---------------------------------------------------------------------
  // The ledger state and its handlers
  // ---------------------------------------------------------------------

  /**
   * The bookkeeping invariant over the two lists: every asset position has an
   * opening balance, its cost basis is that opening plus the net flow logged
   * for its id, and the positions in `created` opened at zero.
   */
  ghost predicate Balanced(assets: seq<Asset>, txs: seq<Transaction>, opening: seq<real>, created: set<int>) {
    && |opening| == |assets|
    && (forall i :: i in created ==> 0 <= i < |assets| && opening[i] == 0.0)
    && (forall i :: 0 <= i < |assets| ==> assets[i].costBasis == opening[i] + NetFlow(txs, assets[i].id))
  }

  /**
   * Appending a new asset and logging its initial trade keeps the books: the
   * entry moves no other asset's flow, and an initial buy opens at zero.
   */
  lemma NewAssetBalanced(assets: seq<Asset>, txs: seq<Transaction>, opening: seq<real>, created: set<int>,
                         asset: Asset, tx: Transaction)
    requires Balanced(assets, txs, opening, created)
    requires forall a :: a in assets ==> a.id != asset.id
    requires forall t :: t in txs ==> t.assetId != asset.id
    requires tx.assetId == asset.id && asset.costBasis == tx.amount
    ensures Balanced(assets + [asset], [tx] + txs, opening + [asset.costBasis - Delta(tx.txType, tx.amount)],
                     if tx.txType == Buy then created + {|assets|} else created)
  {
    var assets', txs' := assets + [asset], [tx] + txs;
    var opening' := opening + [asset.costBasis - Delta(tx.txType, tx.amount)];
    forall i | 0 <= i < |assets'| ensures assets'[i].costBasis == opening'[i] + NetFlow(txs', assets'[i].id) {
      NetFlowPrepend(tx, txs, assets'[i].id);
      if i == |assets| {
        NetFlowUnreferenced(txs, asset.id);
      } else {
        assert assets[i] in assets;
      }
    }
  }

  /** A trade on an existing asset moves its cost basis and its logged flow by the same amount. */
  lemma TradeBalanced(assets: seq<Asset>, txs: seq<Transaction>, opening: seq<real>, created: set<int>,
                      data: SubmitData, tx: Transaction)
    requires Balanced(assets, txs, opening, created)
    requires data.transactionData.Some?
    requires tx.txType == data.transactionData.value.txType && tx.amount == data.transactionData.value.amount
    ensures Balanced(UpdateMatching(assets, tx.assetId, data), [tx] + txs, opening, created)
  {
    var updated := UpdateMatching(assets, tx.assetId, data);
    forall i | 0 <= i < |updated| ensures updated[i].costBasis == opening[i] + NetFlow([tx] + txs, updated[i].id) {
      NetFlowPrepend(tx, txs, updated[i].id);
    }
  }

  /** A settings save keeps the books: no cost basis and no log entry changes. */
  lemma SettingsBalanced(assets: seq<Asset>, txs: seq<Transaction>, opening: seq<real>, created: set<int>,
                         id: string, data: SubmitData)
    requires Balanced(assets, txs, opening, created)
    requires data.transactionData.None?
    ensures Balanced(UpdateMatching(assets, id, data), txs, opening, created)
  {
    SettingsKeepBalances(assets, id, data);
  }

  class Ledger {
    /** The asset list, in insertion order; deleted assets stay in it. */
    var assets: seq<Asset>
    /** The transaction log, newest entry first. */
    var transactions: seq<Transaction>
    /** Per asset position: its cost basis before any entry of the log. */
    ghost var opening: seq<real>
    /** Positions of the assets created here with an initial buy. */
    ghost var created: set<int>

    ghost predicate Valid()
      reads this
    {
      Balanced(assets, transactions, opening, created)
    }

    /** An id that neither an asset nor a log entry uses yet. */
    ghost predicate Unused(id: string)
      reads this
    {
      && (forall a :: a in assets ==> a.id != id)
      && (forall t :: t in transactions ==> t.assetId != id)
    }

    /**
     * The ledger as loaded from storage. Each asset's opening balance is its
     * stored cost basis minus the net flow of the stored log, so the
     * invariant holds; no asset counts as created here.
     */
    constructor (stored: seq<Asset>, log: seq<Transaction>)
      ensures Valid()
      ensures assets == stored && transactions == log && created == {}
    {
      assets := stored;
      transactions := log;
      opening := seq(|stored|, i requires 0 <= i < |stored| => stored[i].costBasis - NetFlow(log, stored[i].id));
      created := {};
    }

    /**
     * The submission handler. A new asset is appended with its initial trade
     * logged first in the log; for an existing asset every asset with its id
     * is updated, and a trade is logged under the name the asset had before.
     * `newAssetId` and `newTxId` are the identifiers the handler generates.
     */
    method SubmitTransaction(data: SubmitData, newAssetId: string, newTxId: string)
      requires Valid() && Accepted(data)
      requires data.isNewAsset ==> Unused(newAssetId)
      modifies this
      ensures Valid()
      ensures data.isNewAsset ==>
                var t := data.transactionData.value;
                && assets == old(assets) + [NewAsset(newAssetId, data.assetData, t)]
                && transactions == [Logged(newTxId, newAssetId, data.assetData.name, t)] + old(transactions)
                && created == (if t.txType == Buy then old(created) + {|old(assets)|} else old(created))
                && opening == old(opening) + [t.amount - Delta(t.txType, t.amount)]
      ensures !data.isNewAsset ==>
                var id := data.assetData.id.value;
                && assets == UpdateMatching(old(assets), id, data)
                && transactions == (if data.transactionData.Some?
                                    then [Logged(newTxId, id, NameOf(old(assets), id), data.transactionData.value)] + old(transactions)
                                    else old(transactions))
                && created == old(created) && opening == old(opening)
      ensures old(DistinctIds(assets)) ==> DistinctIds(assets)
    {
      if data.isNewAsset {
        var t := data.transactionData.value;
        var asset := NewAsset(newAssetId, data.assetData, t);
        var tx := Logged(newTxId, asset.id, asset.name, t);
        NewAssetBalanced(assets, transactions, opening, created, asset, tx);
        var position := |assets|;
        assets := assets + [asset];
        transactions := [tx] + transactions;
        opening := opening + [asset.costBasis - Delta(tx.txType, tx.amount)];
        if t.txType == Buy {
          created := created + {position};
        }
      } else {
        var id := data.assetData.id.value;
        if data.transactionData.Some? {
          var tx := Logged(newTxId, id, NameOf(assets, id), data.transactionData.value);
          TradeBalanced(assets, transactions, opening, created, data, tx);
          transactions := [tx] + transactions;
        } else {
          SettingsBalanced(assets, transactions, opening, created, id, data);
        }
        assets := UpdateMatching(assets, id, data);
      }
    }

    /** The delete handler: a soft delete that leaves the log alone. */
    method DeleteAsset(assetId: string)
      requires Valid()
      modifies this
      ensures Valid()
      ensures assets == SoftDeleted(old(assets), assetId)
      ensures transactions == old(transactions) && created == old(created) && opening == old(opening)
    {
      assets := SoftDeleted(assets, assetId);
    }

    /** The value-correction handler: the market value is overwritten and the log is left alone. */
    method UpdateValue(assetId: string, newValue: real)
      requires Valid()
      modifies this
      ensures Valid()
      ensures assets == ValueUpdated(old(assets), assetId, newValue)
      ensures transactions == old(transactions) && created == old(created) && opening == old(opening)
    {
      assets := ValueUpdated(assets, assetId, newValue);
    }
  }

  /** For an asset created here with its initial buy, the cost basis is exactly buys minus sells in the log. */
  lemma CreatedCostIsNetFlow(l: Ledger, i: int)
    requires l.Valid() && i in l.created
    ensures 0 <= i < |l.assets|
    ensures l.assets[i].costBasis == Volume(l.transactions, l.assets[i].id, Buy) - Volume(l.transactions, l.assets[i].id, Sell)
  {
    NetFlowIsBuysMinusSells(l.transactions, l.assets[i].id);
  }

  /** Every submission an open dialog can make is one the ledger's handler accepts. */
  lemma DialogSubmissionsAccepted(m: TransactionModal)
    requires m.Valid() && m.isOpen && m.HandleSubmit().Submit?
    ensures Accepted(m.HandleSubmit().data)
    ensures m.HandleSubmit().data.isNewAsset ==> m.HandleSubmit().data.transactionData.value.txType == Buy
  {
    SubmissionShapes(m);
  }
}
