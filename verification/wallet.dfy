/**
 * The wallet screen (ViewModels/WalletViewModel.cs): one row per account
 * and per investment, with their totals.
 */
module Wallet {
  import opened Seqs
  import opened NexusModels
  import opened DataStore

  datatype WalletAccount = WalletAccount(name: string, balance: real, institution: string, color: string)

  datatype InvestmentItem = InvestmentItem(
    name: string,
    invested: real,
    currentValue: real,
    returnPercent: real,
    color: string)

  /** `GetAccountColor`: a fixed shade per known account type, grey for any other. */
  function AccountColor(kind: string): (c: string)
    ensures c == "#808080" <==> kind != "Checking" && kind != "Savings" && kind != "Cash"
  {
    match kind
    case "Checking" => "#C0C0C0"
    case "Savings" => "#909090"
    case "Cash" => "#A0A0A0"
    case _ => "#808080"
  }

  /** Distinct known types get distinct shades. */
  lemma AccountColorsDistinct(a: string, b: string)
    requires a in ["Checking", "Savings", "Cash"] && a != b
    ensures AccountColor(a) != AccountColor(b)
  {
  }

  function AccountRow(a: Account): (r: WalletAccount)
    ensures r.name == a.name && r.balance == a.balance && r.institution == a.institution
    ensures r.color == AccountColor(a.kind)
  {
    WalletAccount(a.name, a.balance, a.institution, AccountColor(a.kind))
  }

  /** An investment row: green exactly when the return percentage is not negative. */
  function InvestmentRow(i: Investment): (r: InvestmentItem)
    ensures r.name == i.name && r.invested == i.amount && r.currentValue == i.currentValue
    ensures r.returnPercent == ReturnPercent(i)
    ensures r.color == "#00C853" <==> ReturnPercent(i) >= 0.0
    ensures r.color == "#D50000" <==> ReturnPercent(i) < 0.0
  {
    InvestmentItem(i.name, i.amount, i.currentValue, ReturnPercent(i),
      if ReturnPercent(i) >= 0.0 then "#00C853" else "#D50000")
  }

  /** An investment worth at least what was put in shows green; one without a stake shows green too. */
  lemma GainShowsGreen(i: Investment)
    requires i.amount <= 0.0 || i.currentValue >= i.amount
    ensures InvestmentRow(i).color == "#00C853"
  {
    if i.amount > 0.0 {
      ReturnPercentSign(i);
    }
  }

  /** `Accounts`: one row per account, in store order. */
  function AccountRows(accounts: seq<Account>): (r: seq<WalletAccount>)
    ensures |r| == |accounts|
    ensures forall k :: 0 <= k < |r| ==> r[k] == AccountRow(accounts[k])
  {
    seq(|accounts|, k requires 0 <= k < |accounts| => AccountRow(accounts[k]))
  }

  /** `Investments`: one row per investment, in store order. */
  function InvestmentRows(investments: seq<Investment>): (r: seq<InvestmentItem>)
    ensures |r| == |investments|
    ensures forall k :: 0 <= k < |r| ==> r[k] == InvestmentRow(investments[k])
  {
    seq(|investments|, k requires 0 <= k < |investments| => InvestmentRow(investments[k]))
  }

  function AccountBalance(a: Account): real { a.balance }
  function Invested(i: Investment): real { i.amount }
  function Worth(i: Investment): real { i.currentValue }

  /** `TotalReturn`: the total value less the total invested, which is the sum of the single returns. */
  function TotalReturn(investments: seq<Investment>): (r: real)
    ensures r == Sum(investments, Return)
  {
    SumDifference(investments, Worth, Invested, Return);
    Sum(investments, Worth) - Sum(investments, Invested)
  }

  class WalletView {
    var accounts: seq<WalletAccount>
    var totalBalance: real
    var investments: seq<InvestmentItem>
    var totalInvested: real
    var totalReturn: real

    /** The screen loads its rows and totals as soon as it is made. */
    constructor (service: DataService)
      ensures accounts == AccountRows(service.data.accounts)
      ensures totalBalance == Sum(service.data.accounts, AccountBalance)
      ensures investments == InvestmentRows(service.data.investments)
      ensures totalInvested == Sum(service.data.investments, Invested)
      ensures totalReturn == TotalReturn(service.data.investments)
    {
      new;
      Load(service);
    }

    /** `LoadWalletData`: the rows and totals recomputed from the store. */
    method Load(service: DataService)
      modifies this
      ensures accounts == AccountRows(service.data.accounts)
      ensures totalBalance == Sum(service.data.accounts, AccountBalance)
      ensures investments == InvestmentRows(service.data.investments)
      ensures totalInvested == Sum(service.data.investments, Invested)
      ensures totalReturn == TotalReturn(service.data.investments)
    {
      var d := service.data;
      accounts := AccountRows(d.accounts);
      totalBalance := Sum(d.accounts, AccountBalance);
      investments := InvestmentRows(d.investments);
      totalInvested := Sum(d.investments, Invested);
      totalReturn := Sum(d.investments, Worth) - totalInvested;
    }
  }
}
