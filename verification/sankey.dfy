/**
 * The cash-flow diagram (Services/SankeyService.cs, Models/SankeyData.cs):
 * income grouped by source on the left, one "Cash Flow" node in the middle,
 * expenses grouped by category on the right, each side stacked top-down and
 * joined to the middle by one link per node.
 */
module Sankey {
  import opened Seqs
  import opened Text
  import opened NexusModels

  const NodeWidth: real := 40.0
  const ColumnSpacing: real := 250.0
  const NodeSpacing: real := 20.0

  /** A box of the diagram; `column` is 0 for income, 1 for the middle node, 2 for expenses. */
  datatype SankeyNode = SankeyNode(name: string, totalAmount: real, column: int, y: real, height: real)

  /** A band from `source` to `target`, entering and leaving at the given offsets. */
  datatype SankeyLink = SankeyLink(source: SankeyNode, target: SankeyNode, amount: real,
                                   sourceY: real, targetY: real, width: real)

  datatype SankeyData = SankeyData(nodes: seq<SankeyNode>, links: seq<SankeyLink>)

  predicate Earned(t: Transaction) { t.isIncome }
  predicate Spent(t: Transaction) { !t.isIncome }
  function Amount(t: Transaction): real { t.amount }

  /** The income group of a transaction: its category, "Other Income" when that is blank. */
  function SourceLabel(t: Transaction): (s: string)
    ensures !IsBlank(s)
    ensures IsBlank(t.category) <==> s == "Other Income" && t.category != "Other Income"
  {
    assert !IsWhiteSpace("Other Income"[0]);
    if IsBlank(t.category) then "Other Income" else t.category
  }

  /** The expense group of a transaction: its category, "Other Expense" when that is blank. */
  function CategoryLabel(t: Transaction): (s: string)
    ensures !IsBlank(s)
    ensures IsBlank(t.category) <==> s == "Other Expense" && t.category != "Other Expense"
  {
    assert !IsWhiteSpace("Other Expense"[0]);
    if IsBlank(t.category) then "Other Expense" else t.category
  }

  predicate LargerFirst(a: Group<string>, b: Group<string>) { a.total >= b.total }

  lemma LargerFirstOrder()
    ensures TotalPreorder(LargerFirst)
  {
  }

  /** `incomeBySource`: income summed per source, largest first. */
  function IncomeFlows(ts: seq<Transaction>): (r: seq<Group<string>>)
    ensures multiset(r) == multiset(GroupSums(Filter(ts, Earned), SourceLabel, Amount))
    ensures SortedBy(r, LargerFirst)
  {
    LargerFirstOrder();
    Sort(GroupSums(Filter(ts, Earned), SourceLabel, Amount), LargerFirst)
  }

  /** `expenseByCategory`: expenses summed per category, largest first. */
  function ExpenseFlows(ts: seq<Transaction>): (r: seq<Group<string>>)
    ensures multiset(r) == multiset(GroupSums(Filter(ts, Spent), CategoryLabel, Amount))
    ensures SortedBy(r, LargerFirst)
  {
    LargerFirstOrder();
    Sort(GroupSums(Filter(ts, Spent), CategoryLabel, Amount), LargerFirst)
  }

  /** The two sides lose nothing: their totals are the sums of all income and of all expenses. */
  lemma FlowTotals(ts: seq<Transaction>)
    ensures Sum(IncomeFlows(ts), GroupTotal) == Sum(Filter(ts, Earned), Amount)
    ensures Sum(ExpenseFlows(ts), GroupTotal) == Sum(Filter(ts, Spent), Amount)
  {
    GroupSumsTotal(Filter(ts, Earned), SourceLabel, Amount);
    SumPermutation(IncomeFlows(ts), GroupSums(Filter(ts, Earned), SourceLabel, Amount), GroupTotal);
    GroupSumsTotal(Filter(ts, Spent), CategoryLabel, Amount);
    SumPermutation(ExpenseFlows(ts), GroupSums(Filter(ts, Spent), CategoryLabel, Amount), GroupTotal);
  }

  /** No source and no category appears twice on its side. */
  lemma FlowsDistinct(ts: seq<Transaction>)
    ensures DistinctKeys(IncomeFlows(ts)) && DistinctKeys(ExpenseFlows(ts))
  {
    DistinctPermutation(GroupSums(Filter(ts, Earned), SourceLabel, Amount), IncomeFlows(ts));
    DistinctPermutation(GroupSums(Filter(ts, Spent), CategoryLabel, Amount), ExpenseFlows(ts));
  }

  /** Each income flow is a source that occurs, carrying the sum of that source's income. */
  lemma IncomeFlowAt(ts: seq<Transaction>, i: nat)
    requires i < |IncomeFlows(ts)|
    ensures var e := Filter(ts, Earned); var f := IncomeFlows(ts)[i];
      f.total == SumByKey(e, SourceLabel, f.key, Amount) && KeyOccurs(e, SourceLabel, f.key)
  {
    var g := GroupSums(Filter(ts, Earned), SourceLabel, Amount);
    assert IncomeFlows(ts)[i] in multiset(g);
    var a :| 0 <= a < |g| && g[a] == IncomeFlows(ts)[i];
    GroupAt(Filter(ts, Earned), SourceLabel, Amount, a);
  }

  /** Each expense flow is a category that occurs, carrying the sum of that category's expenses. */
  lemma ExpenseFlowAt(ts: seq<Transaction>, i: nat)
    requires i < |ExpenseFlows(ts)|
    ensures var e := Filter(ts, Spent); var f := ExpenseFlows(ts)[i];
      f.total == SumByKey(e, CategoryLabel, f.key, Amount) && KeyOccurs(e, CategoryLabel, f.key)
  {
    var g := GroupSums(Filter(ts, Spent), CategoryLabel, Amount);
    assert ExpenseFlows(ts)[i] in multiset(g);
    var a :| 0 <= a < |g| && g[a] == ExpenseFlows(ts)[i];
    GroupAt(Filter(ts, Spent), CategoryLabel, Amount, a);
  }

  /** Every transaction is drawn: its source or category has a flow on its side. */
  lemma FlowsCover(ts: seq<Transaction>, j: nat)
    requires j < |ts|
    ensures ts[j].isIncome ==> HasGroup(IncomeFlows(ts), SourceLabel(ts[j]))
    ensures !ts[j].isIncome ==> HasGroup(ExpenseFlows(ts), CategoryLabel(ts[j]))
  {
    var t := ts[j];
    var side := if t.isIncome then Filter(ts, Earned) else Filter(ts, Spent);
    assert t in side;
    var k :| 0 <= k < |side| && side[k] == t;
    if t.isIncome {
      var g := GroupSums(side, SourceLabel, Amount);
      KeysGrouped(side, SourceLabel, Amount);
      var a :| 0 <= a < |g| && g[a].key == SourceLabel(side[k]);
      assert g[a] in multiset(IncomeFlows(ts));
      var b :| 0 <= b < |IncomeFlows(ts)| && IncomeFlows(ts)[b] == g[a];
    } else {
      var g := GroupSums(side, CategoryLabel, Amount);
      KeysGrouped(side, CategoryLabel, Amount);
      var a :| 0 <= a < |g| && g[a].key == CategoryLabel(side[k]);
      assert g[a] in multiset(ExpenseFlows(ts));
      var b :| 0 <= b < |ExpenseFlows(ts)| && ExpenseFlows(ts)[b] == g[a];
    }
  }

  /** `Math.Max`. */
  function Larger(a: real, b: real): (m: real)
    ensures m >= a && m >= b && (m == a || m == b)
  {
    if a >= b then a else b
  }

  /** `totalFlow`: the larger of the two sides. */
  function TotalFlow(ts: seq<Transaction>): real
  {
    Larger(Sum(IncomeFlows(ts), GroupTotal), Sum(ExpenseFlows(ts), GroupTotal))
  }

  /** The sum of a run of heights. */
  function Total(hs: seq<real>): real
  {
    if |hs| == 0 then 0.0 else Total(hs[..|hs| - 1]) + hs[|hs| - 1]
  }

  lemma TotalNext(hs: seq<real>, i: nat)
    requires i < |hs|
    ensures Total(hs[..i + 1]) == Total(hs[..i]) + hs[i]
  {
    assert hs[..i + 1][..i] == hs[..i];
  }

  /** `amount / total * span`: the part of `span` that `amount` takes of `total`. */
  function Share(amount: real, total: real, span: real): real
    requires total != 0.0
  {
    amount / total * span
  }

  /** Shares of the same span add up like their amounts. */
  lemma ShareAdd(a: real, b: real, total: real, span: real)
    requires total != 0.0
    ensures Share(a, total, span) + Share(b, total, span) == Share(a + b, total, span)
  {
    assert a / total * span + b / total * span == (a + b) / total * span;
  }

  /** The whole total takes the whole span. */
  lemma ShareWhole(total: real, span: real)
    requires total != 0.0
    ensures Share(total, total, span) == span
  {
    assert total / total == 1.0;
  }

  /** Each flow's height: its share of the total flow, of the column's height less its gaps. */
  function Heights(flows: seq<Group<string>>, flow: real, span: real): (hs: seq<real>)
    requires flow != 0.0
    ensures |hs| == |flows|
  {
    seq(|flows|, k requires 0 <= k < |flows| => Share(flows[k].total, flow, span))
  }

  /** The heights of a column share its span in proportion to the column's total. */
  lemma {:induction false} HeightsTotal(flows: seq<Group<string>>, flow: real, span: real)
    requires flow != 0.0
    ensures Total(Heights(flows, flow, span)) == Share(Sum(flows, GroupTotal), flow, span)
  {
    if |flows| > 0 {
      var n := |flows| - 1;
      assert Heights(flows, flow, span)[..n] == Heights(flows[..n], flow, span) by {
        forall k | 0 <= k < n ensures Heights(flows, flow, span)[k] == Heights(flows[..n], flow, span)[k] {
          assert flows[..n][k] == flows[k];
        }
      }
      HeightsTotal(flows[..n], flow, span);
      ShareAdd(Sum(flows[..n], GroupTotal), flows[n].total, flow, span);
    }
  }

  /** One column: the flows in order with the given heights, stacked from the top with a gap after each. */
  function Place(flows: seq<Group<string>>, column: int, hs: seq<real>): (r: seq<SankeyNode>)
    requires |hs| == |flows|
    ensures |r| == |flows|
    ensures forall k :: 0 <= k < |r| ==>
      r[k].name == flows[k].key && r[k].totalAmount == flows[k].total && r[k].column == column
      && r[k].height == hs[k]
  {
    seq(|flows|, k requires 0 <= k < |flows| =>
      SankeyNode(flows[k].key, flows[k].total, column, Total(hs[..k]) + NodeSpacing * k as real, hs[k]))
  }

  /**
   * `allocationNode`: the source writes its top as `(canvas - flow / flow * canvas) / 2`
   * and its height as `flow / flow * canvas * 0.8`; `AllocationAsWritten` shows these are 0 and 0.8 canvas.
   */
  function AllocationNode(flow: real, canvas: real): (n: SankeyNode)
    requires flow != 0.0
    ensures n.name == "Cash Flow" && n.totalAmount == flow && n.column == 1
    ensures n.y == 0.0 && n.height == 0.8 * canvas
  {
    SankeyNode("Cash Flow", flow, 1, 0.0, 0.8 * canvas)
  }

  lemma AllocationAsWritten(flow: real, canvas: real)
    requires flow != 0.0
    ensures (canvas - Share(flow, flow, canvas)) / 2.0 == AllocationNode(flow, canvas).y
    ensures Share(flow, flow, canvas) * 0.8 == AllocationNode(flow, canvas).height
  {
    ShareWhole(flow, canvas);
  }

  function NodeHeights(nodes: seq<SankeyNode>): (hs: seq<real>)
    ensures |hs| == |nodes|
  {
    seq(|nodes|, k requires 0 <= k < |nodes| => nodes[k].height)
  }

  /** One link per input node into the hub, entering it below the links before it. */
  function InLinks(inputs: seq<SankeyNode>, hub: SankeyNode): (r: seq<SankeyLink>)
    ensures |r| == |inputs|
  {
    var hs := NodeHeights(inputs);
    seq(|inputs|, k requires 0 <= k < |inputs| =>
      SankeyLink(inputs[k], hub, inputs[k].totalAmount, 0.0, Total(hs[..k]), inputs[k].height))
  }

  /** One link per output node out of the hub, leaving it below the links before it. */
  function OutLinks(hub: SankeyNode, outputs: seq<SankeyNode>): (r: seq<SankeyLink>)
    ensures |r| == |outputs|
  {
    var hs := NodeHeights(outputs);
    seq(|outputs|, k requires 0 <= k < |outputs| =>
      SankeyLink(hub, outputs[k], outputs[k].totalAmount, Total(hs[..k]), 0.0, outputs[k].height))
  }

  predicate IsInput(n: SankeyNode) { n.column == 0 }
  predicate IsOutput(n: SankeyNode) { n.column == 2 }

  /** The height a column of `count` nodes shares out: the canvas less one gap per node. */
  function ColumnSpan(count: nat, canvas: real): real
  {
    canvas - NodeSpacing * count as real
  }

  /** The nodes: the input column, the hub, the output column. */
  function Columns(ins: seq<Group<string>>, outs: seq<Group<string>>, hub: SankeyNode,
                   left: seq<real>, right: seq<real>): seq<SankeyNode>
    requires |left| == |ins| && |right| == |outs|
  {
    Place(ins, 0, left) + [hub] + Place(outs, 2, right)
  }

  /** The links: one from each column-0 node into `hub`, then one from `hub` to each column-2 node. */
  function Links(nodes: seq<SankeyNode>, hub: SankeyNode): seq<SankeyLink>
  {
    InLinks(Filter(nodes, IsInput), hub) + OutLinks(hub, Filter(nodes, IsOutput))
  }

  /**
   * The diagram for an input and an output column of the given heights around
   * `hub`: the nodes in column order, then a link from each input node into the
   * hub and one from the hub to each output node, picked out of the node list
   * by column.
   */
  function Arrange(ins: seq<Group<string>>, outs: seq<Group<string>>, hub: SankeyNode,
                   left: seq<real>, right: seq<real>): SankeyData
    requires |left| == |ins| && |right| == |outs|
  {
    var nodes := Columns(ins, outs, hub, left, right);
    SankeyData(nodes, Links(nodes, hub))
  }

  /** The diagram drawn for two sides of flows, income `ins` and expense `outs`. */
  function Layout(ins: seq<Group<string>>, outs: seq<Group<string>>, canvas: real): SankeyData
  {
    var flow := Larger(Sum(ins, GroupTotal), Sum(outs, GroupTotal));
    if flow == 0.0 then SankeyData([], [])
    else
      Arrange(ins, outs, AllocationNode(flow, canvas),
              Heights(ins, flow, ColumnSpan(|ins|, canvas)), Heights(outs, flow, ColumnSpan(|outs|, canvas)))
  }

  /** `GenerateSankeyFromTransactions`, as a value. */
  function Diagram(ts: seq<Transaction>, canvas: real): SankeyData
  {
    Layout(IncomeFlows(ts), ExpenseFlows(ts), canvas)
  }

  /** The diagram is empty exactly when the larger of total income and total expense is zero. */
  lemma EmptyWithoutFlow(ts: seq<Transaction>, canvas: real)
    ensures TotalFlow(ts) == Larger(Sum(Filter(ts, Earned), Amount), Sum(Filter(ts, Spent), Amount))
    ensures Diagram(ts, canvas).nodes == [] <==> TotalFlow(ts) == 0.0
    ensures Diagram(ts, canvas).nodes == [] ==> Diagram(ts, canvas).links == []
  {
    FlowTotals(ts);
  }

  /** Picking the input column out of a node list laid out as input column, hub, output column. */
  lemma PickInputs(left: seq<SankeyNode>, hub: SankeyNode, right: seq<SankeyNode>)
    requires forall k :: 0 <= k < |left| ==> left[k].column == 0
    requires hub.column == 1
    requires forall k :: 0 <= k < |right| ==> right[k].column == 2
    ensures Filter(left + [hub] + right, IsInput) == left
  {
    assert Filter(left, IsInput) == left by { FilterKeepsAll(left, IsInput); }
    assert Filter([hub], IsInput) == [] by { FilterKeepsNone([hub], IsInput); }
    assert Filter(right, IsInput) == [] by { FilterKeepsNone(right, IsInput); }
    FilterAppend(left, [hub], IsInput);
    FilterAppend(left + [hub], right, IsInput);
  }

  /** Picking the output column out of the same layout. */
  lemma PickOutputs(left: seq<SankeyNode>, hub: SankeyNode, right: seq<SankeyNode>)
    requires forall k :: 0 <= k < |left| ==> left[k].column == 0
    requires hub.column == 1
    requires forall k :: 0 <= k < |right| ==> right[k].column == 2
    ensures Filter(left + [hub] + right, IsOutput) == right
  {
    assert Filter(left, IsOutput) == [] by { FilterKeepsNone(left, IsOutput); }
    assert Filter([hub], IsOutput) == [] by { FilterKeepsNone([hub], IsOutput); }
    assert Filter(right, IsOutput) == right by { FilterKeepsAll(right, IsOutput); }
    FilterAppend(left, [hub], IsOutput);
    FilterAppend(left + [hub], right, IsOutput);
  }

  /** With the hub in column 1, the links are drawn for exactly the two stacked side columns. */
  lemma ArrangeColumns(ins: seq<Group<string>>, outs: seq<Group<string>>, hub: SankeyNode,
                       left: seq<real>, right: seq<real>)
    requires |left| == |ins| && |right| == |outs| && hub.column == 1
    ensures var nodes := Columns(ins, outs, hub, left, right);
      Filter(nodes, IsInput) == Place(ins, 0, left) && Filter(nodes, IsOutput) == Place(outs, 2, right)
  {
    PickInputs(Place(ins, 0, left), hub, Place(outs, 2, right));
    PickOutputs(Place(ins, 0, left), hub, Place(outs, 2, right));
  }

  /** Where the parts of `l + [hub] + r` sit. */
  lemma Joined(l: seq<SankeyNode>, hub: SankeyNode, r: seq<SankeyNode>)
    ensures var nodes, n := l + [hub] + r, |l|;
      |nodes| == n + 1 + |r| && nodes[n] == hub
      && (forall k :: 0 <= k < n ==> nodes[k] == l[k])
      && (forall k :: 0 <= k < |r| ==> nodes[n + 1 + k] == r[k])
  {
  }

  /**
   * The nodes: each input flow in column 0 with its height, then the hub, then
   * each output flow in column 2 with its height.
   */
  lemma ArrangeNodes(ins: seq<Group<string>>, outs: seq<Group<string>>, hub: SankeyNode,
                     left: seq<real>, right: seq<real>)
    requires |left| == |ins| && |right| == |outs|
    ensures |Columns(ins, outs, hub, left, right)| == |ins| + 1 + |outs|
    ensures var nodes := Columns(ins, outs, hub, left, right);
      forall k :: 0 <= k < |ins| ==>
        nodes[k].name == ins[k].key && nodes[k].totalAmount == ins[k].total
        && nodes[k].column == 0 && nodes[k].height == left[k]
    ensures Columns(ins, outs, hub, left, right)[|ins|] == hub
    ensures var nodes := Columns(ins, outs, hub, left, right); var n := |ins|;
      (forall k :: 0 <= k < |outs| ==>
            nodes[n + 1 + k].name == outs[k].key && nodes[n + 1 + k].totalAmount == outs[k].total
            && nodes[n + 1 + k].column == 2 && nodes[n + 1 + k].height == right[k])
  {
    Joined(Place(ins, 0, left), hub, Place(outs, 2, right));
  }

  /** The links drawn for a node list `l + [hub] + r`, position by position. */
  lemma LinksAround(l: seq<SankeyNode>, hub: SankeyNode, r: seq<SankeyNode>)
    ensures var nodes, links := l + [hub] + r, InLinks(l, hub) + OutLinks(hub, r); var n := |l|;
      |links| == |nodes| - 1
      && (forall k :: 0 <= k < n ==>
            links[k].source == nodes[k] && links[k].target == nodes[n]
            && links[k].amount == nodes[k].totalAmount && links[k].width == nodes[k].height)
      && (forall k :: n < k < |nodes| ==>
            links[k - 1].source == nodes[n] && links[k - 1].target == nodes[k]
            && links[k - 1].amount == nodes[k].totalAmount && links[k - 1].width == nodes[k].height)
  {
    var nodes, into, outof := l + [hub] + r, InLinks(l, hub), OutLinks(hub, r);
    var n := |l|;
    assert forall k :: n < k < |nodes| ==> nodes[k] == r[k - n - 1] && (into + outof)[k - 1] == outof[k - n - 1];
  }

  /**
   * One link per node besides the hub: each input node feeds the hub with its
   * whole amount and height, and the hub feeds each output node likewise.
   */
  lemma ArrangeLinks(ins: seq<Group<string>>, outs: seq<Group<string>>, hub: SankeyNode,
                     left: seq<real>, right: seq<real>)
    requires |left| == |ins| && |right| == |outs| && hub.column == 1
    ensures var d := Arrange(ins, outs, hub, left, right); var n := |ins|;
      |d.nodes| == n + 1 + |outs| && |d.links| == |d.nodes| - 1
      && (forall k :: 0 <= k < n ==>
            d.links[k].source == d.nodes[k] && d.links[k].target == d.nodes[n]
            && d.links[k].amount == d.nodes[k].totalAmount && d.links[k].width == d.nodes[k].height)
      && (forall k :: n < k < |d.nodes| ==>
            d.links[k - 1].source == d.nodes[n] && d.links[k - 1].target == d.nodes[k]
            && d.links[k - 1].amount == d.nodes[k].totalAmount && d.links[k - 1].width == d.nodes[k].height)
  {
    ArrangeColumns(ins, outs, hub, left, right);
    LinksAround(Place(ins, 0, left), hub, Place(outs, 2, right));
  }

  /** Nodes stacked from the top: the first at 0, each next one gap below the end of the one before. */
  ghost predicate Stacked(r: seq<SankeyNode>)
  {
    if |r| == 0 then true
    else if |r| == 1 then r[0].y == 0.0
    else Stacked(r[..|r| - 1]) && r[|r| - 1].y == r[|r| - 2].y + r[|r| - 2].height + NodeSpacing
  }

  /** Links meeting their target one below the other, from its top. */
  ghost predicate EnterStacked(r: seq<SankeyLink>)
  {
    if |r| == 0 then true
    else if |r| == 1 then r[0].targetY == 0.0
    else EnterStacked(r[..|r| - 1]) && r[|r| - 1].targetY == r[|r| - 2].targetY + r[|r| - 2].width
  }

  /** Links leaving their source one below the other, from its top. */
  ghost predicate LeaveStacked(r: seq<SankeyLink>)
  {
    if |r| == 0 then true
    else if |r| == 1 then r[0].sourceY == 0.0
    else LeaveStacked(r[..|r| - 1]) && r[|r| - 1].sourceY == r[|r| - 2].sourceY + r[|r| - 2].width
  }

  /** `Stacked`, read position by position. */
  lemma {:induction false} StackedIff(r: seq<SankeyNode>)
    ensures Stacked(r) <==>
      (|r| > 0 ==> r[0].y == 0.0)
      && forall k :: 0 < k < |r| ==> r[k].y == r[k - 1].y + r[k - 1].height + NodeSpacing
  {
    if |r| > 1 {
      var n := |r| - 1;
      StackedIff(r[..n]);
      assert forall k :: 0 <= k < n ==> r[..n][k] == r[k];
    }
  }

  lemma {:induction false} EnterStackedIff(r: seq<SankeyLink>)
    ensures EnterStacked(r) <==>
      (|r| > 0 ==> r[0].targetY == 0.0)
      && forall k :: 0 < k < |r| ==> r[k].targetY == r[k - 1].targetY + r[k - 1].width
  {
    if |r| > 1 {
      var n := |r| - 1;
      EnterStackedIff(r[..n]);
      assert forall k :: 0 <= k < n ==> r[..n][k] == r[k];
    }
  }

  lemma {:induction false} LeaveStackedIff(r: seq<SankeyLink>)
    ensures LeaveStacked(r) <==>
      (|r| > 0 ==> r[0].sourceY == 0.0)
      && forall k :: 0 < k < |r| ==> r[k].sourceY == r[k - 1].sourceY + r[k - 1].width
  {
    if |r| > 1 {
      var n := |r| - 1;
      LeaveStackedIff(r[..n]);
      assert forall k :: 0 <= k < n ==> r[..n][k] == r[k];
    }
  }

  lemma PlaceStacked(flows: seq<Group<string>>, column: int, hs: seq<real>)
    requires |hs| == |flows|
    ensures Stacked(Place(flows, column, hs))
  {
    StackedIff(Place(flows, column, hs));
    assert |hs| > 0 ==> hs[..0] == [];
    forall k | 0 < k < |flows| ensures Total(hs[..k]) == Total(hs[..k - 1]) + hs[k - 1] {
      TotalNext(hs, k - 1);
    }
  }

  lemma InLinksStacked(inputs: seq<SankeyNode>, hub: SankeyNode)
    ensures EnterStacked(InLinks(inputs, hub))
  {
    EnterStackedIff(InLinks(inputs, hub));
    var hs := NodeHeights(inputs);
    assert |hs| > 0 ==> hs[..0] == [];
    forall k | 0 < k < |inputs| ensures Total(hs[..k]) == Total(hs[..k - 1]) + hs[k - 1] {
      TotalNext(hs, k - 1);
    }
  }

  lemma OutLinksStacked(hub: SankeyNode, outputs: seq<SankeyNode>)
    ensures LeaveStacked(OutLinks(hub, outputs))
  {
    LeaveStackedIff(OutLinks(hub, outputs));
    var hs := NodeHeights(outputs);
    assert |hs| > 0 ==> hs[..0] == [];
    forall k | 0 < k < |outputs| ensures Total(hs[..k]) == Total(hs[..k - 1]) + hs[k - 1] {
      TotalNext(hs, k - 1);
    }
  }

  /** Cutting a stacked column and a stacked run of links back out of the lists they were joined into. */
  lemma SidesStacked(l: seq<SankeyNode>, hub: SankeyNode, r: seq<SankeyNode>,
                     into: seq<SankeyLink>, outof: seq<SankeyLink>)
    requires Stacked(l) && Stacked(r) && EnterStacked(into) && LeaveStacked(outof)
    ensures Stacked((l + [hub] + r)[..|l|]) && Stacked((l + [hub] + r)[|l| + 1..])
    ensures EnterStacked((into + outof)[..|into|]) && LeaveStacked((into + outof)[|into|..])
  {
    assert (l + [hub] + r)[..|l|] == l && (l + [hub] + r)[|l| + 1..] == r;
    assert (into + outof)[..|into|] == into && (into + outof)[|into|..] == outof;
  }

  /**
   * Each side column is stacked from the top with a gap after each node, and
   * on each side the links meet the hub one below the other, from its top.
   */
  lemma ArrangeStacked(ins: seq<Group<string>>, outs: seq<Group<string>>, hub: SankeyNode,
                       left: seq<real>, right: seq<real>)
    requires |left| == |ins| && |right| == |outs| && hub.column == 1
    ensures var d := Arrange(ins, outs, hub, left, right); var n := |ins|;
      |d.nodes| == n + 1 + |outs| && |d.links| == n + |outs|
      && Stacked(d.nodes[..n]) && Stacked(d.nodes[n + 1..])
      && EnterStacked(d.links[..n]) && LeaveStacked(d.links[n..])
  {
    var l, r := Place(ins, 0, left), Place(outs, 2, right);
    ArrangeColumns(ins, outs, hub, left, right);
    PlaceStacked(ins, 0, left);
    PlaceStacked(outs, 2, right);
    InLinksStacked(l, hub);
    OutLinksStacked(hub, r);
    SidesStacked(l, hub, r, InLinks(l, hub), OutLinks(hub, r));
  }

  /**
   * The laid-out diagram: the side columns with their heights, the hub
   * "Cash Flow" node carrying the larger side's total at the top of the canvas,
   * each side's heights its flows' shares of the total flow of the column's
   * span, and the side holding the larger total filling the canvas with its gaps.
   */
  lemma LayoutHeights(ins: seq<Group<string>>, outs: seq<Group<string>>, canvas: real)
    requires Larger(Sum(ins, GroupTotal), Sum(outs, GroupTotal)) != 0.0
    ensures var flow := Larger(Sum(ins, GroupTotal), Sum(outs, GroupTotal));
      var left, right := Heights(ins, flow, ColumnSpan(|ins|, canvas)), Heights(outs, flow, ColumnSpan(|outs|, canvas));
      var hub := AllocationNode(flow, canvas);
      Layout(ins, outs, canvas) == Arrange(ins, outs, hub, left, right)
      && hub.name == "Cash Flow" && hub.totalAmount == flow && hub.column == 1
      && (forall k :: 0 <= k < |ins| ==> left[k] == Share(ins[k].total, flow, ColumnSpan(|ins|, canvas)))
      && (forall k :: 0 <= k < |outs| ==> right[k] == Share(outs[k].total, flow, ColumnSpan(|outs|, canvas)))
  {
  }

  /**
   * A column holding the larger side fills the canvas exactly with its gaps:
   * its last node ends one gap above the bottom.
   */
  lemma ColumnFillsCanvas(flows: seq<Group<string>>, column: int, flow: real, canvas: real)
    requires flow != 0.0 && flow == Sum(flows, GroupTotal) && |flows| > 0
    ensures var nodes := Place(flows, column, Heights(flows, flow, ColumnSpan(|flows|, canvas)));
      var last := nodes[|flows| - 1];
      last.y + last.height + NodeSpacing == canvas
  {
    var n := |flows|;
    var span := ColumnSpan(n, canvas);
    var hs := Heights(flows, flow, span);
    HeightsTotal(flows, flow, span);
    TotalNext(hs, n - 1);
    assert hs[..n] == hs;
    ShareWhole(flow, span);
  }

  /** One `foreach` over a side's flows: each node sized by its share and placed one gap below the last. */
  method StackColumn(flows: seq<Group<string>>, column: int, flow: real, span: real) returns (nodes: seq<SankeyNode>)
    requires flow != 0.0
    ensures nodes == Place(flows, column, Heights(flows, flow, span))
  {
    ghost var hs := Heights(flows, flow, span);
    nodes := [];
    var currentY := 0.0;
    var i := 0;
    while i < |flows|
      invariant 0 <= i <= |flows|
      invariant nodes == Place(flows, column, hs)[..i]
      invariant currentY == Total(hs[..i]) + NodeSpacing * i as real
    {
      var height := Share(flows[i].total, flow, span);
      nodes := nodes + [SankeyNode(flows[i].key, flows[i].total, column, currentY, height)];
      TotalNext(hs, i);
      currentY := currentY + height + NodeSpacing;
      i := i + 1;
    }
    assert Place(flows, column, hs)[..i] == Place(flows, column, hs);
  }

  /** The `foreach` over the input nodes: one link each into `hub`, entering below the one before. */
  method LinkInputs(inputs: seq<SankeyNode>, hub: SankeyNode) returns (links: seq<SankeyLink>)
    ensures links == InLinks(inputs, hub)
  {
    ghost var hs := NodeHeights(inputs);
    links := [];
    var sourceOffset := 0.0;
    var k := 0;
    while k < |inputs|
      invariant 0 <= k <= |inputs|
      invariant links == InLinks(inputs, hub)[..k]
      invariant sourceOffset == Total(hs[..k])
    {
      links := links + [SankeyLink(inputs[k], hub, inputs[k].totalAmount, 0.0, sourceOffset, inputs[k].height)];
      TotalNext(hs, k);
      sourceOffset := sourceOffset + inputs[k].height;
      k := k + 1;
    }
    assert InLinks(inputs, hub)[..k] == InLinks(inputs, hub);
  }

  /** The `foreach` over the output nodes: one link each out of `hub`, leaving below the one before. */
  method LinkOutputs(hub: SankeyNode, outputs: seq<SankeyNode>) returns (links: seq<SankeyLink>)
    ensures links == OutLinks(hub, outputs)
  {
    ghost var hs := NodeHeights(outputs);
    links := [];
    var targetOffset := 0.0;
    var k := 0;
    while k < |outputs|
      invariant 0 <= k <= |outputs|
      invariant links == OutLinks(hub, outputs)[..k]
      invariant targetOffset == Total(hs[..k])
    {
      links := links + [SankeyLink(hub, outputs[k], outputs[k].totalAmount, targetOffset, 0.0, outputs[k].height)];
      TotalNext(hs, k);
      targetOffset := targetOffset + outputs[k].height;
      k := k + 1;
    }
    assert OutLinks(hub, outputs)[..k] == OutLinks(hub, outputs);
  }

  /**
   * `GenerateSankeyFromTransactions`: group and total both sides, stop when
   * there is no flow, stack the input column, the hub and the output column,
   * then link the column-0 nodes into the hub and the hub to the column-2 nodes.
   */
  method Generate(ts: seq<Transaction>, canvas: real) returns (data: SankeyData)
    ensures data == Diagram(ts, canvas)
  {
    var incomes := IncomeFlows(ts);
    var expenses := ExpenseFlows(ts);
    var totalIncome := Sum(incomes, GroupTotal);
    var totalExpense := Sum(expenses, GroupTotal);
    var totalFlow := Larger(totalIncome, totalExpense);
    if totalFlow == 0.0 {
      return SankeyData([], []);
    }
    var nodes := StackColumn(incomes, 0, totalFlow, ColumnSpan(|incomes|, canvas));
    var hub := AllocationNode(totalFlow, canvas);
    nodes := nodes + [hub];
    var outputs := StackColumn(expenses, 2, totalFlow, ColumnSpan(|expenses|, canvas));
    nodes := nodes + outputs;
    var links := LinkInputs(Filter(nodes, IsInput), hub);
    var more := LinkOutputs(hub, Filter(nodes, IsOutput));
    links := links + more;
    data := SankeyData(nodes, links);
  }

  /** `GetNodeX`: the left edge of a column. */
  function NodeX(column: int): real
  {
    column as real * ColumnSpacing + 50.0
  }

  /** `GetNodeWidth`: the width of every node. */
  function NodeBoxWidth(): real
  {
    NodeWidth
  }

  /** The first column starts 50 in, and neighbouring columns leave a 210-wide gap between their nodes. */
  lemma ColumnsApart(column: int)
    ensures NodeX(0) == 50.0
    ensures NodeX(column + 1) - (NodeX(column) + NodeBoxWidth()) == 210.0
  {
  }
}
