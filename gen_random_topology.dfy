/** scripts/gen_random_topology.go: builds a random undirected topology of
    twenty nodes, one coin flip per unordered pair, and writes it out as YAML.
    The flips are an input: `draws[k]` is the k-th value rand.Float64 returns. */
module RandomTopology {

  const NumNodes: nat := 20
  const EdgeProbability: real := 0.2
  /** The number of unordered pairs of distinct nodes, i.e. of flips drawn. */
  const PairCount: nat := 190

  datatype NodeEntry = NodeEntry(id: string, neighbors: seq<string>)

  // ----- node names -----

  function DigitChar(d: nat): char
    requires d < 10
  {
    (d + 48) as char
  }

  /** The decimal notation of `n`, as `%d` prints it. */
  function Digits(n: nat): (s: string)
    ensures 1 <= |s| && (n < 10 <==> |s| == 1)
    ensures forall p :: 0 <= p < |s| ==> '0' <= s[p] <= '9'
  {
    if n < 10 then [DigitChar(n)] else Digits(n / 10) + [DigitChar(n % 10)]
  }

  lemma {:induction false} DigitsInjective(a: nat, b: nat)
    requires Digits(a) == Digits(b)
    ensures a == b
    decreases a
  {
    if a >= 10 {
      var da, db := Digits(a), Digits(b);
      assert Digits(a / 10) == da[..|da| - 1];
      assert Digits(b / 10) == db[..|db| - 1];
      DigitsInjective(a / 10, b / 10);
      assert DigitChar(a % 10) == da[|da| - 1] == DigitChar(b % 10);
    }
  }

  /** The id of the node numbered `i` (counting from one). */
  function Name(i: nat): string
  {
    "Node" + Digits(i)
  }

  /** Different node numbers give different ids. */
  lemma NameInjective(a: nat, b: nat)
    ensures Name(a) == Name(b) <==> a == b
  {
    if Name(a) == Name(b) {
      assert Digits(a) == Name(a)[4..];
      assert Digits(b) == Name(b)[4..];
      DigitsInjective(a, b);
    }
  }

  /** The ids of the 0-based node indexes `ys`. */
  function Names(ys: seq<nat>): (r: seq<string>)
    ensures |r| == |ys| && forall p :: 0 <= p < |ys| ==> r[p] == Name(ys[p] + 1)
  {
    if ys == [] then [] else Names(ys[..|ys| - 1]) + [Name(ys[|ys| - 1] + 1)]
  }

  // ----- the order in which pairs draw their flip -----

  /** How many pairs the rows before row `a` of the double loop visit. */
  function RowStart(a: nat): nat
    requires a <= NumNodes
  {
    if a == 0 then 0 else RowStart(a - 1) + (NumNodes - a)
  }

  /** The position in the flip stream of the draw for the pair `a` < `b`; all
      pairs draw within the first PairCount values. */
  function PairRank(a: nat, b: nat): (r: nat)
    requires a < b < NumNodes
    ensures RowStart(a) <= r < RowStart(a + 1) <= PairCount
  {
    RowStartMonotone(a + 1, NumNodes);
    AllRows();
    RowStart(a) + (b - a - 1)
  }

  /** All rows together visit PairCount pairs. */
  lemma AllRows()
    ensures RowStart(NumNodes) == PairCount
  {
    RowStartClosed(NumNodes);
  }

  /** The rows before row `a` visit a(2N - 1 - a)/2 pairs. */
  lemma {:induction false} RowStartClosed(a: nat)
    requires a <= NumNodes
    ensures 2 * RowStart(a) == a * (2 * NumNodes - 1 - a)
  {
    if a > 0 {
      RowStartClosed(a - 1);
      assert 2 * RowStart(a) == (a - 1) * (2 * NumNodes - a) + 2 * (NumNodes - a);
    }
  }

  lemma {:induction false} RowStartMonotone(a: nat, c: nat)
    requires a <= c <= NumNodes
    ensures RowStart(a) <= RowStart(c)
    decreases c - a
  {
    if a < c {
      RowStartMonotone(a + 1, c);
    }
  }

  /** The pairs draw in the lexicographic order the double loop visits them
      in, so each pair has a draw of its own. */
  lemma PairRankOrder(a: nat, b: nat, c: nat, d: nat)
    requires a < b < NumNodes && c < d < NumNodes
    ensures (a < c || (a == c && b < d)) ==> PairRank(a, b) < PairRank(c, d)
    ensures PairRank(a, b) == PairRank(c, d) ==> a == c && b == d
  {
    if a < c {
      RowStartMonotone(a + 1, c);
    } else if c < a {
      RowStartMonotone(c + 1, a);
    }
  }

  // ----- the adjacency the double loop builds -----

  /** Nodes `x` and `y` are linked when they differ and their pair's flip came
      up below EdgeProbability. */
  predicate Edge(draws: seq<real>, x: nat, y: nat)
    requires |draws| >= PairCount && x < NumNodes && y < NumNodes
  {
    x != y && draws[if x < y then PairRank(x, y) else PairRank(y, x)] < EdgeProbability
  }

  /** The pair `a` < `b` is visited before the loop reaches pair (i, j). */
  predicate Done(a: nat, b: nat, i: nat, j: nat)
  {
    a < i || (a == i && b < j)
  }

  /** `x` and `y` are linked and their pair is visited before (i, j). */
  predicate Linked(draws: seq<real>, x: nat, y: nat, i: nat, j: nat)
    requires |draws| >= PairCount && x < NumNodes && y < NumNodes
  {
    Edge(draws, x, y) && (if x < y then Done(x, y, i, j) else Done(y, x, i, j))
  }

  /** The indexes below `n` that are linked to `x` before pair (i, j), in
      ascending order. */
  function Nbrs(draws: seq<real>, x: nat, i: nat, j: nat, n: nat): seq<nat>
    requires |draws| >= PairCount && x < NumNodes && n <= NumNodes
  {
    if n == 0 then []
    else Nbrs(draws, x, i, j, n - 1) + (if Linked(draws, x, n - 1, i, j) then [n - 1] else [])
  }

  /** The list holds exactly the linked indexes below `n`. */
  lemma {:induction false} NbrsMembers(draws: seq<real>, x: nat, i: nat, j: nat, n: nat)
    requires |draws| >= PairCount && x < NumNodes && n <= NumNodes
    ensures forall y: nat :: y in Nbrs(draws, x, i, j, n) <==> y < n && Linked(draws, x, y, i, j)
  {
    if n > 0 {
      NbrsMembers(draws, x, i, j, n - 1);
    }
  }

  /** The list is strictly ascending. */
  lemma {:induction false} NbrsAscending(draws: seq<real>, x: nat, i: nat, j: nat, n: nat)
    requires |draws| >= PairCount && x < NumNodes && n <= NumNodes
    ensures forall p, q :: 0 <= p < q < |Nbrs(draws, x, i, j, n)| ==> Nbrs(draws, x, i, j, n)[p] < Nbrs(draws, x, i, j, n)[q]
  {
    if n > 0 {
      NbrsAscending(draws, x, i, j, n - 1);
      NbrsMembers(draws, x, i, j, n - 1);
      var below := Nbrs(draws, x, i, j, n - 1);
      forall p | 0 <= p < |below| ensures below[p] < n - 1 {
        assert below[p] in below;
      }
    }
  }

  lemma {:induction false} NbrsAgree(draws: seq<real>, x: nat, i: nat, j: nat, i2: nat, j2: nat, n: nat)
    requires |draws| >= PairCount && x < NumNodes && n <= NumNodes
    requires forall y :: 0 <= y < n ==> Linked(draws, x, y, i, j) == Linked(draws, x, y, i2, j2)
    ensures Nbrs(draws, x, i, j, n) == Nbrs(draws, x, i2, j2, n)
  {
    if n > 0 {
      NbrsAgree(draws, x, i, j, i2, j2, n - 1);
    }
  }

  lemma {:induction false} NbrsNoneAbove(draws: seq<real>, x: nat, i: nat, j: nat, m: nat, n: nat)
    requires |draws| >= PairCount && x < NumNodes && m <= n <= NumNodes
    requires forall y :: m <= y < n ==> !Linked(draws, x, y, i, j)
    ensures Nbrs(draws, x, i, j, n) == Nbrs(draws, x, i, j, m)
    decreases n
  {
    if m < n {
      NbrsNoneAbove(draws, x, i, j, m, n - 1);
    }
  }

  /** Visiting pair (i, j) appends j to i's list and i to j's list when the
      flip succeeds, and changes no other list. */
  lemma VisitPair(draws: seq<real>, i: nat, j: nat, x: nat)
    requires |draws| >= PairCount && i < j < NumNodes && x < NumNodes
    ensures x == i ==> Nbrs(draws, x, i, j + 1, NumNodes)
                       == Nbrs(draws, x, i, j, NumNodes) + (if Edge(draws, i, j) then [j] else [])
    ensures x == j ==> Nbrs(draws, x, i, j + 1, NumNodes)
                       == Nbrs(draws, x, i, j, NumNodes) + (if Edge(draws, i, j) then [i] else [])
    ensures x != i && x != j ==> Nbrs(draws, x, i, j + 1, NumNodes) == Nbrs(draws, x, i, j, NumNodes)
  {
    if x == i {
      VisitPairEnd(draws, i, j, x, j);
    } else if x == j {
      VisitPairEnd(draws, i, j, x, i);
    } else {
      NbrsAgree(draws, x, i, j, i, j + 1, NumNodes);
    }
  }

  /** Visiting pair (i, j) appends the other end `y` to the list of end `x`
      when the flip succeeds. */
  lemma VisitPairEnd(draws: seq<real>, i: nat, j: nat, x: nat, y: nat)
    requires |draws| >= PairCount && i < j < NumNodes
    requires (x == i && y == j) || (x == j && y == i)
    ensures Nbrs(draws, x, i, j + 1, NumNodes) == Nbrs(draws, x, i, j, NumNodes) + (if Edge(draws, i, j) then [y] else [])
  {
    NbrsNoneAbove(draws, x, i, j, y, NumNodes);
    NbrsNoneAbove(draws, x, i, j + 1, y + 1, NumNodes);
    NbrsAgree(draws, x, i, j, i, j + 1, y);
  }

  /** The end of row i is the start of row i + 1. */
  lemma NextRow(draws: seq<real>, i: nat, x: nat)
    requires |draws| >= PairCount && i < NumNodes && x < NumNodes
    ensures Nbrs(draws, x, i, NumNodes, NumNodes) == Nbrs(draws, x, i + 1, i + 2, NumNodes)
  {
    NbrsAgree(draws, x, i, NumNodes, i + 1, i + 2, NumNodes);
  }

  /** The final neighbour indexes of node `x`. */
  function Neighbors(draws: seq<real>, x: nat): seq<nat>
    requires |draws| >= PairCount && x < NumNodes
  {
    Nbrs(draws, x, NumNodes, NumNodes + 1, NumNodes)
  }

  /** The entry of node `x` once pairs before (i, j) are visited. */
  function Entry(draws: seq<real>, x: nat, i: nat, j: nat): NodeEntry
    requires |draws| >= PairCount && x < NumNodes
  {
    NodeEntry(Name(x + 1), Names(Nbrs(draws, x, i, j, NumNodes)))
  }

  /** Before the double loop every entry has an empty neighbour list. */
  lemma InitialEntry(draws: seq<real>, x: nat)
    requires |draws| >= PairCount && x < NumNodes
    ensures Entry(draws, x, 0, 1) == NodeEntry(Name(x + 1), [])
  {
    NbrsNoneAbove(draws, x, 0, 1, 0, NumNodes);
  }

  /** Visiting pair (i, j) appends the other end's id to the entries of i and
      j when the flip succeeds, and changes no other entry. */
  lemma VisitEntry(draws: seq<real>, i: nat, j: nat, x: nat)
    requires |draws| >= PairCount && i < j < NumNodes && x < NumNodes
    ensures x == i && Edge(draws, i, j) ==>
      Entry(draws, x, i, j + 1) == Entry(draws, x, i, j).(neighbors := Entry(draws, x, i, j).neighbors + [Name(j + 1)])
    ensures x == j && Edge(draws, i, j) ==>
      Entry(draws, x, i, j + 1) == Entry(draws, x, i, j).(neighbors := Entry(draws, x, i, j).neighbors + [Name(i + 1)])
    ensures (x != i && x != j) || !Edge(draws, i, j) ==> Entry(draws, x, i, j + 1) == Entry(draws, x, i, j)
  {
    VisitPair(draws, i, j, x);
    var ys := Nbrs(draws, x, i, j, NumNodes);
    if x == i && Edge(draws, i, j) {
      assert Nbrs(draws, x, i, j + 1, NumNodes) == ys + [j];
      NamesSnoc(ys, j);
    } else if x == j && Edge(draws, i, j) {
      assert Nbrs(draws, x, i, j + 1, NumNodes) == ys + [i];
      NamesSnoc(ys, i);
    } else {
      assert Nbrs(draws, x, i, j + 1, NumNodes) == ys;
    }
  }

  lemma NamesSnoc(ys: seq<nat>, y: nat)
    ensures Names(ys + [y]) == Names(ys) + [Name(y + 1)]
  {
    assert (ys + [y])[..|ys|] == ys;
  }

  /** The generator's table once the pairs before (i, j) are visited. */
  function Table(draws: seq<real>, i: nat, j: nat): (t: seq<NodeEntry>)
    requires |draws| >= PairCount
    ensures |t| == NumNodes
  {
    seq(NumNodes, x requires 0 <= x < NumNodes => Entry(draws, x, i, j))
  }

  /** What the loop body does for pair (i, j) when its flip succeeds. */
  function Link(entries: seq<NodeEntry>, i: nat, j: nat): seq<NodeEntry>
    requires i < |entries| && j < |entries|
  {
    var e := entries[i := entries[i].(neighbors := entries[i].neighbors + [entries[j].id])];
    e[j := e[j].(neighbors := e[j].neighbors + [e[i].id])]
  }

  /** The loop body for pair (i, j) takes the table at (i, j) to the one at
      (i, j + 1). */
  lemma VisitEntries(draws: seq<real>, i: nat, j: nat)
    requires |draws| >= PairCount && i < j < NumNodes
    ensures Table(draws, i, j + 1)
         == if draws[PairRank(i, j)] < EdgeProbability then Link(Table(draws, i, j), i, j) else Table(draws, i, j)
  {
    var before := Table(draws, i, j);
    if Edge(draws, i, j) {
      var linked := Link(before, i, j);
      forall x | 0 <= x < NumNodes ensures linked[x] == Entry(draws, x, i, j + 1) {
        VisitEntry(draws, i, j, x);
        if x == i {
          assert linked[x] == before[i].(neighbors := before[i].neighbors + [Name(j + 1)]);
        } else if x == j {
          assert linked[x] == before[j].(neighbors := before[j].neighbors + [Name(i + 1)]);
        } else {
          assert linked[x] == before[x];
        }
      }
    } else {
      forall x | 0 <= x < NumNodes ensures before[x] == Entry(draws, x, i, j + 1) {
        VisitEntry(draws, i, j, x);
      }
    }
  }

  /** The end of row i is the start of row i + 1. */
  lemma NextRowEntries(draws: seq<real>, i: nat)
    requires |draws| >= PairCount && i < NumNodes
    ensures Table(draws, i, NumNodes) == Table(draws, i + 1, i + 2)
  {
    forall x | 0 <= x < NumNodes ensures Table(draws, i, NumNodes)[x] == Table(draws, i + 1, i + 2)[x] {
      NextRow(draws, i, x);
    }
  }

  /** The entries the generator emits. */
  function Adjacency(draws: seq<real>): seq<NodeEntry>
    requires |draws| >= PairCount
  {
    seq(NumNodes, x requires 0 <= x < NumNodes => NodeEntry(Name(x + 1), Names(Neighbors(draws, x))))
  }

  /** The construction loops of the generator; `draws` is the flip stream, of
      which the first PairCount values are used. */
  method Generate(draws: seq<real>) returns (entries: seq<NodeEntry>)
    requires |draws| >= PairCount
    ensures |entries| == NumNodes
    ensures forall x :: 0 <= x < NumNodes ==> entries[x].id == Name(x + 1)
    ensures entries == Adjacency(draws)
  {
    entries := [];
    var n := 1;
    while n <= NumNodes
      invariant 1 <= n <= NumNodes + 1 && |entries| == n - 1
      invariant forall x :: 0 <= x < n - 1 ==> entries[x] == NodeEntry(Name(x + 1), [])
    {
      entries := entries + [NodeEntry(Name(n), [])];
      n := n + 1;
    }
    InitialTable(draws, entries);

    var k := 0;
    var i := 0;
    while i < NumNodes
      invariant 0 <= i <= NumNodes
      invariant entries == Table(draws, i, i + 1)
      invariant k == RowStart(i)
    {
      entries, k := VisitRow(draws, entries, i, k);
      i := i + 1;
    }
    FinalTable(draws);
  }

  /** Before the double loop the table lists no neighbours. */
  lemma InitialTable(draws: seq<real>, entries: seq<NodeEntry>)
    requires |draws| >= PairCount && |entries| == NumNodes
    requires forall x :: 0 <= x < NumNodes ==> entries[x] == NodeEntry(Name(x + 1), [])
    ensures entries == Table(draws, 0, 1)
  {
    forall x | 0 <= x < NumNodes ensures entries[x] == Table(draws, 0, 1)[x] {
      InitialEntry(draws, x);
    }
  }

  /** After the last row the table is the adjacency. */
  lemma FinalTable(draws: seq<real>)
    requires |draws| >= PairCount
    ensures Table(draws, NumNodes, NumNodes + 1) == Adjacency(draws)
  {
    forall x | 0 <= x < NumNodes ensures Table(draws, NumNodes, NumNodes + 1)[x] == Adjacency(draws)[x] {
    }
  }

  /** One pass of the inner loop: the pairs (i, j) for j > i, each drawing the
      next flip from the stream at position `k`. */
  method VisitRow(draws: seq<real>, entries: seq<NodeEntry>, i: nat, k: nat) returns (next: seq<NodeEntry>, k': nat)
    requires |draws| >= PairCount && i < NumNodes && k == RowStart(i) && entries == Table(draws, i, i + 1)
    ensures k' == RowStart(i + 1) && next == Table(draws, i + 1, i + 2)
  {
    next, k' := entries, k;
    var j := i + 1;
    while j < NumNodes
      invariant i + 1 <= j <= NumNodes
      invariant next == Table(draws, i, j)
      invariant k' == RowStart(i) + (j - i - 1)
    {
      assert k' == PairRank(i, j);
      VisitEntries(draws, i, j);
      if draws[k'] < EdgeProbability {
        next := Link(next, i, j);
      }
      k' := k' + 1;
      j := j + 1;
    }
    NextRowEntries(draws, i);
  }

  // ----- properties of the generated adjacency -----

  /** Node x lists node y exactly when the two differ and their flip came up
      below EdgeProbability. */
  lemma AdjacencyEdge(draws: seq<real>, x: nat, y: nat)
    requires |draws| >= PairCount && x < NumNodes && y < NumNodes
    ensures Name(y + 1) in Adjacency(draws)[x].neighbors <==> Edge(draws, x, y)
  {
    var ys := Neighbors(draws, x);
    var nb := Adjacency(draws)[x].neighbors;
    NbrsMembers(draws, x, NumNodes, NumNodes + 1, NumNodes);
    if Name(y + 1) in nb {
      var p :| 0 <= p < |nb| && nb[p] == Name(y + 1);
      NameInjective(ys[p] + 1, y + 1);
      assert ys[p] in ys;
    }
    if Edge(draws, x, y) {
      assert y in ys;
      var p :| 0 <= p < |ys| && ys[p] == y;
      assert nb[p] == Name(y + 1);
    }
  }

  /** The neighbour relation is symmetric. */
  lemma AdjacencySymmetric(draws: seq<real>, x: nat, y: nat)
    requires |draws| >= PairCount && x < NumNodes && y < NumNodes
    ensures Name(y + 1) in Adjacency(draws)[x].neighbors <==> Name(x + 1) in Adjacency(draws)[y].neighbors
  {
    AdjacencyEdge(draws, x, y);
    AdjacencyEdge(draws, y, x);
  }

  /** No node lists itself. */
  lemma AdjacencyLoopFree(draws: seq<real>, x: nat)
    requires |draws| >= PairCount && x < NumNodes
    ensures Name(x + 1) !in Adjacency(draws)[x].neighbors
  {
    AdjacencyEdge(draws, x, x);
  }

  /** For i < j, the edge exists exactly when the flip drawn for pair (i, j),
      the PairRank(i, j)-th of the stream, is below EdgeProbability. */
  lemma AdjacencyFlip(draws: seq<real>, i: nat, j: nat)
    requires |draws| >= PairCount && i < j < NumNodes
    ensures Name(j + 1) in Adjacency(draws)[i].neighbors <==> draws[PairRank(i, j)] < EdgeProbability
  {
    AdjacencyEdge(draws, i, j);
  }

  /** Each neighbour list names nodes in ascending index order, so no node
      appears twice. */
  lemma AdjacencySorted(draws: seq<real>, x: nat)
    requires |draws| >= PairCount && x < NumNodes
    ensures |Adjacency(draws)[x].neighbors| == |Neighbors(draws, x)|
    ensures forall p :: 0 <= p < |Neighbors(draws, x)| ==>
      Adjacency(draws)[x].neighbors[p] == Name(Neighbors(draws, x)[p] + 1)
    ensures forall p, q :: 0 <= p < q < |Neighbors(draws, x)| ==> Neighbors(draws, x)[p] < Neighbors(draws, x)[q]
    ensures forall p, q :: 0 <= p < q < |Adjacency(draws)[x].neighbors| ==>
      Adjacency(draws)[x].neighbors[p] != Adjacency(draws)[x].neighbors[q]
  {
    var ys := Neighbors(draws, x);
    var nb := Adjacency(draws)[x].neighbors;
    NbrsAscending(draws, x, NumNodes, NumNodes + 1, NumNodes);
    forall p, q | 0 <= p < q < |nb| ensures nb[p] != nb[q] {
      NameInjective(ys[p] + 1, ys[q] + 1);
    }
  }

  // ----- the emitted text -----

  function Quoted(s: string): string
  {
    "\"" + s + "\""
  }

  /** The neighbour list inside the brackets: quoted ids separated by ", ". */
  function JoinQuoted(ids: seq<string>): string
  {
    if ids == [] then ""
    else if |ids| == 1 then Quoted(ids[0])
    else JoinQuoted(ids[..|ids| - 1]) + ", " + Quoted(ids[|ids| - 1])
  }

  /** The line naming an entry. */
  function IdLine(id: string): string
  {
    "  - id: " + Quoted(id) + "\n"
  }

  /** The line listing an entry's neighbours. */
  function ListLine(ids: seq<string>): string
  {
    "    neighbors: [" + JoinQuoted(ids) + "]\n"
  }

  /** The two lines written for one entry. */
  function EntryText(e: NodeEntry): string
  {
    IdLine(e.id) + ListLine(e.neighbors)
  }

  function EntriesText(entries: seq<NodeEntry>): string
  {
    if entries == [] then "" else EntriesText(entries[..|entries| - 1]) + EntryText(entries[|entries| - 1])
  }

  /** The whole output: a `nodes:` line, then two lines per entry. */
  function Layout(entries: seq<NodeEntry>): string
  {
    "nodes:\n" + EntriesText(entries)
  }

  /** Extending the list by one id adds a separator (unless it is the first)
      and the quoted id. */
  lemma JoinStep(ids: seq<string>, idx: nat)
    requires idx < |ids|
    ensures JoinQuoted(ids[..idx + 1]) == JoinQuoted(ids[..idx]) + (if idx > 0 then ", " else "") + Quoted(ids[idx])
  {
    assert ids[..idx + 1][..idx] == ids[..idx];
  }

  /** The inner printing loop with the prints around it: the whole
      neighbour line of an entry. */
  method NeighborLine(ids: seq<string>) returns (line: string)
    ensures line == ListLine(ids)
  {
    line := "    neighbors: [";
    var idx := 0;
    while idx < |ids|
      invariant 0 <= idx <= |ids|
      invariant line == "    neighbors: [" + JoinQuoted(ids[..idx])
    {
      if idx > 0 {
        line := line + ", ";
      }
      line := line + Quoted(ids[idx]);
      JoinStep(ids, idx);
      idx := idx + 1;
    }
    assert ids[..idx] == ids;
    line := line + "]\n";
  }

  /** The printing loops of the generator, collecting the output text. */
  method Emit(entries: seq<NodeEntry>) returns (out: string)
    ensures out == Layout(entries)
  {
    out := "nodes:\n";
    var e := 0;
    while e < |entries|
      invariant 0 <= e <= |entries|
      invariant out == Layout(entries[..e])
    {
      out := out + IdLine(entries[e].id);
      var line := NeighborLine(entries[e].neighbors);
      out := out + line;
      LayoutStep(entries, e);
      e := e + 1;
    }
    assert entries[..e] == entries;
  }

  /** Printing entry `e` extends the output by its two lines. */
  lemma LayoutStep(entries: seq<NodeEntry>, e: nat)
    requires e < |entries|
    ensures Layout(entries[..e + 1]) == Layout(entries[..e]) + IdLine(entries[e].id) + ListLine(entries[e].neighbors)
  {
    assert entries[..e + 1][..e] == entries[..e];
    var head, a, b := "nodes:\n", EntriesText(entries[..e]), IdLine(entries[e].id);
    var c := ListLine(entries[e].neighbors);
    assert head + (a + (b + c)) == head + a + b + c;
  }

  /** The number of line breaks in `s`. */
  function LineBreaks(s: string): nat
  {
    if s == [] then 0 else (if s[0] == '\n' then 1 else 0) + LineBreaks(s[1..])
  }

  lemma {:induction false} LineBreaksAppend(a: string, b: string)
    ensures LineBreaks(a + b) == LineBreaks(a) + LineBreaks(b)
  {
    if a == [] {
      assert a + b == b;
    } else {
      assert (a + b)[1..] == a[1..] + b;
      LineBreaksAppend(a[1..], b);
    }
  }

  /** A string none of whose characters is '\n' has no line break. */
  lemma {:induction false} NoLineBreaks(s: string)
    requires forall p :: 0 <= p < |s| ==> s[p] != '\n'
    ensures LineBreaks(s) == 0
  {
    if s != [] {
      NoLineBreaks(s[1..]);
    }
  }

  /** Ids without line breaks keep the output at exactly one line for the
      header and two per entry. */
  lemma LayoutLines(entries: seq<NodeEntry>)
    requires forall e :: e in entries ==> LineBreaks(e.id) == 0 && forall s :: s in e.neighbors ==> LineBreaks(s) == 0
    ensures LineBreaks(Layout(entries)) == 1 + 2 * |entries|
  {
    NoLineBreaks("nodes:");
    NewlineAdds("nodes:");
    assert "nodes:" + "\n" == "nodes:\n";
    LineBreaksAppend("nodes:\n", EntriesText(entries));
    EntriesLines(entries);
  }

  lemma {:induction false} EntriesLines(entries: seq<NodeEntry>)
    requires forall e :: e in entries ==> LineBreaks(e.id) == 0 && forall s :: s in e.neighbors ==> LineBreaks(s) == 0
    ensures LineBreaks(EntriesText(entries)) == 2 * |entries|
  {
    if entries != [] {
      var last := entries[|entries| - 1];
      assert last in entries;
      EntriesLines(entries[..|entries| - 1]);
      EntryLines(last);
      LineBreaksAppend(EntriesText(entries[..|entries| - 1]), EntryText(last));
    }
  }

  lemma EntryLines(e: NodeEntry)
    requires LineBreaks(e.id) == 0 && forall s :: s in e.neighbors ==> LineBreaks(s) == 0
    ensures LineBreaks(EntryText(e)) == 2
  {
    IdLineBreaks(e.id);
    ListLineBreaks(e.neighbors);
    LineBreaksAppend(IdLine(e.id), ListLine(e.neighbors));
  }

  lemma IdLineBreaks(id: string)
    requires LineBreaks(id) == 0
    ensures LineBreaks(IdLine(id)) == 1
  {
    QuotedLines(id);
    NoLineBreaks("  - id: ");
    LineBreaksAppend("  - id: ", Quoted(id));
    NewlineAdds("  - id: " + Quoted(id));
  }

  lemma ListLineBreaks(ids: seq<string>)
    requires forall s :: s in ids ==> LineBreaks(s) == 0
    ensures LineBreaks(ListLine(ids)) == 1
  {
    JoinLines(ids);
    ListPrefix();
    ListEnd();
    LineBreaksAppend("    neighbors: [", JoinQuoted(ids));
    LineBreaksAppend("    neighbors: [" + JoinQuoted(ids), "]\n");
  }

  /** The literal that opens a neighbour line has no line break. */
  lemma ListPrefix()
    ensures LineBreaks("    neighbors: [") == 0
  {
    NoLineBreaks("    neighbors: [");
  }

  /** The literal that closes a neighbour line ends it. */
  lemma ListEnd()
    ensures LineBreaks("]\n") == 1
  {
    NoLineBreaks("]");
    NewlineAdds("]");
    assert "]" + "\n" == "]\n";
  }

  /** Ending a line adds exactly one line break. */
  lemma NewlineAdds(s: string)
    ensures LineBreaks(s + "\n") == LineBreaks(s) + 1
  {
    LineBreaksAppend(s, "\n");
    assert "\n"[1..] == [];
  }

  lemma QuotedLines(s: string)
    ensures LineBreaks(Quoted(s)) == LineBreaks(s)
  {
    NoLineBreaks("\"");
    LineBreaksAppend("\"", s);
    LineBreaksAppend("\"" + s, "\"");
  }

  lemma {:induction false} JoinLines(ids: seq<string>)
    requires forall s :: s in ids ==> LineBreaks(s) == 0
    ensures LineBreaks(JoinQuoted(ids)) == 0
  {
    if |ids| > 1 {
      var last := ids[|ids| - 1];
      assert last in ids;
      JoinLines(ids[..|ids| - 1]);
      QuotedLines(last);
      NoLineBreaks(", ");
      LineBreaksAppend(JoinQuoted(ids[..|ids| - 1]), ", ");
      LineBreaksAppend(JoinQuoted(ids[..|ids| - 1]) + ", ", Quoted(last));
    } else if |ids| == 1 {
      assert ids[0] in ids;
      QuotedLines(ids[0]);
    }
  }

  /** The names of the generated nodes contain no line break. */
  lemma NamesSingleLine(i: nat)
    ensures LineBreaks(Name(i)) == 0
  {
    NoLineBreaks(Name(i));
  }

  lemma EntrySingleLine(draws: seq<real>, x: nat)
    requires |draws| >= PairCount && x < NumNodes
    ensures LineBreaks(Adjacency(draws)[x].id) == 0
    ensures forall s :: s in Adjacency(draws)[x].neighbors ==> LineBreaks(s) == 0
  {
    var ys := Neighbors(draws, x);
    var nb := Adjacency(draws)[x].neighbors;
    assert nb == Names(ys);
    NamesSingleLine(x + 1);
    forall s | s in nb ensures LineBreaks(s) == 0 {
      var p :| 0 <= p < |nb| && nb[p] == s;
      NamesSingleLine(ys[p] + 1);
    }
  }

  /** The generated file has the header line and two lines per node. */
  lemma GeneratedLines(draws: seq<real>)
    requires |draws| >= PairCount
    ensures LineBreaks(Layout(Adjacency(draws))) == 1 + 2 * NumNodes
  {
    var entries := Adjacency(draws);
    forall e | e in entries
      ensures LineBreaks(e.id) == 0 && forall s :: s in e.neighbors ==> LineBreaks(s) == 0
    {
      var x :| 0 <= x < |entries| && entries[x] == e;
      EntrySingleLine(draws, x);
    }
    LayoutLines(entries);
  }
}
