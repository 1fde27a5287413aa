/** The budget tree as values: a part is either a leaf with a fixed price or a
    group that owns an ordered list of sub-parts. The functions here are the
    specification the imperative classes in module Parts are proved against. */
module Budget {

  /** A node of the budget tree. `Simple` is a leaf part with the price it was
      built with; `Composite` is a group whose children keep insertion order. */
  datatype Part =
    | Simple(name: string, price: real)
    | Composite(name: string, children: seq<Part>)

  /** One printed line of the breakdown: the indentation, the part's name and
      the price shown next to it. */
  datatype Line = Line(indent: string, name: string, price: real)

  /** A node of the tree together with its depth below the root of a listing. */
  datatype Entry = Entry(depth: nat, part: Part)

  /** The unit of indentation added per level of the breakdown. */
  const Tab: string := "\t"

  // ---------------------------------------------------------------------------
  // Price

  /** The price of a part: the stored price of a leaf, the sum of the children
      of a group. */
  function Price(p: Part): real
  {
    match p
    case Simple(_, price) => price
    case Composite(_, children) => SumPrices(children)
  }

  /** Sum of the prices of `cs`, accumulated from the first child to the last. */
  function SumPrices(cs: seq<Part>): real
  {
    if cs == [] then 0.0 else SumPrices(cs[..|cs| - 1]) + Price(cs[|cs| - 1])
  }

  /** Summing over a concatenation is summing over each half. */
  lemma {:induction false} SumPricesAppend(a: seq<Part>, b: seq<Part>)
    ensures SumPrices(a + b) == SumPrices(a) + SumPrices(b)
    decreases |b|
  {
    if b == [] {
      assert a + b == a;
    } else {
      var b' := b[..|b| - 1];
      assert (a + b)[..|a + b| - 1] == a + b';
      SumPricesAppend(a, b');
    }
  }

  /** A leaf's price is the one it was built with, and a group with no
      children is worth nothing. */
  lemma PriceOfBaseCases(n: string, price: real)
    ensures Price(Simple(n, price)) == price
    ensures Price(Composite(n, [])) == 0.0
  {
  }

  /** The price of a group is the first child's price plus the price of the
      rest: summing from the front gives the same result as the loop. */
  lemma {:induction false} SumPricesFront(cs: seq<Part>)
    requires cs != []
    ensures SumPrices(cs) == Price(cs[0]) + SumPrices(cs[1..])
  {
    assert cs == [cs[0]] + cs[1..];
    SumPricesAppend([cs[0]], cs[1..]);
    assert [cs[0]][..0] == [];
  }

  // ---------------------------------------------------------------------------
  // Leaves: an independent account of the price

  /** The prices of the leaves of `p`, left to right. */
  function LeafPrices(p: Part): seq<real>
  {
    match p
    case Simple(_, price) => [price]
    case Composite(_, children) => ChildLeafPrices(children)
  }

  function ChildLeafPrices(cs: seq<Part>): seq<real>
  {
    if cs == [] then [] else ChildLeafPrices(cs[..|cs| - 1]) + LeafPrices(cs[|cs| - 1])
  }

  /** Plain sum of a list of numbers. */
  function Total(xs: seq<real>): real
  {
    if xs == [] then 0.0 else Total(xs[..|xs| - 1]) + xs[|xs| - 1]
  }

  lemma {:induction false} TotalAppend(a: seq<real>, b: seq<real>)
    ensures Total(a + b) == Total(a) + Total(b)
    decreases |b|
  {
    if b == [] {
      assert a + b == a;
    } else {
      var b' := b[..|b| - 1];
      assert (a + b)[..|a + b| - 1] == a + b';
      TotalAppend(a, b');
    }
  }

  /** The price of any part, however deeply nested, is the sum of the prices
      of the leaf parts beneath it. */
  lemma {:induction false} PriceIsSumOfLeaves(p: Part)
    ensures Price(p) == Total(LeafPrices(p))
    decreases p, 1
  {
    match p
    case Simple(_, price) =>
      assert [price][..0] == [];
    case Composite(_, children) =>
      ChildPricesAreSumOfLeaves(children);
  }

  lemma {:induction false} ChildPricesAreSumOfLeaves(cs: seq<Part>)
    ensures SumPrices(cs) == Total(ChildLeafPrices(cs))
    decreases cs, 0
  {
    if cs != [] {
      var init, last := cs[..|cs| - 1], cs[|cs| - 1];
      ChildPricesAreSumOfLeaves(init);
      PriceIsSumOfLeaves(last);
      TotalAppend(ChildLeafPrices(init), LeafPrices(last));
    }
  }

  // ---------------------------------------------------------------------------
  // Renaming and adding a child

  /** `p` with its name replaced by `n`; nothing else about the part changes. */
  function Rename(p: Part, n: string): (r: Part)
    ensures r.name == n
    ensures r.Simple? <==> p.Simple?
    ensures p.Simple? ==> r.price == p.price
    ensures p.Composite? ==> r.children == p.children
  {
    match p
    case Simple(_, price) => Simple(n, price)
    case Composite(_, children) => Composite(n, children)
  }

  /** Renaming never changes a price: not a leaf's stored price, and not a
      group's, whose children stay the same. */
  lemma RenameKeepsPrice(p: Part, n: string)
    ensures Price(Rename(p, n)) == Price(p)
    ensures LeafPrices(Rename(p, n)) == LeafPrices(p)
  {
  }

  /** The group `p` with `c` appended as its last child. */
  function AddChild(p: Part, c: Part): (r: Part)
    requires p.Composite?
    ensures r.Composite? && r.name == p.name
    ensures |r.children| == |p.children| + 1
    ensures r.children[..|p.children|] == p.children
    ensures r.children[|p.children|] == c
  {
    Composite(p.name, p.children + [c])
  }

  /** Right after a child is added, the group is worth its former price plus
      the price of the new child. */
  lemma AddChildPrice(p: Part, c: Part)
    requires p.Composite?
    ensures Price(AddChild(p, c)) == Price(p) + Price(c)
  {
  }

  /** Adding a child never removes or reorders the leaves already there. */
  lemma AddChildLeaves(p: Part, c: Part)
    requires p.Composite?
    ensures LeafPrices(AddChild(p, c)) == LeafPrices(p) + LeafPrices(c)
  {
  }

  // ---------------------------------------------------------------------------
  // The printed breakdown

  /** Number of nodes of the tree rooted at `p`. */
  function Size(p: Part): nat
  {
    match p
    case Simple(_, _) => 1
    case Composite(_, children) => 1 + ChildSizes(children)
  }

  function ChildSizes(cs: seq<Part>): nat
  {
    if cs == [] then 0 else ChildSizes(cs[..|cs| - 1]) + Size(cs[|cs| - 1])
  }

  /** The breakdown printed for `p` starting at indentation `tab`: the part's
      own line, then the breakdown of each child one tab further in. It has
      one line per node and the first is the part's own. */
  function Lines(p: Part, tab: string): (r: seq<Line>)
    ensures |r| == Size(p)
    ensures r[0] == Line(tab, p.name, Price(p))
  {
    [Line(tab, p.name, Price(p))]
    + match p
      case Simple(_, _) => []
      case Composite(_, children) => ChildLines(children, tab + Tab)
  }

  /** The breakdowns of `cs`, one after the other in list order: one line per
      node under the children. */
  function ChildLines(cs: seq<Part>, tab: string): (r: seq<Line>)
    ensures |r| == ChildSizes(cs)
  {
    if cs == [] then [] else ChildLines(cs[..|cs| - 1], tab) + Lines(cs[|cs| - 1], tab)
  }

  /** A leaf prints exactly one line: its own. */
  lemma LeafLines(n: string, price: real, tab: string)
    ensures Lines(Simple(n, price), tab) == [Line(tab, n, price)]
  {
  }

  lemma {:induction false} ChildLinesAppend(a: seq<Part>, b: seq<Part>, tab: string)
    ensures ChildLines(a + b, tab) == ChildLines(a, tab) + ChildLines(b, tab)
    decreases |b|
  {
    if b == [] {
      assert a + b == a;
    } else {
      var b' := b[..|b| - 1];
      assert (a + b)[..|a + b| - 1] == a + b';
      ChildLinesAppend(a, b', tab);
    }
  }

  /** Printing one more child extends the printout of the children before it. */
  lemma ChildLinesPrefix(cs: seq<Part>, i: nat, tab: string)
    requires i < |cs|
    ensures ChildLines(cs[..i + 1], tab) == ChildLines(cs[..i], tab) + Lines(cs[i], tab)
  {
    assert cs[..i + 1][..i] == cs[..i];
  }

  /** Pre-order with children in insertion order: in the breakdown of a group,
      the lines of its j-th child form one contiguous block, one tab further
      in, that starts right after the group's own line and the blocks of the
      children before it. */
  lemma {:induction false} ChildBlock(n: string, cs: seq<Part>, tab: string, j: nat)
    requires j < |cs|
    ensures var start := 1 + ChildSizes(cs[..j]);
      start + Size(cs[j]) <= |Lines(Composite(n, cs), tab)| &&
      Lines(Composite(n, cs), tab)[start..start + Size(cs[j])] == Lines(cs[j], tab + Tab)
  {
    var t := tab + Tab;
    var before, after := cs[..j], cs[j + 1..];
    assert cs == before + [cs[j]] + after;
    ChildLinesAppend(before + [cs[j]], after, t);
    ChildLinesAppend(before, [cs[j]], t);
    assert ChildLines([cs[j]], t) == Lines(cs[j], t) by {
      assert [cs[j]][..0] == [];
    }
    var whole := Lines(Composite(n, cs), tab);
    assert whole == [Line(tab, n, Price(Composite(n, cs)))]
      + ChildLines(before, t) + Lines(cs[j], t) + ChildLines(after, t);
  }

  // ---------------------------------------------------------------------------
  // Depth and indentation

  /** `k` tab characters. */
  function Tabs(k: nat): (r: string)
    ensures |r| == k
    ensures forall i :: 0 <= i < k ==> r[i] == '\t'
  {
    if k == 0 then "" else Tabs(k - 1) + Tab
  }

  /** The nodes of `p` in pre-order, each with its depth, `p` itself at depth `d`. */
  function Entries(p: Part, d: nat): seq<Entry>
  {
    [Entry(d, p)]
    + match p
      case Simple(_, _) => []
      case Composite(_, children) => ChildEntries(children, d + 1)
  }

  function ChildEntries(cs: seq<Part>, d: nat): seq<Entry>
  {
    if cs == [] then [] else ChildEntries(cs[..|cs| - 1], d) + Entries(cs[|cs| - 1], d)
  }

  /** The line printed for a node found at the given depth of a listing that
      started at indentation `tab`. */
  function LineOf(tab: string, e: Entry): Line
  {
    Line(tab + Tabs(e.depth), e.part.name, Price(e.part))
  }

  function LinesOf(tab: string, es: seq<Entry>): seq<Line>
  {
    if es == [] then [] else LinesOf(tab, es[..|es| - 1]) + [LineOf(tab, es[|es| - 1])]
  }

  lemma {:induction false} LinesOfAppend(tab: string, a: seq<Entry>, b: seq<Entry>)
    ensures LinesOf(tab, a + b) == LinesOf(tab, a) + LinesOf(tab, b)
    decreases |b|
  {
    if b == [] {
      assert a + b == a;
    } else {
      var b' := b[..|b| - 1];
      assert (a + b)[..|a + b| - 1] == a + b';
      LinesOfAppend(tab, a, b');
    }
  }

  lemma {:induction false} LinesOfIndex(tab: string, es: seq<Entry>, i: nat)
    requires i < |es|
    ensures |LinesOf(tab, es)| == |es|
    ensures LinesOf(tab, es)[i] == LineOf(tab, es[i])
    decreases |es|
  {
    if i < |es| - 1 {
      LinesOfIndex(tab, es[..|es| - 1], i);
    } else if |es| > 1 {
      LinesOfIndex(tab, es[..|es| - 1], 0);
    }
  }

  /** Printing a part from indentation `tab + Tabs(d)` writes, node by node in
      pre-order, each node's name and price behind `tab` and as many tabs as
      the node's depth. */
  lemma {:induction false} LinesFollowEntries(p: Part, tab: string, d: nat)
    ensures Lines(p, tab + Tabs(d)) == LinesOf(tab, Entries(p, d))
    decreases p, 1
  {
    var head := [Entry(d, p)];
    assert LinesOf(tab, head) == [LineOf(tab, Entry(d, p))] by {
      assert head[..0] == [];
    }
    match p
    case Simple(_, _) =>
      assert Entries(p, d) == head;
    case Composite(_, children) =>
      assert tab + Tabs(d) + Tab == tab + Tabs(d + 1);
      ChildLinesFollowEntries(children, tab, d + 1);
      LinesOfAppend(tab, head, ChildEntries(children, d + 1));
  }

  lemma {:induction false} ChildLinesFollowEntries(cs: seq<Part>, tab: string, d: nat)
    ensures ChildLines(cs, tab + Tabs(d)) == LinesOf(tab, ChildEntries(cs, d))
    decreases cs, 0
  {
    if cs != [] {
      var init, last := cs[..|cs| - 1], cs[|cs| - 1];
      ChildLinesFollowEntries(init, tab, d);
      LinesFollowEntries(last, tab, d);
      LinesOfAppend(tab, ChildEntries(init, d), Entries(last, d));
    }
  }

  /** A node at depth k of the tree is printed with exactly k tabs when the
      breakdown starts from the empty indentation. */
  lemma DepthIsIndent(p: Part, i: nat)
    requires i < |Entries(p, 0)|
    ensures |Lines(p, "")| == |Entries(p, 0)|
    ensures var e := Entries(p, 0)[i];
      Lines(p, "")[i] == Line(Tabs(e.depth), e.part.name, Price(e.part))
  {
    LinesFollowEntries(p, "", 0);
    assert "" + Tabs(0) == "";
    LinesOfIndex("", Entries(p, 0), i);
    assert "" + Tabs(Entries(p, 0)[i].depth) == Tabs(Entries(p, 0)[i].depth);
  }

  /** The text of a printed line: indentation, name, one space, and the price
      as rendered by `show`, which stands for the number formatting. */
  function Render(l: Line, show: real -> string): (r: string)
    ensures var k := |l.indent| + |l.name|;
      |r| == k + 1 + |show(l.price)| &&
      r[..|l.indent|] == l.indent && r[|l.indent|..k] == l.name &&
      r[k] == ' ' && r[k + 1..] == show(l.price)
  {
    l.indent + l.name + " " + show(l.price)
  }

  /** The text printed for the i-th node in pre-order, starting from the empty
      indentation: as many tabs as the node's depth, its name, a space and its
      price. */
  lemma PrintedText(p: Part, i: nat, show: real -> string)
    requires i < |Entries(p, 0)|
    ensures i < |Lines(p, "")|
    ensures var e := Entries(p, 0)[i];
      Render(Lines(p, "")[i], show) == Tabs(e.depth) + e.part.name + " " + show(Price(e.part))
  {
    DepthIsIndent(p, i);
  }
}
