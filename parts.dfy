/** The parts as objects, as the program builds and queries them: names are
    changed in place, a group's child list grows in place, prices are summed
    by a loop, and the breakdown is written line by line to an output. */
module Parts {
  import opened Budget

  /** Stands in for standard output: the lines written so far, in order. */
  class Console {
    var lines: seq<Line>

    constructor ()
      ensures lines == []
    {
      lines := [];
    }

    method WriteLine(l: Line)
      modifies this
      ensures lines == old(lines) + [l]
    {
      lines := lines + [l];
    }
  }

  /** The price of `p`, computed the way the program does: a leaf returns its
      stored price, a group adds up its children. */
  method PartPrice(p: Part) returns (r: real)
    ensures r == Price(p)
    decreases p, 1
  {
    match p
    case Simple(_, price) =>
      r := price;
    case Composite(_, children) =>
      r := SumChildPrices(children);
  }

  /** The sum of the children's prices, accumulated first to last in a loop. */
  method SumChildPrices(cs: seq<Part>) returns (total: real)
    ensures total == SumPrices(cs)
    decreases cs, 0
  {
    total := 0.0;
    for i := 0 to |cs|
      invariant total == SumPrices(cs[..i])
    {
      var price := PartPrice(cs[i]);
      assert cs[..i + 1][..i] == cs[..i];
      total := total + price;
    }
    assert cs[..|cs|] == cs;
  }

  /** Writes the breakdown of `p` to `out`: the part's own line at indentation
      `tab`, then, for a group, each child's breakdown one tab further in. */
  method PrintBreakdown(p: Part, tab: string, out: Console)
    modifies out
    ensures out.lines == old(out.lines) + Lines(p, tab)
    decreases p
  {
    var price := PartPrice(p);
    out.WriteLine(Line(tab, p.name, price));
    match p
    case Simple(_, _) =>
    case Composite(_, children) =>
      var t := tab + Tab;
      ghost var head := old(out.lines) + [Line(tab, p.name, price)];
      for i := 0 to |children|
        invariant out.lines == head + ChildLines(children[..i], t)
      {
        ChildLinesPrefix(children, i, t);
        PrintBreakdown(children[i], t, out);
      }
      assert children[..|children|] == children;
  }

  /** A leaf part: a name that may be changed and a price fixed when built. */
  class SimplePart {
    var name: string
    const price: real

    constructor (name: string, price: real)
      ensures this.name == name && this.price == price
    {
      this.name := name;
      this.price := price;
    }

    /** The part as a value. */
    function Value(): Part
      reads this
    {
      Simple(name, price)
    }

    /** Replaces the name; the price stays the one given when the part was built. */
    method SetName(n: string)
      modifies this
      ensures Value() == Rename(old(Value()), n)
      ensures name == n
    {
      name := n;
    }

    /** The leaf's price is exactly the one it was built with. */
    method GetPrice() returns (r: real)
      ensures r == price
      ensures r == Price(Value())
    {
      r := price;
    }

    /** Writes the single line of a leaf. */
    method PrintBudget(tab: string, out: Console)
      modifies out
      ensures out.lines == old(out.lines) + [Line(tab, name, price)]
      ensures out.lines == old(out.lines) + Lines(Value(), tab)
    {
      out.WriteLine(Line(tab, name, price));
    }
  }

  /** A group part: a name that may be changed and an ordered list of
      sub-parts that only grows. */
  class CompositePart {
    var name: string
    var children: seq<Part>

    /** A new group with the given name and no children. */
    constructor (name: string)
      ensures this.name == name && children == []
    {
      this.name := name;
      children := [];
    }

    /** The group as a value. */
    function Value(): Part
      reads this
    {
      Composite(name, children)
    }

    /** Appends `p` as the last child; the children already there keep their
      place and the name is unchanged. */
    method AddPart(p: Part)
      modifies this
      ensures Value() == AddChild(old(Value()), p)
      ensures children == old(children) + [p] && name == old(name)
      ensures Price(Value()) == Price(old(Value())) + Price(p)
    {
      AddChildPrice(Value(), p);
      children := children + [p];
    }

    /** Replaces the name; the children, and so the price, stay as they were. */
    method SetName(n: string)
      modifies this
      ensures Value() == Rename(old(Value()), n)
      ensures name == n && children == old(children)
      ensures Price(Value()) == Price(old(Value()))
    {
      RenameKeepsPrice(Value(), n);
      name := n;
    }

    /** The sum of the children's prices in list order. */
    method GetPrice() returns (r: real)
      ensures r == SumPrices(children)
      ensures r == Price(Value())
    {
      r := SumChildPrices(children);
    }

    /** Writes the group's line, then each child's breakdown one tab further in. */
    method PrintBudget(tab: string, out: Console)
      modifies out
      ensures out.lines == old(out.lines) + Lines(Value(), tab)
    {
      PrintBreakdown(Value(), tab, out);
    }
  }
}
