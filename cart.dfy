/** The cart (pos_server.py, lines 143-161): an ordered list of lines, one per
    product name, each with the unit price copied from the catalog and a quantity. */
module ShoppingCart {
  import opened Catalog

  datatype Line = Line(name: string, price: nat, quantity: nat)

  /** The amount a list of lines comes to: the sum of price * quantity. */
  function Total(lines: seq<Line>): int
  {
    if lines == [] then 0
    else Total(lines[..|lines| - 1]) + lines[|lines| - 1].price * lines[|lines| - 1].quantity
  }

  /** No two lines carry the same product name. */
  predicate NamesDistinct(lines: seq<Line>)
  {
    forall i, j :: 0 <= i < j < |lines| ==> lines[i].name != lines[j].name
  }

  /** Every line is a catalog product, bought at least once. */
  predicate FromCatalog(lines: seq<Line>)
  {
    forall i :: 0 <= i < |lines| ==> Listed(lines[i])
  }

  predicate Listed(line: Line)
  {
    IdOfName(line.name) in ItemDb &&
    ItemDb[IdOfName(line.name)] == Product(line.name, line.price) &&
    line.quantity >= 1
  }

  /** The line that adding `item` creates: a copy of the catalog entry, quantity 1. */
  function NewLine(item: Product): Line
  {
    Line(item.name, item.price, 1)
  }

  /** Where the scan for a line named `name` stops: the first such line, or
      |lines| when there is none. */
  function FindName(lines: seq<Line>, name: string): (i: nat)
    ensures i <= |lines|
    ensures i < |lines| ==> lines[i].name == name
    ensures forall k :: 0 <= k < i ==> lines[k].name != name
  {
    if lines == [] then 0
    else if lines[0].name == name then 0
    else 1 + FindName(lines[1..], name)
  }

  /** The cart after one more `item`: the first line with its name gets one more,
      and if there is none a new line is appended. */
  function Added(lines: seq<Line>, item: Product): seq<Line>
  {
    var i := FindName(lines, item.name);
    if i < |lines| then lines[i := lines[i].(quantity := lines[i].quantity + 1)]
    else lines + [NewLine(item)]
  }

  /** One line per name: with distinct names, adding an item already in the cart
      increments exactly that line by one and leaves the others and the line count
      alone; adding an item not in the cart appends exactly one line of quantity 1.
      Either way the names stay distinct. */
  lemma OneLinePerName(lines: seq<Line>, item: Product)
    requires NamesDistinct(lines)
    ensures NamesDistinct(Added(lines, item))
    ensures forall i :: 0 <= i < |lines| && lines[i].name == item.name ==>
      Added(lines, item) == lines[i := lines[i].(quantity := lines[i].quantity + 1)]
    ensures (forall i :: 0 <= i < |lines| ==> lines[i].name != item.name) ==>
      Added(lines, item) == lines + [NewLine(item)]
  {
    var f := FindName(lines, item.name);
    var r := Added(lines, item);
    if f < |lines| {
      forall i, j | 0 <= i < j < |r|
        ensures r[i].name != r[j].name
      {
        assert r[i].name == lines[i].name && r[j].name == lines[j].name;
      }
    } else {
      forall i, j | 0 <= i < j < |r|
        ensures r[i].name != r[j].name
      {
        if j == |lines| {
          assert r[i] == lines[i];
        } else {
          assert r[i] == lines[i] && r[j] == lines[j];
        }
      }
    }
  }

  /** The total of a list with one line replaced. */
  lemma {:induction false} TotalUpdate(lines: seq<Line>, i: nat, line: Line)
    requires i < |lines|
    ensures Total(lines[i := line]) ==
      Total(lines) - lines[i].price * lines[i].quantity + line.price * line.quantity
  {
    var n := |lines|;
    if i < n - 1 {
      TotalUpdate(lines[..n - 1], i, line);
      assert lines[i := line][..n - 1] == lines[..n - 1][i := line];
    } else {
      assert lines[i := line][..n - 1] == lines[..n - 1];
    }
  }

  /** Adding an item raises the total by exactly its price, provided every line
      with the item's name carries the item's price. */
  lemma TotalAdded(lines: seq<Line>, item: Product)
    requires forall k :: 0 <= k < |lines| && lines[k].name == item.name ==> lines[k].price == item.price
    ensures Total(Added(lines, item)) == Total(lines) + item.price
  {
    var f := FindName(lines, item.name);
    if f < |lines| {
      assert Added(lines, item) == lines[f := lines[f].(quantity := lines[f].quantity + 1)];
      TotalIncremented(lines, f);
      assert lines[f].price == item.price;
    } else {
      assert Added(lines, item) == lines + [NewLine(item)];
      TotalAppended(lines, NewLine(item));
    }
  }

  /** The total after one more of line `i`. */
  lemma TotalIncremented(lines: seq<Line>, i: nat)
    requires i < |lines|
    ensures Total(lines[i := lines[i].(quantity := lines[i].quantity + 1)]) == Total(lines) + lines[i].price
  {
    var line := lines[i];
    TotalUpdate(lines, i, line.(quantity := line.quantity + 1));
    assert line.price * (line.quantity + 1) == line.price * line.quantity + line.price;
  }

  /** The total after appending a line. */
  lemma TotalAppended(lines: seq<Line>, line: Line)
    ensures Total(lines + [line]) == Total(lines) + line.price * line.quantity
  {
    assert (lines + [line])[..|lines|] == lines;
  }

  /** Adding a catalog product keeps every line a catalog product, and raises the
      total by the product's price. */
  lemma AddedFromCatalog(lines: seq<Line>, id: int)
    requires id in ItemDb && FromCatalog(lines)
    ensures FromCatalog(Added(lines, ItemDb[id]))
    ensures Total(Added(lines, ItemDb[id])) == Total(lines) + ItemDb[id].price
  {
    var item := ItemDb[id];
    IdOfNameInverse(id);
    forall k | 0 <= k < |lines| && lines[k].name == item.name
      ensures lines[k].price == item.price
    {
      assert Listed(lines[k]);
    }
    TotalAdded(lines, item);
    var r := Added(lines, item);
    var f := FindName(lines, item.name);
    forall k | 0 <= k < |r|
      ensures Listed(r[k])
    {
      if k < |lines| {
        assert Listed(lines[k]);
      } else {
        assert r[k] == NewLine(item);
      }
    }
  }

  /** The cart object. The frame's response refers to this same object, so lines
      added in place show in that frame's response, while a cart replaced by a new
      empty one does not. */
  class Cart {
    var lines: seq<Line>

    constructor ()
      ensures lines == []
    {
      lines := [];
    }

    /** Add one `item`: scan for a line with its name and increment it, or append. */
    method Add(item: Product)
      modifies this
      ensures lines == Added(old(lines), item)
    {
      var found := false;
      var i := 0;
      while i < |lines|
        invariant 0 <= i <= |lines|
        invariant lines == old(lines) && !found
        invariant forall k :: 0 <= k < i ==> lines[k].name != item.name
      {
        if lines[i].name == item.name {
          assert FindName(lines, item.name) == i;
          lines := lines[i := lines[i].(quantity := lines[i].quantity + 1)];
          found := true;
          break;
        }
        i := i + 1;
      }
      if !found {
        assert FindName(lines, item.name) == |lines|;
        lines := lines + [NewLine(item)];
      }
    }
  }
}
