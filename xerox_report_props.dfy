/**
 * What the Xerox report builder promises: per-key sums and maxima,
 * first-seen ordering of lines and sections, and the shape of the emitted
 * report (numbering, headers, one line per key, the closing total).
 */
module XeroxReportProps {
  import opened Ordered
  import opened XeroxReport

  // ---------------------------------------------------------------------
  // Reference definitions over the input moves
  // ---------------------------------------------------------------------

  /** The grouping key of every move, in input order. */
  function KeysOf(ms: seq<MoveLine>): (r: seq<Key>)
    ensures |r| == |ms| && forall i :: 0 <= i < |ms| ==> r[i] == KeyOf(ms[i])
  {
    if ms == [] then [] else KeysOf(ms[..|ms| - 1]) + [KeyOf(ms[|ms| - 1])]
  }

  /** The product category of every move, in input order. */
  function CategsOf(ms: seq<MoveLine>): (r: seq<CategId>)
    ensures |r| == |ms| && forall i :: 0 <= i < |ms| ==> r[i] == ms[i].categ
  {
    if ms == [] then [] else CategsOf(ms[..|ms| - 1]) + [ms[|ms| - 1].categ]
  }

  /** The quantity of the moves with key `k`. */
  function KeyQuantity(ms: seq<MoveLine>, k: Key): int {
    if ms == [] then 0
    else KeyQuantity(ms[..|ms| - 1], k) + (if KeyOf(ms[|ms| - 1]) == k then MoveQty(ms[|ms| - 1]) else 0)
  }

  /** The quantity of all the moves. */
  function MovesQuantity(ms: seq<MoveLine>): int {
    if ms == [] then 0 else MovesQuantity(ms[..|ms| - 1]) + MoveQty(ms[|ms| - 1])
  }

  /** Every product has one category, as in the product master data. */
  ghost predicate CategoryPerProduct(ms: seq<MoveLine>) {
    forall i, j :: 0 <= i < |ms| && 0 <= j < |ms| && ms[i].product == ms[j].product ==>
      ms[i].categ == ms[j].categ
  }

  // ---------------------------------------------------------------------
  // Views of the emitted rows
  // ---------------------------------------------------------------------

  function RowsOf(r: seq<ReportLine>): seq<Row> {
    if r == [] then [] else RowsOf(r[..|r| - 1]) + [r[|r| - 1].row]
  }

  /** The keys of the product rows, in report order. */
  function ProductKeys(rows: seq<Row>): seq<Key> {
    if rows == [] then []
    else
      var last := rows[|rows| - 1];
      ProductKeys(rows[..|rows| - 1]) + (if last.ProductRow? then [last.key] else [])
  }

  /** The sections of the header rows, in report order. */
  function HeaderSections(rows: seq<Row>): seq<CategId> {
    if rows == [] then []
    else
      var last := rows[|rows| - 1];
      HeaderSections(rows[..|rows| - 1]) + (if last.HeaderRow? then [last.section] else [])
  }

  /** The sections that hold at least one accumulated line. */
  ghost function UsedSections(g: Grouping): set<CategId> {
    set k | k in g.lines :: g.lines[k].section
  }

  /** `r` is a header of section `c` or a product row of section `c`. */
  predicate InSection(r: Row, c: CategId) {
    (r.HeaderRow? && r.section == c) || (r.ProductRow? && r.line.section == c)
  }

  /**
   * Every product row follows its own section's header or another product
   * row of that section, and every header is followed by a product row of
   * its section: so each block is one header and that section's lines.
   */
  ghost predicate Grouped(rows: seq<Row>) {
    && (forall i :: 0 <= i < |rows| && rows[i].ProductRow? ==>
          0 < i && InSection(rows[i - 1], rows[i].line.section))
    && (forall i :: 0 <= i < |rows| && rows[i].HeaderRow? ==>
          i + 1 < |rows| && rows[i + 1].ProductRow? && rows[i + 1].line.section == rows[i].section)
  }

  // ---------------------------------------------------------------------
  // The moves reached from the batch pickings
  // ---------------------------------------------------------------------

  lemma {:induction false} PickingMovesElements(pickings: seq<Picking>, m: MoveLine)
    ensures m in PickingMoves(pickings) <==> exists p :: p in pickings && m in p.moves
  {
    if pickings != [] {
      var init := pickings[..|pickings| - 1];
      PickingMovesElements(init, m);
      assert pickings == init + [pickings[|pickings| - 1]];
    }
  }

  lemma {:induction false} AllMovesElements(batches: seq<BatchPicking>, m: MoveLine)
    ensures m in AllMoves(batches) <==>
            exists b, p :: b in batches && p in b.pickings && m in p.moves
  {
    if batches != [] {
      var init := batches[..|batches| - 1];
      var last := batches[|batches| - 1];
      AllMovesElements(init, m);
      PickingMovesElements(last.pickings, m);
      assert batches == init + [last];
    }
  }

  /**
   * The moves reached from the batch pickings are every move of every
   * picking of every batch, each exactly once.
   */
  lemma ReachableMovesOnce(batches: seq<BatchPicking>)
    ensures NoDup(ReachableMoves(batches))
    ensures forall m :: m in ReachableMoves(batches) <==>
              exists b, p :: b in batches && p in b.pickings && m in p.moves
  {
    DedupFirstSeen(AllMoves(batches));
    forall m ensures m in AllMoves(batches) <==>
                     exists b, p :: b in batches && p in b.pickings && m in p.moves
    {
      AllMovesElements(batches, m);
    }
  }

  // ---------------------------------------------------------------------
  // The grouping pass
  // ---------------------------------------------------------------------

  /** The dictionaries' keys are the distinct keys and categories of the moves, first seen first. */
  lemma {:induction false} AccumulateFirstSeen(ms: seq<MoveLine>)
    ensures Accumulate(ms).keys == Dedup(KeysOf(ms))
    ensures Accumulate(ms).sections == Dedup(CategsOf(ms))
  {
    if ms != [] {
      var p, m := ms[..|ms| - 1], ms[|ms| - 1];
      AccumulateFirstSeen(p);
      AccumulateWf(p);
      assert KeysOf(ms)[..|p|] == KeysOf(p);
      assert CategsOf(ms)[..|p|] == CategsOf(p);
    }
  }

  /**
   * Each distinct (product, unit) key of the moves gets exactly one line,
   * and the lines are ordered by the first move of each key; likewise the
   * sections by the first move of each category.
   */
  lemma LinesInFirstSeenOrder(ms: seq<MoveLine>)
    ensures NoDup(Accumulate(ms).keys)
    ensures forall k :: k in Accumulate(ms).keys <==> k in KeysOf(ms)
    ensures forall k :: k in Accumulate(ms).lines <==> k in KeysOf(ms)
    ensures forall i, j :: 0 <= i < j < |Accumulate(ms).keys| ==>
              FirstIndex(KeysOf(ms), Accumulate(ms).keys[i]) < FirstIndex(KeysOf(ms), Accumulate(ms).keys[j])
    ensures NoDup(Accumulate(ms).sections)
    ensures forall c :: c in Accumulate(ms).sections <==> c in CategsOf(ms)
    ensures forall c :: c in Accumulate(ms).names <==> c in CategsOf(ms)
    ensures forall i, j :: 0 <= i < j < |Accumulate(ms).sections| ==>
              FirstIndex(CategsOf(ms), Accumulate(ms).sections[i]) < FirstIndex(CategsOf(ms), Accumulate(ms).sections[j])
  {
    AccumulateFirstSeen(ms);
    AccumulateWf(ms);
    DedupFirstSeen(KeysOf(ms));
    DedupFirstSeen(CategsOf(ms));
  }

  /** A key has a line exactly when some move has that key. */
  lemma {:induction false} LineKeys(ms: seq<MoveLine>, k: Key)
    ensures k in Accumulate(ms).lines <==> k in KeysOf(ms)
  {
    if ms != [] {
      LineKeys(ms[..|ms| - 1], k);
    }
  }

  /** A category has a section exactly when some move has that category. */
  lemma {:induction false} SectionKeys(ms: seq<MoveLine>, c: CategId)
    ensures c in Accumulate(ms).names <==> c in CategsOf(ms)
  {
    if ms != [] {
      SectionKeys(ms[..|ms| - 1], c);
    }
  }

  /** A line's code, name, unit label and section come from the first move of its key. */
  lemma {:induction false} LineSeededByFirstMove(ms: seq<MoveLine>, k: Key)
    requires k in Accumulate(ms).lines
    ensures k in KeysOf(ms)
    ensures var m := ms[FirstIndex(KeysOf(ms), k)];
            var a := Accumulate(ms).lines[k];
            a.code == m.productCode && a.name == m.productName && a.uom == m.uomName && a.section == m.categ
  {
    LineKeys(ms, k);
    var p, m := ms[..|ms| - 1], ms[|ms| - 1];
    assert KeysOf(ms) == KeysOf(p) + [KeyOf(m)];
    LineKeys(p, k);
    if k in Accumulate(p).lines {
      LineSeededByFirstMove(p, k);
      FirstIndexSnoc(KeysOf(p), KeyOf(m), k);
    } else {
      assert FirstIndex(KeysOf(ms), k) == |p|;
    }
  }

  /** A section's title is the category name of the first move of its category, or empty when unset. */
  lemma {:induction false} SectionTitledByFirstMove(ms: seq<MoveLine>, c: CategId)
    requires c in Accumulate(ms).names
    ensures c in CategsOf(ms)
    ensures Accumulate(ms).names[c] == SectionName(ms[FirstIndex(CategsOf(ms), c)])
  {
    SectionKeys(ms, c);
    var p, m := ms[..|ms| - 1], ms[|ms| - 1];
    assert CategsOf(ms) == CategsOf(p) + [m.categ];
    SectionKeys(p, c);
    if c in Accumulate(p).names {
      SectionTitledByFirstMove(p, c);
      FirstIndexSnoc(CategsOf(p), m.categ, c);
    } else {
      assert FirstIndex(CategsOf(ms), c) == |p|;
    }
  }

  /**
   * The quantity of a key's line is the sum, over the moves of that key, of
   * the done quantity, or of the planned quantity when nothing is done; a
   * key without a line has no moves to sum.
   */
  lemma {:induction false} QuantityIsSum(ms: seq<MoveLine>, k: Key)
    ensures KeyQuantity(ms, k) == if k in Accumulate(ms).lines then Accumulate(ms).lines[k].quantity else 0
  {
    if ms != [] {
      QuantityIsSum(ms[..|ms| - 1], k);
    }
  }

  /** A key's price is at least 0 and at least the sale price of every move of that key. */
  lemma {:induction false} PriceBounds(ms: seq<MoveLine>, k: Key)
    requires k in Accumulate(ms).lines
    ensures 0 <= Accumulate(ms).lines[k].price
    ensures forall i :: 0 <= i < |ms| && KeyOf(ms[i]) == k ==> SalePrice(ms[i]) <= Accumulate(ms).lines[k].price
  {
    var p, m := ms[..|ms| - 1], ms[|ms| - 1];
    var g := Accumulate(p);
    StepLine(g, m, k);
    assert forall i :: 0 <= i < |p| ==> ms[i] == p[i];
    if k in g.lines {
      PriceBounds(p, k);
    } else {
      LineKeys(p, k);
      forall i | 0 <= i < |p| ensures KeyOf(p[i]) != k {
        assert KeysOf(p)[i] == KeyOf(p[i]);
      }
    }
  }

  /** A key's price is 0 or the sale price of one of its moves. */
  lemma {:induction false} PriceAttained(ms: seq<MoveLine>, k: Key)
    requires k in Accumulate(ms).lines
    ensures Accumulate(ms).lines[k].price == 0 ||
            exists i :: 0 <= i < |ms| && KeyOf(ms[i]) == k && SalePrice(ms[i]) == Accumulate(ms).lines[k].price
  {
    var p, m := ms[..|ms| - 1], ms[|ms| - 1];
    var g := Accumulate(p);
    StepLine(g, m, k);
    var price := Accumulate(ms).lines[k].price;
    if price != 0 {
      if KeyOf(m) == k && price == SalePrice(m) {
        assert ms[|ms| - 1] == m;
      } else {
        PriceAttained(p, k);
        var i :| 0 <= i < |p| && KeyOf(p[i]) == k && SalePrice(p[i]) == price;
        assert ms[i] == p[i];
      }
    }
  }

  /**
   * The price of a key's line is the highest of 0 and the sale prices of
   * that key's moves (a move without a sale line counting as 0).
   */
  lemma PriceIsMax(ms: seq<MoveLine>, k: Key)
    requires k in Accumulate(ms).lines
    ensures 0 <= Accumulate(ms).lines[k].price
    ensures forall i :: 0 <= i < |ms| && KeyOf(ms[i]) == k ==> SalePrice(ms[i]) <= Accumulate(ms).lines[k].price
    ensures Accumulate(ms).lines[k].price == 0 ||
            exists i :: 0 <= i < |ms| && KeyOf(ms[i]) == k && SalePrice(ms[i]) == Accumulate(ms).lines[k].price
  {
    PriceBounds(ms, k);
    PriceAttained(ms, k);
  }

  /** Taking one more move never lowers a line's price, and never drops a line. */
  lemma PriceNeverDecreases(ms: seq<MoveLine>, m: MoveLine, k: Key)
    requires k in Accumulate(ms).lines
    ensures k in Accumulate(ms + [m]).lines
    ensures Accumulate(ms).lines[k].price <= Accumulate(ms + [m]).lines[k].price
  {
    assert (ms + [m])[..|ms|] == ms;
  }

  /** Replacing the line of a key changes the total by the change in that line's quantity. */
  lemma {:induction false} TotalAfterUpdate(lines: map<Key, Accum>, ks: seq<Key>, k: Key, a: Accum)
    requires NoDup(ks)
    ensures TotalQuantity(lines[k := a], ks) ==
            TotalQuantity(lines, ks) + (if k in ks then a.quantity - (if k in lines then lines[k].quantity else 0) else 0)
  {
    if ks != [] {
      var p := ks[..|ks| - 1];
      assert k in ks <==> k in p || k == ks[|ks| - 1];
      TotalAfterUpdate(lines, p, k, a);
    }
  }

  /** One step of the grouping loop adds the move's quantity to the total. */
  lemma TotalAfterStep(g: Grouping, m: MoveLine)
    requires NoDup(g.keys) && forall k :: k in g.lines <==> k in g.keys
    ensures TotalQuantity(Step(g, m).lines, Step(g, m).keys) == TotalQuantity(g.lines, g.keys) + MoveQty(m)
  {
    var k := KeyOf(m);
    if k in g.lines {
      TotalAfterExistingKey(g, m);
    } else {
      TotalAfterNewKey(g, m);
    }
  }

  lemma TotalAfterExistingKey(g: Grouping, m: MoveLine)
    requires NoDup(g.keys) && KeyOf(m) in g.lines && KeyOf(m) in g.keys
    ensures TotalQuantity(Step(g, m).lines, Step(g, m).keys) == TotalQuantity(g.lines, g.keys) + MoveQty(m)
  {
    var k, a := KeyOf(m), g.lines[KeyOf(m)];
    var a' := a.(quantity := a.quantity + MoveQty(m), price := Max(a.price, SalePrice(m)));
    assert Step(g, m).lines == g.lines[k := a'];
    assert Step(g, m).keys == g.keys;
    TotalAfterUpdate(g.lines, g.keys, k, a');
  }

  lemma TotalAfterNewKey(g: Grouping, m: MoveLine)
    requires NoDup(g.keys) && KeyOf(m) !in g.lines && KeyOf(m) !in g.keys
    ensures TotalQuantity(Step(g, m).lines, Step(g, m).keys) == TotalQuantity(g.lines, g.keys) + MoveQty(m)
  {
    var k := KeyOf(m);
    var a := Seed(m).(quantity := MoveQty(m), price := Max(0, SalePrice(m)));
    assert Step(g, m).lines == g.lines[k := a];
    assert Step(g, m).keys == g.keys + [k];
    assert (g.keys + [k])[..|g.keys|] == g.keys;
    TotalAfterUpdate(g.lines, g.keys, k, a);
  }

  /** The total is the quantity of all the moves: the raw sum of every line's quantity. */
  lemma {:induction false} TotalIsSumOfMoves(ms: seq<MoveLine>)
    ensures TotalQuantity(Accumulate(ms).lines, Accumulate(ms).keys) == MovesQuantity(ms)
  {
    if ms != [] {
      var p := ms[..|ms| - 1];
      TotalIsSumOfMoves(p);
      AccumulateWf(p);
      TotalAfterStep(Accumulate(p), ms[|ms| - 1]);
    }
  }

  // ---------------------------------------------------------------------
  // Emission
  // ---------------------------------------------------------------------

  /** Header titles and product lines are those of the dictionaries; no total inside. */
  ghost predicate FromGrouping(g: Grouping, rows: seq<Row>) {
    forall i :: 0 <= i < |rows| ==>
      match rows[i]
      case HeaderRow(c, title) => c in g.names && title == g.names[c]
      case ProductRow(k, line) => k in g.lines && line == g.lines[k]
      case TotalRow(_) => false
  }

  lemma {:induction false} ProductRowsAt(lines: map<Key, Accum>, ks: seq<Key>)
    requires forall k :: k in ks ==> k in lines
    ensures forall i :: 0 <= i < |ks| ==> ProductRows(lines, ks)[i] == ProductRow(ks[i], lines[ks[i]])
  {
    if ks != [] {
      ProductRowsAt(lines, ks[..|ks| - 1]);
    }
  }

  lemma ViewsSnoc(a: seq<Row>, r: Row)
    ensures ProductKeys(a + [r]) == ProductKeys(a) + (if r.ProductRow? then [r.key] else [])
    ensures HeaderSections(a + [r]) == HeaderSections(a) + (if r.HeaderRow? then [r.section] else [])
  {
    assert (a + [r])[..|a|] == a;
  }

  lemma {:induction false} ProductKeysAppend(a: seq<Row>, b: seq<Row>)
    ensures ProductKeys(a + b) == ProductKeys(a) + ProductKeys(b)
  {
    if b != [] {
      var p, r := b[..|b| - 1], b[|b| - 1];
      assert a + b == (a + p) + [r];
      ProductKeysAppend(a, p);
      ViewsSnoc(a + p, r);
      ViewsSnoc(p, r);
      assert p + [r] == b;
    } else {
      assert a + b == a;
    }
  }

  lemma {:induction false} HeaderSectionsAppend(a: seq<Row>, b: seq<Row>)
    ensures HeaderSections(a + b) == HeaderSections(a) + HeaderSections(b)
  {
    if b != [] {
      var p, r := b[..|b| - 1], b[|b| - 1];
      assert a + b == (a + p) + [r];
      HeaderSectionsAppend(a, p);
      ViewsSnoc(a + p, r);
      ViewsSnoc(p, r);
      assert p + [r] == b;
    } else {
      assert a + b == a;
    }
  }

  lemma ViewsAppend(a: seq<Row>, b: seq<Row>)
    ensures ProductKeys(a + b) == ProductKeys(a) + ProductKeys(b)
    ensures HeaderSections(a + b) == HeaderSections(a) + HeaderSections(b)
  {
    ProductKeysAppend(a, b);
    HeaderSectionsAppend(a, b);
  }

  lemma {:induction false} KeysOfProductRows(lines: map<Key, Accum>, ks: seq<Key>)
    requires forall k :: k in ks ==> k in lines
    ensures ProductKeys(ProductRows(lines, ks)) == ks
  {
    if ks != [] {
      var p, k := ks[..|ks| - 1], ks[|ks| - 1];
      var pr := ProductRows(lines, p);
      assert ProductRows(lines, ks) == pr + [ProductRow(k, lines[k])];
      KeysOfProductRows(lines, p);
      ViewsSnoc(pr, ProductRow(k, lines[k]));
      assert p + [k] == ks;
    }
  }

  lemma {:induction false} NoHeaderInProductRows(lines: map<Key, Accum>, ks: seq<Key>)
    requires forall k :: k in ks ==> k in lines
    ensures HeaderSections(ProductRows(lines, ks)) == []
  {
    if ks != [] {
      var p, k := ks[..|ks| - 1], ks[|ks| - 1];
      var pr := ProductRows(lines, p);
      assert ProductRows(lines, ks) == pr + [ProductRow(k, lines[k])];
      NoHeaderInProductRows(lines, p);
      ViewsSnoc(pr, ProductRow(k, lines[k]));
    }
  }

  lemma ViewsOfProductRows(lines: map<Key, Accum>, ks: seq<Key>)
    requires forall k :: k in ks ==> k in lines
    ensures ProductKeys(ProductRows(lines, ks)) == ks
    ensures HeaderSections(ProductRows(lines, ks)) == []
  {
    KeysOfProductRows(lines, ks);
    NoHeaderInProductRows(lines, ks);
  }

  lemma MembersSnoc(lines: map<Key, Accum>, a: seq<Key>, k: Key, c: CategId)
    ensures Members(lines, a + [k], c) ==
            Members(lines, a, c) + (if k in lines && lines[k].section == c then [k] else [])
  {
    assert (a + [k])[..|a|] == a;
  }

  lemma {:induction false} MembersAppend(lines: map<Key, Accum>, a: seq<Key>, b: seq<Key>, c: CategId)
    ensures Members(lines, a + b, c) == Members(lines, a, c) + Members(lines, b, c)
  {
    if b != [] {
      var p, k := b[..|b| - 1], b[|b| - 1];
      assert a + b == (a + p) + [k];
      MembersAppend(lines, a, p, c);
      MembersSnoc(lines, a + p, k, c);
      MembersSnoc(lines, p, k, c);
      assert p + [k] == b;
    } else {
      assert a + b == a;
    }
  }

  /** The members of one section hold no member of another. */
  lemma {:induction false} MembersOfMembers(lines: map<Key, Accum>, ks: seq<Key>, c: CategId, d: CategId)
    ensures Members(lines, Members(lines, ks, c), d) == if c == d then Members(lines, ks, c) else []
  {
    if ks != [] {
      var p, k := ks[..|ks| - 1], ks[|ks| - 1];
      assert ks == p + [k];
      MembersOfMembers(lines, p, c, d);
      MembersSnoc(lines, p, k, c);
      if k in lines && lines[k].section == c {
        MembersSnoc(lines, Members(lines, p, c), k, d);
      }
    }
  }

  lemma {:induction false} MembersNoDup(lines: map<Key, Accum>, ks: seq<Key>, c: CategId)
    requires NoDup(ks)
    ensures NoDup(Members(lines, ks, c))
  {
    if ks != [] {
      var p := ks[..|ks| - 1];
      MembersNoDup(lines, p, c);
      NoDupAppend(Members(lines, p, c), [ks[|ks| - 1]]);
    }
  }

  /** A key belongs to a section's members exactly when it is a line of that section. */
  lemma {:induction false} MembersElements(lines: map<Key, Accum>, ks: seq<Key>, c: CategId, k: Key)
    ensures k in Members(lines, ks, c) <==> k in ks && k in lines && lines[k].section == c
  {
    if ks != [] {
      MembersElements(lines, ks[..|ks| - 1], c, k);
      assert ks == ks[..|ks| - 1] + [ks[|ks| - 1]];
    }
  }

  /**
   * Every line is listed among the dictionary's keys: the one clause of
   * `Wf` the emission lemmas rely on, stated alone so that they say what
   * they need of a grouping.
   */
  ghost predicate LinesListed(g: Grouping) {
    forall k :: k in g.lines ==> k in g.keys
  }

  /** A section has members exactly when some line belongs to it. */
  lemma MembersUsed(g: Grouping, c: CategId)
    requires LinesListed(g)
    ensures Members(g.lines, g.keys, c) != [] <==> c in UsedSections(g)
  {
    var ms := Members(g.lines, g.keys, c);
    if ms != [] {
      assert ms[0] in g.lines;
    }
    if c in UsedSections(g) {
      var k :| k in g.lines && g.lines[k].section == c;
      MembersElements(g.lines, g.keys, c, k);
    }
  }

  lemma GroupedAppend(g: Grouping, a: seq<Row>, b: seq<Row>)
    requires Grouped(a) && Grouped(b) && FromGrouping(g, a) && FromGrouping(g, b)
    requires b == [] || b[0].HeaderRow?
    ensures Grouped(a + b) && FromGrouping(g, a + b)
  {
    var ab := a + b;
    forall i | 0 <= i < |ab| && ab[i].ProductRow?
      ensures 0 < i && InSection(ab[i - 1], ab[i].line.section)
    {
      if i >= |a| {
        assert ab[i] == b[i - |a|];
        assert i - |a| > 0;
        assert ab[i - 1] == b[i - |a| - 1];
      } else {
        assert ab[i] == a[i] && ab[i - 1] == a[i - 1];
      }
    }
    forall i | 0 <= i < |ab| && ab[i].HeaderRow?
      ensures i + 1 < |ab| && ab[i + 1].ProductRow? && ab[i + 1].line.section == ab[i].section
    {
      if i >= |a| {
        assert ab[i] == b[i - |a|] && ab[i + 1] == b[i - |a| + 1];
      } else {
        assert ab[i] == a[i] && ab[i + 1] == a[i + 1];
      }
    }
    forall i | 0 <= i < |ab| ensures
      match ab[i]
      case HeaderRow(c, title) => c in g.names && title == g.names[c]
      case ProductRow(k, line) => k in g.lines && line == g.lines[k]
      case TotalRow(_) => false
    {
      if i >= |a| { assert ab[i] == b[i - |a|]; } else { assert ab[i] == a[i]; }
    }
  }

  /** The block of one section: its header then its members, or nothing when it has none. */
  lemma BlockViews(g: Grouping, c: CategId)
    requires LinesListed(g) && c in g.names
    ensures ProductKeys(Block(g, c)) == Members(g.lines, g.keys, c)
    ensures HeaderSections(Block(g, c)) == if c in UsedSections(g) then [c] else []
    ensures |Block(g, c)| == |HeaderSections(Block(g, c))| + |ProductKeys(Block(g, c))|
  {
    MembersUsed(g, c);
    BlockRowViews(g, c);
  }

  lemma BlockRowViews(g: Grouping, c: CategId)
    requires c in g.names
    ensures ProductKeys(Block(g, c)) == Members(g.lines, g.keys, c)
    ensures HeaderSections(Block(g, c)) == if Members(g.lines, g.keys, c) != [] then [c] else []
    ensures |Block(g, c)| == |HeaderSections(Block(g, c))| + |ProductKeys(Block(g, c))|
  {
    var ks := Members(g.lines, g.keys, c);
    if ks != [] {
      HeaderThenRows(HeaderRow(c, g.names[c]), g.lines, ks);
    }
  }

  lemma HeaderThenRows(h: Row, lines: map<Key, Accum>, ks: seq<Key>)
    requires h.HeaderRow? && forall k :: k in ks ==> k in lines
    ensures ProductKeys([h] + ProductRows(lines, ks)) == ks
    ensures HeaderSections([h] + ProductRows(lines, ks)) == [h.section]
    ensures |[h] + ProductRows(lines, ks)| == 1 + |ks|
  {
    var pr := ProductRows(lines, ks);
    ViewsAppend([h], pr);
    ViewsOfProductRows(lines, ks);
    assert [h][..0] == [];
  }

  /** A header followed by rows of its own section is grouped. */
  lemma HeaderBlockGrouped(h: Row, pr: seq<Row>)
    requires h.HeaderRow? && pr != []
    requires forall i :: 0 <= i < |pr| ==> pr[i].ProductRow? && pr[i].line.section == h.section
    ensures Grouped([h] + pr)
  {
    var b := [h] + pr;
    forall i | 0 <= i < |b| && b[i].ProductRow?
      ensures 0 < i && InSection(b[i - 1], b[i].line.section)
    {
      assert b[i] == pr[i - 1];
      if i > 1 {
        assert b[i - 1] == pr[i - 2];
      }
    }
    assert b[1] == pr[0];
  }

  /** A block is its section's header followed by product rows of that section. */
  lemma BlockGrouped(g: Grouping, c: CategId)
    requires c in g.names
    ensures Grouped(Block(g, c)) && FromGrouping(g, Block(g, c))
    ensures Block(g, c) == [] || Block(g, c)[0].HeaderRow?
  {
    var ks := Members(g.lines, g.keys, c);
    if ks != [] {
      var h := HeaderRow(c, g.names[c]);
      var pr := ProductRows(g.lines, ks);
      assert Block(g, c) == [h] + pr;
      ProductRowsAt(g.lines, ks);
      HeaderBlockGrouped(h, pr);
      forall i | 0 <= i < |[h] + pr| ensures ([h] + pr)[i] == if i == 0 then h else pr[i - 1] { }
    }
  }

  /** Adding a section's block adds that section's members to the product keys. */
  lemma BlocksKeysSnoc(g: Grouping, secs: seq<CategId>)
    requires LinesListed(g) && secs != [] && forall c :: c in secs ==> c in g.names
    ensures ProductKeys(Blocks(g, secs)) ==
            ProductKeys(Blocks(g, secs[..|secs| - 1])) + Members(g.lines, g.keys, secs[|secs| - 1])
  {
    var p, c := secs[..|secs| - 1], secs[|secs| - 1];
    ViewsAppend(Blocks(g, p), Block(g, c));
    BlockViews(g, c);
  }

  lemma {:induction false} BlocksKeysNoDup(g: Grouping, secs: seq<CategId>)
    requires LinesListed(g) && NoDup(g.keys) && NoDup(secs) && forall c :: c in secs ==> c in g.names
    ensures NoDup(ProductKeys(Blocks(g, secs)))
  {
    if secs != [] {
      var p, c := secs[..|secs| - 1], secs[|secs| - 1];
      BlocksKeysNoDup(g, p);
      BlocksKeysSnoc(g, secs);
      var pk := ProductKeys(Blocks(g, p));
      var mk := Members(g.lines, g.keys, c);
      BlocksKeysElements(g, p);
      assert c !in p;
      MembersNoDup(g.lines, g.keys, c);
      NoDupAppend(pk, mk);
    }
  }

  lemma {:induction false} BlocksKeysElements(g: Grouping, secs: seq<CategId>)
    requires LinesListed(g) && forall c :: c in secs ==> c in g.names
    ensures forall k :: k in ProductKeys(Blocks(g, secs)) <==> k in g.lines && g.lines[k].section in secs
  {
    if secs != [] {
      var p, c := secs[..|secs| - 1], secs[|secs| - 1];
      BlocksKeysElements(g, p);
      BlocksKeysSnoc(g, secs);
      var pk := ProductKeys(Blocks(g, p));
      assert forall x :: x in secs <==> x in p || x == c by {
        assert secs == p + [c];
      }
      forall k ensures k in pk + Members(g.lines, g.keys, c) <==> k in g.lines && g.lines[k].section in secs {
        MembersElements(g.lines, g.keys, c, k);
      }
    }
  }

  lemma {:induction false} BlocksKeysMembers(g: Grouping, secs: seq<CategId>, d: CategId)
    requires LinesListed(g) && NoDup(secs) && forall c :: c in secs ==> c in g.names
    ensures Members(g.lines, ProductKeys(Blocks(g, secs)), d) ==
            if d in secs then Members(g.lines, g.keys, d) else []
  {
    if secs != [] {
      var p, c := secs[..|secs| - 1], secs[|secs| - 1];
      NoDupInit(secs);
      BlocksKeysMembers(g, p, d);
      BlocksKeysSnoc(g, secs);
      var pk := ProductKeys(Blocks(g, p));
      var mk := Members(g.lines, g.keys, c);
      MembersAppend(g.lines, pk, mk, d);
      MembersOfMembers(g.lines, g.keys, c, d);
      assert d in secs <==> d in p || d == c by {
        assert secs == p + [c];
      }
    }
  }

  /**
   * The blocks of distinct sections hold each line of those sections once,
   * and within each section in dictionary order.
   */
  lemma BlocksKeys(g: Grouping, secs: seq<CategId>)
    requires LinesListed(g) && NoDup(g.keys) && NoDup(secs) && forall c :: c in secs ==> c in g.names
    ensures NoDup(ProductKeys(Blocks(g, secs)))
    ensures forall k :: k in ProductKeys(Blocks(g, secs)) <==> k in g.lines && g.lines[k].section in secs
    ensures forall d :: Members(g.lines, ProductKeys(Blocks(g, secs)), d) ==
                        if d in secs then Members(g.lines, g.keys, d) else []
  {
    BlocksKeysNoDup(g, secs);
    BlocksKeysElements(g, secs);
    forall d ensures Members(g.lines, ProductKeys(Blocks(g, secs)), d) ==
                     if d in secs then Members(g.lines, g.keys, d) else [] {
      BlocksKeysMembers(g, secs, d);
    }
  }

  /**
   * The blocks of distinct sections carry one header per section that has
   * lines, in section order; each header is followed by its own lines.
   */
  lemma {:induction false} BlocksHeaders(g: Grouping, secs: seq<CategId>)
    requires LinesListed(g) && forall c :: c in secs ==> c in g.names
    ensures HeaderSections(Blocks(g, secs)) == Keep(secs, UsedSections(g))
    ensures |Blocks(g, secs)| == |HeaderSections(Blocks(g, secs))| + |ProductKeys(Blocks(g, secs))|
    ensures Grouped(Blocks(g, secs)) && FromGrouping(g, Blocks(g, secs))
  {
    if secs != [] {
      var p, c := secs[..|secs| - 1], secs[|secs| - 1];
      BlocksHeaders(g, p);
      ViewsAppend(Blocks(g, p), Block(g, c));
      BlockViews(g, c);
      BlockGrouped(g, c);
      GroupedAppend(g, Blocks(g, p), Block(g, c));
    }
  }

  lemma {:induction false} NumberedAt(rows: seq<Row>, start: int)
    ensures |Numbered(rows, start)| == |rows|
    ensures forall i :: 0 <= i < |rows| ==> Numbered(rows, start)[i] == ReportLine(start + i, rows[i])
    ensures RowsOf(Numbered(rows, start)) == rows
  {
    if rows != [] {
      var p := rows[..|rows| - 1];
      NumberedAt(p, start);
      assert Numbered(rows, start)[..|p|] == Numbered(p, start);
    }
  }

  /** Two duplicate-free key sequences with the same elements have the same length. */
  lemma SameKeysSameLength(a: seq<Key>, b: seq<Key>)
    requires NoDup(a) && NoDup(b)
    requires forall k :: k in a <==> k in b
    ensures |a| == |b|
  {
    NoDupLength(a);
    NoDupLength(b);
    assert (set k | k in a) == (set k | k in b);
  }

  /** The blocks hold one header per section with lines and one row per line. */
  lemma BlocksLength(g: Grouping)
    requires Wf(g)
    ensures |Blocks(g, g.sections)| == |UsedSections(g)| + |g.keys|
  {
    var b := Blocks(g, g.sections);
    var pk := ProductKeys(b);
    assert |b| == |Keep(g.sections, UsedSections(g))| + |pk| by {
      BlocksHeaders(g, g.sections);
    }
    assert |Keep(g.sections, UsedSections(g))| == |UsedSections(g)| by {
      KeepLength(g.sections, UsedSections(g));
    }
    assert |pk| == |g.keys| by {
      BlocksKeys(g, g.sections);
      SameKeysSameLength(pk, g.keys);
    }
  }

  /** The rows end with the only total; the blocks before it carry the dictionaries' lines. */
  lemma RowsShape(g: Grouping)
    requires Wf(g)
    ensures |Rows(g)| == |UsedSections(g)| + |g.keys| + 1
    ensures Rows(g)[|Rows(g)| - 1] == TotalRow(TotalQuantity(g.lines, g.keys))
    ensures forall i :: 0 <= i < |Rows(g)| - 1 ==> !Rows(g)[i].TotalRow?
  {
    var b := Blocks(g, g.sections);
    assert |b| == |UsedSections(g)| + |g.keys| by {
      BlocksLength(g);
    }
    assert FromGrouping(g, b) by {
      BlocksHeaders(g, g.sections);
    }
    forall i | 0 <= i < |Rows(g)| - 1 ensures !Rows(g)[i].TotalRow? {
      assert Rows(g)[i] == b[i];
    }
  }

  /** Rows closed by their only total, numbered from 1: indexes 1..n, the total last and only there. */
  lemma NumberedEndsWithTotal(rows: seq<Row>, t: int)
    requires |rows| > 0 && rows[|rows| - 1] == TotalRow(t)
    requires forall i :: 0 <= i < |rows| - 1 ==> !rows[i].TotalRow?
    ensures var r := Numbered(rows, 1);
            && |r| == |rows|
            && (forall i :: 0 <= i < |r| ==> r[i].index == i + 1)
            && r[|r| - 1] == ReportLine(|r|, TotalRow(t))
            && (forall i :: 0 <= i < |r| - 1 ==> !r[i].row.TotalRow?)
  {
    NumberedAt(rows, 1);
  }

  /**
   * The report is numbered 1, 2, ..., n without gaps; it has one header per
   * section with lines, one line per distinct key, and ends with the only
   * TOTAL line, whose quantity is that of all the moves.
   */
  lemma ReportShape(ms: seq<MoveLine>)
    ensures |Report(ms)| == |UsedSections(Accumulate(ms))| + |Accumulate(ms).keys| + 1
    ensures forall i :: 0 <= i < |Report(ms)| ==> Report(ms)[i].index == i + 1
    ensures Report(ms)[|Report(ms)| - 1] == ReportLine(|Report(ms)|, TotalRow(MovesQuantity(ms)))
    ensures forall i :: 0 <= i < |Report(ms)| - 1 ==> !Report(ms)[i].row.TotalRow?
  {
    var g := Accumulate(ms);
    AccumulateWf(ms);
    RowsShape(g);
    NumberedEndsWithTotal(Rows(g), TotalQuantity(g.lines, g.keys));
    TotalIsSumOfMoves(ms);
  }

  /** With no moves the report is the TOTAL line alone, numbered 1, with quantity 0. */
  lemma EmptyReport()
    ensures Report([]) == [ReportLine(1, TotalRow(0))]
  {
    assert Rows(EmptyGrouping) == [TotalRow(0)];
  }

  /** The report's rows are the blocks followed by the total, and the total adds no key or header. */
  lemma ReportRows(ms: seq<MoveLine>)
    ensures SectionsNamed(Accumulate(ms))
    ensures RowsOf(Report(ms)) == Rows(Accumulate(ms))
    ensures ProductKeys(RowsOf(Report(ms))) == ProductKeys(Blocks(Accumulate(ms), Accumulate(ms).sections))
    ensures HeaderSections(RowsOf(Report(ms))) == HeaderSections(Blocks(Accumulate(ms), Accumulate(ms).sections))
  {
    var g := Accumulate(ms);
    assert SectionsNamed(g) by {
      AccumulateWf(ms);
    }
    var t := [TotalRow(TotalQuantity(g.lines, g.keys))];
    NumberedAt(Rows(g), 1);
    ViewsAppend(Blocks(g, g.sections), t);
    assert t[..0] == [];
  }

  /** The blocks of a well-formed grouping list each of its keys once, grouped as the dictionary orders them. */
  lemma BlocksListEveryKey(g: Grouping)
    requires Wf(g)
    ensures NoDup(ProductKeys(Blocks(g, g.sections)))
    ensures forall k :: k in ProductKeys(Blocks(g, g.sections)) <==> k in g.lines
    ensures forall c :: Members(g.lines, ProductKeys(Blocks(g, g.sections)), c) == Members(g.lines, g.keys, c)
  {
    BlocksKeys(g, g.sections);
    forall c | c !in g.sections ensures Members(g.lines, g.keys, c) == [] {
      MembersOutside(g.lines, g.keys, g.sections, c);
    }
  }

  /**
   * Every distinct (product, unit) key of the moves has exactly one product
   * line in the report, carrying that key's accumulated line; within each
   * section the lines keep the dictionary's insertion order.
   */
  lemma ReportLinesOncePerKey(ms: seq<MoveLine>)
    ensures NoDup(ProductKeys(RowsOf(Report(ms))))
    ensures forall k :: k in ProductKeys(RowsOf(Report(ms))) <==> k in KeysOf(ms)
    ensures forall c :: Members(Accumulate(ms).lines, ProductKeys(RowsOf(Report(ms))), c)
                     == Members(Accumulate(ms).lines, Accumulate(ms).keys, c)
  {
    ReportRows(ms);
    AccumulateWf(ms);
    BlocksListEveryKey(Accumulate(ms));
    forall k ensures k in Accumulate(ms).lines <==> k in KeysOf(ms) {
      LineKeys(ms, k);
    }
  }

  /** A category no line belongs to has no members. */
  lemma MembersOutside(lines: map<Key, Accum>, ks: seq<Key>, secs: seq<CategId>, c: CategId)
    requires forall k :: k in lines ==> lines[k].section in secs
    requires c !in secs
    ensures Members(lines, ks, c) == []
  {
  }

  /** Each product row carries the accumulated line of its key. */
  ghost predicate LinesOfKeys(g: Grouping, rows: seq<Row>) {
    forall i :: 0 <= i < |rows| && rows[i].ProductRow? ==>
      rows[i].key in g.lines && rows[i].line == g.lines[rows[i].key]
  }

  /** Product rows drawn from the dictionaries still are once a total is appended. */
  lemma LinesOfKeysWithTotal(g: Grouping, b: seq<Row>, t: int)
    requires FromGrouping(g, b)
    ensures LinesOfKeys(g, b + [TotalRow(t)])
  {
    var rows := b + [TotalRow(t)];
    forall i | 0 <= i < |rows| && rows[i].ProductRow?
      ensures rows[i].key in g.lines && rows[i].line == g.lines[rows[i].key]
    {
      assert rows[i] == b[i];
    }
  }

  /** Each product line of the report carries its key's accumulated line. */
  lemma ReportLinesFromGrouping(ms: seq<MoveLine>)
    ensures LinesOfKeys(Accumulate(ms), RowsOf(Report(ms)))
  {
    var g := Accumulate(ms);
    ReportRows(ms);
    var b := Blocks(g, g.sections);
    assert FromGrouping(g, b) by {
      AccumulateWf(ms);
      BlocksHeaders(g, g.sections);
    }
    LinesOfKeysWithTotal(g, b, TotalQuantity(g.lines, g.keys));
  }

  /** A closing total keeps the rows grouped. */
  lemma GroupedWithTotal(b: seq<Row>, t: int)
    requires Grouped(b)
    ensures Grouped(b + [TotalRow(t)])
  {
    var rows := b + [TotalRow(t)];
    forall i | 0 <= i < |rows| && rows[i].ProductRow?
      ensures 0 < i && InSection(rows[i - 1], rows[i].line.section)
    {
      assert rows[i] == b[i] && rows[i - 1] == b[i - 1];
    }
    forall i | 0 <= i < |rows| && rows[i].HeaderRow?
      ensures i + 1 < |rows| && rows[i + 1].ProductRow? && rows[i + 1].line.section == rows[i].section
    {
      assert rows[i] == b[i] && rows[i + 1] == b[i + 1];
    }
  }

  /**
   * Headers appear for the sections that have lines, in the order the
   * categories were first seen, each followed by its own lines.
   */
  lemma ReportSections(ms: seq<MoveLine>)
    ensures HeaderSections(RowsOf(Report(ms))) == Keep(Accumulate(ms).sections, UsedSections(Accumulate(ms)))
    ensures Grouped(RowsOf(Report(ms)))
  {
    var g := Accumulate(ms);
    ReportRows(ms);
    var b := Blocks(g, g.sections);
    assert HeaderSections(b) == Keep(g.sections, UsedSections(g)) && Grouped(b) by {
      AccumulateWf(ms);
      BlocksHeaders(g, g.sections);
    }
    GroupedWithTotal(b, TotalQuantity(g.lines, g.keys));
  }

  /** Each header row is titled with the name registered for its section. */
  ghost predicate HeadersTitled(g: Grouping, rows: seq<Row>) {
    forall i :: 0 <= i < |rows| && rows[i].HeaderRow? ==>
      rows[i].section in g.names && rows[i].title == g.names[rows[i].section]
  }

  /** Header rows drawn from the dictionaries still are once a total is appended. */
  lemma HeadersTitledWithTotal(g: Grouping, b: seq<Row>, t: int)
    requires FromGrouping(g, b)
    ensures HeadersTitled(g, b + [TotalRow(t)])
  {
    var rows := b + [TotalRow(t)];
    forall i | 0 <= i < |rows| && rows[i].HeaderRow?
      ensures rows[i].section in g.names && rows[i].title == g.names[rows[i].section]
    {
      assert rows[i] == b[i];
    }
  }

  /** Each header of the report carries its section's name, as registered by the grouping pass. */
  lemma ReportHeadersTitled(ms: seq<MoveLine>)
    ensures HeadersTitled(Accumulate(ms), RowsOf(Report(ms)))
  {
    var g := Accumulate(ms);
    ReportRows(ms);
    var b := Blocks(g, g.sections);
    assert FromGrouping(g, b) by {
      AccumulateWf(ms);
      BlocksHeaders(g, g.sections);
    }
    HeadersTitledWithTotal(g, b, TotalQuantity(g.lines, g.keys));
  }

  /**
   * When every product has one category, as the product master data
   * guarantees, no section is empty: every category seen gets its header,
   * in first-seen order.
   */
  lemma EveryCategoryHasHeader(ms: seq<MoveLine>)
    requires CategoryPerProduct(ms)
    ensures HeaderSections(RowsOf(Report(ms))) == Accumulate(ms).sections
  {
    var g := Accumulate(ms);
    ReportSections(ms);
    forall c | c in g.sections ensures c in UsedSections(g) {
      CategoryUsed(ms, c);
    }
    KeepAll(g.sections, UsedSections(g));
  }

  /** With one category per product, a category met has a line: that of its first move's key. */
  lemma CategoryUsed(ms: seq<MoveLine>, c: CategId)
    requires CategoryPerProduct(ms) && c in Accumulate(ms).sections
    ensures c in UsedSections(Accumulate(ms))
  {
    var g := Accumulate(ms);
    AccumulateWf(ms);
    SectionKeys(ms, c);
    var i := FirstIndex(CategsOf(ms), c);
    var k := KeyOf(ms[i]);
    assert KeysOf(ms)[i] == k;
    LineKeys(ms, k);
    LineSeededByFirstMove(ms, k);
    var j := FirstIndex(KeysOf(ms), k);
    assert ms[j].product == ms[i].product;
    assert g.lines[k].section == c;
  }

}
