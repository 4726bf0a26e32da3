/**
 * Worked cases of the Xerox report builder: two done moves of one product
 * merge their quantities, the price keeps its highest value, and sections
 * follow the order in which categories are first met.
 */
module XeroxReportExamples {
  import opened Wrappers
  import opened Ordered
  import opened XeroxReport
  import opened XeroxReportProps

  /** A move of `product` (unit 1) in category `categ`. */
  function Move(id: nat, product: ProductId, categ: CategId, done: int, price: Option<int>): MoveLine {
    MoveLine(id, product, "P", "Product", 1, "Units", categ, Some("Category"), done, 0, price)
  }

  /** Done quantities 3 and 5 of the same product and unit merge into one line of 8. */
  lemma DoneQuantitiesMerge()
    ensures var ms := [Move(1, 7, 1, 3, None), Move(2, 7, 1, 5, None)];
            Key(7, 1) in Accumulate(ms).lines && Accumulate(ms).lines[Key(7, 1)].quantity == 8
  {
    var ms := [Move(1, 7, 1, 3, None), Move(2, 7, 1, 5, None)];
    assert ms[..1] == [ms[0]] && [ms[0]][..0] == [];
    LineKeys(ms, Key(7, 1));
    assert KeysOf(ms)[0] == Key(7, 1);
    QuantityIsSum(ms, Key(7, 1));
  }

  /** A move with nothing done counts its planned quantity. */
  lemma PlannedQuantityWhenNothingDone()
    ensures MoveQty(MoveLine(1, 7, "P", "Product", 1, "Units", 1, None, 0, 4, None)) == 4
    ensures MoveQty(MoveLine(1, 7, "P", "Product", 1, "Units", 1, None, 2, 4, None)) == 2
  {
  }

  /** Sale prices 10, then none, then 7 leave the line at 10. */
  lemma PriceKeepsHighest()
    ensures var ms := [Move(1, 7, 1, 1, Some(10)), Move(2, 7, 1, 1, None), Move(3, 7, 1, 1, Some(7))];
            Key(7, 1) in Accumulate(ms).lines && Accumulate(ms).lines[Key(7, 1)].price == 10
  {
    var ms := [Move(1, 7, 1, 1, Some(10)), Move(2, 7, 1, 1, None), Move(3, 7, 1, 1, Some(7))];
    LineKeys(ms, Key(7, 1));
    assert KeysOf(ms)[0] == Key(7, 1);
    PriceIsMax(ms, Key(7, 1));
    var price := Accumulate(ms).lines[Key(7, 1)].price;
    assert SalePrice(ms[0]) == 10 && SalePrice(ms[1]) == 0 && SalePrice(ms[2]) == 7;
    assert 10 <= price;
  }

  /** Categories met in the order B, A, B give the sections B, A. */
  lemma CategoriesFirstSeen(ms: seq<MoveLine>)
    requires ms == [Move(1, 1, 2, 1, None), Move(2, 2, 1, 1, None), Move(3, 3, 2, 1, None)]
    ensures Accumulate(ms).sections == [2, 1]
  {
    AccumulateFirstSeen(ms);
    CategoriesDeduplicated(ms);
  }

  /** The category list B, A, B de-duplicates to B, A. */
  lemma CategoriesDeduplicated(ms: seq<MoveLine>)
    requires ms == [Move(1, 1, 2, 1, None), Move(2, 2, 1, 1, None), Move(3, 3, 2, 1, None)]
    ensures Dedup(CategsOf(ms)) == [2, 1]
  {
    assert CategsOf(ms) == [2, 1, 2];
    assert [2, 1, 2][..2] == [2, 1] && [2, 1][..1] == [2] && [2][..0] == [];
    assert Dedup([2]) == [2];
    assert Dedup([2, 1]) == [2, 1];
  }

  /** The three products are distinct, so each has one category. */
  lemma DistinctProducts(ms: seq<MoveLine>)
    requires ms == [Move(1, 1, 2, 1, None), Move(2, 2, 1, 1, None), Move(3, 3, 2, 1, None)]
    ensures CategoryPerProduct(ms)
  {
  }

  /** Categories met in the order B, A, B give the section headers B then A, not sorted. */
  lemma SectionsInFirstSeenOrder(ms: seq<MoveLine>)
    requires ms == [Move(1, 1, 2, 1, None), Move(2, 2, 1, 1, None), Move(3, 3, 2, 1, None)]
    ensures HeaderSections(RowsOf(Report(ms))) == [2, 1]
  {
    DistinctProducts(ms);
    EveryCategoryHasHeader(ms);
    AccumulateFirstSeen(ms);
    CategoriesFirstSeen(ms);
  }
}
