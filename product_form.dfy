/**
 * The product form: stock per location (three default locations, each
 * field set by location id), the profit margin of the two price boxes,
 * and the total stock and estimated value in the summary card.
 */
module ProductForm {
  import opened Common
  import opened JsNumbers

  datatype LocationStock = LocationStock(
    locationId: string,
    locationName: string,
    currentStock: int,
    minStock: int,
    maxStock: int)

  /** The three locations the form starts with, all empty. */
  function DefaultLocations(): (r: seq<LocationStock>)
    ensures |r| == 3 && forall i :: 0 <= i < 3 ==> r[i].currentStock == 0
  {
    [ LocationStock("main", "Main Warehouse", 0, 10, 100),
      LocationStock("retail", "Retail Store", 0, 5, 50),
      LocationStock("backup", "Backup Storage", 0, 0, 25) ]
  }

  // ---------------------------------------------------------------------
  // updateLocationStock
  // ---------------------------------------------------------------------

  /** The numeric fields the stock inputs write (each input passes `parseInt(value) || 0`). */
  datatype StockField = CurrentStock | MinStock | MaxStock

  function SetField(l: LocationStock, field: StockField, value: int): (r: LocationStock)
    ensures r.locationId == l.locationId && r.locationName == l.locationName
    ensures r.currentStock == (if field == CurrentStock then value else l.currentStock)
    ensures r.minStock == (if field == MinStock then value else l.minStock)
    ensures r.maxStock == (if field == MaxStock then value else l.maxStock)
  {
    match field
    case CurrentStock => l.(currentStock := value)
    case MinStock => l.(minStock := value)
    case MaxStock => l.(maxStock := value)
  }

  function SetIf(locationId: string, field: StockField, value: int): LocationStock -> LocationStock {
    (l: LocationStock) => if l.locationId == locationId then SetField(l, field, value) else l
  }

  /** updateLocationStock: the matching locations get the value in that field; the list keeps its length and order. */
  function UpdateLocationStock(ls: seq<LocationStock>, locationId: string, field: StockField, value: int): (r: seq<LocationStock>)
    ensures |r| == |ls|
    ensures forall i :: 0 <= i < |ls| && ls[i].locationId != locationId ==> r[i] == ls[i]
    ensures forall i :: 0 <= i < |ls| && ls[i].locationId == locationId ==> r[i] == SetField(ls[i], field, value)
  {
    Map(ls, SetIf(locationId, field, value))
  }

  // ---------------------------------------------------------------------
  // Totals
  // ---------------------------------------------------------------------

  /** The summary card's total: the sum of currentStock over the locations. */
  function TotalStock(ls: seq<LocationStock>): int {
    if ls == [] then 0 else TotalStock(ls[..|ls| - 1]) + ls[|ls| - 1].currentStock
  }

  /** Estimated value: total stock times the unit price, an unparsable price counting as 0. */
  function EstimatedValue(ls: seq<LocationStock>, unitPrice: string): (r: real)
    ensures ParseFloat(unitPrice).None? || TotalStock(ls) == 0 ==> r == 0.0
    ensures TotalStock(ls) > 0 && ParseFloatOrZero(unitPrice) > 0.0 ==> r > 0.0
  {
    PositiveProduct(TotalStock(ls) as real, ParseFloatOrZero(unitPrice));
    TotalStock(ls) as real * ParseFloatOrZero(unitPrice)
  }

  /** The new form holds no stock, so its estimated value is 0 whatever the price. */
  lemma DefaultsHoldNothing(unitPrice: string)
    ensures TotalStock(DefaultLocations()) == 0
    ensures EstimatedValue(DefaultLocations(), unitPrice) == 0.0
  {
    var ls := DefaultLocations();
    assert ls[..1][..0] == [];
    assert TotalStock(ls[..1]) == 0;
    assert ls[..2][..1] == ls[..1];
    assert TotalStock(ls[..2]) == 0;
    assert ls[..|ls| - 1] == ls[..2];
  }

  lemma {:induction false} TotalStockAbsent(ls: seq<LocationStock>, locationId: string, field: StockField, value: int)
    requires forall i :: 0 <= i < |ls| ==> ls[i].locationId != locationId
    ensures UpdateLocationStock(ls, locationId, field, value) == ls
  {
  }

  /**
   * Setting the stock of one location (ids distinct) moves the total by the
   * change; the minimum and maximum fields do not move it at all.
   */
  lemma {:induction false} UpdateMovesTotal(ls: seq<LocationStock>, i: nat, field: StockField, value: int)
    requires i < |ls|
    requires forall j, k :: 0 <= j < k < |ls| ==> ls[j].locationId != ls[k].locationId
    ensures TotalStock(UpdateLocationStock(ls, ls[i].locationId, field, value))
      == TotalStock(ls) + (if field == CurrentStock then value - ls[i].currentStock else 0)
    decreases |ls|
  {
    var id := ls[i].locationId;
    var r := UpdateLocationStock(ls, id, field, value);
    var n := |ls| - 1;
    assert r[..n] == UpdateLocationStock(ls[..n], id, field, value);
    if i == n {
      TotalStockAbsent(ls[..n], id, field, value);
    } else {
      UpdateMovesTotal(ls[..n], i, field, value);
    }
  }

  // ---------------------------------------------------------------------
  // Profit margin
  // ---------------------------------------------------------------------

  /** The margin of a price over a cost, in percent; 0 for a zero cost. */
  function Margin(cost: real, price: real): (r: real)
    ensures cost == 0.0 ==> r == 0.0
    ensures cost != 0.0 ==> r * cost == (price - cost) * 100.0
  {
    if cost == 0.0 then 0.0 else ((price - cost) / cost) * 100.0
  }

  /** calculateProfitMargin: both boxes read with `parseFloat(value) || 0`. */
  function CalculateProfitMargin(costPrice: string, unitPrice: string): real {
    Margin(ParseFloatOrZero(costPrice), ParseFloatOrZero(unitPrice))
  }

  /** With a positive cost the margin is positive exactly when the price is higher, and negative exactly when it is lower. */
  lemma MarginSign(cost: real, price: real)
    requires cost > 0.0
    ensures Margin(cost, price) > 0.0 <==> price > cost
    ensures Margin(cost, price) < 0.0 <==> price < cost
  {
    var r := Margin(cost, price);
    if r > 0.0 {
      PositiveProduct(r, cost);
    } else if r < 0.0 {
      PositiveProduct(-r, cost);
    }
  }

  lemma PositiveProduct(a: real, b: real)
    ensures a > 0.0 && b > 0.0 ==> a * b > 0.0
  {
  }

  /** The margin text is green exactly when the margin is positive. */
  function MarginColor(margin: real): string {
    if margin > 0.0 then "text-green-600" else "text-red-600"
  }

  /** A non-numeric cost gives a 0 margin, shown red, whatever the price. */
  lemma NoCostNoMargin(costPrice: string, unitPrice: string)
    requires ParseFloat(costPrice).None?
    ensures CalculateProfitMargin(costPrice, unitPrice) == 0.0
    ensures MarginColor(CalculateProfitMargin(costPrice, unitPrice)) == "text-red-600"
  {
  }

  /** With a positive cost the margin is green exactly when the price is above the cost. */
  lemma MarginGreenIff(costPrice: string, unitPrice: string)
    requires ParseFloatOrZero(costPrice) > 0.0
    ensures MarginColor(CalculateProfitMargin(costPrice, unitPrice)) == "text-green-600"
      <==> ParseFloatOrZero(unitPrice) > ParseFloatOrZero(costPrice)
  {
    MarginSign(ParseFloatOrZero(costPrice), ParseFloatOrZero(unitPrice));
  }
}
