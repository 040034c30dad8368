/** The stock classifier of the inventory dashboard's product table. */
module InventoryDashboard {

  datatype StockLevel = OutOfStock | LowStock | InStock

  datatype StockStatus = StockStatus(status: string, color: string, bg: string)

  /** The status text and the badge colours of each level. */
  function Badge(level: StockLevel): StockStatus {
    match level
    case OutOfStock => StockStatus("out-of-stock", "text-red-600", "bg-red-100")
    case LowStock => StockStatus("low-stock", "text-amber-600", "bg-amber-100")
    case InStock => StockStatus("in-stock", "text-green-600", "bg-green-100")
  }

  /** getStockStatus: nothing on hand first, then at or below the minimum, else in stock. */
  function GetStockStatus(current: int, minimum: int): (r: StockStatus)
    ensures current == 0 ==> r == Badge(OutOfStock)
    ensures current != 0 && current <= minimum ==> r == Badge(LowStock)
    ensures current != 0 && current > minimum ==> r == Badge(InStock)
  {
    if current == 0 then StockStatus("out-of-stock", "text-red-600", "bg-red-100")
    else if current <= minimum then StockStatus("low-stock", "text-amber-600", "bg-amber-100")
    else StockStatus("in-stock", "text-green-600", "bg-green-100")
  }

  /** Exactly one level applies: the status is always one of the three badges, each with its colour pair. */
  lemma ExactlyOneStatus(current: int, minimum: int)
    ensures var r := GetStockStatus(current, minimum);
      (r == Badge(OutOfStock)) != (r == Badge(LowStock) || r == Badge(InStock))
    ensures var r := GetStockStatus(current, minimum);
      r.status == "out-of-stock" || r.status == "low-stock" || r.status == "in-stock"
  {
  }

  /** An empty shelf is out of stock even when the minimum is negative or zero. */
  lemma EmptyBeatsMinimum(minimum: int)
    ensures GetStockStatus(0, minimum).status == "out-of-stock"
  {
  }

  /** Raising the stock above the minimum, from any positive low level, marks it in stock. */
  lemma RestockMarksInStock(low: int, high: int, minimum: int)
    requires 0 < low <= minimum < high
    ensures GetStockStatus(low, minimum).status == "low-stock"
    ensures GetStockStatus(high, minimum).status == "in-stock"
  {
  }
}
