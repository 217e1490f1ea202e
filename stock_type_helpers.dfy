/** The client's label for a product's stock type (`getStockTypeLabel`). */
module StockTypeHelpers {

  /** 0 counts units, 1 is weight in kilograms, 2 is volume in litres; every other value falls back to units. */
  function GetStockTypeLabel(stockType: int): (text: string)
    ensures stockType == 1 <==> text == "kilogramos"
    ensures stockType == 2 <==> text == "litros"
    ensures stockType != 1 && stockType != 2 <==> text == "unidades"
    ensures stockType == 0 ==> text == "unidades"
  {
    match stockType
    case 0 => "unidades"
    case 1 => "kilogramos"
    case 2 => "litros"
    case _ => "unidades"
  }
}
