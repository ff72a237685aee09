/**
 The shared stock: the nine managed items, the stored document with its three name tables, and
 the repository whose calls are the atomic stock operations of the whole simulator.
 */
module Stock {
  import opened Collections

  datatype Item =
    | CleaningItem | Soap | BathroomAmenities | AromaCandle | WaterBottle
    | WineBottle | TeaBags | Sweets | Chips

  /** Quantities on the shelf. A missing entry reads as zero, as a missing document field does. */
  type Shelf = map<Item, int>

  function Qty(shelf: Shelf, i: Item): int {
    if i in shelf then shelf[i] else 0
  }

  const REPLENISHMENT: int := 50
  const MINIMUM: int := 10

  /** What `ConsumeItem` does to a shelf that holds enough. */
  function Take(shelf: Shelf, i: Item, q: int): Shelf {
    shelf[i := Qty(shelf, i) - q]
  }

  /** What `RestockItem` does to the shelf with the fixed replenishment quantity. */
  function Replenish(shelf: Shelf, i: Item): Shelf {
    shelf[i := Qty(shelf, i) + REPLENISHMENT]
  }

  const MANAGED: seq<Item> :=
    [CleaningItem, Soap, BathroomAmenities, AromaCandle, WaterBottle, WineBottle, TeaBags, Sweets, Chips]

  /** The item names used by the callers. */
  function NameOf(i: Item): string {
    match i
    case CleaningItem => "cleaningItem"
    case Soap => "soap"
    case BathroomAmenities => "bathroomAmenities"
    case AromaCandle => "aromaCandle"
    case WaterBottle => "waterBottle"
    case WineBottle => "wineBottle"
    case TeaBags => "teaBags"
    case Sweets => "sweets"
    case Chips => "chips"
  }

  datatype StockItem = StockItem(name: string, quantity: int)

  /** The decoded document. */
  datatype Record = Record(
    cleaningItems: StockItem, soap: StockItem, bathroomAmenities: StockItem, aromaCandles: StockItem,
    waterBottle: StockItem, wineBottle: StockItem, teaBags: StockItem, sweets: StockItem, chips: StockItem)
  {
    /** The view the stockers work from, keyed by item name. */
    function AsMap(): map<string, StockItem> {
      map[
        "cleaningItem" := cleaningItems,
        "soap" := soap,
        "bathroomAmenities" := bathroomAmenities,
        "aromaCandle" := aromaCandles,
        "waterBottle" := waterBottle,
        "wineBottle" := wineBottle,
        "teaBags" := teaBags,
        "sweets" := sweets,
        "chips" := chips
      ]
    }
  }

  /** A stored document: one sub-document for each stored field name. */
  type Document = map<string, StockItem>

  function Field(doc: Document, field: string): StockItem {
    if field in doc then doc[field] else StockItem("", 0)
  }

  /** Decoding by the stored field names. */
  function Decode(doc: Document): Record {
    Record(
      Field(doc, "cleaning_items"), Field(doc, "soap"), Field(doc, "bathroom_amenities"),
      Field(doc, "aroma_candles"), Field(doc, "water_bottle"), Field(doc, "wine_bottle"),
      Field(doc, "tea_bags"), Field(doc, "sweets"), Field(doc, "chips"))
  }

  /** The stored field whose quantity an item name updates. */
  function QuantityField(itemName: string): Option<string> {
    match itemName
    case "cleaningItem" => Some("cleaning_items")
    case "soap" => Some("soap")
    case "bathroomAmenities" => Some("bathroom_amenities")
    case "aromaCandle" => Some("aroma_candles")
    case "waterBottle" => Some("water_bottle")
    case "wineBottle" => Some("wine_bottle")
    case "teaBags" => Some("tea_bags")
    case "sweets" => Some("sweets")
    case "chips" => Some("chips")
    case _ => None
  }

  /** The update both repository operations send: add `delta` to one stored quantity. */
  function Increment(doc: Document, field: string, delta: int): Document {
    var entry := Field(doc, field);
    doc[field := entry.(quantity := entry.quantity + delta)]
  }

  function View(doc: Document): map<string, StockItem> {
    Decode(doc).AsMap()
  }

  /** A name has a stored field exactly when the decoded view has it as a key. */
  lemma FieldsCoverView(doc: Document, name: string)
    ensures QuantityField(name).Some? <==> name in View(doc)
  {
  }

  lemma FieldsGiveView(doc: Document, name: string)
    requires QuantityField(name).Some? && name in View(doc)
    ensures View(doc)[name] == Field(doc, QuantityField(name).value)
  {
    hide Field;
  }

  lemma FieldsDiffer(m: string, n: string)
    requires QuantityField(m).Some? && QuantityField(m) == QuantityField(n)
    ensures m == n
  {
  }

  /** One key of the view after an update of one stored quantity. */
  lemma IncrementAt(doc: Document, name: string, delta: int, n: string)
    requires QuantityField(name).Some?
    ensures name in View(doc)
    ensures var doc' := Increment(doc, QuantityField(name).value, delta);
      && (n in View(doc') <==> n in View(doc))
      && (n in View(doc) && n != name ==> View(doc')[n] == View(doc)[n])
      && (n == name ==> View(doc')[n] == View(doc)[n].(quantity := View(doc)[n].quantity + delta))
  {
    hide View;
    hide QuantityField;
    var doc' := Increment(doc, QuantityField(name).value, delta);
    FieldsCoverView(doc, name);
    FieldsCoverView(doc, n);
    FieldsCoverView(doc', n);
    if n in View(doc) {
      FieldsGiveView(doc, n);
      FieldsGiveView(doc', n);
      if QuantityField(n) == QuantityField(name) {
        FieldsDiffer(n, name);
      }
    }
  }

  /** The three name tables agree: an update through one, read through the others, changes one key. */
  lemma IncrementThroughView(doc: Document, name: string, delta: int)
    requires QuantityField(name).Some?
    ensures name in View(doc)
    ensures View(Increment(doc, QuantityField(name).value, delta))
         == View(doc)[name := View(doc)[name].(quantity := View(doc)[name].quantity + delta)]
  {
    hide View;
    hide QuantityField;
    forall n: string {
      IncrementAt(doc, name, delta, n);
    }
  }

  /** Each item has a name of its own, and that name is stored. */
  lemma NamesDiffer(i: Item, j: Item)
    ensures NameOf(i) == NameOf(j) ==> i == j
    ensures QuantityField(NameOf(i)).Some?
    ensures i in MANAGED
  {
  }

  /** The names of the managed items, in the order of the list. */
  lemma NamesAre()
    ensures seq(|MANAGED|, k requires 0 <= k < |MANAGED| => NameOf(MANAGED[k])) ==
      ["cleaningItem", "soap", "bathroomAmenities", "aromaCandle", "waterBottle", "wineBottle", "teaBags",
       "sweets", "chips"]
  {
  }

  /** Which stored field is behind which key of the view. */
  lemma FieldsAre(doc: Document)
    ensures View(doc) == map[
      "cleaningItem" := Field(doc, "cleaning_items"), "soap" := Field(doc, "soap"),
      "bathroomAmenities" := Field(doc, "bathroom_amenities"), "aromaCandle" := Field(doc, "aroma_candles"),
      "waterBottle" := Field(doc, "water_bottle"), "wineBottle" := Field(doc, "wine_bottle"),
      "teaBags" := Field(doc, "tea_bags"), "sweets" := Field(doc, "sweets"), "chips" := Field(doc, "chips")]
  {
  }

  ghost predicate Known(name: string) {
    exists i: Item :: NameOf(i) == name
  }

  /** The names with a stored field are exactly the names of the managed items. */
  lemma KnownNames(name: string)
    ensures Known(name) <==> QuantityField(name).Some?
  {
    match name {
      case "cleaningItem" => assert NameOf(CleaningItem) == name;
      case "soap" => assert NameOf(Soap) == name;
      case "bathroomAmenities" => assert NameOf(BathroomAmenities) == name;
      case "aromaCandle" => assert NameOf(AromaCandle) == name;
      case "waterBottle" => assert NameOf(WaterBottle) == name;
      case "wineBottle" => assert NameOf(WineBottle) == name;
      case "teaBags" => assert NameOf(TeaBags) == name;
      case "sweets" => assert NameOf(Sweets) == name;
      case "chips" => assert NameOf(Chips) == name;
      case _ =>
        forall i: Item ensures NameOf(i) != name {
          NamesDiffer(i, i);
        }
    }
  }

  /** The shelf that a view by names stands for. */
  function ShelfOf(view: map<string, StockItem>): Shelf {
    map i: Item | i in MANAGED && NameOf(i) in view :: view[NameOf(i)].quantity
  }

  /** Changing the quantity under one name changes that item on the shelf and no other. */
  lemma ShelfFollows(view: map<string, StockItem>, i: Item, entry: StockItem)
    ensures ShelfOf(view[NameOf(i) := entry]) == ShelfOf(view)[i := entry.quantity]
  {
    hide NameOf;
    forall j: Item
      ensures j in MANAGED
      ensures NameOf(j) == NameOf(i) ==> j == i
    {
      NamesDiffer(j, i);
    }
  }
}
