/**
 The stock repository. Its calls work on a stored document by stored field names; callers see a
 map keyed by item name. The contracts say that the calls are operations on that map.
 */
module StockRepo {
  import opened Collections
  import opened Stock
  import Domain

  datatype Error =
    | Invalid
    | NoStock
    | Insufficient(itemName: string, quantity: int)
    | NotUpdated(itemName: string)
    | Unexpected

  datatype Reply = Fine | Failed(error: Error)

  type StockView = map<string, StockItem>

  function ViewOf(stored: Option<Document>): Option<StockView> {
    match stored case None => None case Some(doc) => Some(View(doc))
  }

  /** The map with `delta` added to one quantity. */
  function Changed(view: StockView, name: string, delta: int): StockView
    requires name in view
  {
    view[name := view[name].(quantity := view[name].quantity + delta)]
  }

  /** An operation on the map, for a caller that asks for `quantity` of `name`: what is left and what is answered. */
  datatype Effect = Effect(view: Option<StockView>, reply: Reply)

  ghost function Refusal(view: Option<StockView>, name: string, quantity: int, fault: bool): Option<Error> {
    if Domain.Blank(name) || quantity <= 0 then Some(Invalid)
    else if !Known(name) then Some(NotUpdated(name))
    else if fault then Some(Unexpected)
    else if view.None? then Some(NoStock)
    else None
  }

  predicate Covers(view: StockView, name: string, quantity: int) {
    name in view && quantity <= view[name].quantity
  }

  /** `probe`: does looking for the document, after an update matched nothing, fail as well? */
  ghost function Consumed(view: Option<StockView>, name: string, quantity: int, fault: bool, probe: bool): Effect {
    var refusal := Refusal(view, name, quantity, fault);
    if refusal == Some(NoStock) then Effect(view, Failed(if probe then Unexpected else NoStock))
    else if refusal.Some? then Effect(view, Failed(refusal.value))
    else if Covers(view.value, name, quantity) then Effect(Some(Changed(view.value, name, -quantity)), Fine)
    else Effect(view, Failed(if probe then Unexpected else Insufficient(name, quantity)))
  }

  ghost function Restocked(view: Option<StockView>, name: string, quantity: int, fault: bool): Effect {
    var refusal := Refusal(view, name, quantity, fault);
    if refusal.Some? then Effect(view, Failed(refusal.value))
    else if name in view.value then Effect(Some(Changed(view.value, name, quantity)), Fine)
    else Effect(view, Failed(NotUpdated(name)))
  }

  /** The nine names, spelled out. */
  predicate Listed(name: string) {
    name in {"cleaningItem", "soap", "bathroomAmenities", "aromaCandle", "waterBottle", "wineBottle", "teaBags",
             "sweets", "chips"}
  }

  lemma ListedIsKnown(name: string)
    ensures Listed(name) <==> Known(name)
    ensures Listed(name) ==> !Domain.Blank(name)
  {
    KnownNames(name);
    hide Known;
    if Listed(name) {
      assert !Domain.IsSpace(name[0]);
    }
  }

  /** The map with `delta` more under one key: no key comes or goes, and no other quantity changes. */
  ghost predicate Shifted(view: StockView, view': StockView, name: string, delta: int) {
    && view'.Keys == view.Keys
    && forall n :: n in view ==>
         view'[n] == StockItem(view[n].name, view[n].quantity + if n == name then delta else 0)
  }

  /** When a consumption succeeds, what it does, and which error it gives otherwise. */
  lemma ConsumeLaw(view: Option<StockView>, name: string, quantity: int, fault: bool, probe: bool)
    ensures var e := Consumed(view, name, quantity, fault, probe);
      && (e.reply.Fine? <==>
            && Listed(name) && 1 <= quantity && !fault && view.Some? && name in view.value
            && quantity <= view.value[name].quantity)
      && (e.reply.Fine? ==> e.view.Some? && Shifted(view.value, e.view.value, name, -quantity))
      && (e.reply.Failed? ==> e.view == view)
      && (e.reply.Failed? ==>
            e.reply.error ==
            if Domain.Blank(name) || quantity <= 0 then Invalid
            else if !Listed(name) then NotUpdated(name)
            else if fault || probe then Unexpected
            else if view.None? then NoStock
            else Insufficient(name, quantity))
  {
    ListedIsKnown(name);
    hide Known;
    hide Listed;
  }

  lemma RestockLaw(view: Option<StockView>, name: string, quantity: int, fault: bool)
    ensures var e := Restocked(view, name, quantity, fault);
      && (e.reply.Fine? <==> Listed(name) && 1 <= quantity && !fault && view.Some? && name in view.value)
      && (e.reply.Fine? ==> e.view.Some? && Shifted(view.value, e.view.value, name, quantity))
      && (e.reply.Failed? ==> e.view == view)
      && (e.reply.Failed? ==>
            e.reply.error ==
            if Domain.Blank(name) || quantity <= 0 then Invalid
            else if !Listed(name) then NotUpdated(name)
            else if fault then Unexpected
            else if view.None? then NoStock
            else NotUpdated(name))
  {
    ListedIsKnown(name);
    hide Known;
    hide Listed;
  }

  class Repo {
    var stored: Option<Document>

    constructor (stored: Option<Document>)
      ensures this.stored == stored
    {
      this.stored := stored;
    }

    method GetStock(fault: bool) returns (reply: Reply, view: StockView)
      ensures reply.Fine? <==> !fault && stored.Some?
      ensures reply.Fine? ==> ViewOf(stored) == Some(view)
      ensures reply.Failed? ==> view == map[] && reply.error == if fault then Unexpected else NoStock
    {
      if fault {
        return Failed(Unexpected), map[];
      }
      if stored.None? {
        return Failed(NoStock), map[];
      }
      return Fine, Decode(stored.value).AsMap();
    }

    method ConsumeItem(itemName: string, quantity: int, fault: bool, probe: bool) returns (reply: Reply)
      modifies this
      ensures Effect(ViewOf(stored), reply) == Consumed(old(ViewOf(stored)), itemName, quantity, fault, probe)
    {
      hide View;
      hide QuantityField;
      KnownNames(itemName);
      hide Known;
      if Domain.Blank(itemName) || quantity <= 0 {
        return Failed(Invalid);
      }
      var field := QuantityField(itemName);
      if field.None? {
        return Failed(NotUpdated(itemName));
      }
      if fault {
        return Failed(Unexpected);
      }
      ghost var before := stored;
      if stored.Some? && field.value in stored.value && stored.value[field.value].quantity >= quantity {
        FieldsCoverView(stored.value, itemName);
        FieldsGiveView(stored.value, itemName);
        IncrementThroughView(stored.value, itemName, -quantity);
        stored := Some(Increment(stored.value, field.value, -quantity));
        return Fine;
      }
      if stored.Some? {
        FieldsCoverView(stored.value, itemName);
        FieldsGiveView(stored.value, itemName);
      }
      if probe {
        return Failed(Unexpected);
      }
      if stored.None? {
        return Failed(NoStock);
      }
      return Failed(Insufficient(itemName, quantity));
    }

    method RestockItem(itemName: string, quantity: int, fault: bool) returns (reply: Reply)
      modifies this
      ensures Effect(ViewOf(stored), reply) == Restocked(old(ViewOf(stored)), itemName, quantity, fault)
    {
      hide View;
      hide QuantityField;
      KnownNames(itemName);
      hide Known;
      if Domain.Blank(itemName) || quantity <= 0 {
        return Failed(Invalid);
      }
      var field := QuantityField(itemName);
      if field.None? {
        return Failed(NotUpdated(itemName));
      }
      if fault {
        return Failed(Unexpected);
      }
      if stored.None? {
        return Failed(NoStock);
      }
      FieldsCoverView(stored.value, itemName);
      IncrementThroughView(stored.value, itemName, quantity);
      stored := Some(Increment(stored.value, field.value, quantity));
      return Fine;
    }
  }
}
