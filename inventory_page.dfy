/** The inventory list page (src/pages/Inventory.tsx): the stock-status
    badge and label, the warehouse column, and which list the warehouse
    filter asks for. */
module InventoryPage {
  import opened Common

  /** The stock statuses an inventory record can have
      (src/services/inventoryService.ts). */
  datatype StockStatus = InStock | LowStock | OutOfStock | Discontinued

  function StatusName(s: StockStatus): string {
    match s
    case InStock => "in_stock"
    case LowStock => "low_stock"
    case OutOfStock => "out_of_stock"
    case Discontinued => "discontinued"
  }

  /** The status whose wire name `status` is, if any. */
  function Known(status: string): (r: Option<StockStatus>)
    ensures r.Some? ==> StatusName(r.value) == status
    ensures r.None? ==> forall s :: StatusName(s) != status
  {
    if status == "in_stock" then Some(InStock)
    else if status == "low_stock" then Some(LowStock)
    else if status == "out_of_stock" then Some(OutOfStock)
    else if status == "discontinued" then Some(Discontinued)
    else
      assert forall s :: StatusName(s) in {"in_stock", "low_stock", "out_of_stock", "discontinued"};
      None
  }

  const Gray := "text-gray-600 bg-gray-100"

  /** `getStatusColor`. */
  function StatusColor(status: string): string {
    if status == "in_stock" then "text-green-600 bg-green-100"
    else if status == "low_stock" then "text-yellow-600 bg-yellow-100"
    else if status == "out_of_stock" then "text-red-600 bg-red-100"
    else if status == "discontinued" then Gray
    else Gray
  }

  /** A discontinued record and any record with an unknown status share the
      gray badge; the other three statuses each have a colour of their own. */
  lemma StatusColorGrayIff(status: string)
    ensures StatusColor(status) == Gray <==> Known(status) == None || Known(status) == Some(Discontinued)
  {
  }

  /** The four stock statuses get four different classes. */
  lemma StatusColorsDistinct(a: StockStatus, b: StockStatus)
    requires a != b
    ensures StatusColor(StatusName(a)) != StatusColor(StatusName(b))
  {
  }

  /** `getStatusText`: a fixed label for each known status, any other text
      as it is. */
  function StatusText(status: string): string {
    if status == "in_stock" then "In Stock"
    else if status == "low_stock" then "Low Stock"
    else if status == "out_of_stock" then "Out of Stock"
    else if status == "discontinued" then "Discontinued"
    else status
  }

  /** The label differs from the raw text exactly for the four statuses,
      and the four labels are distinct. */
  lemma StatusTextChangesKnown(status: string)
    ensures StatusText(status) != status <==> Known(status).Some?
  {
  }

  lemma StatusTextInjectiveOnKnown(a: StockStatus, b: StockStatus)
    requires StatusText(StatusName(a)) == StatusText(StatusName(b))
    ensures a == b
  {
  }

  /** The fields of a warehouse the page reads; `_id` may be missing. */
  datatype Warehouse = Warehouse(id: Option<string>, name: string)

  /** `warehouses.find(w => w._id === id)`, as the index of the match. */
  function FindWarehouse(ws: seq<Warehouse>, id: string): (r: Option<nat>)
    ensures r.Some? ==> r.value < |ws| && ws[r.value].id == Some(id)
    ensures r.Some? ==> forall j :: 0 <= j < r.value ==> ws[j].id != Some(id)
    ensures r.None? ==> forall j :: 0 <= j < |ws| ==> ws[j].id != Some(id)
  {
    if ws == [] then None
    else if ws[0].id == Some(id) then Some(0)
    else
      var rest := FindWarehouse(ws[1..], id);
      if rest.Some? then Some(rest.value + 1) else None
  }

  /** `warehouse?.name || item.warehouseId`. */
  function WarehouseCell(ws: seq<Warehouse>, warehouseId: string): string {
    match FindWarehouse(ws, warehouseId)
    case Some(k) => OrText(ws[k].name, warehouseId)
    case None => warehouseId
  }

  /** The cell shows the raw id, or the name of a warehouse carrying that id. */
  lemma CellIsIdOrName(ws: seq<Warehouse>, warehouseId: string)
    ensures var c := WarehouseCell(ws, warehouseId);
            c == warehouseId || exists k :: 0 <= k < |ws| && ws[k].id == Some(warehouseId) && ws[k].name == c
  {
    var r := FindWarehouse(ws, warehouseId);
    if r.Some? && ws[r.value].name != "" {
      assert ws[r.value].name == WarehouseCell(ws, warehouseId);
    }
  }

  /** The first warehouse with the id names the cell, unless its name is
      empty. */
  lemma CellNamesFirstMatch(ws: seq<Warehouse>, k: nat)
    requires k < |ws| && ws[k].id.Some?
    requires forall j :: 0 <= j < k ==> ws[j].id != ws[k].id
    ensures WarehouseCell(ws, ws[k].id.value) == if ws[k].name != "" then ws[k].name else ws[k].id.value
  {
    var r := FindWarehouse(ws, ws[k].id.value);
    assert r.Some?;
  }

  /** An id no warehouse carries is shown as it is. */
  lemma UnknownIdShown(ws: seq<Warehouse>, warehouseId: string)
    requires forall j :: 0 <= j < |ws| ==> ws[j].id != Some(warehouseId)
    ensures WarehouseCell(ws, warehouseId) == warehouseId
  {
  }

  /** The request the page makes for the filter value. */
  datatype InventoryRequest = AllInventory | ForWarehouse(warehouseId: string)

  /** `selectedWarehouse === 'all' ? getInventory() : getInventoryByWarehouse(selectedWarehouse)`. */
  function RequestFor(selected: string): (r: InventoryRequest)
    ensures r == AllInventory <==> selected == "all"
    ensures r.ForWarehouse? ==> r.warehouseId == selected
  {
    if selected == "all" then AllInventory else ForWarehouse(selected)
  }

  /** Every filter value other than 'all' names the warehouse whose list is
      requested, and different values ask for different lists; a warehouse
      whose id is literally 'all' cannot be filtered on. */
  lemma RequestInjective(a: string, b: string)
    requires RequestFor(a) == RequestFor(b)
    ensures a == b
  {
  }
}
