/** The device-command Lambda: a device container reports in, and the handler
    marks its catalog item RUNNING with the container's IP address. Its response
    helpers are identical to the device-factory Lambda's and are modelled once,
    in LambdaResponses. */
module DeviceCommand {
  import opened Json
  import opened DeviceCatalog

  /** The catalog after the handler, and what it returned (None: it raised). */
  datatype CommandResult = CommandResult(catalog: Catalog, returned: Option<string>)

  /** `lambda_handler(event, context)`: one `update_item` on the key
      `event.get("device")` writing Status RUNNING and `ip` from
      `event.get("ip")`; a request the table rejects (`updateRaises`) leaves
      the catalog as it was and the handler raises. */
  function LambdaHandler(event: Doc, catalog: Catalog, updateRaises: bool): (r: CommandResult)
    ensures updateRaises <==> r.returned.None?
    ensures updateRaises ==> r.catalog == catalog
    ensures !updateRaises ==> r.returned == Some("OK")
    ensures !updateRaises ==>
      var id := Get(event, "device", JNull);
      && id in r.catalog && "Status" in r.catalog[id] && "ip" in r.catalog[id]
      && r.catalog[id]["Status"] == JStr(Running)
      && r.catalog[id]["ip"] == Get(event, "ip", JNull)
      && r.catalog.Keys == catalog.Keys + {id}
      && forall k :: k in catalog && k != id ==> r.catalog[k] == catalog[k]
  {
    if updateRaises then CommandResult(catalog, None)
    else
      var id := Get(event, "device", JNull);
      var attrs := map["Status" := JStr(Running), "ip" := Get(event, "ip", JNull)];
      CommandResult(SetAttributes(catalog, id, attrs), Some("OK"))
  }

  /** The handler keeps every catalog item under its own key, and the item it
      touches keeps the attributes the factory stored (endpoint, certificate,
      task and cluster ARNs) apart from Status and ip. */
  lemma {:induction false} HandlerKeepsItems(event: Doc, catalog: Catalog)
    requires WellKeyed(catalog)
    ensures var r := LambdaHandler(event, catalog, false);
      var id := Get(event, "device", JNull);
      && WellKeyed(r.catalog)
      && (id in catalog ==>
            forall a :: a in catalog[id] && a != "Status" && a != "ip" ==>
              a in r.catalog[id] && r.catalog[id][a] == catalog[id][a])
  {
    var id := Get(event, "device", JNull);
    var attrs := map["Status" := JStr(Running), "ip" := Get(event, "ip", JNull)];
    WritesKeepKeys(catalog, map["id" := id], id, attrs);
  }
}
