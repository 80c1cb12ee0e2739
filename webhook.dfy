/** The order webhook (webhook/app.py). A delivery-platform notification is either
    acknowledged at once (a rejected order), refused (an item without a POS id), or
    synchronised back to the platform and then, unless the order was canceled, handed to
    the order normaliser.

    `Decide` is the dispatch rule: the reply and the outside calls it asks for, in order.
    `HandleWebhook` walks the items the way the endpoint does and is proved to reach the
    same decision. `Serve` carries the calls out against the store: the status sync is an
    HTTP call whose outcome is a parameter, and the insert is `Ingestion.IngestOrder`. A
    call that raises ends the request with status 500. */
module Webhook {
  import opened Wrappers
  import opened Relational
  import Ingestion

  // ---------------------------------------------------------------- endpoints

  const ProdHost := "https://api.developers.deliveroo.com"
  const SandboxHost := "https://api-sandbox.developers.deliveroo.com"
  const OrdersPath := "/order/v1/orders"
  const BaseUrlProd := ProdHost + OrdersPath
  const BaseUrlDev := SandboxHost + OrdersPath
  const AuthUrlProd := "https://auth.developers.deliveroo.com/oauth2/token"
  const AuthUrlDev := "https://auth-sandbox.developers.deliveroo.com/oauth2/token"
  const SyncSuffix := "/sync_status"

  function BaseUrl(prod: bool): string
  {
    if prod then BaseUrlProd else BaseUrlDev
  }

  /** `get_api_url`: the order's resource under the environment's base URL. */
  function ApiUrl(orderId: string, prod: bool): (url: string)
    ensures |url| == |BaseUrl(prod)| + 1 + |orderId|
    ensures url[..|BaseUrl(prod)|] == BaseUrl(prod) && url[|BaseUrl(prod)|] == '/'
    ensures url[|BaseUrl(prod)| + 1..] == orderId
  {
    BaseUrl(prod) + "/" + orderId
  }

  /** The URL `sync_status` posts to. */
  function SyncUrl(orderId: string, prod: bool): (url: string)
    ensures |url| >= |SyncSuffix| && url[|url| - |SyncSuffix|..] == SyncSuffix
    ensures url[..|url| - |SyncSuffix|] == ApiUrl(orderId, prod)
  {
    ApiUrl(orderId, prod) + SyncSuffix
  }

  /** `get_auth_url`. */
  function AuthUrl(prod: bool): (url: string)
    ensures url == AuthUrlProd <==> prod
    ensures url == AuthUrlDev <==> !prod
  {
    if prod then AuthUrlProd else AuthUrlDev
  }

  /** The twelfth character tells the environments apart: the production host reads
      "api." where the sandbox host reads "api-". */
  lemma ApiUrlEnvironment(orderId: string, prod: bool)
    ensures ApiUrl(orderId, prod)[11] == if prod then '.' else '-'
  {
    assert BaseUrlProd[11] == '.' && BaseUrlDev[11] == '-';
  }

  /** Two environments or two orders never share an API URL: the URL names both. */
  lemma ApiUrlInjective(a: string, p: bool, b: string, q: bool)
    ensures ApiUrl(a, p) == ApiUrl(b, q) <==> a == b && p == q
  {
    ApiUrlEnvironment(a, p);
    ApiUrlEnvironment(b, q);
  }

  /** The same for the sync URL. */
  lemma SyncUrlInjective(a: string, p: bool, b: string, q: bool)
    ensures SyncUrl(a, p) == SyncUrl(b, q) <==> a == b && p == q
  {
    ApiUrlInjective(a, p, b, q);
  }

  // ---------------------------------------------------------------- notifications

  /** The parts of the posted JSON the endpoint reads: `event`, `body.order`, and
      `body.order.restaurant.name`. */
  datatype Notification = Notification(event: string, order: Ingestion.Order, restaurantName: string)

  const StatusUpdate := "order.status_update"

  /** The JSON of a reply. */
  datatype Body =
    | Message(text: string)
    | Failure(status: string, reason: string, notes: string, occurredAt: string)

  datatype Reply = Reply(body: Body, code: int)

  /** The payload `sync_status` sends. */
  datatype SyncPayload = SyncPayload(status: string, occurredAt: string)

  /** A call the endpoint makes outside itself: the development log line, the status sync,
      and `insert_order_data`. */
  datatype Effect =
    | Logged(notification: Notification)
    | Synced(orderId: Value, payload: SyncPayload, prod: bool)
    | Inserted(partnerName: string, order: Ingestion.Order, isWebhook: bool)

  datatype Handled = Handled(reply: Reply, effects: seq<Effect>)

  predicate Rejected(n: Notification)
  {
    n.order.status == Text("rejected")
  }

  predicate Canceled(n: Notification)
  {
    n.order.status == Text("canceled")
  }

  /** Every item carries a POS id Python counts as true. */
  predicate Identified(items: seq<Ingestion.Item>)
  {
    forall i :: 0 <= i < |items| ==> Ingestion.Truthy(items[i].posItemId)
  }

  predicate Syncs(effects: seq<Effect>)
  {
    exists e :: e in effects && e.Synced?
  }

  predicate Inserts(effects: seq<Effect>)
  {
    exists e :: e in effects && e.Inserted?
  }

  function Refusal(occurredAt: string): Body
  {
    Failure("failed", "pos_item_id_not_found", "id not found", occurredAt)
  }

  /** `handle_webhook(prod)` with the clock reading `occurredAt`, every call returning
      normally: the reply, and the calls made before it. */
  function Decide(n: Notification, prod: bool, occurredAt: string): (h: Handled)
    // a rejected order is acknowledged before anything is checked
    ensures Rejected(n) ==> h.reply == Reply(Message("Order rejected successfully"), 200)
    // an item without a POS id is refused
    ensures !Rejected(n) && !Identified(n.order.items) ==> h.reply == Reply(Refusal(occurredAt), 400)
    // a canceled order is acknowledged, everything else received
    ensures !Rejected(n) && Identified(n.order.items) ==>
              h.reply == Reply(Message(if Canceled(n) then "Order canceled successfully"
                                       else "Order received successfully"), 200)
  {
    var log := if prod then [] else [Logged(n)];
    if Rejected(n) then
      Handled(Reply(Message("Order rejected successfully"), 200), log)
    else if !Identified(n.order.items) then
      Handled(Reply(Refusal(occurredAt), 400), log)
    else
      var sync := if n.event == StatusUpdate then [Synced(n.order.id, SyncPayload("succeeded", occurredAt), prod)] else [];
      if Canceled(n) then
        Handled(Reply(Message("Order canceled successfully"), 200), log + sync)
      else
        Handled(Reply(Message("Order received successfully"), 200),
                log + sync + [Inserted(n.restaurantName, n.order, true)])
  }

  /** Only the development endpoint logs the notification, and it logs first. */
  lemma DecideLogs(n: Notification, prod: bool, occurredAt: string)
    ensures var h := Decide(n, prod, occurredAt);
            && (Logged(n) in h.effects <==> !prod)
            && (!prod ==> h.effects[0] == Logged(n))
  {
    var h := Decide(n, prod, occurredAt);
    var log := if prod then [] else [Logged(n)];
    assert h.effects[..|log|] == log;
    if prod {
      assert forall e :: e in h.effects ==> !e.Logged?;
    }
  }

  /** The status is synchronised, as "succeeded" at the clock's reading, exactly for status
      updates that passed validation. */
  lemma DecideSyncs(n: Notification, prod: bool, occurredAt: string)
    ensures var h := Decide(n, prod, occurredAt);
            && (Syncs(h.effects) <==> !Rejected(n) && Identified(n.order.items) && n.event == StatusUpdate)
            && (forall e :: e in h.effects && e.Synced? ==>
                  e == Synced(n.order.id, SyncPayload("succeeded", occurredAt), prod))
  {
    var h := Decide(n, prod, occurredAt);
    if !Rejected(n) && Identified(n.order.items) && n.event == StatusUpdate {
      var log := if prod then [] else [Logged(n)];
      assert h.effects[|log|] == Synced(n.order.id, SyncPayload("succeeded", occurredAt), prod);
    }
  }

  /** An order that is neither rejected, refused nor canceled is stored by the webhook path
      of the normaliser under the restaurant's name, as the last call; no other is. */
  lemma DecideInserts(n: Notification, prod: bool, occurredAt: string)
    ensures var h := Decide(n, prod, occurredAt);
            && (Inserts(h.effects) <==> !Rejected(n) && Identified(n.order.items) && !Canceled(n))
            && (forall e :: e in h.effects && e.Inserted? ==> e == Inserted(n.restaurantName, n.order, true))
            && (Inserts(h.effects) ==> h.effects[|h.effects| - 1].Inserted?)
  {
    var h := Decide(n, prod, occurredAt);
    if !Rejected(n) && Identified(n.order.items) && !Canceled(n) {
      assert h.effects[|h.effects| - 1] == Inserted(n.restaurantName, n.order, true);
    }
  }

  /** The endpoint as it runs: the rejected check, the loop over the items with its early
      refusal, then the sync and the cancel check. */
  method HandleWebhook(n: Notification, prod: bool, occurredAt: string) returns (h: Handled)
    ensures h == Decide(n, prod, occurredAt)
  {
    var effects: seq<Effect> := [];
    if !prod {
      effects := effects + [Logged(n)];
    }
    if n.order.status == Text("rejected") {
      return Handled(Reply(Message("Order rejected successfully"), 200), effects);
    }
    var items := n.order.items;
    for k := 0 to |items|
      invariant forall i :: 0 <= i < k ==> Ingestion.Truthy(items[i].posItemId)
    {
      if !Ingestion.Truthy(items[k].posItemId) {
        return Handled(Reply(Refusal(occurredAt), 400), effects);
      }
    }
    if n.event == StatusUpdate {
      effects := effects + [Synced(n.order.id, SyncPayload("succeeded", occurredAt), prod)];
    }
    if n.order.status == Text("canceled") {
      return Handled(Reply(Message("Order canceled successfully"), 200), effects);
    }
    effects := effects + [Inserted(n.restaurantName, n.order, true)];
    h := Handled(Reply(Message("Order received successfully"), 200), effects);
  }

  // ---------------------------------------------------------------- carrying the calls out

  /** The store after the request and the status code the client sees. */
  datatype Served = Served(db: Db, code: int)

  /** Makes the calls in order, starting from `code`: a failed sync or a raising insert
      stops the request with 500, and what the insert wrote before raising stays. */
  ghost function Perform(up: Ingestion.Engine, db: Db, effects: seq<Effect>, syncOk: bool, code: int): (s: Served)
    ensures s.code == code || s.code == 500
    decreases |effects|
  {
    if effects == [] then Served(db, code)
    else
      match effects[0]
      case Logged(_) => Perform(up, db, effects[1..], syncOk, code)
      case Synced(_, _, _) =>
        if syncOk then Perform(up, db, effects[1..], syncOk, code) else Served(db, 500)
      case Inserted(name, o, w) =>
        var run := Ingestion.IngestOrder(up, db, name, o, w);
        if run.result.Ok? then Perform(up, run.db, effects[1..], syncOk, code) else Served(run.db, 500)
  }

  /** One request end to end. `syncOk` is whether the platform accepted the status sync. */
  ghost function Serve(up: Ingestion.Engine, db: Db, n: Notification, prod: bool, occurredAt: string,
                       syncOk: bool): (s: Served)
    ensures s.code == Decide(n, prod, occurredAt).reply.code || s.code == 500
  {
    var h := Decide(n, prod, occurredAt);
    Perform(up, db, h.effects, syncOk, h.reply.code)
  }

  /** The development log line changes nothing the request does. */
  lemma PerformLogged(up: Ingestion.Engine, db: Db, n: Notification, prod: bool, rest: seq<Effect>,
                      syncOk: bool, code: int)
    ensures Perform(up, db, (if prod then [] else [Logged(n)]) + rest, syncOk, code)
            == Perform(up, db, rest, syncOk, code)
  {
    if !prod {
      var effects := [Logged(n)] + rest;
      assert effects[0] == Logged(n) && effects[1..] == rest;
      assert Perform(up, db, effects, syncOk, code) == Perform(up, db, rest, syncOk, code);
    } else {
      assert [] + rest == rest;
    }
  }

  /** A sync that fails ends the request; one that succeeds changes nothing. */
  lemma PerformSynced(up: Ingestion.Engine, db: Db, orderId: Value, payload: SyncPayload, prod: bool,
                      rest: seq<Effect>, syncOk: bool, code: int)
    ensures Perform(up, db, [Synced(orderId, payload, prod)] + rest, syncOk, code)
            == if syncOk then Perform(up, db, rest, syncOk, code) else Served(db, 500)
  {
    assert ([Synced(orderId, payload, prod)] + rest)[1..] == rest;
  }

  /** The insert as the last call: the store it leaves, and 500 if it raised. */
  lemma PerformInserted(up: Ingestion.Engine, db: Db, name: string, o: Ingestion.Order, w: bool,
                        syncOk: bool, code: int)
    ensures var run := Ingestion.IngestOrder(up, db, name, o, w);
            Perform(up, db, [Inserted(name, o, w)], syncOk, code)
            == Served(run.db, if run.result.Ok? then code else 500)
  {
    assert [Inserted(name, o, w)][1..] == [];
  }

  /** A rejected, refused or canceled order leaves the store as it was, whatever the sync
      does; a failed sync ends the request with 500. */
  lemma {:induction false} ServeLeavesStore(up: Ingestion.Engine, db: Db, n: Notification, prod: bool,
                                            occurredAt: string, syncOk: bool)
    requires Rejected(n) || !Identified(n.order.items) || Canceled(n)
    ensures var s := Serve(up, db, n, prod, occurredAt, syncOk);
            var h := Decide(n, prod, occurredAt);
            s == Served(db, if !Rejected(n) && Identified(n.order.items) && n.event == StatusUpdate && !syncOk
                            then 500 else h.reply.code)
  {
    var h := Decide(n, prod, occurredAt);
    var log := if prod then [] else [Logged(n)];
    var sync := Synced(n.order.id, SyncPayload("succeeded", occurredAt), prod);
    if !Rejected(n) && Identified(n.order.items) && n.event == StatusUpdate {
      assert h.effects == log + [sync];
      PerformLogged(up, db, n, prod, [sync], syncOk, h.reply.code);
      assert [sync][1..] == [];
    } else {
      assert h.effects == log + [];
      PerformLogged(up, db, n, prod, [], syncOk, h.reply.code);
    }
  }

  /** An order that reaches the insert is stored exactly as the webhook path of the
      normaliser stores it, and the client sees 200 iff that insert returned; a failed
      sync stops the request first. */
  lemma {:induction false} ServeStores(up: Ingestion.Engine, db: Db, n: Notification, prod: bool,
                                       occurredAt: string, syncOk: bool)
    requires !Rejected(n) && Identified(n.order.items) && !Canceled(n)
    ensures var run := Ingestion.IngestOrder(up, db, n.restaurantName, n.order, true);
            var s := Serve(up, db, n, prod, occurredAt, syncOk);
            if n.event == StatusUpdate && !syncOk then s == Served(db, 500)
            else s == Served(run.db, if run.result.Ok? then 200 else 500)
  {
    var log := if prod then [] else [Logged(n)];
    var ins := Inserted(n.restaurantName, n.order, true);
    var h := Decide(n, prod, occurredAt);
    var sync := Synced(n.order.id, SyncPayload("succeeded", occurredAt), prod);
    var rest := if n.event == StatusUpdate then [sync, ins] else [ins];
    assert h.effects == log + rest;
    PerformLogged(up, db, n, prod, rest, syncOk, 200);
    PerformInserted(up, db, n.restaurantName, n.order, true, syncOk, 200);
    if n.event == StatusUpdate {
      PerformSynced(up, db, n.order.id, SyncPayload("succeeded", occurredAt), prod, [ins], syncOk, 200);
    }
  }
}
