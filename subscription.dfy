/** The Microsoft Graph subscription helpers: the lifetime table behind
    the expiration date, the local metadata store (a JSON file holding one
    dictionary per subscription id) and what creating, renewing, re-pointing
    and deleting a subscription does to it. The HTTP exchange is an input
    (the id Graph returns, or the failure it reports); the clock is an input
    `now`, in minutes, and an expiration is kept as a minute count rather
    than its ISO 8601 text. */
module Subscription {
  import opened Wrappers
  import opened Driver

  /** A value in a stored subscription dictionary. */
  datatype Field = Str(s: string) | Stamp(minutes: int) | NoneValue

  /** One subscription's metadata, and the whole store keyed by id. */
  type Meta = map<string, Field>
  type Store = map<string, Meta>

  /** The requests sent to Graph. */
  datatype Request = Post(url: string, body: Meta) | Patch(url: string, body: Meta) | Delete(url: string)

  const SubscriptionsUrl: string := "https://graph.microsoft.com/v1.0/subscriptions"

  function SubscriptionUrl(id: string): string
  {
    SubscriptionsUrl + "/" + id
  }

  /** Subscription lifetimes in minutes, by resource type. */
  const LifetimeTable: map<string, nat> :=
    map["mail" := 10069, "calendar" := 10070, "contacts" := 10070, "onedrive" := 42300,
        "sharepoint" := 42300, "directory" := 41760, "teams" := 4320, "presence" := 60,
        "print" := 4230, "todo" := 4230, "security" := 43200, "copilot" := 4320,
        "default" := 1440]

  /** `lifetime_table.get(resource_type, lifetime_table.get("default"))`;
      a value that is not a string is never a key of the table. */
  function Lifetime(resourceType: Field): (minutes: nat)
    ensures resourceType.Str? && resourceType.s in LifetimeTable ==> minutes == LifetimeTable[resourceType.s]
    ensures !(resourceType.Str? && resourceType.s in LifetimeTable) ==> minutes == LifetimeTable["default"]
  {
    if resourceType.Str? && resourceType.s in LifetimeTable then LifetimeTable[resourceType.s]
    else LifetimeTable["default"]
  }

  /** `_calculate_expiration_datetime`: now plus the lifetime. */
  function Expiration(now: int, resourceType: Field): (e: Field)
    ensures e.Stamp? && now + 60 <= e.minutes <= now + 43200
  {
    LifetimeBounds(resourceType);
    Stamp(now + Lifetime(resourceType))
  }

  /** Every resource type lives between one hour (presence) and thirty
      days (security alerts); an unknown type gets the one-day fallback. */
  lemma LifetimeBounds(resourceType: Field)
    ensures 60 <= Lifetime(resourceType) <= 43200
    ensures Lifetime(Str("presence")) == 60 && Lifetime(Str("security")) == 43200
    ensures resourceType.Str? && resourceType.s !in LifetimeTable ==> Lifetime(resourceType) == 1440
  {
    if resourceType.Str? && resourceType.s in LifetimeTable {
      var k := resourceType.s;
      assert k in {"mail", "calendar", "contacts", "onedrive", "sharepoint", "directory", "teams",
                   "presence", "print", "todo", "security", "copilot", "default"};
    }
  }

  /** Python truthiness of a stored dictionary. */
  predicate Filled(m: Meta)
  {
    |m| > 0
  }

  /** `get_subscription_metadata`: the stored entry, or {} when the id is
      absent or its entry is falsy. */
  function Lookup(s: Store, id: string): (m: Meta)
    ensures Filled(m) <==> id in s && Filled(s[id])
    ensures Filled(m) ==> m == s[id]
    ensures !Filled(m) ==> m == map[]
  {
    if id in s && Filled(s[id]) then s[id] else map[]
  }

  /** The store `_remove_subscription_from_file` leaves: the id is popped,
      but the file is written back only when the popped entry was truthy. */
  function Removed(s: Store, id: string): Store
  {
    if id in s && Filled(s[id]) then s - {id} else s
  }

  /** After a removal `get_subscription_metadata` reports nothing for the
      id, whether or not the file was written back, and reports every
      other id as before. */
  lemma RemovedLooksAbsent(s: Store, id: string)
    ensures Lookup(Removed(s, id), id) == map[]
    ensures forall other :: other != id ==> Lookup(Removed(s, id), other) == Lookup(s, other)
    ensures Removed(s, id).Keys <= s.Keys
  {
  }

  /** `get_subscription_differences`: the ids Graph knows that the store
      does not, and the stored ids Graph does not know. A failed listing
      is None, which the set comprehension cannot iterate. */
  function Differences(s: Store, remote: Option<seq<string>>): (r: Result<(set<string>, set<string>), Exn>)
    ensures r.Err? <==> remote.None?
    ensures r.Err? ==> r.error == OtherError("TypeError")
  {
    if remote.None? then Err(OtherError("TypeError"))
    else
      var graph := set i | 0 <= i < |remote.value| :: remote.value[i];
      Ok((graph - s.Keys, s.Keys - graph))
  }

  /** The two lists are disjoint; an id is Graph-only exactly when Graph
      lists it and the store lacks it, file-only exactly when the store
      holds it and Graph does not list it, and every id known to one side
      but not both is in one of them. */
  lemma DifferencesSpec(s: Store, remote: seq<string>)
    ensures var r := Differences(s, Some(remote));
            r.Ok? && r.value.0 !! r.value.1 &&
            (forall id :: id in r.value.0 <==> id in remote && id !in s) &&
            (forall id :: id in r.value.1 <==> id in s && id !in remote)
  {
    var graph := set i | 0 <= i < |remote| :: remote[i];
    assert forall id :: id in graph <==> id in remote by {
      forall id | id in remote
        ensures id in graph
      {
        var i :| 0 <= i < |remote| && remote[i] == id;
      }
    }
  }

  /** The request body of `create_subscription`. */
  function CreatePayload(now: int, notificationUrl: string, resourceType: string, resource: string,
                         changeType: string, clientState: string): Meta
  {
    map["changeType" := Str(changeType), "clientState" := Str(clientState), "resource" := Str(resource),
        "notificationUrl" := Str(notificationUrl), "expirationDateTime" := Expiration(now, Str(resourceType))]
  }

  /** The metadata `create_subscription` stores. */
  function CreatedRecord(now: int, notificationUrl: string, resourceType: string, resource: string,
                         changeType: string, clientState: string): Meta
  {
    map["resource_type" := Str(resourceType), "change_type" := Str(changeType),
        "notification_url" := Str(notificationUrl), "resource" := Str(resource),
        "expiration_datetime" := Expiration(now, Str(resourceType)), "clientState" := Str(clientState)]
  }

  /** The record a renewal stores: only the expiration changes, recomputed
      from the stored resource type ("default" when none is stored). */
  function Renewed(sub: Meta, now: int): Meta
  {
    sub["expiration_datetime" := Expiration(now, if "resource_type" in sub then sub["resource_type"] else Str("default"))]
  }

  /** The record a notification URL change stores. */
  function Repointed(sub: Meta, newUrl: string): Meta
  {
    sub["notification_url" := Str(newUrl)]
  }

  /** The stored record repeats the payload sent to Graph under its own
      key names, and `get_subscription_metadata` returns it at once. */
  lemma CreatedRecordSpec(s: Store, id: string, now: int, notificationUrl: string, resourceType: string,
                          resource: string, changeType: string, clientState: string)
    ensures var p := CreatePayload(now, notificationUrl, resourceType, resource, changeType, clientState);
            var m := CreatedRecord(now, notificationUrl, resourceType, resource, changeType, clientState);
            m["notification_url"] == p["notificationUrl"] && m["change_type"] == p["changeType"] &&
            m["resource"] == p["resource"] && m["clientState"] == p["clientState"] &&
            m["expiration_datetime"] == p["expirationDateTime"] &&
            Lookup(s[id := m], id) == m
  {
    var m := CreatedRecord(now, notificationUrl, resourceType, resource, changeType, clientState);
    assert "resource" in m;
  }

  /** Renewing a created subscription gives it the lifetime of the
      resource type it was created with, counted from the renewal. */
  lemma RenewalKeepsLifetime(now: int, later: int, notificationUrl: string, resourceType: string,
                             resource: string, changeType: string, clientState: string)
    ensures var m := CreatedRecord(now, notificationUrl, resourceType, resource, changeType, clientState);
            Renewed(m, later)["expiration_datetime"].minutes - later ==
            m["expiration_datetime"].minutes - now
  {
  }

  /** A renewal changes the expiration and nothing else; a notification
      URL change changes the URL and nothing else. */
  lemma OnlyOneFieldChanges(sub: Meta, now: int, newUrl: string)
    ensures var r := Renewed(sub, now);
            r.Keys == sub.Keys + {"expiration_datetime"} &&
            forall k :: k in sub && k != "expiration_datetime" ==> r[k] == sub[k]
    ensures var r := Repointed(sub, newUrl);
            r.Keys == sub.Keys + {"notification_url"} && r["notification_url"] == Str(newUrl) &&
            forall k :: k in sub && k != "notification_url" ==> r[k] == sub[k]
  {
  }

  /** The metadata file. */
  class MetadataFile {
    var subscriptions: Store

    constructor(initial: Store)
      ensures subscriptions == initial
    {
      subscriptions := initial;
    }

    /** `_add_or_update_subscription_metadata` */
    method AddOrUpdate(id: string, metadata: Meta)
      modifies this
      ensures subscriptions == old(subscriptions)[id := metadata]
    {
      var loaded := subscriptions;
      loaded := loaded[id := metadata];
      subscriptions := loaded;
    }

    /** `_remove_subscription_from_file` */
    method Remove(id: string)
      modifies this
      ensures subscriptions == Removed(old(subscriptions), id)
    {
      var loaded := subscriptions;
      var popped := if id in loaded then loaded[id] else map[];
      loaded := loaded - {id};
      if Filled(popped) {
        subscriptions := loaded;
      }
    }
  }

  /** `create_subscription`: the metadata is stored under the id Graph
      returns, and only when the request succeeded. */
  method CreateSubscription(file: MetadataFile, now: int, notificationUrl: string, resourceType: string,
                            resource: string, changeType: string, clientState: string,
                            reply: Result<string, string>)
    returns (request: Request)
    modifies file
    ensures request == Post(SubscriptionsUrl, CreatePayload(now, notificationUrl, resourceType, resource,
                                                             changeType, clientState))
    ensures reply.Ok? ==>
              file.subscriptions == old(file.subscriptions)[reply.value :=
                CreatedRecord(now, notificationUrl, resourceType, resource, changeType, clientState)]
    ensures reply.Err? ==> file.subscriptions == old(file.subscriptions)
  {
    var expiration := Expiration(now, Str(resourceType));
    request := Post(SubscriptionsUrl, map["changeType" := Str(changeType), "clientState" := Str(clientState),
                                          "resource" := Str(resource), "notificationUrl" := Str(notificationUrl),
                                          "expirationDateTime" := expiration]);
    if reply.Ok? {
      file.AddOrUpdate(reply.value, map["resource_type" := Str(resourceType), "change_type" := Str(changeType),
                                        "notification_url" := Str(notificationUrl), "resource" := Str(resource),
                                        "expiration_datetime" := expiration, "clientState" := Str(clientState)]);
    }
  }

  /** `update_subscription_expiration`: an unknown id sends nothing and
      changes nothing; otherwise the new expiration is sent, and stored
      only when the request succeeded. `failure` is the request error. */
  method UpdateSubscriptionExpiration(file: MetadataFile, now: int, id: string, failure: Option<string>)
    returns (requests: seq<Request>)
    modifies file
    ensures var sub := Lookup(old(file.subscriptions), id);
            !Filled(sub) ==> requests == [] && file.subscriptions == old(file.subscriptions)
    ensures var sub := Lookup(old(file.subscriptions), id);
            Filled(sub) ==>
              requests == [Patch(SubscriptionUrl(id), map["expirationDateTime" := Renewed(sub, now)["expiration_datetime"]])] &&
              file.subscriptions == (if failure.None? then old(file.subscriptions)[id := Renewed(sub, now)]
                                     else old(file.subscriptions))
  {
    var sub := Lookup(file.subscriptions, id);
    if !Filled(sub) {
      return [];
    }
    var expiration := Expiration(now, if "resource_type" in sub then sub["resource_type"] else Str("default"));
    requests := [Patch(SubscriptionUrl(id), map["expirationDateTime" := expiration])];
    if failure.None? {
      sub := sub["expiration_datetime" := expiration];
      file.AddOrUpdate(id, sub);
    }
  }

  /** `update_notification_url`: the same shape, for the notification URL. */
  method UpdateNotificationUrl(file: MetadataFile, id: string, newUrl: string, failure: Option<string>)
    returns (requests: seq<Request>)
    modifies file
    ensures var sub := Lookup(old(file.subscriptions), id);
            !Filled(sub) ==> requests == [] && file.subscriptions == old(file.subscriptions)
    ensures var sub := Lookup(old(file.subscriptions), id);
            Filled(sub) ==>
              requests == [Patch(SubscriptionUrl(id), map["notificationUrl" := Str(newUrl)])] &&
              file.subscriptions == (if failure.None? then old(file.subscriptions)[id := Repointed(sub, newUrl)]
                                     else old(file.subscriptions))
  {
    var sub := Lookup(file.subscriptions, id);
    var body := map["notificationUrl" := Str(newUrl)];
    if !Filled(sub) {
      return [];
    }
    requests := [Patch(SubscriptionUrl(id), body)];
    if failure.None? {
      sub := sub["notification_url" := Str(newUrl)];
      file.AddOrUpdate(id, sub);
    }
  }

  /** `delete_subscription`: the stored entry goes only when Graph
      accepted the deletion. */
  method DeleteSubscription(file: MetadataFile, id: string, failure: Option<string>) returns (request: Request)
    modifies file
    ensures request == Delete(SubscriptionUrl(id))
    ensures file.subscriptions == if failure.None? then Removed(old(file.subscriptions), id) else old(file.subscriptions)
  {
    request := Delete(SubscriptionUrl(id));
    if failure.None? {
      file.Remove(id);
    }
  }
}
