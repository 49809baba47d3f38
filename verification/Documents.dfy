/**
 What a fetched document leads to, said of its raw JSON: which keys count, which of two
 wins, and which shapes are passed over (pub_crawler/collection_handler.py,
 pub_crawler/page_handler.py, pub_crawler/handle_items.py, pub_crawler/actor_handler.py).
 */
module Documents {
  import opened Options
  import opened JsonValues
  import opened Jobs
  import opened GraphTables
  import opened Web

  /** A string names itself, an object what it has as its `id`; nothing else has a name. */
  ghost predicate Names(item: Json, id: string) {
    id != "" && (item == Str(id) || (item.Obj? && Get(item.fields, "id") == Some(Str(id))))
  }

  /** The link under `key` is to `id`. */
  ghost predicate LinksTo(fields: seq<(string, Json)>, key: string, id: string) {
    Get(fields, key).Some? && Names(Get(fields, key).value, id)
  }

  /** The members of a document: `items`, and `orderedItems` only when `items` is missing. */
  ghost predicate HasItems(fields: seq<(string, Json)>, items: Json) {
    Get(fields, "items") == Some(items) || (Get(fields, "items") == None && Get(fields, "orderedItems") == Some(items))
  }

  /** The items walk as `list`: the elements of an array, the characters of a string, the
      keys of an object. */
  ghost predicate WalksAs(items: Json, list: seq<Json>) {
    match items
    case Arr(elements) => list == elements
    case Str(s) => |list| == |s| && forall i :: 0 <= i < |s| ==> list[i] == Str([s[i]])
    case Obj(fields) => |list| == |fields| && forall i :: 0 <= i < |fields| ==> list[i] == Str(fields[i].0)
    case _ => false
  }

  /** `id` is named on the list. */
  ghost predicate Listed(list: seq<Json>, id: string) {
    exists i :: 0 <= i < |list| && Names(list[i], id)
  }

  /** Every name on the list fits its column. */
  ghost predicate ListFits(list: seq<Json>) {
    forall id :: Listed(list, id) ==> |id| <= 256
  }

  lemma {:induction false} ItemIdNames(item: Json)
    ensures forall id :: ItemId(item) == Some(id) <==> Names(item, id)
  {
    hide Get;
  }

  lemma {:induction false} ItemIdsListed(list: seq<Json>)
    ensures forall id :: id in ItemIds(list) <==> Listed(list, id)
  {
    if list != [] {
      ItemIdNames(list[0]);
      ItemIdsListed(list[1..]);
      forall id ensures Listed(list, id) <==> Names(list[0], id) || Listed(list[1..], id) {
        if i :| 0 <= i < |list| && Names(list[i], id) {
          assert i > 0 ==> list[1..][i - 1] == list[i];
        }
        if i :| 0 <= i < |list[1..]| && Names(list[1..][i], id) {
          assert list[i + 1] == list[1..][i];
        }
      }
    }
  }

  lemma {:induction false} MemberIdsAre(items: Json, list: seq<Json>)
    requires WalksAs(items, list)
    ensures MemberIds(items) == if ListFits(list) then Ok(ItemIds(list)) else Raised
    ensures Truthy(items) <==> list != []
  {
    hide Listed;
    assert Iterate(items).value == list;
    ItemIdsListed(list);
    assert MAX_LABEL == 256;
  }

  lemma {:induction false} LinkIs(fields: seq<(string, Json)>, key: string)
    ensures forall id :: LinkOf(fields, key) == Some(id) <==> LinksTo(fields, key, id)
  {
    hide Get;
    if Get(fields, key).Some? {
      ItemIdNames(Get(fields, key).value);
    }
  }

  /** A page with members leads to each of them one hop further, and to the page its
      `next` names. */
  lemma {:induction false} PageLeadsTo(env: Env, p: string, o: string, dir: Direction, d: int, fields: seq<(string, Json)>, items: Json, list: seq<Json>)
    requires env.fetch(p) == Document(fields) && |o| <= 256 && HasItems(fields, items) && WalksAs(items, list)
    requires list != [] && ListFits(list)
    ensures forall k :: k in Successors(env, Page(p, o, dir, d)) <==>
              || (exists id :: Listed(list, id) && k == Actor(id, d + 1))
              || (exists id :: LinksTo(fields, "next", id) && k == Page(id, o, dir, d))
  {
    hide Get, Listed, LinksTo, Truthy, LinkOf;
    MemberIdsAre(items, list);
    ItemIdsListed(list);
    LinkIs(fields, "next");
    assert ItemsOf(fields) == items;
  }

  /** A page without members, or with items that cannot be walked or do not fit, leads
      nowhere, whatever its `next`. */
  lemma {:induction false} PageLeadsNowhere(env: Env, p: string, o: string, dir: Direction, d: int, fields: seq<(string, Json)>)
    requires env.fetch(p) == Document(fields) && !Walkable(fields)
    ensures Successors(env, Page(p, o, dir, d)) == {}
  {
    hide Get, ListFits, WalksAs;
    NotWalkable(fields);
  }

  /** The document has members, and all of them fit. */
  ghost predicate Walkable(fields: seq<(string, Json)>) {
    exists items, list :: HasItems(fields, items) && WalksAs(items, list) && list != [] && ListFits(list)
  }

  lemma {:induction false} NotWalkable(fields: seq<(string, Json)>)
    requires !Walkable(fields)
    ensures !Truthy(ItemsOf(fields)) || MemberIds(ItemsOf(fields)).Raised?
  {
    hide Get, ListFits;
    var items := ItemsOf(fields);
    if HasItems(fields, items) && Iterate(items).Ok? {
      assert WalksAs(items, Iterate(items).value);
      MemberIdsAre(items, Iterate(items).value);
    }
  }

  /** The document says that the collection is empty; to Python `False` is the integer 0. */
  ghost predicate SaysEmpty(fields: seq<(string, Json)>) {
    Get(fields, "totalItems") == Some(Int(0)) || Get(fields, "totalItems") == Some(Bool(false))
  }

  /** Below the depth limit a collection with a `first` leads to the page that names, if
      it names one, and to nothing else. */
  lemma {:induction false} CollectionLeadsToPage(env: Env, c: string, o: string, dir: Direction, d: int, fields: seq<(string, Json)>)
    requires env.fetch(c) == Document(fields) && |o| <= 256 && d < env.maxDepth && !SaysEmpty(fields) && Get(fields, "first").Some?
    ensures forall k :: k in Successors(env, Collection(c, o, dir, d)) <==>
              exists id :: LinksTo(fields, "first", id) && k == Page(id, o, dir, d)
  {
    hide Get, LinksTo, LinkOf;
    LinkIs(fields, "first");
  }

  /** ... and one without leads to its own members, one hop further. */
  lemma {:induction false} CollectionLeadsToMembers(env: Env, c: string, o: string, dir: Direction, d: int, fields: seq<(string, Json)>,
                                        items: Json, list: seq<Json>)
    requires env.fetch(c) == Document(fields) && |o| <= 256 && d < env.maxDepth && !SaysEmpty(fields) && Get(fields, "first") == None
    requires HasItems(fields, items) && WalksAs(items, list) && list != [] && ListFits(list)
    ensures forall k :: k in Successors(env, Collection(c, o, dir, d)) <==> exists id :: Listed(list, id) && k == Actor(id, d + 1)
  {
    hide Get, Listed, Truthy;
    MemberIdsAre(items, list);
    ItemIdsListed(list);
    assert ItemsOf(fields) == items;
  }

  /** On the depth limit, declared empty, or without a first page and members, it leads nowhere. */
  lemma {:induction false} CollectionLeadsNowhere(env: Env, c: string, o: string, dir: Direction, d: int, fields: seq<(string, Json)>)
    requires env.fetch(c) == Document(fields)
    requires env.maxDepth <= d || SaysEmpty(fields) || (Get(fields, "first") == None && !Walkable(fields))
    ensures Successors(env, Collection(c, o, dir, d)) == {}
  {
    hide Get, Walkable;
    if !Walkable(fields) {
      NotWalkable(fields);
    }
  }

  /** An actor leads to its two collections, where its document has strings for them. */
  lemma {:induction false} ActorLeadsTo(env: Env, a: string, d: int, fields: seq<(string, Json)>)
    requires env.fetch(a) == Document(fields) && |a| <= 256
    ensures forall k :: k in Successors(env, Actor(a, d)) <==>
              exists c :: (Get(fields, "followers") == Some(Str(c)) && k == Collection(c, a, Followers, d)) ||
                          (Get(fields, "following") == Some(Str(c)) && k == Collection(c, a, Following, d))
  {
    hide Get;
  }

  /** No document, or a label that does not fit its column: nothing is discovered. */
  lemma {:induction false} NothingRead(env: Env, j: Job)
    requires match j
             case Webfinger(h) => env.actorOf(h) == None || |env.actorOf(h).value| > 256
             case Actor(a, _) => !env.fetch(a).Document? || |a| > 256
             case Collection(u, o, _, _) => !env.fetch(u).Document? || |o| > 256
             case Page(u, o, _, _) => !env.fetch(u).Document? || |o| > 256
    ensures Successors(env, j) == {}
  {
    hide Get, ItemsOf, KnownEmpty, MemberIds;
  }

  /** A webfinger address that resolves leads to its actor, at depth 0. */
  lemma {:induction false} WebfingerLeadsTo(env: Env, h: string, a: string)
    requires env.actorOf(h) == Some(a) && |a| <= 256
    ensures Successors(env, Webfinger(h)) == {Actor(a, 0)}
  {
  }

  // ---- which jobs raise ----

  /** The items count as true but cannot be walked, or name something that does not fit. */
  ghost predicate Unusable(fields: seq<(string, Json)>) {
    exists items :: HasItems(fields, items) && items !in {Null, Bool(false), Int(0), Float(0.0), Str(""), Arr([]), Obj([])} &&
      forall list :: WalksAs(items, list) ==> !ListFits(list)
  }

  lemma {:induction false} UnusableRaises(fields: seq<(string, Json)>)
    ensures Unusable(fields) <==> Truthy(ItemsOf(fields)) && MemberIds(ItemsOf(fields)).Raised?
  {
    hide Get, ListFits, WalksAs;
    var items := ItemsOf(fields);
    FalsyValues(items);
    if Iterate(items).Ok? {
      WalksAsItself(items);
      MemberIdsAre(items, Iterate(items).value);
    } else {
      WalksNowhere(items);
    }
    assert forall x :: HasItems(fields, x) ==> x == items;
    assert HasItems(fields, items) || items == Null;
  }

  lemma {:induction false} WalksAsItself(items: Json)
    requires Iterate(items).Ok?
    ensures forall list :: WalksAs(items, list) <==> list == Iterate(items).value
  {
  }

  lemma {:induction false} WalksNowhere(items: Json)
    requires Iterate(items).Raised?
    ensures forall list :: !WalksAs(items, list)
  {
  }

  /** Left alone, a handler raises exactly when a label does not fit, its address does not
      resolve or its document cannot be had, or it comes to items it cannot use. */
  lemma {:induction false} PlanRaises(env: Env, j: Job)
    ensures Raise in Plan(env, j) <==>
            match j
            case Webfinger(h) => env.actorOf(h) == None || |env.actorOf(h).value| > 256
            case Actor(a, _) => |a| > 256 || env.fetch(a) == Broken
            case Collection(c, o, _, d) =>
              || |o| > 256 || env.fetch(c) == Broken
              || (env.fetch(c).Document? && d < env.maxDepth && !SaysEmpty(env.fetch(c).fields) &&
                  Get(env.fetch(c).fields, "first") == None && Unusable(env.fetch(c).fields))
            case Page(p, o, _, _) =>
              |o| > 256 || env.fetch(p) == Broken || (env.fetch(p).Document? && Unusable(env.fetch(p).fields))
  {
    hide Get, Unusable, MemberIds, ItemsOf, LinkOf, Truthy;
    if j.Collection? && env.fetch(j.collectionId).Document? {
      UnusableRaises(env.fetch(j.collectionId).fields);
    } else if j.Page? && env.fetch(j.pageId).Document? {
      UnusableRaises(env.fetch(j.pageId).fields);
    }
  }
}
