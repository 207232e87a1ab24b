/** The paginated bulk listing shared by listApplications, listEnvironments,
    listConfigurationProfiles and listDeploymentStrategies: fetch a page, store every
    (name, id) of it into a name-to-id map, and follow the next token. */
module AppConfigListing {
  import opened Wrappers
  import opened AppConfigStore

  /** The map after storing `items` in order: a later item overwrites an earlier one
      with the same name. */
  function StoreItems(ids: map<string, string>, items: seq<Item>): map<string, string>
    decreases |items|
  {
    if items == [] then ids
    else StoreItems(ids, items[..|items| - 1])[items[|items| - 1].name := items[|items| - 1].id]
  }

  /** The outcome of one bulk listing: the map, the first error met, and how many pages
      were requested (tokens 0 .. pagesRead-1, or from the starting token on). */
  datatype Listing = Listing(ids: map<string, string>, error: Option<string>, pagesRead: nat)

  const EmptyPage := Page([], false)

  /** The listing loop from `token` on: stop at an error, at a page without items
      (whatever its token says), or after a page without a next token. */
  function PaginateFrom(ids: map<string, string>, pages: seq<Result<Page, string>>, token: nat): Listing
    decreases |pages| - token
  {
    match PageAt(pages, token, EmptyPage)
    case Err(e) => Listing(ids, Some(e), 1)
    case Ok(p) =>
      if |p.items| == 0 then Listing(ids, None, 1)
      else if !p.hasNextToken then Listing(StoreItems(ids, p.items), None, 1)
      else
        var rest := PaginateFrom(StoreItems(ids, p.items), pages, token + 1);
        Listing(rest.ids, rest.error, rest.pagesRead + 1)
  }

  /** The items of the pages `token .. token+n-1` that were answered without error, in order. */
  function VisitedItems(pages: seq<Result<Page, string>>, token: nat, n: nat): seq<Item>
    decreases n
  {
    if n == 0 then []
    else match PageAt(pages, token, EmptyPage)
      case Ok(p) => p.items + VisitedItems(pages, token + 1, n - 1)
      case Err(_) => VisitedItems(pages, token + 1, n - 1)
  }

  /** The names carried by `items`. */
  function Names(items: seq<Item>): set<string>
  {
    set i | 0 <= i < |items| :: items[i].name
  }

  lemma {:induction false} StoreItemsAppend(ids: map<string, string>, a: seq<Item>, b: seq<Item>)
    ensures StoreItems(ids, a + b) == StoreItems(StoreItems(ids, a), b)
    decreases |b|
  {
    if b == [] {
      assert a + b == a;
    } else {
      var n := |b| - 1;
      assert (a + b)[..|a + b| - 1] == a + b[..n];
      assert (a + b)[|a + b| - 1] == b[n];
      StoreItemsAppend(ids, a, b[..n]);
    }
  }

  /** Storing items only adds keys: the old ones and the names of the items. */
  lemma {:induction false} StoreItemsKeys(ids: map<string, string>, items: seq<Item>)
    ensures StoreItems(ids, items).Keys == ids.Keys + Names(items)
    decreases |items|
  {
    if items != [] {
      var n := |items| - 1;
      StoreItemsKeys(ids, items[..n]);
      assert Names(items) == Names(items[..n]) + {items[n].name} by {
        forall x | x in Names(items) ensures x in Names(items[..n]) + {items[n].name} {
          var i :| 0 <= i < |items| && items[i].name == x;
          if i < n { assert items[..n][i] == items[i]; }
        }
        forall x | x in Names(items[..n]) ensures x in Names(items) {
          var i :| 0 <= i < n && items[..n][i].name == x;
          assert items[i].name == x;
        }
      }
    }
  }

  /** The id stored for a name is that of its last occurrence. */
  lemma {:induction false} StoreItemsLastWins(ids: map<string, string>, items: seq<Item>, i: nat)
    requires i < |items|
    requires forall j :: i < j < |items| ==> items[j].name != items[i].name
    ensures items[i].name in StoreItems(ids, items)
    ensures StoreItems(ids, items)[items[i].name] == items[i].id
    decreases |items|
  {
    var n := |items| - 1;
    if i < n {
      assert items[..n][i] == items[i];
      StoreItemsLastWins(ids, items[..n], i);
    }
  }

  /** A name that no item carries keeps its old entry. */
  lemma {:induction false} StoreItemsElsewhere(ids: map<string, string>, items: seq<Item>, name: string)
    requires name in ids && name !in Names(items)
    ensures name in StoreItems(ids, items) && StoreItems(ids, items)[name] == ids[name]
    decreases |items|
  {
    if items != [] {
      var n := |items| - 1;
      assert items[n].name in Names(items);
      assert Names(items[..n]) <= Names(items) by {
        forall x | x in Names(items[..n]) ensures x in Names(items) {
          var i :| 0 <= i < n && items[..n][i].name == x;
          assert items[i].name == x;
        }
      }
      StoreItemsElsewhere(ids, items[..n], name);
    }
  }

  /** The listing's map is exactly the starting map with the items of every visited page
      stored in page order. */
  lemma {:induction false} PaginateStoresVisited(ids: map<string, string>, pages: seq<Result<Page, string>>, token: nat)
    ensures var r := PaginateFrom(ids, pages, token);
            r.ids == StoreItems(ids, VisitedItems(pages, token, r.pagesRead))
    decreases |pages| - token
  {
    var r := PaginateFrom(ids, pages, token);
    match PageAt(pages, token, EmptyPage)
    case Err(e) =>
      assert VisitedItems(pages, token + 1, 0) == [];
    case Ok(p) =>
      assert VisitedItems(pages, token + 1, 0) == [];
      assert p.items + [] == p.items;
      if |p.items| > 0 && p.hasNextToken {
        var m := StoreItems(ids, p.items);
        var rest := PaginateFrom(m, pages, token + 1);
        PaginateStoresVisited(m, pages, token + 1);
        StoreItemsAppend(ids, p.items, VisitedItems(pages, token + 1, rest.pagesRead));
      }
  }

  /** Listing never removes an entry. */
  lemma PaginateKeeps(ids: map<string, string>, pages: seq<Result<Page, string>>, token: nat)
    ensures ids.Keys <= PaginateFrom(ids, pages, token).ids.Keys
  {
    var r := PaginateFrom(ids, pages, token);
    PaginateStoresVisited(ids, pages, token);
    StoreItemsKeys(ids, VisitedItems(pages, token, r.pagesRead));
  }

  /** Where the listing stops: every page before the last one read was answered with
      items and a next token; the last one is an error (and then that is the error
      returned), a page without items, or a page without a next token. */
  lemma {:induction false} PaginateStops(ids: map<string, string>, pages: seq<Result<Page, string>>, token: nat)
    ensures var r := PaginateFrom(ids, pages, token);
            && r.pagesRead >= 1
            && (token <= |pages| ==> token + r.pagesRead <= |pages| + 1)
            && (forall j :: token <= j < token + r.pagesRead - 1 ==>
                  var pj := PageAt(pages, j, EmptyPage);
                  pj.Ok? && |pj.value.items| > 0 && pj.value.hasNextToken)
            && var last := PageAt(pages, token + r.pagesRead - 1, EmptyPage);
               (r.error.Some? <==> last.Err?)
               && (last.Err? ==> r.error == Some(last.error))
               && (last.Ok? ==> |last.value.items| == 0 || !last.value.hasNextToken)
    decreases |pages| - token
  {
    match PageAt(pages, token, EmptyPage)
    case Err(e) =>
    case Ok(p) =>
      if |p.items| > 0 && p.hasNextToken {
        assert token < |pages|;
        PaginateStops(StoreItems(ids, p.items), pages, token + 1);
      }
  }

  /** One bulk listing of `kind`, storing into `ids0`; the loop of the list* functions. */
  method ListAll(store: Store, kind: ListKind, ids0: map<string, string>)
    returns (ids: map<string, string>, err: Option<string>)
    modifies store
    ensures var r := PaginateFrom(ids0, store.oracle.pages(kind), 0);
            ids == r.ids && err == r.error && store.log == old(store.log) + ListCalls(kind, r.pagesRead)
  {
    ghost var pages := store.oracle.pages(kind);
    ids, err := ids0, None;
    var token := 0;
    while true
      invariant token <= |pages|
      invariant store.log == old(store.log) + ListCalls(kind, token)
      invariant var r0 := PaginateFrom(ids0, pages, 0);
                var rt := PaginateFrom(ids, pages, token);
                r0 == Listing(rt.ids, rt.error, rt.pagesRead + token)
      invariant err == None
      decreases |pages| - token
    {
      var output := store.List(kind, token);
      LogAppend(old(store.log), ListCalls(kind, token), [ListInput(kind, token)]);
      if output.Err? {
        err := Some(output.error);
        return;
      }
      var items := output.value.items;
      if |items| == 0 {
        return;
      }
      ghost var before := ids;
      for j := 0 to |items|
        invariant ids == StoreItems(before, items[..j])
      {
        assert items[..j + 1][..j] == items[..j];
        ids := ids[items[j].name := items[j].id];
      }
      assert items[..|items|] == items;
      if !output.value.hasNextToken {
        return;
      }
      token := token + 1;
    }
  }
}
