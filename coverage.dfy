/**
 * Coverage resolution of the `/check-coverage` handler once the store has
 * answered: the rows are reduced to one offer per provider (the cheapest, the
 * first seen on equal prices) in a plain JavaScript object, and the object's
 * entries are shaped into the "covered" or "not covered" response.
 */
module Coverage {
  import opened Wrappers
  import opened Json

  /** A row of the coverage query: `c.provider, c.product, c.status, p.price`. */
  datatype Row = Row(provider: string, product: string, status: string, price: int)

  /** The value the handler stores per provider: `{ product, price, status }`. */
  datatype Details = Details(product: string, price: int, status: string)

  /** One element of the response's `providers` array. */
  datatype ProviderOffer = ProviderOffer(provider: string, product: string, price: int, status: string)

  /**
   * A JavaScript object with string keys and no prototype: `keys` is the
   * insertion order that `Object.entries` follows, `values` the properties.
   * Every name, "__proto__" and "constructor" included, is an ordinary key.
   */
  datatype Dict = Dict(keys: seq<string>, values: map<string, Details>)

  /** The response body; `providers` is absent from the "not covered" answer. */
  datatype Response = Response(message: string, address: Value, providers: Option<seq<ProviderOffer>>)

  const CoveredMessage: string := "Yes, this address is covered."
  const NotCoveredMessage: string := "No, this address is not covered."

  const EmptyDict: Dict := Dict([], map[])

  function DetailsOf(row: Row): Details
  {
    Details(row.product, row.price, row.status)
  }

  function OfferOf(row: Row): ProviderOffer
  {
    ProviderOffer(row.provider, row.product, row.price, row.status)
  }

  /** The providers named by some row. */
  ghost function Providers(rows: seq<Row>): set<string>
  {
    set i | 0 <= i < |rows| :: rows[i].provider
  }

  /** Every key listed once, and the listed keys are exactly the properties. */
  ghost predicate WellFormed(d: Dict)
  {
    && (forall i, j :: 0 <= i < j < |d.keys| ==> d.keys[i] != d.keys[j])
    && (forall k :: k in d.values <==> k in d.keys)
  }

  /**
   * `obj[k] = v`: a new key goes to the end of the insertion order, an
   * existing key keeps its place and gets the new value.
   */
  function Assign(d: Dict, k: string, v: Details): (r: Dict)
    ensures WellFormed(d) ==> WellFormed(r)
    ensures r.values == d.values[k := v]
    ensures |d.keys| <= |r.keys| && r.keys[..|d.keys|] == d.keys
    ensures k in d.values ==> r.keys == d.keys
    ensures k !in d.values ==> r.keys == d.keys + [k]
  {
    Dict(if k in d.values then d.keys else d.keys + [k], d.values[k := v])
  }

  /** `Object.entries(providers).map(...)`: one offer per key, in insertion order. */
  function Entries(d: Dict): seq<ProviderOffer>
    requires WellFormed(d)
  {
    seq(|d.keys|, i requires 0 <= i < |d.keys| =>
      ProviderOffer(d.keys[i], d.values[d.keys[i]].product, d.values[d.keys[i]].price, d.values[d.keys[i]].status))
  }

  /** One iteration of the `forEach`: replace when the provider is new or the row is strictly cheaper. */
  function Step(d: Dict, row: Row): Dict
  {
    if row.provider !in d.values || row.price < d.values[row.provider].price
    then Assign(d, row.provider, DetailsOf(row))
    else d
  }

  /** The object the `forEach` leaves behind. */
  function Group(rows: seq<Row>): Dict
  {
    if rows == [] then EmptyDict else Step(Group(rows[..|rows| - 1]), rows[|rows| - 1])
  }

  /**
   * After the reduction each provider has at most one entry, and the
   * providers are exactly those of the rows.
   */
  lemma {:induction false} GroupIsOnePerProvider(rows: seq<Row>)
    ensures WellFormed(Group(rows))
    ensures Group(rows).values.Keys == Providers(rows)
  {
    if rows != [] {
      var init := rows[..|rows| - 1];
      GroupIsOnePerProvider(init);
      assert Providers(rows) == Providers(init) + {rows[|rows| - 1].provider} by {
        assert forall i :: 0 <= i < |init| ==> init[i] == rows[i];
      }
    }
  }

  /**
   * The grouping loop: the per-provider reduction the handler runs over the
   * rows, with each provider looked up as an ordinary key of a prototype-less
   * object (the corrected guard; `GroupAsWritten` is the guard as written).
   */
  method GroupCheapest(rows: seq<Row>) returns (providers: Dict)
    ensures providers == Group(rows)
  {
    var keys: seq<string> := [];
    var values: map<string, Details> := map[];
    var i := 0;
    while i < |rows|
      invariant 0 <= i <= |rows|
      invariant Dict(keys, values) == Group(rows[..i])
    {
      var row := rows[i];
      assert rows[..i + 1][..i] == rows[..i];
      if row.provider !in values || row.price < values[row.provider].price {
        if row.provider !in values {
          keys := keys + [row.provider];
        }
        values := values[row.provider := Details(row.product, row.price, row.status)];
      }
      i := i + 1;
    }
    assert rows[..|rows|] == rows;
    providers := Dict(keys, values);
  }

  /** The response built from the store's rows (both branches of the handler). */
  function Respond(address: Value, rows: seq<Row>): Response
  {
    if |rows| > 0 then
      GroupIsOnePerProvider(rows);
      Response(CoveredMessage, address, Some(Entries(Group(rows))))
    else Response(NotCoveredMessage, address, None)
  }

  /**
   * Row `i` is the one the reduction should keep for its provider: no row of
   * that provider is cheaper, and every earlier row of it is strictly dearer.
   */
  ghost predicate FirstCheapest(rows: seq<Row>, i: int)
  {
    && 0 <= i < |rows|
    && (forall j :: 0 <= j < |rows| && rows[j].provider == rows[i].provider ==> rows[i].price <= rows[j].price)
    && (forall j :: 0 <= j < i && rows[j].provider == rows[i].provider ==> rows[i].price < rows[j].price)
  }

  /** A step never raises the kept price of a provider. */
  lemma StepBoundsPrice(d: Dict, row: Row, q: Row)
    requires q.provider in d.values && d.values[q.provider].price <= q.price
    ensures q.provider in Step(d, row).values && Step(d, row).values[q.provider].price <= q.price
  {
  }

  /** The step's own row always ends up bounded by its price. */
  lemma StepBoundsOwnPrice(d: Dict, row: Row)
    ensures row.provider in Step(d, row).values && Step(d, row).values[row.provider].price <= row.price
  {
  }

  /** The kept price of a provider is not above the price of any of its rows. */
  lemma {:induction false} GroupIsMinimal(rows: seq<Row>)
    ensures forall j :: 0 <= j < |rows| ==>
      rows[j].provider in Group(rows).values && Group(rows).values[rows[j].provider].price <= rows[j].price
  {
    if rows != [] {
      var n := |rows| - 1;
      var init := rows[..n];
      GroupIsMinimal(init);
      var g := Group(init);
      var last := rows[n];
      assert Group(rows) == Step(g, last);
      forall j | 0 <= j < |rows|
        ensures rows[j].provider in Step(g, last).values && Step(g, last).values[rows[j].provider].price <= rows[j].price
      {
        if j < n {
          assert rows[j] == init[j];
          StepBoundsPrice(g, last, rows[j]);
        } else {
          StepBoundsOwnPrice(g, last);
        }
      }
    }
  }

  /**
   * The kept entry of a provider is copied whole from one of its rows, and
   * every earlier row of that provider is strictly dearer than it.
   */
  lemma {:induction false} GroupPick(rows: seq<Row>, p: string) returns (i: nat)
    requires p in Group(rows).values
    ensures i < |rows| && rows[i].provider == p
    ensures Group(rows).values[p] == DetailsOf(rows[i])
    ensures forall j :: 0 <= j < i && rows[j].provider == p ==> rows[i].price < rows[j].price
  {
    var n := |rows| - 1;
    var init := rows[..n];
    var g := Group(init);
    var last := rows[n];
    assert Group(rows) == Step(g, last);
    if last.provider == p && (p !in g.values || last.price < g.values[p].price) {
      i := n;
      GroupIsMinimal(init);
      GroupIsOnePerProvider(init);
      EarlierRowsDearer(init, g, last);
      forall j | 0 <= j < i && rows[j].provider == p
        ensures rows[i].price < rows[j].price
      {
        assert init[j] == rows[j];
      }
    } else {
      var k := GroupPick(init, p);
      i := k;
      forall j | 0 <= j < i && rows[j].provider == p
        ensures rows[i].price < rows[j].price
      {
        assert init[j] == rows[j];
      }
    }
  }

  /** A row that replaces or creates its provider's entry is strictly cheaper than all earlier rows of it. */
  lemma EarlierRowsDearer(init: seq<Row>, g: Dict, last: Row)
    requires g.values.Keys == Providers(init)
    requires forall j :: 0 <= j < |init| ==> init[j].provider in g.values && g.values[init[j].provider].price <= init[j].price
    requires last.provider !in g.values || last.price < g.values[last.provider].price
    ensures forall j :: 0 <= j < |init| && init[j].provider == last.provider ==> last.price < init[j].price
  {
  }

  /** For each provider at most one row is its first cheapest row. */
  lemma FirstCheapestUnique(rows: seq<Row>, i: int, k: int)
    requires FirstCheapest(rows, i) && FirstCheapest(rows, k)
    requires rows[i].provider == rows[k].provider
    ensures i == k
  {
  }

  /** The entry kept for a provider is that provider's first cheapest row. */
  lemma KeptIsFirstCheapest(rows: seq<Row>, p: string) returns (i: nat)
    requires p in Group(rows).values
    ensures FirstCheapest(rows, i) && rows[i].provider == p && Group(rows).values[p] == DetailsOf(rows[i])
  {
    GroupIsMinimal(rows);
    i := GroupPick(rows, p);
  }

  /** Every provider's first cheapest row is the entry kept for it. */
  lemma FirstCheapestIsKept(rows: seq<Row>, i: int)
    requires FirstCheapest(rows, i)
    ensures rows[i].provider in Group(rows).values && Group(rows).values[rows[i].provider] == DetailsOf(rows[i])
  {
    GroupIsMinimal(rows);
    var k := GroupPick(rows, rows[i].provider);
    FirstCheapestUnique(rows, i, k);
  }

  /**
   * Providers are listed in the order the rows first name them: before any row
   * of a later-listed provider, an earlier-listed provider has already occurred.
   */
  lemma {:induction false} GroupOrder(rows: seq<Row>)
    ensures forall a, b, j :: 0 <= a < b < |Group(rows).keys| && 0 <= j < |rows| && rows[j].provider == Group(rows).keys[b] ==>
      Group(rows).keys[a] in Providers(rows[..j])
  {
    if rows != [] {
      var n := |rows| - 1;
      var init := rows[..n];
      GroupOrder(init);
      GroupIsOnePerProvider(init);
      var g := Group(init);
      var g' := Group(rows);
      assert |g'.keys| <= |g.keys| + 1;
      assert g'.keys[..|g.keys|] == g.keys;
      forall a, b, j | 0 <= a < b < |g'.keys| && 0 <= j < |rows| && rows[j].provider == g'.keys[b]
        ensures g'.keys[a] in Providers(rows[..j])
      {
        assert g'.keys[a] == g.keys[a];
        if j < n {
          assert rows[j] == init[j];
          assert rows[..j] == init[..j];
          assert rows[j].provider in Providers(init);
          assert b < |g.keys|;
          assert g'.keys[b] == g.keys[b];
        } else {
          assert rows[..j] == init;
          assert g.keys[a] in g.values;
        }
      }
    }
  }

  /**
   * The handler's `ORDER BY p.price ASC`: when the rows arrive sorted by price,
   * each provider's kept row is simply its first row.
   */
  lemma SortedRowsKeepFirstRow(rows: seq<Row>, i: int)
    requires forall a, b :: 0 <= a < b < |rows| ==> rows[a].price <= rows[b].price
    requires 0 <= i < |rows|
    requires forall j :: 0 <= j < i ==> rows[j].provider != rows[i].provider
    ensures rows[i].provider in Group(rows).values && Group(rows).values[rows[i].provider] == DetailsOf(rows[i])
  {
    assert FirstCheapest(rows, i);
    FirstCheapestIsKept(rows, i);
  }

  /**
   * The message and the `providers` field say whether any row came back;
   * the address is echoed either way.
   */
  lemma ResponseShape(address: Value, rows: seq<Row>)
    ensures Respond(address, rows).message == CoveredMessage <==> |rows| > 0
    ensures Respond(address, rows).message == NotCoveredMessage <==> rows == []
    ensures Respond(address, rows).providers.None? <==> rows == []
    ensures Respond(address, rows).address == address
  {
  }

  /** The projection lists one offer per key, in key order, with the key's details. */
  lemma EntriesAt(d: Dict)
    requires WellFormed(d)
    ensures |Entries(d)| == |d.keys|
    ensures forall k :: 0 <= k < |d.keys| ==>
      Entries(d)[k] == ProviderOffer(d.keys[k], d.values[d.keys[k]].product, d.values[d.keys[k]].price, d.values[d.keys[k]].status)
  {
  }

  /** At most one offer per provider, and the offered providers are exactly those of the rows. */
  lemma OffersOnePerProvider(address: Value, rows: seq<Row>)
    requires rows != []
    ensures var offers := Respond(address, rows).providers.value;
      && (forall a, b :: 0 <= a < b < |offers| ==> offers[a].provider != offers[b].provider)
      && (forall p :: p in Providers(rows) <==> exists k :: 0 <= k < |offers| && offers[k].provider == p)
  {
    var g := Group(rows);
    GroupIsOnePerProvider(rows);
    var offers := Entries(g);
    assert Respond(address, rows).providers.value == offers;
    EntriesAt(g);
    forall p | p in Providers(rows)
      ensures exists k :: 0 <= k < |offers| && offers[k].provider == p
    {
      assert p in g.keys;
      var k :| 0 <= k < |g.keys| && g.keys[k] == p;
      assert offers[k].provider == p;
    }
  }

  /** `o` is one row's four fields copied together, that row being its provider's first cheapest. */
  ghost predicate IsFirstCheapestOffer(rows: seq<Row>, o: ProviderOffer)
  {
    exists i :: FirstCheapest(rows, i) && o == OfferOf(rows[i])
  }

  /** Every offer is its provider's first cheapest row. */
  lemma {:induction false} OffersAreFirstCheapestRows(address: Value, rows: seq<Row>)
    requires rows != []
    ensures var offers := Respond(address, rows).providers.value;
      forall k :: 0 <= k < |offers| ==> IsFirstCheapestOffer(rows, offers[k])
  {
    var g := Group(rows);
    GroupIsOnePerProvider(rows);
    var offers := Respond(address, rows).providers.value;
    assert offers == Entries(g);
    EntriesAt(g);
    forall k | 0 <= k < |offers|
      ensures IsFirstCheapestOffer(rows, offers[k])
    {
      var i := KeptIsFirstCheapest(rows, g.keys[k]);
      assert offers[k] == OfferOf(rows[i]);
    }
  }

  /** Every provider's first cheapest row is offered. */
  lemma FirstCheapestRowsAreOffered(address: Value, rows: seq<Row>, i: int)
    requires FirstCheapest(rows, i)
    ensures Respond(address, rows).providers.Some?
    ensures OfferOf(rows[i]) in Respond(address, rows).providers.value
  {
    var g := Group(rows);
    GroupIsOnePerProvider(rows);
    var offers := Entries(g);
    assert Respond(address, rows).providers.value == offers;
    EntriesAt(g);
    FirstCheapestIsKept(rows, i);
    var k :| 0 <= k < |g.keys| && g.keys[k] == rows[i].provider;
    assert offers[k] == OfferOf(rows[i]);
  }

  /** Offers come in the order the rows first name their providers. */
  lemma OffersInFirstSeenOrder(address: Value, rows: seq<Row>)
    requires rows != []
    ensures var offers := Respond(address, rows).providers.value;
      forall a, b, j :: 0 <= a < b < |offers| && 0 <= j < |rows| && rows[j].provider == offers[b].provider ==>
        offers[a].provider in Providers(rows[..j])
  {
    GroupOrder(rows);
  }

  /**
   * A store answer with two Acme rows at 30 and 25 and one Beta row at 40
   * gives Acme at 25 and Beta at 40, in that order.
   */
  lemma AcmeBetaScenario(address: Value)
    ensures Respond(address, [Row("Acme", "Fibre 50", "live", 30), Row("Acme", "Fibre 20", "live", 25), Row("Beta", "5G Home", "live", 40)])
      == Response(CoveredMessage, address, Some([ProviderOffer("Acme", "Fibre 20", 25, "live"), ProviderOffer("Beta", "5G Home", 40, "live")]))
  {
    var r0, r1, r2 := Row("Acme", "Fibre 50", "live", 30), Row("Acme", "Fibre 20", "live", 25), Row("Beta", "5G Home", "live", 40);
    var rows := [r0, r1, r2];
    assert rows[..0] == [];
    assert rows[..1] == [r0];
    assert rows[..2] == [r0, r1];
    assert Group([r0]) == Dict(["Acme"], map["Acme" := DetailsOf(r0)]);
    assert Group([r0, r1]) == Dict(["Acme"], map["Acme" := DetailsOf(r1)]);
    var g := Dict(["Acme", "Beta"], map["Acme" := DetailsOf(r1), "Beta" := DetailsOf(r2)]);
    assert Group(rows) == g;
    var offers := Entries(g);
    assert |offers| == 2;
    assert offers[0] == ProviderOffer("Acme", "Fibre 20", 25, "live");
    assert offers[1] == ProviderOffer("Beta", "5G Home", 40, "live");
    assert offers == [offers[0], offers[1]];
  }

  // ---------------------------------------------------------------------
  // The guard as the handler writes it, `!providers[row.provider]`, reads the
  // object's prototype as well as its own keys.

  /** The properties every plain object inherits from `Object.prototype`; each is truthy. */
  const InheritedNames: set<string> := {
    "constructor", "__proto__", "toString", "toLocaleString", "valueOf",
    "hasOwnProperty", "isPrototypeOf", "propertyIsEnumerable",
    "__defineGetter__", "__defineSetter__", "__lookupGetter__", "__lookupSetter__"
  }

  /**
   * One iteration as written: an inherited name is truthy, so `!providers[p]`
   * is false, and its `.price` is `undefined`, so `row.price < undefined` is
   * false too; the row is skipped.
   */
  function StepAsWritten(d: Dict, row: Row): Dict
  {
    if row.provider in d.values then
      (if row.price < d.values[row.provider].price then Assign(d, row.provider, DetailsOf(row)) else d)
    else if row.provider in InheritedNames then d
    else Assign(d, row.provider, DetailsOf(row))
  }

  function GroupAsWritten(rows: seq<Row>): Dict
  {
    if rows == [] then EmptyDict
    else StepAsWritten(GroupAsWritten(rows[..|rows| - 1]), rows[|rows| - 1])
  }

  /**
   * A provider called "constructor" is lost as written, so a non-empty store
   * answer yields "covered" with no providers; a prototype-less object keeps it.
   */
  lemma InheritedProviderIsDropped()
    ensures var rows := [Row("constructor", "Fibre 100", "live", 30)];
      && GroupAsWritten(rows).keys == []
      && Group(rows).keys == ["constructor"]
      && Entries(Group(rows)) == [ProviderOffer("constructor", "Fibre 100", 30, "live")]
  {
    var rows := [Row("constructor", "Fibre 100", "live", 30)];
    assert rows[..0] == [];
  }

  /** Away from inherited names the written guard and the prototype-less object agree. */
  lemma {:induction false} AsWrittenAgreesOffPrototype(rows: seq<Row>)
    requires forall i :: 0 <= i < |rows| ==> rows[i].provider !in InheritedNames
    ensures GroupAsWritten(rows) == Group(rows)
  {
    if rows != [] {
      var init := rows[..|rows| - 1];
      AsWrittenAgreesOffPrototype(init);
    }
  }
}
