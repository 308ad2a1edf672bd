/** The MCP package's static tool catalog (`GetToolDefinitions`). */
module Tools {
  import opened Wrappers
  import opened Protocol

  const DefaultPair: string := "btc_jpy"

  /** `pair`: a string with the schema default "btc_jpy". */
  const PairProperty: PropSchema := PropSchema(StringType, Some(DefaultPair), [])
  /** `order_type`: a string restricted to buy or sell, no default. */
  const OrderTypeProperty: PropSchema := PropSchema(StringType, None, ["buy", "sell"])
  /** `price`, `rate`, `amount` and `order_id`: a number, no default. */
  const NumberProperty: PropSchema := PropSchema(NumberType, None, [])

  const PairOnly: map<string, PropSchema> := map["pair" := PairProperty]
  const NoProperties: map<string, PropSchema> := map[]
  const OrderIdOnly: map<string, PropSchema> := map["order_id" := NumberProperty]
  const RateProperties: map<string, PropSchema> :=
    map["pair" := PairProperty, "order_type" := OrderTypeProperty,
        "price" := NumberProperty, "amount" := NumberProperty]
  const OrderProperties: map<string, PropSchema> :=
    map["pair" := PairProperty, "order_type" := OrderTypeProperty,
        "rate" := NumberProperty, "amount" := NumberProperty]

  /** The twelve definitions, in the order the server lists them. */
  const Catalog: seq<ToolDef> := [
    ToolDef("get_ticker", PairOnly, []),
    ToolDef("get_trades", PairOnly, []),
    ToolDef("get_order_book", PairOnly, []),
    ToolDef("get_exchange_status", PairOnly, []),
    ToolDef("calculate_order_rate", RateProperties, ["order_type", "price", "amount"]),
    ToolDef("get_balance", NoProperties, []),
    ToolDef("get_account_info", NoProperties, []),
    ToolDef("get_transaction_history", NoProperties, []),
    ToolDef("get_open_orders", NoProperties, []),
    ToolDef("create_order", OrderProperties, ["order_type", "rate", "amount"]),
    ToolDef("cancel_order", OrderIdOnly, ["order_id"]),
    ToolDef("get_order_details", OrderIdOnly, ["order_id"])
  ]

  const CatalogNames: set<string> := {
    "get_ticker", "get_trades", "get_order_book", "get_exchange_status",
    "calculate_order_rate", "get_balance", "get_account_info",
    "get_transaction_history", "get_open_orders", "create_order",
    "cancel_order", "get_order_details"
  }

  /** `GetToolDefinitions`: the constant catalog. */
  function GetToolDefinitions(): (tools: seq<ToolDef>)
    ensures |tools| == 12 && DistinctNames(tools) && Names(tools) == CatalogNames
  {
    CatalogNamesDistinct();
    CatalogNameSet();
    Catalog
  }

  /** The rules one definition of this server's catalogs keeps. */
  ghost predicate FollowsSchemaRules(t: ToolDef) {
    // a declared `pair` is a string defaulting to "btc_jpy"
    && ("pair" in t.properties ==> t.properties["pair"] == PairProperty)
    // `order_type` is always the buy/sell enum
    && ("order_type" in t.properties ==> t.properties["order_type"].enum == ["buy", "sell"])
    // the `required` list names exactly the properties without a default
    && (forall k :: k in t.required ==> k in t.properties && t.properties[k].default.None?)
    && (forall k :: k in t.properties && t.properties[k].default.None? ==> k in t.required)
    // and lists each of them once
    && (forall i, j :: 0 <= i < j < |t.required| ==> t.required[i] != t.required[j])
  }

  ghost predicate SchemaRules(tools: seq<ToolDef>) {
    forall i :: 0 <= i < |tools| ==> FollowsSchemaRules(tools[i])
  }

  /** The catalog holds twelve definitions with pairwise distinct names. */
  lemma CatalogNamesDistinct()
    ensures |Catalog| == 12 && DistinctNames(Catalog)
  {
  }

  /** The names the catalog declares are exactly `CatalogNames`. */
  lemma CatalogNameSet()
    ensures Names(Catalog) == CatalogNames
  {
  }

  /** The schema rules hold for every definition of the catalog. */
  lemma CatalogFollowsSchemaRules()
    ensures SchemaRules(Catalog)
  {
    forall i | 0 <= i < |Catalog| ensures FollowsSchemaRules(Catalog[i]) {
      var t := Catalog[i];
      if i < 4 {
        assert t.properties == PairOnly && t.required == [];
      } else if i == 4 || i == 9 {
        assert t.required[0] == "order_type";
      } else if i < 9 {
        assert t.properties == NoProperties;
      } else {
        assert t.properties == OrderIdOnly;
      }
    }
  }

  /**
   * Every property of the catalog is `pair`, `order_type` or one of the
   * four numeric arguments, each with its one schema.
   */
  lemma PropertyShapes(t: ToolDef, k: string)
    requires t in Catalog && k in t.properties
    ensures k == "pair" ==> t.properties[k] == PairProperty
    ensures k == "order_type" ==> t.properties[k] == OrderTypeProperty
    ensures k != "pair" && k != "order_type" ==>
              k in {"price", "rate", "amount", "order_id"} && t.properties[k] == NumberProperty
  {
    var i :| 0 <= i < |Catalog| && Catalog[i] == t;
    if i < 4 {
      assert t.properties == PairOnly;
    } else if i == 4 {
      assert t.properties == RateProperties;
    } else if i == 9 {
      assert t.properties == OrderProperties;
    } else if i >= 10 {
      assert t.properties == OrderIdOnly;
    }
  }

  /** Which schema each catalog tool has, by name. */
  lemma ToolShapes(t: ToolDef)
    requires t in Catalog
    ensures t.name in CatalogNames
    ensures t.name in {"get_ticker", "get_trades", "get_order_book", "get_exchange_status"} ==>
              t.properties == PairOnly
    ensures t.name == "calculate_order_rate" ==> t.properties == RateProperties
    ensures t.name == "create_order" ==> t.properties == OrderProperties
    ensures t.name in {"cancel_order", "get_order_details"} ==> t.properties == OrderIdOnly
    ensures t.name in {"get_balance", "get_account_info", "get_transaction_history", "get_open_orders"} ==>
              t.properties == NoProperties
  {
    var i :| 0 <= i < |Catalog| && Catalog[i] == t;
  }

  /** Which tools declare each property. */
  lemma PropertyOwners(t: ToolDef, k: string)
    requires t in Catalog && k in t.properties
    ensures k == "pair" ==>
              t.name in {"get_ticker", "get_trades", "get_order_book", "get_exchange_status",
                         "calculate_order_rate", "create_order"}
    ensures k == "order_type" || k == "amount" ==> t.name in {"calculate_order_rate", "create_order"}
    ensures k == "price" ==> t.name == "calculate_order_rate"
    ensures k == "rate" ==> t.name == "create_order"
    ensures k == "order_id" ==> t.name in {"cancel_order", "get_order_details"}
  {
    var i :| 0 <= i < |Catalog| && Catalog[i] == t;
    if i < 4 {
      assert t.properties == PairOnly;
    } else if i == 4 {
      assert t.properties == RateProperties;
    } else if i == 9 {
      assert t.properties == OrderProperties;
    } else if i >= 10 {
      assert t.properties == OrderIdOnly;
    } else {
      // the listing tools declare no properties, so `k` cannot be one of theirs
      assert false;
    }
  }

  /** The four account and listing tools declare no properties at all. */
  lemma ListingToolsTakeNoArguments(t: ToolDef)
    requires t in Catalog
    requires t.name in {"get_balance", "get_account_info", "get_transaction_history", "get_open_orders"}
    ensures t.properties == map[] && t.required == []
  {
  }
}
