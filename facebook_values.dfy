/**
 * The value resolver of `FacebookClient`: how one Graph API insights record
 * gives the value of one requested field, including the sum over the nested
 * `actions` / `action_values` tuples and the selected attribution windows.
 */
module FacebookValues {
  import opened Wrappers
  import opened JsStrings
  import opened DataStudio
  import SchemaCatalog

  /**
   * One nested action tuple, such as `{action_type: "link_click", value: "10",
   * "7d_click": "6"}`: every property is a string.
   */
  type ActionTuple = map<string, string>

  /**
   * The JSON values the resolver reads or produces. `Decimal(x)` is the number
   * `x` as `String(x)` renders it.
   */
  datatype Json =
    | Undefined
    | Str(s: string)
    | Decimal(x: real)
    | Tuples(items: seq<ActionTuple>)
    | Other

  /** One insights record: the properties of a JSON object. */
  type Record = map<string, Json>

  /** `data[k]`: `undefined` for a missing property. */
  function Property(data: Record, k: string): Json {
    if k in data then data[k] else Undefined
  }

  /**
   * `parseFloat(t[key]) || 0`. `parse` stands for `parseFloat` on a string:
   * `None` is NaN. A missing property is `undefined`, which parses to NaN.
   */
  function Amount(t: ActionTuple, key: string, parse: string -> Option<real>): real {
    if key in t && parse(t[key]).Some? then parse(t[key]).value else 0.0
  }

  /** `t.action_type`, `undefined` when the tuple has none. */
  function ActionTypeOf(t: ActionTuple): Option<string> {
    if "action_type" in t then Some(t["action_type"]) else None
  }

  /** What one window token adds for one tuple: "default" reads `value`, any other token reads itself. */
  function WindowAmount(t: ActionTuple, w: string, parse: string -> Option<real>): real {
    if w == "default" then Amount(t, "value", parse) else Amount(t, w, parse)
  }

  /** The sum over the window tokens for one tuple, in token order. */
  function WindowsSum(t: ActionTuple, windows: seq<string>, parse: string -> Option<real>): real
    decreases |windows|
  {
    if |windows| == 0 then 0.0
    else WindowsSum(t, windows[..|windows| - 1], parse) + WindowAmount(t, windows[|windows| - 1], parse)
  }

  /**
   * The number `getActionValue` renders: over every tuple whose `action_type`
   * is `actionType`, the sum over every window token.
   */
  function ActionValue(actionType: Option<string>, tuples: seq<ActionTuple>, windows: seq<string>,
                       parse: string -> Option<real>): (v: real)
    decreases |tuples|
    ensures |windows| == 0 ==> v == 0.0
  {
    if |tuples| == 0 then 0.0
    else
      var t := tuples[|tuples| - 1];
      ActionValue(actionType, tuples[..|tuples| - 1], windows, parse)
        + (if ActionTypeOf(t) == actionType then WindowsSum(t, windows, parse) else 0.0)
  }

  /** Window tokens add up independently. */
  lemma {:induction false} WindowsSumAppend(t: ActionTuple, w1: seq<string>, w2: seq<string>,
                                            parse: string -> Option<real>)
    ensures WindowsSum(t, w1 + w2, parse) == WindowsSum(t, w1, parse) + WindowsSum(t, w2, parse)
    decreases |w2|
  {
    if |w2| > 0 {
      var init := w2[..|w2| - 1];
      WindowsSumAppend(t, w1, init, parse);
      assert (w1 + w2)[..|w1 + w2| - 1] == w1 + init;
    } else {
      assert w1 + w2 == w1;
    }
  }

  /** The action value of `w1 + w2` is that of `w1` plus that of `w2`. */
  lemma {:induction false} ActionValueWindowsAppend(actionType: Option<string>, tuples: seq<ActionTuple>,
                                                    w1: seq<string>, w2: seq<string>,
                                                    parse: string -> Option<real>)
    ensures ActionValue(actionType, tuples, w1 + w2, parse)
      == ActionValue(actionType, tuples, w1, parse) + ActionValue(actionType, tuples, w2, parse)
    decreases |tuples|
  {
    if |tuples| > 0 {
      ActionValueWindowsAppend(actionType, tuples[..|tuples| - 1], w1, w2, parse);
      WindowsSumAppend(tuples[|tuples| - 1], w1, w2, parse);
    }
  }

  /**
   * The attribution setting "a,b" gives the value for "a" plus the value for
   * "b": the windows are exactly the comma-separated tokens.
   */
  lemma WindowSettingsAdd(actionType: Option<string>, tuples: seq<ActionTuple>, a: string, b: string,
                          parse: string -> Option<real>)
    ensures ActionValue(actionType, tuples, Split(a + "," + b, ','), parse)
      == ActionValue(actionType, tuples, Split(a, ','), parse) + ActionValue(actionType, tuples, Split(b, ','), parse)
  {
    SplitAppend(a, b, ',');
    assert a + "," + b == a + [','] + b;
    ActionValueWindowsAppend(actionType, tuples, Split(a, ','), Split(b, ','), parse);
  }

  /** Tuples add up independently: the value of a concatenation is the sum of the values. */
  lemma {:induction false} ActionValueTuplesAppend(actionType: Option<string>, t1: seq<ActionTuple>,
                                                   t2: seq<ActionTuple>, windows: seq<string>,
                                                   parse: string -> Option<real>)
    ensures ActionValue(actionType, t1 + t2, windows, parse)
      == ActionValue(actionType, t1, windows, parse) + ActionValue(actionType, t2, windows, parse)
    decreases |t2|
  {
    if |t2| > 0 {
      var init := t2[..|t2| - 1];
      ActionValueTuplesAppend(actionType, t1, init, windows, parse);
      assert (t1 + t2)[..|t1 + t2| - 1] == t1 + init;
      assert (t1 + t2)[|t1 + t2| - 1] == t2[|t2| - 1];
    } else {
      assert t1 + t2 == t1;
    }
  }

  /** Tuples of other action types, and in particular an empty list, give 0. */
  lemma {:induction false} ActionValueNoMatch(actionType: Option<string>, tuples: seq<ActionTuple>,
                                              windows: seq<string>, parse: string -> Option<real>)
    requires forall i :: 0 <= i < |tuples| ==> ActionTypeOf(tuples[i]) != actionType
    ensures ActionValue(actionType, tuples, windows, parse) == 0.0
    decreases |tuples|
  {
    if |tuples| > 0 {
      var init := tuples[..|tuples| - 1];
      assert forall i :: 0 <= i < |init| ==> init[i] == tuples[i];
      ActionValueNoMatch(actionType, init, windows, parse);
    }
  }

  /** A `parseFloat` that knows the three numbers of the example below. */
  function ExampleParse(s: string): Option<real> {
    if s == "10" then Some(10.0)
    else if s == "6" then Some(6.0)
    else if s == "2" then Some(2.0)
    else None
  }

  /** The tuple of the example below. */
  function ExampleTuple(): ActionTuple {
    map["action_type" := "link_click", "value" := "10", "7d_click" := "6", "1d_view" := "2"]
  }

  /**
   * `{action_type: "link_click", value: "10", "7d_click": "6", "1d_view": "2"}`
   * is worth 8 with the windows "7d_click,1d_view", 10 with "default", and
   * nothing for another action type.
   */
  lemma ActionValueExample()
    ensures ActionValue(Some("link_click"), [ExampleTuple()], ["7d_click", "1d_view"], ExampleParse) == 8.0
    ensures ActionValue(Some("link_click"), [ExampleTuple()], ["default"], ExampleParse) == 10.0
    ensures ActionValue(Some("like"), [ExampleTuple()], ["default"], ExampleParse) == 0.0
  {
    var t := ExampleTuple();
    assert ActionTypeOf(t) == Some("link_click");
    assert Amount(t, "7d_click", ExampleParse) == 6.0;
    assert Amount(t, "1d_view", ExampleParse) == 2.0;
    assert Amount(t, "value", ExampleParse) == 10.0;
    var w := ["7d_click", "1d_view"];
    assert w[..1] == ["7d_click"] && w[..1][..0] == [];
    assert WindowsSum(t, w, ExampleParse) == 8.0;
    assert ["default"][..0] == [];
    assert WindowsSum(t, ["default"], ExampleParse) == 10.0;
    assert [t][..0] == [];
  }

  // ----- mapSchemaValue -----

  /**
   * The inputs on which `mapSchemaValue` does not throw: a date needs a
   * `date_start` string (`replace` is called on it), an action field needs its
   * tuple list (its `length` is read), and a tuple of the asked type needs the
   * attribution windows of a set request (`attributionWindows.length` is read).
   */
  predicate MapDefined(data: Record, schemaName: string, windows: Option<seq<string>>) {
    var (key, name) := SplitPair(schemaName, "__");
    if key == "date" then Property(data, "date_start").Str?
    else if key == "action_values" || key == "actions" then
      var list := Property(data, key);
      && list.Tuples?
      && (windows.None? ==> forall i :: 0 <= i < |list.items| ==> ActionTypeOf(list.items[i]) != name)
    else true
  }

  /**
   * `mapSchemaValue(data, schemaName)`. `windows` is the attribution setting
   * split at ',' when a request is set, and `None` otherwise. An undefined
   * local key is read as the property named "undefined", as JavaScript does.
   */
  function MapSchemaValue(data: Record, schemaName: string, windows: Option<seq<string>>,
                          parse: string -> Option<real>): (r: Json)
    requires MapDefined(data, schemaName, windows)
    ensures SchemaCatalog.GroupOf(schemaName) == "date" ==> r.Str? && '-' !in r.s
    ensures SchemaCatalog.GroupOf(schemaName) in {"actions", "action_values"} ==> r.Decimal?
  {
    var (key, name) := SplitPair(schemaName, "__");
    if key == "date" then Str(RemoveAll(Property(data, "date_start").s, '-'))
    else if key == "action_values" || key == "actions" then
      Decimal(ActionValue(name, Property(data, key).items, windows.GetOr([]), parse))
    else Property(data, name.GetOr("undefined"))
  }

  /** What a catalog field resolves to, by kind. */
  function ExpectedValue(g: SchemaCatalog.Group, key: string, data: Record, windows: seq<string>,
                         parse: string -> Option<real>): Json
    requires g == SchemaCatalog.DateGroup ==> Property(data, "date_start").Str?
    requires g == SchemaCatalog.ActionsGroup ==> Property(data, "actions").Tuples?
    requires g == SchemaCatalog.ActionValuesGroup ==> Property(data, "action_values").Tuples?
  {
    match g
    case DateGroup => Str(RemoveAll(Property(data, "date_start").s, '-'))
    case ActionsGroup => Decimal(ActionValue(Some(key), Property(data, "actions").items, windows, parse))
    case ActionValuesGroup => Decimal(ActionValue(Some(key), Property(data, "action_values").items, windows, parse))
    case _ => Property(data, key)
  }

  /**
   * A name built by a schema constructor resolves by its kind: the reformatted
   * date, the action sum for its action type, or the record's own property.
   */
  lemma MapCatalogField(g: SchemaCatalog.Group, key: string, data: Record, windows: seq<string>,
                        parse: string -> Option<real>)
    requires NoDoubleUnderscore(key)
    requires g == SchemaCatalog.DateGroup ==> Property(data, "date_start").Str?
    requires g == SchemaCatalog.ActionsGroup ==> Property(data, "actions").Tuples?
    requires g == SchemaCatalog.ActionValuesGroup ==> Property(data, "action_values").Tuples?
    ensures MapDefined(data, SchemaCatalog.NameOf(g, key), Some(windows))
    ensures MapSchemaValue(data, SchemaCatalog.NameOf(g, key), Some(windows), parse)
      == ExpectedValue(g, key, data, windows, parse)
  {
    SchemaCatalog.PrefixNamesGroup(g);
    SchemaCatalog.NameOfSplits(g, key);
  }

  /**
   * Every field of the catalog resolves by its kind, on any record that holds
   * what that kind reads.
   */
  lemma SchemaFieldValue(request: Request, i: nat, data: Record, windows: seq<string>,
                         parse: string -> Option<real>)
    requires i < |SchemaCatalog.GetSchema(request)|
    requires SchemaCatalog.GroupOf(SchemaCatalog.GetSchema(request)[i].name) == "date" ==> Property(data, "date_start").Str?
    requires SchemaCatalog.GroupOf(SchemaCatalog.GetSchema(request)[i].name) == "actions" ==> Property(data, "actions").Tuples?
    requires SchemaCatalog.GroupOf(SchemaCatalog.GetSchema(request)[i].name) == "action_values" ==> Property(data, "action_values").Tuples?
    ensures var name := SchemaCatalog.GetSchema(request)[i].name;
      && SchemaCatalog.BuiltName(name)
      && MapDefined(data, name, Some(windows))
      && MapSchemaValue(data, name, Some(windows), parse)
         == ExpectedValue(SchemaCatalog.KindOf(name), SchemaCatalog.KeyOf(name), data, windows, parse)
  {
    SchemaCatalog.SchemaIsSection(request);
    var name := SchemaCatalog.GetSchema(request)[i].name;
    MapCatalogField(SchemaCatalog.KindOf(name), SchemaCatalog.KeyOf(name), data, windows, parse);
  }

  /** "2023-05-07" in `date_start` becomes "20230507". */
  lemma DateExample(parse: string -> Option<real>)
    ensures MapDefined(map["date_start" := Str("2023-05-07")], "date__date", None)
    ensures MapSchemaValue(map["date_start" := Str("2023-05-07")], "date__date", None, parse) == Str("20230507")
  {
    JoinedNameSplitsDate();
    HyphensRemoved();
  }

  /** The hyphens of an ISO date are removed. */
  lemma HyphensRemoved()
    ensures RemoveAll("2023-05-07", '-') == "20230507"
  {
    var y, m, d := "2023", "05", "07";
    DateHyphensRemoved(y, m, d);
    assert y + "-" + m + "-" + d == "2023-05-07";
    assert y + m + d == "20230507";
  }

  /** `y-m-d` loses exactly its two hyphens. */
  lemma DateHyphensRemoved(y: string, m: string, d: string)
    requires '-' !in y && '-' !in m && '-' !in d
    ensures RemoveAll(y + "-" + m + "-" + d, '-') == y + m + d
  {
    var h := "-";
    var a := y + h;
    var b := a + m;
    var c := b + h;
    assert RemoveAll(h, '-') == "";
    RemoveAllWithout(y, '-');
    RemoveAllWithout(m, '-');
    RemoveAllWithout(d, '-');
    RemoveAllAppend(y, h, '-');
    assert RemoveAll(a, '-') == y;
    RemoveAllAppend(a, m, '-');
    assert RemoveAll(b, '-') == y + m;
    RemoveAllAppend(b, h, '-');
    assert RemoveAll(c, '-') == y + m;
    RemoveAllAppend(c, d, '-');
  }

  /** The split of the one date name of the catalog. */
  lemma JoinedNameSplitsDate()
    ensures SplitPair("date__date", "__") == ("date", Some("date"))
  {
    assert NoDoubleUnderscore("date");
    SchemaCatalog.JoinedNameSplits("date", "date");
    assert "date" + "__" + "date" == "date__date";
  }

  // ----- getSchemaFromRequest -----

  /** One entry of the output schema: a requested name and its data type. */
  datatype SchemaField = SchemaField(name: string, dataType: string)

  /** The data type of the first catalog entry named `name`, or "" when there is none. */
  function LookupDataType(schema: seq<SchemaCatalog.Descriptor>, name: string): string
    decreases |schema|
  {
    if |schema| == 0 then ""
    else if schema[0].name == name then schema[0].dataType
    else LookupDataType(schema[1..], name)
  }

  /** The lookup finds the first entry with the name, and "" exactly when no entry has it. */
  lemma LookupFindsFirst(schema: seq<SchemaCatalog.Descriptor>, name: string)
    ensures (forall j :: 0 <= j < |schema| ==> schema[j].name != name) ==> LookupDataType(schema, name) == ""
    ensures forall j :: (0 <= j < |schema| && schema[j].name == name
                         && forall m :: 0 <= m < j ==> schema[m].name != name)
                        ==> LookupDataType(schema, name) == schema[j].dataType
  {
    if forall j :: 0 <= j < |schema| ==> schema[j].name != name {
      LookupAbsent(schema, name);
    }
    forall j | 0 <= j < |schema| && schema[j].name == name && (forall m :: 0 <= m < j ==> schema[m].name != name)
      ensures LookupDataType(schema, name) == schema[j].dataType
    {
      LookupFirst(schema, name, j);
    }
  }

  /** A name no entry has is looked up as "". */
  lemma {:induction false} LookupAbsent(schema: seq<SchemaCatalog.Descriptor>, name: string)
    requires forall j :: 0 <= j < |schema| ==> schema[j].name != name
    ensures LookupDataType(schema, name) == ""
    decreases |schema|
  {
    if |schema| > 0 {
      var tail := schema[1..];
      assert forall m :: 0 <= m < |tail| ==> tail[m] == schema[m + 1];
      LookupAbsent(tail, name);
    }
  }

  /** The first entry `j` with the name gives the lookup its data type. */
  lemma {:induction false} LookupFirst(schema: seq<SchemaCatalog.Descriptor>, name: string, j: nat)
    requires j < |schema| && schema[j].name == name
    requires forall m :: 0 <= m < j ==> schema[m].name != name
    ensures LookupDataType(schema, name) == schema[j].dataType
    decreases j
  {
    if j > 0 {
      var tail := schema[1..];
      assert schema[0].name != name;
      assert tail[j - 1] == schema[j];
      assert forall m :: 0 <= m < j - 1 ==> tail[m] == schema[m + 1];
      LookupFirst(tail, name, j - 1);
    }
  }

  /** In a table of distinct names, a name's lookup is its own entry's data type. */
  lemma LookupDistinct(schema: seq<SchemaCatalog.Descriptor>, j: nat)
    requires SchemaCatalog.DistinctNames(schema)
    requires j < |schema|
    ensures LookupDataType(schema, schema[j].name) == schema[j].dataType
  {
    LookupFindsFirst(schema, schema[j].name);
  }

  /**
   * Every field of the catalog is typed by its own entry: "STRING" for the
   * dimension kinds and "NUMBER" for the metric kinds.
   */
  lemma CatalogFieldTypes(request: Request, j: nat)
    requires j < |SchemaCatalog.GetSchema(request)|
    ensures
      var t := SchemaCatalog.GetSchema(request);
      && LookupDataType(t, t[j].name) == t[j].dataType
      && SchemaCatalog.TypedByGroup(t[j])
  {
    SchemaCatalog.SchemaIsSection(request);
    LookupDistinct(SchemaCatalog.GetSchema(request), j);
  }
}
