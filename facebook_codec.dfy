/**
 * The request planner of `FacebookClient`: how a Looker Studio field name
 * `group__key` becomes a Graph API field or breakdown, how the `fields` and
 * `breakdowns` strings are put together, and which report `level` and
 * `time_increment` follow from the fields string.
 */
module FacebookCodec {
  import opened Wrappers
  import opened JsStrings
  import SchemaCatalog
  import DataStudio

  /** A JavaScript value of type `string | false | undefined`, as the name mappers return it. */
  datatype JsName = JsFalse | JsUndefined | JsString(text: string)

  /** The second piece of `split("__")` as a JavaScript value: `undefined` when it is absent. */
  function LocalName(value: Option<string>): JsName {
    match value
    case None => JsUndefined
    case Some(v) => JsString(v)
  }

  /** `if (name)`: only a non-empty string is truthy here. */
  predicate Truthy(n: JsName) {
    n.JsString? && n.text != ""
  }

  /**
   * `getFbFieldName`: dates and breakdowns are never sent as fields, every
   * `actions__…` and `action_values__…` name asks for the whole nested field,
   * and any other name asks for its local key.
   */
  function FbFieldName(fieldName: string): (r: JsName)
    ensures r == JsFalse <==> SchemaCatalog.GroupOf(fieldName) in {"date", "breakdown"}
    ensures r == JsUndefined ==> !Contains(fieldName, "__")
    ensures r.JsString? ==> !Contains(r.text, "__")
  {
    SplitPairPieces(fieldName, "__");
    var (key, value) := SplitPair(fieldName, "__");
    if key == "date" || key == "breakdown" then JsFalse
    else if key == "actions" || key == "action_values" then JsString(key)
    else LocalName(value)
  }

  /** `getFbBreakdownName`: the local key of a `breakdown__…` name; `false` for any other. */
  function FbBreakdownName(fieldName: string): (r: JsName)
    ensures r != JsFalse <==> SchemaCatalog.GroupOf(fieldName) == "breakdown"
    ensures r == JsUndefined ==> !Contains(fieldName, "__")
    ensures r.JsString? ==> !Contains(r.text, "__")
  {
    SplitPairPieces(fieldName, "__");
    var (key, value) := SplitPair(fieldName, "__");
    if key == "breakdown" then LocalName(value) else JsFalse
  }

  /** What `getFbFieldName` gives for a name built by a schema constructor. */
  function ExpectedFieldName(g: SchemaCatalog.Group, key: string): JsName {
    match g
    case DateGroup => JsFalse
    case BreakdownGroup => JsFalse
    case ActionsGroup => JsString("actions")
    case ActionValuesGroup => JsString("action_values")
    case _ => JsString(key)
  }

  /** The catalog names map to Graph API fields by kind. */
  lemma FbFieldNameOfField(g: SchemaCatalog.Group, key: string)
    requires NoDoubleUnderscore(key)
    ensures FbFieldName(SchemaCatalog.NameOf(g, key)) == ExpectedFieldName(g, key)
    ensures FbBreakdownName(SchemaCatalog.NameOf(g, key))
      == (if g == SchemaCatalog.BreakdownGroup then JsString(key) else JsFalse)
  {
    SchemaCatalog.PrefixNamesGroup(g);
    SchemaCatalog.NameOfSplits(g, key);
  }

  /** Every field of the catalog asks for the Graph API field its kind calls for. */
  lemma SchemaFieldName(request: DataStudio.Request, i: nat)
    requires i < |SchemaCatalog.GetSchema(request)|
    ensures var name := SchemaCatalog.GetSchema(request)[i].name;
      && SchemaCatalog.BuiltName(name)
      && FbFieldName(name) == ExpectedFieldName(SchemaCatalog.KindOf(name), SchemaCatalog.KeyOf(name))
      && FbBreakdownName(name)
         == (if SchemaCatalog.KindOf(name) == SchemaCatalog.BreakdownGroup then JsString(SchemaCatalog.KeyOf(name)) else JsFalse)
  {
    SchemaCatalog.SchemaIsSection(request);
    var name := SchemaCatalog.GetSchema(request)[i].name;
    FbFieldNameOfField(SchemaCatalog.KindOf(name), SchemaCatalog.KeyOf(name));
  }

  /** A `date__…` name never reaches the fields string, whatever its key. */
  lemma DateNeverAField(key: string)
    ensures FbFieldName(SchemaCatalog.NameOf(SchemaCatalog.DateGroup, key)) == JsFalse
    ensures !Truthy(FbFieldName(SchemaCatalog.NameOf(SchemaCatalog.DateGroup, key)))
  {
    SchemaCatalog.NameOfSplits(SchemaCatalog.DateGroup, key);
  }

  /** A name the split does not cut has an undefined local key; it is neither a field nor a breakdown. */
  lemma UndelimitedName(fieldName: string)
    requires !Contains(fieldName, "__")
    requires fieldName != "actions" && fieldName != "action_values"
    ensures !Truthy(FbFieldName(fieldName)) && !Truthy(FbBreakdownName(fieldName))
  {
  }

  // ----- The fields and breakdowns strings -----

  /** The truthy mapped names of `names`, in request order, duplicates kept. */
  function Tokens(names: seq<string>, mapper: string -> JsName): (r: seq<string>)
    decreases |names|
  {
    if |names| == 0 then []
    else
      var n := mapper(names[|names| - 1]);
      Tokens(names[..|names| - 1], mapper) + (if Truthy(n) then [n.text] else [])
  }

  /** A token comes from some request name whose mapping is truthy, and every such mapping is a token. */
  lemma {:induction false} TokensElements(names: seq<string>, mapper: string -> JsName, x: string)
    ensures x in Tokens(names, mapper) <==>
      exists i :: 0 <= i < |names| && Truthy(mapper(names[i])) && mapper(names[i]).text == x
    decreases |names|
  {
    if |names| > 0 {
      var init := names[..|names| - 1];
      TokensElements(init, mapper, x);
      assert forall i :: 0 <= i < |init| ==> init[i] == names[i];
    }
  }

  /** The distinct elements of `xs`, each at the place it first occurs. */
  function Dedup<T(==)>(xs: seq<T>): (r: seq<T>)
    decreases |xs|
  {
    if |xs| == 0 then []
    else
      var d := Dedup(xs[..|xs| - 1]);
      if xs[|xs| - 1] in d then d else d + [xs[|xs| - 1]]
  }

  /** One more element is kept exactly when it is new. */
  lemma DedupSnoc<T>(xs: seq<T>, x: T)
    ensures Dedup(xs + [x]) == if x in Dedup(xs) then Dedup(xs) else Dedup(xs) + [x]
  {
    assert (xs + [x])[..|xs|] == xs;
  }

  /** One more request name adds its mapping when it is truthy. */
  lemma TokensSnoc(names: seq<string>, n: string, mapper: string -> JsName)
    ensures Tokens(names + [n], mapper)
      == Tokens(names, mapper) + (if Truthy(mapper(n)) then [mapper(n).text] else [])
  {
    assert (names + [n])[..|names|] == names;
  }

  /** The index where `x` first occurs in `xs`. */
  function FirstIndex<T(==)>(xs: seq<T>, x: T): (k: nat)
    requires x in xs
    ensures k < |xs| && xs[k] == x
    ensures forall m :: 0 <= m < k ==> xs[m] != x
  {
    if xs[0] == x then 0 else 1 + FirstIndex(xs[1..], x)
  }

  /** `Dedup` keeps exactly the elements of its input. */
  lemma {:induction false} DedupElements<T>(xs: seq<T>)
    ensures forall x :: x in Dedup(xs) <==> x in xs
    decreases |xs|
  {
    if |xs| > 0 {
      var init := xs[..|xs| - 1];
      DedupElements(init);
      assert xs == init + [xs[|xs| - 1]];
    }
  }

  /** `Dedup` never repeats an element. */
  lemma {:induction false} DedupDistinct<T>(xs: seq<T>)
    ensures forall i, j :: 0 <= i < j < |Dedup(xs)| ==> Dedup(xs)[i] != Dedup(xs)[j]
    decreases |xs|
  {
    if |xs| > 0 {
      DedupDistinct(xs[..|xs| - 1]);
    }
  }

  /** A first occurrence inside a prefix is the first occurrence in the whole sequence. */
  lemma FirstIndexExtend<T>(xs: seq<T>, y: T, x: T)
    requires x in xs
    ensures FirstIndex(xs + [y], x) == FirstIndex(xs, x)
  {
    assert (xs + [y])[FirstIndex(xs, x)] == x;
  }

  /** The elements of `Dedup(xs)` appear in the order of their first occurrences in `xs`. */
  lemma {:induction false} DedupFirstOccurrenceOrder<T>(xs: seq<T>)
    ensures forall x :: x in Dedup(xs) ==> x in xs
    ensures forall i, j :: 0 <= i < j < |Dedup(xs)| ==>
      FirstIndex(xs, Dedup(xs)[i]) < FirstIndex(xs, Dedup(xs)[j])
    decreases |xs|
  {
    DedupElements(xs);
    if |xs| > 0 {
      var init := xs[..|xs| - 1];
      var y := xs[|xs| - 1];
      var d := Dedup(init);
      DedupFirstOccurrenceOrder(init);
      assert xs == init + [y];
      forall x | x in d ensures FirstIndex(xs, x) == FirstIndex(init, x) {
        FirstIndexExtend(init, y, x);
      }
      if y !in d {
        DedupElements(init);
        assert y !in init;
        assert FirstIndex(xs, y) == |xs| - 1;
      }
    }
  }

  /** The tokens `getFieldsFromRequest` collects. */
  function FieldTokens(fields: seq<string>): seq<string> {
    Tokens(fields, FbFieldName)
  }

  /** The tokens `getBreakdownsFromRequest` collects. */
  function BreakdownTokens(fields: seq<string>): seq<string> {
    Tokens(fields, FbBreakdownName)
  }

  /** One more request name adds its field name when that is truthy. */
  lemma FieldTokensSnoc(fields: seq<string>, n: string)
    ensures FieldTokens(fields + [n])
      == FieldTokens(fields) + (if Truthy(FbFieldName(n)) then [FbFieldName(n).text] else [])
  {
    TokensSnoc(fields, n, FbFieldName);
  }

  /** One more request name adds its breakdown name when that is truthy. */
  lemma BreakdownTokensSnoc(fields: seq<string>, n: string)
    ensures BreakdownTokens(fields + [n])
      == BreakdownTokens(fields) + (if Truthy(FbBreakdownName(n)) then [FbBreakdownName(n).text] else [])
  {
    TokensSnoc(fields, n, FbBreakdownName);
  }

  /** The `fields` string: the distinct truthy field names, comma-joined. */
  function FieldsString(fields: seq<string>): string {
    Join(Dedup(FieldTokens(fields)), ",")
  }

  /** The `breakdowns` string: the distinct truthy breakdown names, comma-joined. */
  function BreakdownsString(fields: seq<string>): string {
    Join(Dedup(BreakdownTokens(fields)), ",")
  }

  /**
   * When no mapped name holds a comma, the comma-joined string splits back into
   * the distinct names in first-occurrence order: nothing lost, nothing repeated.
   */
  lemma JoinedTokensSplit(names: seq<string>, mapper: string -> JsName)
    requires |Dedup(Tokens(names, mapper))| >= 1
    requires forall i :: 0 <= i < |names| ==> mapper(names[i]).JsString? ==> ',' !in mapper(names[i]).text
    ensures Split(Join(Dedup(Tokens(names, mapper)), ","), ',') == Dedup(Tokens(names, mapper))
  {
    var d := Dedup(Tokens(names, mapper));
    DedupElements(Tokens(names, mapper));
    forall i | 0 <= i < |d| ensures ',' !in d[i] {
      TokensElements(names, mapper, d[i]);
    }
    SplitJoin(d, ',');
  }

  /** A request made only of `date__…` and `breakdown__…` fields sends an empty fields string. */
  lemma {:induction false} DatesAndBreakdownsSendNoFields(fields: seq<string>)
    requires forall i :: 0 <= i < |fields| ==>
      SchemaCatalog.GroupOf(fields[i]) == "date" || SchemaCatalog.GroupOf(fields[i]) == "breakdown"
    ensures FieldTokens(fields) == []
    ensures FieldsString(fields) == ""
    decreases |fields|
  {
    if |fields| > 0 {
      var init := fields[..|fields| - 1];
      assert forall i :: 0 <= i < |init| ==> init[i] == fields[i];
      DatesAndBreakdownsSendNoFields(init);
    }
  }

  // ----- Report level -----

  /** `getLevel`: the finest level whose names occur as substrings of the fields string. */
  function GetLevel(fields: string): (level: string)
    ensures level in {"ad", "adset", "campaign", "account"}
    ensures level != "account" ==> Contains(fields, level + "_name") || Contains(fields, level + "_id")
    ensures level != "ad" ==> !Contains(fields, "ad_name") && !Contains(fields, "ad_id")
    ensures level == "campaign" || level == "account" ==> !Contains(fields, "adset_name") && !Contains(fields, "adset_id")
    ensures level == "account" ==> !Contains(fields, "campaign_name") && !Contains(fields, "campaign_id")
  {
    assert "ad" + "_name" == "ad_name" && "ad" + "_id" == "ad_id";
    assert "adset" + "_name" == "adset_name" && "adset" + "_id" == "adset_id";
    assert "campaign" + "_name" == "campaign_name" && "campaign" + "_id" == "campaign_id";
    if Contains(fields, "ad_name") || Contains(fields, "ad_id") then "ad"
    else if Contains(fields, "adset_name") || Contains(fields, "adset_id") then "adset"
    else if Contains(fields, "campaign_name") || Contains(fields, "campaign_id") then "campaign"
    else "account"
  }

  /** Some element of `xs` contains `p`. */
  predicate SomeContains(xs: seq<string>, p: string) {
    exists i :: 0 <= i < |xs| && Contains(xs[i], p)
  }

  /** The level as a property of the list of fields, element by element. */
  function ListLevel(xs: seq<string>): string {
    if SomeContains(xs, "ad_name") || SomeContains(xs, "ad_id") then "ad"
    else if SomeContains(xs, "adset_name") || SomeContains(xs, "adset_id") then "adset"
    else if SomeContains(xs, "campaign_name") || SomeContains(xs, "campaign_id") then "campaign"
    else "account"
  }

  /** A comma-free pattern occurs in a comma-joined list exactly when it occurs in one element. */
  lemma ContainsInList(xs: seq<string>, p: string)
    requires ',' !in p && |p| > 0
    ensures Contains(Join(xs, ","), p) <==> SomeContains(xs, p)
  {
    ContainsJoin(xs, ',', p);
  }

  /** The level of a comma-joined list is decided element by element. */
  lemma LevelOfList(xs: seq<string>)
    ensures GetLevel(Join(xs, ",")) == ListLevel(xs)
  {
    ContainsInList(xs, "ad_name");
    ContainsInList(xs, "ad_id");
    ContainsInList(xs, "adset_name");
    ContainsInList(xs, "adset_id");
    ContainsInList(xs, "campaign_name");
    ContainsInList(xs, "campaign_id");
  }

  /** Lists with the same elements see the same patterns. */
  lemma SomeContainsSameElements(xs: seq<string>, ys: seq<string>, p: string)
    requires forall x :: x in xs <==> x in ys
    ensures SomeContains(xs, p) <==> SomeContains(ys, p)
  {
    if SomeContains(xs, p) {
      var i :| 0 <= i < |xs| && Contains(xs[i], p);
      assert xs[i] in ys;
      var j :| 0 <= j < |ys| && ys[j] == xs[i];
    }
    if SomeContains(ys, p) {
      var j :| 0 <= j < |ys| && Contains(ys[j], p);
      assert ys[j] in xs;
      var i :| 0 <= i < |xs| && xs[i] == ys[j];
    }
  }

  /** Reordering (or repeating) the names of a comma-joined list never changes the level. */
  lemma LevelIgnoresOrder(xs: seq<string>, ys: seq<string>)
    requires forall x :: x in xs <==> x in ys
    ensures GetLevel(Join(xs, ",")) == GetLevel(Join(ys, ","))
  {
    LevelOfList(xs);
    LevelOfList(ys);
    SomeContainsSameElements(xs, ys, "ad_name");
    SomeContainsSameElements(xs, ys, "ad_id");
    SomeContainsSameElements(xs, ys, "adset_name");
    SomeContainsSameElements(xs, ys, "adset_id");
    SomeContainsSameElements(xs, ys, "campaign_name");
    SomeContainsSameElements(xs, ys, "campaign_id");
  }

  /** An ad name next to a campaign name asks for the ad level. */
  lemma AdBeatsCampaign()
    ensures GetLevel(Join(["ad_name", "campaign_name"], ",")) == "ad"
  {
    var xs := ["ad_name", "campaign_name"];
    assert OccursAt(xs[0], "ad_name", 0);
    ContainsAt(xs[0], "ad_name", 0);
    LevelOfList(xs);
  }

  // ----- Time increment -----

  /** The two values of `time_increment`: `1` (daily rows) and `"all_days"`. */
  datatype TimeIncrement = Daily | AllDays {
    /** The value as it is written into the query string. */
    function Rendered(): string {
      match this
      case Daily => "1"
      case AllDays => "all_days"
    }
  }

  /** `getTimeIncrementFromFields`: daily rows when the string mentions "date" anywhere. */
  function TimeIncrementFromFields(fields: string): (t: TimeIncrement)
    ensures t == Daily <==> exists k: nat :: OccursAt(fields, "date", k)
  {
    ContainsIff(fields, "date");
    if Contains(fields, "date") then Daily else AllDays
  }

  /** Over a comma-joined list the test is whether some element mentions "date". */
  lemma TimeIncrementOfList(xs: seq<string>)
    ensures TimeIncrementFromFields(Join(xs, ",")) == Daily <==> SomeContains(xs, "date")
  {
    ContainsInList(xs, "date");
  }

  /** A request whose only fields are dates and breakdowns is not split into days. */
  lemma DateFieldAloneGivesAllDays(fields: seq<string>)
    requires forall i :: 0 <= i < |fields| ==>
      SchemaCatalog.GroupOf(fields[i]) == "date" || SchemaCatalog.GroupOf(fields[i]) == "breakdown"
    ensures TimeIncrementFromFields(FieldsString(fields)) == AllDays
  {
    DatesAndBreakdownsSendNoFields(fields);
    ContainsIff("", "date");
  }
}
