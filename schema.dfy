/**
 * The field catalog of the connector (`class Schema`): typed descriptor
 * constructors, each naming its field `<group>__<key>`, and the fixed table
 * built from them.
 */
module SchemaCatalog {
  import opened Wrappers
  import opened JsStrings
  import Utils
  import opened DataStudio

  datatype ConceptType = DimensionConcept | MetricConcept

  /** The `semantics` member of a descriptor; `semanticGroup` is absent for most fields. */
  datatype Semantics = Semantics(conceptType: ConceptType, semanticType: string, semanticGroup: Option<string>)

  /**
   * A field descriptor. `isDefault` is present only on date fields and
   * `formula` only on aggregated fields and percentages, as in the object
   * literals the constructors return; `caption` is their `label` key.
   */
  datatype Descriptor = Descriptor(
    name: string,
    caption: string,
    group: string,
    dataType: string,
    isDefault: Option<bool>,
    formula: Option<string>,
    semantics: Semantics)

  /** `x = x || d` for an optional string argument: missing and empty both take the default. */
  function OrDefault(x: Option<string>, d: string): (r: string)
    ensures x.Some? && x.value != "" ==> r == x.value
    ensures x.None? || x.value == "" ==> r == d
  {
    if x.Some? && x.value != "" then x.value else d
  }

  /**
   * What `fromKeyToLabel` makes of position `k`: an underscore becomes a
   * space, a `[a-z]` letter that begins the key or follows an underscore
   * or whitespace is upper-cased, and every other character is kept.
   */
  function LabelChar(key: string, k: nat): char
    requires k < |key|
  {
    if key[k] == '_' then ' '
    else if Utils.IsLower(key[k]) && (k == 0 || key[k - 1] == '_' || Utils.IsSpace(key[k - 1])) then Utils.ToUpper(key[k])
    else key[k]
  }

  /** `fromKeyToLabel(key)`: every '_' becomes a space, then each word is title-cased. */
  function FromKeyToLabel(key: string): (r: string)
    ensures |r| == |key|
    ensures forall k :: 0 <= k < |key| ==> r[k] == LabelChar(key, k)
    ensures '_' !in r
  {
    var spaced := ReplaceAll(key, '_', ' ');
    var r := Utils.ToTitleCase(spaced);
    forall k | 0 <= k < |r| ensures r[k] == LabelChar(key, k) {
      Utils.TitleCaseAt(spaced, k);
    }
    r
  }

  /** The default label of the `ad_id` dimension. */
  lemma AdIdLabel()
    ensures FromKeyToLabel("ad_id") == "Ad Id"
  {
    var r := FromKeyToLabel("ad_id");
    assert r[0] == LabelChar("ad_id", 0) && r[1] == LabelChar("ad_id", 1) && r[2] == LabelChar("ad_id", 2);
    assert r[3] == LabelChar("ad_id", 3) && r[4] == LabelChar("ad_id", 4);
  }

  /** A name joined at `__` after a clean prefix splits back at its first `__`. */
  lemma JoinedNameSplits(prefix: string, key: string)
    requires CleanPrefix(prefix)
    ensures GroupOf(prefix + "__" + key) == prefix
    ensures NoDoubleUnderscore(key) ==> SplitPair(prefix + "__" + key, "__") == (prefix, Some(key))
  {
    FirstDelimiterAfter(prefix, key);
    assert (prefix + "__" + key)[..|prefix|] == prefix;
    if NoDoubleUnderscore(key) {
      SplitPairJoined(prefix, key);
    }
  }

  /** A prefix that the first `__` of a constructed name always follows. */
  predicate CleanPrefix(prefix: string) {
    NoDoubleUnderscore(prefix) && (prefix == "" || prefix[|prefix| - 1] != '_')
  }

  /** The group a name is dispatched on: the text before its first `__`. */
  function GroupOf(name: string): string {
    SplitPair(name, "__").0
  }

  /** The ten kinds of descriptor, one per constructor. */
  datatype Group =
    | DateGroup | ActionValuesGroup | ActionsGroup | BreakdownGroup | DimensionGroup
    | CostGroup | MetricGroup | AggregatedMetricGroup | AggregatedCostGroup | PercentGroup

  /** The prefix that a constructor of each kind puts before `__`. */
  function Prefix(g: Group): (p: string)
    ensures CleanPrefix(p)
  {
    match g
    case DateGroup => assert CleanPrefix("date"); "date"
    case ActionValuesGroup => assert CleanPrefix("action_values"); "action_values"
    case ActionsGroup => assert CleanPrefix("actions"); "actions"
    case BreakdownGroup => assert CleanPrefix("breakdown"); "breakdown"
    case DimensionGroup => assert CleanPrefix("dimension"); "dimension"
    case CostGroup => assert CleanPrefix("cost"); "cost"
    case MetricGroup => assert CleanPrefix("metric"); "metric"
    case AggregatedMetricGroup => assert CleanPrefix("aggregated_metric"); "aggregated_metric"
    case AggregatedCostGroup => assert CleanPrefix("aggregated_cost"); "aggregated_cost"
    case PercentGroup => assert CleanPrefix("percent"); "percent"
  }

  /** The kind a prefix names, if any. */
  function GroupNamed(p: string): (r: Option<Group>)
    ensures r.Some? ==> Prefix(r.value) == p
  {
    if p == "date" then Some(DateGroup)
    else if p == "action_values" then Some(ActionValuesGroup)
    else if p == "actions" then Some(ActionsGroup)
    else if p == "breakdown" then Some(BreakdownGroup)
    else if p == "dimension" then Some(DimensionGroup)
    else if p == "cost" then Some(CostGroup)
    else if p == "metric" then Some(MetricGroup)
    else if p == "aggregated_metric" then Some(AggregatedMetricGroup)
    else if p == "aggregated_cost" then Some(AggregatedCostGroup)
    else if p == "percent" then Some(PercentGroup)
    else None
  }

  /** Distinct kinds have distinct prefixes, so a prefix names at most one kind. */
  lemma PrefixNamesGroup(g: Group)
    ensures GroupNamed(Prefix(g)) == Some(g)
  {
  }

  /** The kinds whose fields are dimensions of type STRING; all others are NUMBER metrics. */
  predicate IsDimensionGroup(g: Group) {
    g == DateGroup || g == BreakdownGroup || g == DimensionGroup
  }

  /** The kinds whose descriptors carry a display formula. */
  predicate IsFormulaGroup(g: Group) {
    g == AggregatedMetricGroup || g == AggregatedCostGroup || g == PercentGroup
  }

  /** The kinds typed by the configured currency. */
  predicate IsCurrencyGroup(g: Group) {
    g == ActionValuesGroup || g == CostGroup || g == AggregatedCostGroup
  }

  /** The kinds typed as plain numbers. */
  predicate IsCountGroup(g: Group) {
    g == ActionsGroup || g == MetricGroup || g == AggregatedMetricGroup
  }

  /** How a kind fixes the types, formula and default flag of its descriptors. */
  predicate TypedAs(d: Descriptor, g: Group) {
    && (d.semantics.conceptType == DimensionConcept <==> IsDimensionGroup(g))
    && d.dataType == (if IsDimensionGroup(g) then "STRING" else "NUMBER")
    && (d.formula.Some? <==> IsFormulaGroup(g))
    && (d.isDefault.Some? <==> g == DateGroup)
    && (IsCountGroup(g) ==> d.semantics.semanticType == "NUMBER")
    && (g == PercentGroup ==> d.semantics.semanticType == "PERCENT" && d.semantics.semanticGroup == Some("NUMERIC"))
  }

  /** A descriptor of a currency kind takes its semantic type from the configured currency. */
  predicate CurrencyAs(d: Descriptor, g: Group, currency: string) {
    IsCurrencyGroup(g) ==> d.semantics.semanticType == currency && d.semantics.semanticGroup == Some("CURRENCY")
  }

  /** `name` is the one a constructor of kind `g` gives to `key`: see `NameOf`. */
  predicate NamedAs(name: string, g: Group, key: string) {
    name == NameOf(g, key)
  }

  /**
   * The `group__key` name a constructor of kind `g` gives to `key`: the
   * kind's prefix, the separator, then the key unchanged.
   */
  function NameOf(g: Group, key: string): (name: string)
    ensures |name| == |Prefix(g)| + 2 + |key|
    ensures name[..|Prefix(g)|] == Prefix(g) && name[|Prefix(g)|..|Prefix(g)| + 2] == "__"
    ensures name[|Prefix(g)| + 2..] == key
  {
    Prefix(g) + "__" + key
  }

  /**
   * Splitting a constructed name at the first `__` gives back the kind's
   * prefix, and the key as well when the key holds no `__` of its own.
   */
  lemma NameOfSplits(g: Group, key: string)
    ensures GroupOf(NameOf(g, key)) == Prefix(g)
    ensures NoDoubleUnderscore(key) ==> SplitPair(NameOf(g, key), "__") == (Prefix(g), Some(key))
  {
    JoinedNameSplits(Prefix(g), key);
  }

  /** A descriptor whose name's group is a known kind, typed as that kind. */
  predicate TypedByGroup(d: Descriptor) {
    var g := GroupNamed(GroupOf(d.name));
    g.Some? && TypedAs(d, g.value)
  }

  /** A descriptor whose name's group, if a currency kind, gives it the configured currency. */
  predicate CurrencyFrom(d: Descriptor, currency: string) {
    var g := GroupNamed(GroupOf(d.name));
    g.Some? && CurrencyAs(d, g.value, currency)
  }

  /**
   * The text a constructor shows: the given label unless it is missing or
   * empty, when the key's title-cased form stands; and the given group, or
   * the kind's own group when none is given.
   */
  predicate ShownAs(d: Descriptor, key: string, caption: Option<string>, group: Option<string>, fallback: string) {
    && (caption.Some? && caption.value != "" ==> d.caption == caption.value)
    && (caption.None? || caption.value == "" ==> d.caption == FromKeyToLabel(key))
    && (group.Some? && group.value != "" ==> d.group == group.value)
    && (group.None? || group.value == "" ==> d.group == fallback)
  }

  function Date(key: string, semanticType: string, caption: Option<string>, isDefault: Option<bool>): (d: Descriptor)
    ensures ShownAs(d, key, caption, None, "Date")
    ensures d.semantics.semanticType == semanticType && d.semantics.semanticGroup == Some("DATETIME")
    ensures d.isDefault == Some(true) <==> isDefault == Some(true)
    ensures NamedAs(d.name, DateGroup, key) && TypedAs(d, DateGroup)
  {
    Descriptor(NameOf(DateGroup, key), OrDefault(caption, FromKeyToLabel(key)), "Date", "STRING",
      Some(isDefault == Some(true)), None, Semantics(DimensionConcept, semanticType, Some("DATETIME")))
  }

  function ActionValues(request: Request, key: string, caption: Option<string>): (d: Descriptor)
    ensures ShownAs(d, key, caption, None, "Action Values")
    ensures NamedAs(d.name, ActionValuesGroup, key) && TypedAs(d, ActionValuesGroup)
    ensures CurrencyAs(d, ActionValuesGroup, request.configParams.currencyType)
  {
    Descriptor(NameOf(ActionValuesGroup, key), OrDefault(caption, FromKeyToLabel(key)), "Action Values", "NUMBER",
      None, None, Semantics(MetricConcept, request.configParams.currencyType, Some("CURRENCY")))
  }

  function Actions(key: string, caption: Option<string>): (d: Descriptor)
    ensures ShownAs(d, key, caption, None, "Actions")
    ensures NamedAs(d.name, ActionsGroup, key) && TypedAs(d, ActionsGroup)
  {
    Descriptor(NameOf(ActionsGroup, key), OrDefault(caption, FromKeyToLabel(key)), "Actions", "NUMBER",
      None, None, Semantics(MetricConcept, "NUMBER", None))
  }

  function Breakdown(key: string, caption: Option<string>): (d: Descriptor)
    ensures ShownAs(d, key, caption, None, "Breakdown")
    ensures d.semantics.semanticType == "TEXT"
    ensures NamedAs(d.name, BreakdownGroup, key) && TypedAs(d, BreakdownGroup)
  {
    Descriptor(NameOf(BreakdownGroup, key), OrDefault(caption, FromKeyToLabel(key)), "Breakdown", "STRING",
      None, None, Semantics(DimensionConcept, "TEXT", None))
  }

  function Dimension(key: string, caption: Option<string>, group: Option<string>, semanticType: Option<string>): (d: Descriptor)
    ensures ShownAs(d, key, caption, group, "Dimensions")
    ensures semanticType.Some? && semanticType.value != "" ==> d.semantics.semanticType == semanticType.value
    ensures semanticType.None? || semanticType.value == "" ==> d.semantics.semanticType == "TEXT"
    ensures NamedAs(d.name, DimensionGroup, key) && TypedAs(d, DimensionGroup)
  {
    Descriptor(NameOf(DimensionGroup, key), OrDefault(caption, FromKeyToLabel(key)), OrDefault(group, "Dimensions"), "STRING",
      None, None, Semantics(DimensionConcept, OrDefault(semanticType, "TEXT"), None))
  }

  function Cost(request: Request, key: string, caption: Option<string>, group: Option<string>): (d: Descriptor)
    ensures ShownAs(d, key, caption, group, "Costs")
    ensures NamedAs(d.name, CostGroup, key) && TypedAs(d, CostGroup)
    ensures CurrencyAs(d, CostGroup, request.configParams.currencyType)
  {
    Descriptor(NameOf(CostGroup, key), OrDefault(caption, FromKeyToLabel(key)), OrDefault(group, "Costs"), "NUMBER",
      None, None, Semantics(MetricConcept, request.configParams.currencyType, Some("CURRENCY")))
  }

  function Metric(key: string, caption: Option<string>, group: Option<string>): (d: Descriptor)
    ensures ShownAs(d, key, caption, group, "Metrics")
    ensures NamedAs(d.name, MetricGroup, key) && TypedAs(d, MetricGroup)
  {
    Descriptor(NameOf(MetricGroup, key), OrDefault(caption, FromKeyToLabel(key)), OrDefault(group, "Metrics"), "NUMBER",
      None, None, Semantics(MetricConcept, "NUMBER", None))
  }

  function AggregatedMetric(key: string, formula: string, caption: Option<string>, group: Option<string>): (d: Descriptor)
    ensures ShownAs(d, key, caption, group, "Metrics")
    ensures d.formula == Some(formula)
    ensures NamedAs(d.name, AggregatedMetricGroup, key) && TypedAs(d, AggregatedMetricGroup)
  {
    Descriptor(NameOf(AggregatedMetricGroup, key), OrDefault(caption, FromKeyToLabel(key)), OrDefault(group, "Metrics"), "NUMBER",
      None, Some(formula), Semantics(MetricConcept, "NUMBER", None))
  }

  function AggregatedCost(request: Request, key: string, formula: string, caption: Option<string>, group: Option<string>): (d: Descriptor)
    ensures ShownAs(d, key, caption, group, "Costs")
    ensures d.formula == Some(formula)
    ensures NamedAs(d.name, AggregatedCostGroup, key) && TypedAs(d, AggregatedCostGroup)
    ensures CurrencyAs(d, AggregatedCostGroup, request.configParams.currencyType)
  {
    Descriptor(NameOf(AggregatedCostGroup, key), OrDefault(caption, FromKeyToLabel(key)), OrDefault(group, "Costs"), "NUMBER",
      None, Some(formula), Semantics(MetricConcept, request.configParams.currencyType, Some("CURRENCY")))
  }

  function Percent(key: string, formula: string, caption: Option<string>, group: Option<string>): (d: Descriptor)
    ensures ShownAs(d, key, caption, group, "Metrics")
    ensures d.formula == Some(formula)
    ensures NamedAs(d.name, PercentGroup, key) && TypedAs(d, PercentGroup)
  {
    Descriptor(NameOf(PercentGroup, key), OrDefault(caption, FromKeyToLabel(key)), OrDefault(group, "Metrics"), "NUMBER",
      None, Some(formula), Semantics(MetricConcept, "PERCENT", Some("NUMERIC")))
  }

  /** The `// Actions` section of the table: key and label. */
  const ActionsEntries: seq<(string, string)> := [
    ("rsvp", "RSVP"),
    ("video_view", "Video Views"),
    ("landing_page_view", "Landing Page Views"),
    ("comment", "Comments"),
    ("like", "Likes"),
    ("link_click", "Link Clicks"),
    ("onsite_conversion.post_save", "Post saves"),
    ("offsite_conversion.fb_pixel_add_to_cart", "Website Adds to Cart Conversions"),
    ("offsite_conversion.fb_pixel_initiate_checkout", "Website Checkout Initiated Conversions"),
    ("offsite_conversion.fb_pixel_purchase", "Website Purchase Conversions"),
    ("offsite_conversion.fb_pixel_view_content", "Website View Content Conversions"),
    ("post", "Post Shares")
  ]

  /** The `// Action Values` section: key and label. */
  const ActionValuesEntries: seq<(string, string)> := [
    ("offsite_conversion.fb_pixel_add_to_cart", "Website Adds to Cart Conversion Value"),
    ("offsite_conversion.fb_pixel_initiate_checkout", "Website Checkout Initiated Conversion Value"),
    ("offsite_conversion.fb_pixel_purchase", "Website Purchase Conversion Value"),
    ("offsite_conversion.fb_pixel_view_content", "Website View Content Conversion Value"),
    ("omni_add_to_cart", "Omni Adds to Cart Converion Value"),
    ("omni_initiated_checkout", "Omni Checkout Initiated Converion Value"),
    ("omni_purchase", "Omni Purchase Converion Value"),
    ("omni_view_content", "Omni View Content Converion Value")
  ]

  /** The `// Breakdown` section: keys only, labels default. */
  const BreakdownKeys: seq<string> := [
    "ad_format_asset", "age", "body_asset", "call_to_action_asset", "country", "description_asset",
    "gender", "image_asset", "impression_device", "link_url_asset", "product_id", "region",
    "title_asset", "video_asset", "dma", "frequency_value",
    "hourly_stats_aggregated_by_advertiser_time_zone", "hourly_stats_aggregated_by_audience_time_zone",
    "place_page_id", "publisher_platform", "platform_position", "device_platform"
  ]

  /** The `// Dimensions` section: keys only. */
  const DimensionKeys: seq<string> := [
    "ad_id", "ad_name", "adset_id", "adset_name", "buying_type", "campaign_id", "campaign_name",
    "conversion_rate_ranking", "engagement_rate_ranking", "objective", "quality_ranking"
  ]

  /** The aggregated costs of the `// Costs` section: key, formula and label if given. */
  const AggregatedCostEntries: seq<(string, string, Option<string>)> := [
    ("cost_per_estimated_ad_recallers", "Sum(cost__spend) / (Sum(metric__estimated_ad_recallers) / 1000)", None),
    ("cost_per_inline_link_click", "Sum(cost__spend) / Sum(metric__inline_link_clicks)", None),
    ("cost_per_inline_post_engagement", "Sum(cost__spend) / Sum(metric__inline_post_engagement)", None),
    ("cost_per_unique_click", "Sum(cost__spend) / Sum(unique_clicks)", None),
    ("cost_per_unique_inline_link_click", "Sum(cost__spend) / Sum(metric__cost_per_inline_link_click)", None),
    ("cpc", "Sum(cost__spend) / Sum(metric__clicks)", Some("CPC")),
    ("cpm", "Sum(cost__spend) / (Sum(metric__impressions) / 1000)", Some("CPM")),
    ("cpp", "Sum(cost__spend) / (Sum(metric__reach / 1000)", Some("CPP"))
  ]

  /** The plain costs that close the `// Costs` section. */
  const CostKeys: seq<string> := ["social_spend", "spend"]

  /** The plain metrics of the `// Metrics` section. */
  const MetricKeys: seq<string> := [
    "clicks", "deeplink_clicks", "estimated_ad_recall_rate", "estimated_ad_recallers",
    "full_view_impressions", "full_view_reach", "impressions", "inline_link_clicks",
    "inline_post_engagement", "instant_experience_clicks_to_open", "instant_experience_clicks_to_start",
    "instant_experience_outbound_clicks", "newsfeed_avg_position", "newsfeed_clicks",
    "newsfeed_impressions", "reach", "unique_clicks", "unique_inline_link_clicks"
  ]

  /** The `// Percents` section: key, formula and label if given. */
  const PercentEntries: seq<(string, string, Option<string>)> := [
    ("inline_link_click_ctr", "Sum(metric__inline_link_clicks) / Sum(metric__impressions)", None),
    ("ctr", "Sum(metric__clicks) / Sum(metric__impressions)", Some("CTR")),
    ("unique_ctr", "Sum(metric__unique_clicks) / Sum(metric__reach)", None),
    ("unique_inline_link_click_ctr", "Sum(metric__unique_inline_link_clicks) / Sum(metric__reach)", None),
    ("unique_link_clicks_ctr", "Sum(actions__link_click) / Sum(metric__reach)", None)
  ]

  function ActionsOf(entries: seq<(string, string)>): seq<Descriptor> {
    seq(|entries|, i requires 0 <= i < |entries| => Actions(entries[i].0, Some(entries[i].1)))
  }

  function ActionValuesOf(request: Request, entries: seq<(string, string)>): seq<Descriptor> {
    seq(|entries|, i requires 0 <= i < |entries| => ActionValues(request, entries[i].0, Some(entries[i].1)))
  }

  function BreakdownsOf(keys: seq<string>): seq<Descriptor> {
    seq(|keys|, i requires 0 <= i < |keys| => Breakdown(keys[i], None))
  }

  /** The `// Date` section: key, semantic type, label and default flag. */
  const DateEntries: seq<(string, string, string, bool)> := [("date", "YEAR_MONTH_DAY", "Date", true)]

  function DatesOf(entries: seq<(string, string, string, bool)>): seq<Descriptor> {
    seq(|entries|, i requires 0 <= i < |entries| =>
      Date(entries[i].0, entries[i].1, Some(entries[i].2), Some(entries[i].3)))
  }

  function DimensionsOf(keys: seq<string>): seq<Descriptor> {
    seq(|keys|, i requires 0 <= i < |keys| => Dimension(keys[i], None, None, None))
  }

  function AggregatedCostsOf(request: Request, entries: seq<(string, string, Option<string>)>): seq<Descriptor> {
    seq(|entries|, i requires 0 <= i < |entries| =>
      AggregatedCost(request, entries[i].0, entries[i].1, entries[i].2, None))
  }

  function CostsOf(request: Request, keys: seq<string>): seq<Descriptor> {
    seq(|keys|, i requires 0 <= i < |keys| => Cost(request, keys[i], None, None))
  }

  function MetricsOf(keys: seq<string>): seq<Descriptor> {
    seq(|keys|, i requires 0 <= i < |keys| => Metric(keys[i], None, None))
  }

  /** The aggregated metrics that close the `// Metrics` section: key and formula. */
  const AggregatedMetricEntries: seq<(string, string)> := [("frequency", "Sum(metric__impressions)/ Sum(metric__reach)")]

  function AggregatedMetricsOf(entries: seq<(string, string)>): seq<Descriptor> {
    seq(|entries|, i requires 0 <= i < |entries| => AggregatedMetric(entries[i].0, entries[i].1, None, None))
  }

  function PercentsOf(entries: seq<(string, string, Option<string>)>): seq<Descriptor> {
    seq(|entries|, i requires 0 <= i < |entries| => Percent(entries[i].0, entries[i].1, entries[i].2, None))
  }

  /**
   * `getSchema()`: the table, section by section in source order: actions,
   * action values, breakdowns, the date, dimensions, costs (aggregated, then
   * plain), metrics (plain, then aggregated) and percentages. The request is
   * read only for its currency.
   */
  function GetSchema(request: Request): (t: seq<Descriptor>)
    ensures |t| == 88
  {
    ActionsOf(ActionsEntries) + ActionValuesOf(request, ActionValuesEntries) + BreakdownsOf(BreakdownKeys)
      + DatesOf(DateEntries) + DimensionsOf(DimensionKeys)
      + (AggregatedCostsOf(request, AggregatedCostEntries) + CostsOf(request, CostKeys))
      + (MetricsOf(MetricKeys) + AggregatedMetricsOf(AggregatedMetricEntries))
      + PercentsOf(PercentEntries)
  }

  // ----- What the table promises -----

  /** The keys of a list of (key, label) entries. */
  function Firsts(entries: seq<(string, string)>): (keys: seq<string>)
    ensures |keys| == |entries| && forall i :: 0 <= i < |entries| ==> keys[i] == entries[i].0
  {
    seq(|entries|, i requires 0 <= i < |entries| => entries[i].0)
  }

  /** The keys of a list of (key, formula, label) entries. */
  function FirstsOfTriples(entries: seq<(string, string, Option<string>)>): (keys: seq<string>)
    ensures |keys| == |entries| && forall i :: 0 <= i < |entries| ==> keys[i] == entries[i].0
  {
    seq(|entries|, i requires 0 <= i < |entries| => entries[i].0)
  }

  predicate DistinctKeys(keys: seq<string>) {
    forall i, j :: 0 <= i < j < |keys| ==> keys[i] != keys[j]
  }

  /** Keys with no `__` of their own, so that the names built from them split back. */
  predicate CleanKeys(keys: seq<string>) {
    forall i :: 0 <= i < |keys| ==> NoDoubleUnderscore(keys[i])
  }

  /** No two descriptors share a name, so every name selects one field. */
  predicate DistinctNames(t: seq<Descriptor>) {
    forall i, j :: 0 <= i < j < |t| ==> t[i].name != t[j].name
  }

  /** Where each kind's run sits in the table, in source order. */
  function Rank(g: Group): (n: nat)
    ensures n < 10
  {
    match g
    case ActionsGroup => 0
    case ActionValuesGroup => 1
    case BreakdownGroup => 2
    case DateGroup => 3
    case DimensionGroup => 4
    case AggregatedCostGroup => 5
    case CostGroup => 6
    case MetricGroup => 7
    case AggregatedMetricGroup => 8
    case PercentGroup => 9
  }

  /** The rank of the kind a descriptor's name names; 10 when it names none. */
  function RankOf(d: Descriptor): (n: nat)
    ensures n < 10 <==> GroupNamed(GroupOf(d.name)).Some?
  {
    var g := GroupNamed(GroupOf(d.name));
    if g.Some? then Rank(g.value) else 10
  }

  /** The name of the one field the table marks as default. */
  const DefaultFieldName: string := NameOf(DateGroup, "date")

  /**
   * A name that splits at its first `__` into a kind's prefix and a key with
   * no `__` of its own, and is the name that kind's constructor gives that key.
   */
  predicate BuiltName(name: string) {
    var (p, key) := SplitPair(name, "__");
    && GroupNamed(p).Some? && key.Some? && NoDoubleUnderscore(key.value)
    && name == NameOf(GroupNamed(p).value, key.value)
  }

  /** A constructor's name for a key free of `__` is a built name of its kind. */
  lemma NameOfBuilt(g: Group, key: string)
    requires NoDoubleUnderscore(key)
    ensures GroupOf(NameOf(g, key)) == Prefix(g) && BuiltName(NameOf(g, key))
  {
    NameOfSplits(g, key);
    PrefixNamesGroup(g);
  }

  /** The kind of a built name. */
  function KindOf(name: string): (g: Group)
    requires BuiltName(name)
    ensures GroupOf(name) == Prefix(g)
  {
    GroupNamed(GroupOf(name)).value
  }

  /** The key of a built name, which the name ends with. */
  function KeyOf(name: string): (key: string)
    requires BuiltName(name)
    ensures NoDoubleUnderscore(key) && name == NameOf(KindOf(name), key)
  {
    SplitPair(name, "__").1.value
  }

  /**
   * A run of descriptors with distinct names, whose kinds have ranks in
   * `[lo, hi)` and come in rank order, each built by its kind's constructor,
   * typed as its kind, taking the currency `currency` when its kind calls for
   * one, and marked as default exactly when it is the default date field.
   */
  predicate Section(t: seq<Descriptor>, lo: nat, hi: nat, currency: string) {
    && DistinctNames(t)
    && (forall i :: 0 <= i < |t| ==> EntryIn(t[i], lo, hi, currency))
    && (forall i, j :: 0 <= i < j < |t| ==> RankOf(t[i]) <= RankOf(t[j]))
  }

  /**
   * One descriptor of a section: its kind's rank lies in `[lo, hi)`, its name
   * is built by that kind, it is typed as that kind and takes the currency
   * when the kind calls for one, and it is the default field exactly when it
   * is the default date field.
   */
  predicate EntryIn(d: Descriptor, lo: nat, hi: nat, currency: string) {
    && lo <= RankOf(d) < hi
    && BuiltName(d.name)
    && TypedByGroup(d)
    && CurrencyFrom(d, currency)
    && (d.isDefault == Some(true) <==> d.name == DefaultFieldName)
  }

  /** A descriptor built by kind `g` from a key free of `__` is an entry of that kind's rank. */
  lemma PartEntry(d: Descriptor, g: Group, key: string, currency: string)
    requires NamedAs(d.name, g, key) && TypedAs(d, g) && CurrencyAs(d, g, currency) && NoDoubleUnderscore(key)
    requires g == DateGroup ==> (d.isDefault == Some(true) <==> d.name == DefaultFieldName)
    ensures RankOf(d) == Rank(g) && EntryIn(d, Rank(g), Rank(g) + 1, currency)
  {
    NameOfBuilt(g, key);
    PrefixNamesGroup(g);
    if g != DateGroup {
      NameOfSplits(DateGroup, "date");
      PrefixNamesGroup(DateGroup);
      assert Prefix(g) != Prefix(DateGroup);
      assert GroupOf(d.name) != GroupOf(DefaultFieldName);
    }
  }

  /** The descriptors a constructor of kind `g` builds for `keys`, in order. */
  predicate Part(t: seq<Descriptor>, g: Group, keys: seq<string>, currency: string) {
    && |t| == |keys|
    && forall i :: 0 <= i < |t| ==> NamedAs(t[i].name, g, keys[i]) && TypedAs(t[i], g) && CurrencyAs(t[i], g, currency)
  }

  /** Keys of one list never occur in another. */
  predicate KeysApart(a: seq<string>, b: seq<string>) {
    forall i, j :: 0 <= i < |a| && 0 <= j < |b| ==> a[i] != b[j]
  }

  /** Two key lists, each without repeats and sharing no key, concatenate without repeats. */
  lemma DistinctKeysConcat(a: seq<string>, b: seq<string>)
    requires DistinctKeys(a) && DistinctKeys(b) && KeysApart(a, b)
    ensures DistinctKeys(a + b)
  {
    forall i, j | 0 <= i < j < |a + b| ensures (a + b)[i] != (a + b)[j] {
      if j < |a| {
        assert (a + b)[i] == a[i] && (a + b)[j] == a[j];
      } else if i < |a| {
        assert (a + b)[i] == a[i] && (a + b)[j] == b[j - |a|];
      } else {
        assert (a + b)[i] == b[i - |a|] && (a + b)[j] == b[j - |a|];
      }
    }
  }

  /** Lists apart from a third stay apart from it when concatenated. */
  lemma KeysApartConcat(a: seq<string>, b: seq<string>, c: seq<string>)
    requires KeysApart(a, c) && KeysApart(b, c)
    ensures KeysApart(a + b, c)
  {
    forall i, j | 0 <= i < |a + b| && 0 <= j < |c| ensures (a + b)[i] != c[j] {
      if i < |a| {
        assert (a + b)[i] == a[i];
      } else {
        assert (a + b)[i] == b[i - |a|];
      }
    }
  }

  /** One kind built from distinct keys free of `__` is a section. */
  lemma PartIsSection(t: seq<Descriptor>, g: Group, keys: seq<string>, currency: string)
    requires Part(t, g, keys, currency) && DistinctKeys(keys) && CleanKeys(keys)
    requires g == DateGroup ==> forall i :: 0 <= i < |t| ==> (t[i].isDefault == Some(true) <==> t[i].name == DefaultFieldName)
    ensures Section(t, Rank(g), Rank(g) + 1, currency)
  {
    forall i | 0 <= i < |t| ensures RankOf(t[i]) == Rank(g) && EntryIn(t[i], Rank(g), Rank(g) + 1, currency) {
      PartEntry(t[i], g, keys[i], currency);
    }
    forall i, j | 0 <= i < j < |t| ensures t[i].name != t[j].name {
      assert t[i].name[|Prefix(g)| + 2..] == keys[i];
      assert t[j].name[|Prefix(g)| + 2..] == keys[j];
    }
  }

  /** Sections over consecutive rank ranges concatenate into one. */
  lemma SectionConcat(a: seq<Descriptor>, b: seq<Descriptor>, lo: nat, mid: nat, hi: nat, currency: string)
    requires lo <= mid <= hi
    requires Section(a, lo, mid, currency) && Section(b, mid, hi, currency)
    ensures Section(a + b, lo, hi, currency)
  {
    var t := a + b;
    forall i, j | 0 <= i < j < |t| ensures t[i].name != t[j].name && RankOf(t[i]) <= RankOf(t[j]) {
      if j < |a| {
        assert t[i] == a[i] && t[j] == a[j];
      } else if i < |a| {
        assert t[i] == a[i] && t[j] == b[j - |a|];
        assert RankOf(t[i]) < mid <= RankOf(t[j]);
      } else {
        assert t[i] == b[i - |a|] && t[j] == b[j - |a|];
      }
    }
    forall i | 0 <= i < |t|
      ensures EntryIn(t[i], lo, hi, currency)
    {
      if i < |a| {
        assert t[i] == a[i];
      } else {
        assert t[i] == b[i - |a|];
      }
    }
  }

  /** The keys of the Actions part are distinct. */
  lemma ActionsKeysDistinct()
    ensures DistinctKeys(Firsts(ActionsEntries))
  {
    assert Firsts(ActionsEntries) == ["rsvp", "video_view", "landing_page_view", "comment", "like", "link_click", "onsite_conversion.post_save", "offsite_conversion.fb_pixel_add_to_cart", "offsite_conversion.fb_pixel_initiate_checkout", "offsite_conversion.fb_pixel_purchase", "offsite_conversion.fb_pixel_view_content", "post"];
  }

  /** The keys of the ActionValues part are distinct. */
  lemma ActionValuesKeysDistinct()
    ensures DistinctKeys(Firsts(ActionValuesEntries))
  {
    assert Firsts(ActionValuesEntries) == ["offsite_conversion.fb_pixel_add_to_cart", "offsite_conversion.fb_pixel_initiate_checkout", "offsite_conversion.fb_pixel_purchase", "offsite_conversion.fb_pixel_view_content", "omni_add_to_cart", "omni_initiated_checkout", "omni_purchase", "omni_view_content"];
  }

  /** The keys of the Dimension part are distinct. */
  lemma DimensionKeysDistinct()
    ensures DistinctKeys(DimensionKeys)
  {
    assert DimensionKeys == ["ad_id", "ad_name", "adset_id", "adset_name", "buying_type", "campaign_id", "campaign_name", "conversion_rate_ranking", "engagement_rate_ranking", "objective", "quality_ranking"];
  }

  /** The keys of the AggregatedCost part are distinct. */
  lemma AggregatedCostKeysDistinct()
    ensures DistinctKeys(FirstsOfTriples(AggregatedCostEntries))
  {
    assert FirstsOfTriples(AggregatedCostEntries) == ["cost_per_estimated_ad_recallers", "cost_per_inline_link_click", "cost_per_inline_post_engagement", "cost_per_unique_click", "cost_per_unique_inline_link_click", "cpc", "cpm", "cpp"];
  }

  /** The keys of the Cost part are distinct. */
  lemma CostKeysDistinct()
    ensures DistinctKeys(CostKeys)
  {
    assert CostKeys == ["social_spend", "spend"];
  }

  /** The keys of the Percent part are distinct. */
  lemma PercentKeysDistinct()
    ensures DistinctKeys(FirstsOfTriples(PercentEntries))
  {
    assert FirstsOfTriples(PercentEntries) == ["inline_link_click_ctr", "ctr", "unique_ctr", "unique_inline_link_click_ctr", "unique_link_clicks_ctr"];
  }

  /** The keys of the Breakdown part are distinct, checked block by block. */
  lemma BreakdownKeysDistinct()
    ensures DistinctKeys(BreakdownKeys)
  {
    BreakdownBlockDistinct0();
    BreakdownBlockDistinct1();
    BreakdownBlockDistinct2();
    BreakdownBlocksApart01();
    BreakdownBlocksApart02();
    BreakdownBlocksApart12();
    DistinctKeysConcat(BreakdownKeys[..8], BreakdownKeys[8..15]);
    KeysApartConcat(BreakdownKeys[..8], BreakdownKeys[8..15], BreakdownKeys[15..]);
    DistinctKeysConcat(BreakdownKeys[..8] + BreakdownKeys[8..15], BreakdownKeys[15..]);
    assert BreakdownKeys[..8] + BreakdownKeys[8..15] + BreakdownKeys[15..] == BreakdownKeys;
  }

  lemma BreakdownBlockDistinct0()
    ensures DistinctKeys(BreakdownKeys[..8])
  {
    assert BreakdownKeys[0] == "ad_format_asset" && BreakdownKeys[1] == "age" && BreakdownKeys[2] == "body_asset";
    assert BreakdownKeys[3] == "call_to_action_asset" && BreakdownKeys[4] == "country" && BreakdownKeys[5] == "description_asset";
    assert BreakdownKeys[6] == "gender" && BreakdownKeys[7] == "image_asset";
  }

  lemma BreakdownBlockDistinct1()
    ensures DistinctKeys(BreakdownKeys[8..15])
  {
    assert BreakdownKeys[8] == "impression_device" && BreakdownKeys[9] == "link_url_asset" && BreakdownKeys[10] == "product_id";
    assert BreakdownKeys[11] == "region" && BreakdownKeys[12] == "title_asset" && BreakdownKeys[13] == "video_asset";
    assert BreakdownKeys[14] == "dma";
  }

  lemma BreakdownBlockDistinct2()
    ensures DistinctKeys(BreakdownKeys[15..])
  {
    assert |BreakdownKeys| == 22;
    assert BreakdownKeys[15] == "frequency_value" && BreakdownKeys[16] == "hourly_stats_aggregated_by_advertiser_time_zone" && BreakdownKeys[17] == "hourly_stats_aggregated_by_audience_time_zone";
    assert BreakdownKeys[18] == "place_page_id" && BreakdownKeys[19] == "publisher_platform" && BreakdownKeys[20] == "platform_position";
    assert BreakdownKeys[21] == "device_platform";
  }

  lemma BreakdownBlocksApart01()
    ensures KeysApart(BreakdownKeys[..8], BreakdownKeys[8..15])
  {
    assert BreakdownKeys[..8] == ["ad_format_asset", "age", "body_asset", "call_to_action_asset", "country", "description_asset", "gender", "image_asset"];
    assert BreakdownKeys[8..15] == ["impression_device", "link_url_asset", "product_id", "region", "title_asset", "video_asset", "dma"];
  }

  lemma BreakdownBlocksApart02()
    ensures KeysApart(BreakdownKeys[..8], BreakdownKeys[15..])
  {
    assert BreakdownKeys[..8] == ["ad_format_asset", "age", "body_asset", "call_to_action_asset", "country", "description_asset", "gender", "image_asset"];
    assert BreakdownKeys[15..] == ["frequency_value", "hourly_stats_aggregated_by_advertiser_time_zone", "hourly_stats_aggregated_by_audience_time_zone", "place_page_id", "publisher_platform", "platform_position", "device_platform"];
  }

  lemma BreakdownBlocksApart12()
    ensures KeysApart(BreakdownKeys[8..15], BreakdownKeys[15..])
  {
    assert BreakdownKeys[8..15] == ["impression_device", "link_url_asset", "product_id", "region", "title_asset", "video_asset", "dma"];
    assert BreakdownKeys[15..] == ["frequency_value", "hourly_stats_aggregated_by_advertiser_time_zone", "hourly_stats_aggregated_by_audience_time_zone", "place_page_id", "publisher_platform", "platform_position", "device_platform"];
  }

  /** The keys of the Metric part are distinct, checked block by block. */
  lemma MetricKeysDistinct()
    ensures DistinctKeys(MetricKeys)
  {
    MetricBlockDistinct0();
    MetricBlockDistinct1();
    MetricBlocksApart01();
    DistinctKeysConcat(MetricKeys[..9], MetricKeys[9..]);
    assert MetricKeys[..9] + MetricKeys[9..] == MetricKeys;
  }

  lemma MetricBlockDistinct0()
    ensures DistinctKeys(MetricKeys[..9])
  {
    assert MetricKeys[..9] == ["clicks", "deeplink_clicks", "estimated_ad_recall_rate", "estimated_ad_recallers", "full_view_impressions", "full_view_reach", "impressions", "inline_link_clicks", "inline_post_engagement"];
  }

  lemma MetricBlockDistinct1()
    ensures DistinctKeys(MetricKeys[9..])
  {
    assert MetricKeys[9..] == ["instant_experience_clicks_to_open", "instant_experience_clicks_to_start", "instant_experience_outbound_clicks", "newsfeed_avg_position", "newsfeed_clicks", "newsfeed_impressions", "reach", "unique_clicks", "unique_inline_link_clicks"];
  }

  lemma MetricBlocksApart01()
    ensures KeysApart(MetricKeys[..9], MetricKeys[9..])
  {
    assert MetricKeys[..9] == ["clicks", "deeplink_clicks", "estimated_ad_recall_rate", "estimated_ad_recallers", "full_view_impressions", "full_view_reach", "impressions", "inline_link_clicks", "inline_post_engagement"];
    assert MetricKeys[9..] == ["instant_experience_clicks_to_open", "instant_experience_clicks_to_start", "instant_experience_outbound_clicks", "newsfeed_avg_position", "newsfeed_clicks", "newsfeed_impressions", "reach", "unique_clicks", "unique_inline_link_clicks"];
  }

  /** The four offsite conversion keys shared by the Actions and ActionValues parts have no `__`. */
  lemma OffsiteCartCheckoutClean()
    ensures NoDoubleUnderscore("offsite_conversion.fb_pixel_add_to_cart")
    ensures NoDoubleUnderscore("offsite_conversion.fb_pixel_initiate_checkout")
  {
  }

  lemma OffsitePurchaseViewClean()
    ensures NoDoubleUnderscore("offsite_conversion.fb_pixel_purchase")
    ensures NoDoubleUnderscore("offsite_conversion.fb_pixel_view_content")
  {
  }

  /** The keys of the Actions part have no `__`. */
  lemma ActionsKeysClean()
    ensures CleanKeys(Firsts(ActionsEntries))
  {
    OffsiteCartCheckoutClean();
    OffsitePurchaseViewClean();
    assert NoDoubleUnderscore("rsvp") && NoDoubleUnderscore("video_view") && NoDoubleUnderscore("landing_page_view");
    assert NoDoubleUnderscore("comment") && NoDoubleUnderscore("like") && NoDoubleUnderscore("link_click");
    assert NoDoubleUnderscore("onsite_conversion.post_save") && NoDoubleUnderscore("post");
    assert Firsts(ActionsEntries) == ["rsvp", "video_view", "landing_page_view", "comment", "like", "link_click", "onsite_conversion.post_save", "offsite_conversion.fb_pixel_add_to_cart", "offsite_conversion.fb_pixel_initiate_checkout", "offsite_conversion.fb_pixel_purchase", "offsite_conversion.fb_pixel_view_content", "post"];
  }

  /** The keys of the ActionValues part have no `__`. */
  lemma ActionValuesKeysClean()
    ensures CleanKeys(Firsts(ActionValuesEntries))
  {
    OffsiteCartCheckoutClean();
    OffsitePurchaseViewClean();
    assert NoDoubleUnderscore("omni_add_to_cart") && NoDoubleUnderscore("omni_initiated_checkout");
    assert NoDoubleUnderscore("omni_purchase") && NoDoubleUnderscore("omni_view_content");
    assert Firsts(ActionValuesEntries) == ["offsite_conversion.fb_pixel_add_to_cart", "offsite_conversion.fb_pixel_initiate_checkout", "offsite_conversion.fb_pixel_purchase", "offsite_conversion.fb_pixel_view_content", "omni_add_to_cart", "omni_initiated_checkout", "omni_purchase", "omni_view_content"];
  }

  /** The keys of the Breakdown part have no `__`, checked block by block. */
  lemma BreakdownKeysClean()
    ensures CleanKeys(BreakdownKeys)
  {
    BreakdownBlockClean0();
    BreakdownBlockClean1();
    BreakdownBlockClean2();
    assert BreakdownKeys == BreakdownKeys[..8] + BreakdownKeys[8..15] + BreakdownKeys[15..];
  }

  lemma BreakdownBlockClean0()
    ensures CleanKeys(BreakdownKeys[..8])
  {
    BreakdownWordsClean0();
    BreakdownWordsClean1();
    assert BreakdownKeys[0] == "ad_format_asset" && BreakdownKeys[1] == "age" && BreakdownKeys[2] == "body_asset";
    assert BreakdownKeys[3] == "call_to_action_asset" && BreakdownKeys[4] == "country" && BreakdownKeys[5] == "description_asset";
    assert BreakdownKeys[6] == "gender" && BreakdownKeys[7] == "image_asset";
  }

  lemma BreakdownBlockClean1()
    ensures CleanKeys(BreakdownKeys[8..15])
  {
    BreakdownWordsClean2();
    BreakdownWordsClean3();
    assert BreakdownKeys[8] == "impression_device" && BreakdownKeys[9] == "link_url_asset" && BreakdownKeys[10] == "product_id";
    assert BreakdownKeys[11] == "region" && BreakdownKeys[12] == "title_asset" && BreakdownKeys[13] == "video_asset";
    assert BreakdownKeys[14] == "dma";
  }

  /** The words of the first two Breakdown blocks, four at a time. */
  lemma BreakdownWordsClean0()
    ensures NoDoubleUnderscore("ad_format_asset") && NoDoubleUnderscore("age")
    ensures NoDoubleUnderscore("body_asset") && NoDoubleUnderscore("call_to_action_asset")
  {
  }

  lemma BreakdownWordsClean1()
    ensures NoDoubleUnderscore("country") && NoDoubleUnderscore("description_asset")
    ensures NoDoubleUnderscore("gender") && NoDoubleUnderscore("image_asset")
  {
  }

  lemma BreakdownWordsClean2()
    ensures NoDoubleUnderscore("impression_device") && NoDoubleUnderscore("link_url_asset")
    ensures NoDoubleUnderscore("product_id") && NoDoubleUnderscore("region")
  {
  }

  lemma BreakdownWordsClean3()
    ensures NoDoubleUnderscore("title_asset") && NoDoubleUnderscore("video_asset") && NoDoubleUnderscore("dma")
  {
  }

  lemma BreakdownBlockClean2()
    ensures CleanKeys(BreakdownKeys[15..])
  {
    HourlyAdvertiserKeyClean();
    HourlyAudienceKeyClean();
    assert NoDoubleUnderscore("frequency_value") && NoDoubleUnderscore("place_page_id");
    assert NoDoubleUnderscore("publisher_platform") && NoDoubleUnderscore("platform_position");
    assert NoDoubleUnderscore("device_platform");
    assert |BreakdownKeys| == 22;
    assert BreakdownKeys[15] == "frequency_value" && BreakdownKeys[16] == "hourly_stats_aggregated_by_advertiser_time_zone" && BreakdownKeys[17] == "hourly_stats_aggregated_by_audience_time_zone";
    assert BreakdownKeys[18] == "place_page_id" && BreakdownKeys[19] == "publisher_platform" && BreakdownKeys[20] == "platform_position";
    assert BreakdownKeys[21] == "device_platform";
  }

  /** The two hourly breakdown keys have no `__`, checked piece by piece. */
  lemma HourlyAdvertiserKeyClean()
    ensures NoDoubleUnderscore("hourly_stats_aggregated_by_advertiser_time_zone")
  {
    HourlyPrefixClean();
    assert NoDoubleUnderscore("advertiser_time_zone");
    NoDoubleUnderscoreConcat("hourly_stats_aggregated_by_", "advertiser_time_zone");
    assert "hourly_stats_aggregated_by_" + "advertiser_time_zone" == "hourly_stats_aggregated_by_advertiser_time_zone";
  }

  lemma HourlyAudienceKeyClean()
    ensures NoDoubleUnderscore("hourly_stats_aggregated_by_audience_time_zone")
  {
    HourlyPrefixClean();
    assert NoDoubleUnderscore("audience_time_zone");
    NoDoubleUnderscoreConcat("hourly_stats_aggregated_by_", "audience_time_zone");
    assert "hourly_stats_aggregated_by_" + "audience_time_zone" == "hourly_stats_aggregated_by_audience_time_zone";
  }

  lemma HourlyPrefixClean()
    ensures NoDoubleUnderscore("hourly_stats_aggregated_by_")
  {
  }

  /** The keys of the Dimension part have no `__`. */
  lemma DimensionKeysClean()
    ensures CleanKeys(DimensionKeys)
  {
    assert NoDoubleUnderscore("ad_id") && NoDoubleUnderscore("ad_name") && NoDoubleUnderscore("adset_id");
    assert NoDoubleUnderscore("adset_name") && NoDoubleUnderscore("buying_type") && NoDoubleUnderscore("campaign_id");
    assert NoDoubleUnderscore("campaign_name") && NoDoubleUnderscore("conversion_rate_ranking");
    assert NoDoubleUnderscore("engagement_rate_ranking") && NoDoubleUnderscore("objective") && NoDoubleUnderscore("quality_ranking");
    assert DimensionKeys == ["ad_id", "ad_name", "adset_id", "adset_name", "buying_type", "campaign_id", "campaign_name", "conversion_rate_ranking", "engagement_rate_ranking", "objective", "quality_ranking"];
  }

  /** The keys of the AggregatedCost part have no `__`. */
  lemma AggregatedCostKeysClean()
    ensures CleanKeys(FirstsOfTriples(AggregatedCostEntries))
  {
    CostPerKeysClean();
    assert NoDoubleUnderscore("cost_per_unique_click") && NoDoubleUnderscore("cpc") && NoDoubleUnderscore("cpm") && NoDoubleUnderscore("cpp");
    assert FirstsOfTriples(AggregatedCostEntries) == ["cost_per_estimated_ad_recallers", "cost_per_inline_link_click", "cost_per_inline_post_engagement", "cost_per_unique_click", "cost_per_unique_inline_link_click", "cpc", "cpm", "cpp"];
  }

  lemma CostPerKeysClean()
    ensures NoDoubleUnderscore("cost_per_estimated_ad_recallers") && NoDoubleUnderscore("cost_per_inline_link_click")
    ensures NoDoubleUnderscore("cost_per_inline_post_engagement") && NoDoubleUnderscore("cost_per_unique_inline_link_click")
  {
  }

  /** The keys of the Cost part have no `__`. */
  lemma CostKeysClean()
    ensures CleanKeys(CostKeys)
  {
    assert NoDoubleUnderscore("social_spend") && NoDoubleUnderscore("spend");
    assert CostKeys == ["social_spend", "spend"];
  }

  /** The keys of the Metric part have no `__`, checked block by block. */
  lemma MetricKeysClean()
    ensures CleanKeys(MetricKeys)
  {
    MetricBlockClean0();
    MetricBlockClean1();
    assert MetricKeys == MetricKeys[..9] + MetricKeys[9..];
  }

  lemma MetricBlockClean0()
    ensures CleanKeys(MetricKeys[..9])
  {
    assert NoDoubleUnderscore("clicks") && NoDoubleUnderscore("deeplink_clicks") && NoDoubleUnderscore("estimated_ad_recall_rate");
    assert NoDoubleUnderscore("estimated_ad_recallers") && NoDoubleUnderscore("full_view_impressions") && NoDoubleUnderscore("full_view_reach");
    assert NoDoubleUnderscore("impressions") && NoDoubleUnderscore("inline_link_clicks") && NoDoubleUnderscore("inline_post_engagement");
    assert MetricKeys[..9] == ["clicks", "deeplink_clicks", "estimated_ad_recall_rate", "estimated_ad_recallers", "full_view_impressions", "full_view_reach", "impressions", "inline_link_clicks", "inline_post_engagement"];
  }

  lemma MetricBlockClean1()
    ensures CleanKeys(MetricKeys[9..])
  {
    InstantExperienceKeysClean();
    assert NoDoubleUnderscore("newsfeed_avg_position") && NoDoubleUnderscore("newsfeed_clicks") && NoDoubleUnderscore("newsfeed_impressions");
    assert NoDoubleUnderscore("reach") && NoDoubleUnderscore("unique_clicks") && NoDoubleUnderscore("unique_inline_link_clicks");
    assert MetricKeys[9..] == ["instant_experience_clicks_to_open", "instant_experience_clicks_to_start", "instant_experience_outbound_clicks", "newsfeed_avg_position", "newsfeed_clicks", "newsfeed_impressions", "reach", "unique_clicks", "unique_inline_link_clicks"];
  }

  lemma InstantExperienceKeysClean()
    ensures NoDoubleUnderscore("instant_experience_clicks_to_open") && NoDoubleUnderscore("instant_experience_clicks_to_start")
    ensures NoDoubleUnderscore("instant_experience_outbound_clicks")
  {
  }

  /** The keys of the Percent part have no `__`. */
  lemma PercentKeysClean()
    ensures CleanKeys(FirstsOfTriples(PercentEntries))
  {
    assert NoDoubleUnderscore("inline_link_click_ctr") && NoDoubleUnderscore("ctr") && NoDoubleUnderscore("unique_ctr");
    assert NoDoubleUnderscore("unique_inline_link_click_ctr") && NoDoubleUnderscore("unique_link_clicks_ctr");
    assert FirstsOfTriples(PercentEntries) == ["inline_link_click_ctr", "ctr", "unique_ctr", "unique_inline_link_click_ctr", "unique_link_clicks_ctr"];
  }

  lemma ActionsSound(entries: seq<(string, string)>, currency: string)
    requires DistinctKeys(Firsts(entries)) && CleanKeys(Firsts(entries))
    ensures Section(ActionsOf(entries), 0, 1, currency)
  {
    var t := ActionsOf(entries);
    var keys := Firsts(entries);
    forall i | 0 <= i < |t| ensures NamedAs(t[i].name, ActionsGroup, keys[i]) && TypedAs(t[i], ActionsGroup) && CurrencyAs(t[i], ActionsGroup, currency) {
      assert t[i] == Actions(entries[i].0, Some(entries[i].1));
    }
    assert Rank(ActionsGroup) == 0;
    PartIsSection(t, ActionsGroup, keys, currency);
  }

  lemma ActionValuesSound(request: Request, entries: seq<(string, string)>)
    requires DistinctKeys(Firsts(entries)) && CleanKeys(Firsts(entries))
    ensures Section(ActionValuesOf(request, entries), 1, 2, request.configParams.currencyType)
  {
    var t := ActionValuesOf(request, entries);
    var keys := Firsts(entries);
    forall i | 0 <= i < |t| ensures NamedAs(t[i].name, ActionValuesGroup, keys[i]) && TypedAs(t[i], ActionValuesGroup) && CurrencyAs(t[i], ActionValuesGroup, request.configParams.currencyType) {
      assert t[i] == ActionValues(request, entries[i].0, Some(entries[i].1));
    }
    assert Rank(ActionValuesGroup) == 1;
    PartIsSection(t, ActionValuesGroup, keys, request.configParams.currencyType);
  }

  lemma BreakdownsSound(keys: seq<string>, currency: string)
    requires DistinctKeys(keys) && CleanKeys(keys)
    ensures Section(BreakdownsOf(keys), 2, 3, currency)
  {
    var t := BreakdownsOf(keys);
    var keys := keys;
    forall i | 0 <= i < |t| ensures NamedAs(t[i].name, BreakdownGroup, keys[i]) && TypedAs(t[i], BreakdownGroup) && CurrencyAs(t[i], BreakdownGroup, currency) {
      assert t[i] == Breakdown(keys[i], None);
    }
    assert Rank(BreakdownGroup) == 2;
    PartIsSection(t, BreakdownGroup, keys, currency);
  }

  /** The date section holds the one default field. */
  lemma DatesSound(entries: seq<(string, string, string, bool)>, currency: string)
    requires |entries| == 1 && entries[0].3 && NameOf(DateGroup, entries[0].0) == DefaultFieldName
    requires NoDoubleUnderscore(entries[0].0)
    ensures Section(DatesOf(entries), 3, 4, currency)
  {
    var t := DatesOf(entries);
    var key := entries[0].0;
    assert t[0] == Date(key, entries[0].1, Some(entries[0].2), Some(true));
    assert Rank(DateGroup) == 3;
    PartIsSection(t, DateGroup, [key], currency);
  }

  lemma DimensionsSound(keys: seq<string>, currency: string)
    requires DistinctKeys(keys) && CleanKeys(keys)
    ensures Section(DimensionsOf(keys), 4, 5, currency)
  {
    var t := DimensionsOf(keys);
    var keys := keys;
    forall i | 0 <= i < |t| ensures NamedAs(t[i].name, DimensionGroup, keys[i]) && TypedAs(t[i], DimensionGroup) && CurrencyAs(t[i], DimensionGroup, currency) {
      assert t[i] == Dimension(keys[i], None, None, None);
    }
    assert Rank(DimensionGroup) == 4;
    PartIsSection(t, DimensionGroup, keys, currency);
  }

  /** The costs section: the aggregated costs, then the plain ones. */
  lemma CostsSound(request: Request, entries: seq<(string, string, Option<string>)>, keys: seq<string>)
    requires DistinctKeys(FirstsOfTriples(entries)) && CleanKeys(FirstsOfTriples(entries))
    requires DistinctKeys(keys) && CleanKeys(keys)
    ensures Section(AggregatedCostsOf(request, entries) + CostsOf(request, keys), 5, 7, request.configParams.currencyType)
  {
    var c := request.configParams.currencyType;
    AggregatedCostsSound(request, entries);
    PlainCostsSound(request, keys);
    SectionConcat(AggregatedCostsOf(request, entries), CostsOf(request, keys), 5, 6, 7, c);
  }

  lemma AggregatedCostsSound(request: Request, entries: seq<(string, string, Option<string>)>)
    requires DistinctKeys(FirstsOfTriples(entries)) && CleanKeys(FirstsOfTriples(entries))
    ensures Section(AggregatedCostsOf(request, entries), 5, 6, request.configParams.currencyType)
  {
    var t := AggregatedCostsOf(request, entries);
    var keys := FirstsOfTriples(entries);
    forall i | 0 <= i < |t| ensures NamedAs(t[i].name, AggregatedCostGroup, keys[i]) && TypedAs(t[i], AggregatedCostGroup) && CurrencyAs(t[i], AggregatedCostGroup, request.configParams.currencyType) {
      assert t[i] == AggregatedCost(request, entries[i].0, entries[i].1, entries[i].2, None);
    }
    assert Rank(AggregatedCostGroup) == 5;
    PartIsSection(t, AggregatedCostGroup, keys, request.configParams.currencyType);
  }

  lemma PlainCostsSound(request: Request, keys: seq<string>)
    requires DistinctKeys(keys) && CleanKeys(keys)
    ensures Section(CostsOf(request, keys), 6, 7, request.configParams.currencyType)
  {
    var t := CostsOf(request, keys);
    var keys := keys;
    forall i | 0 <= i < |t| ensures NamedAs(t[i].name, CostGroup, keys[i]) && TypedAs(t[i], CostGroup) && CurrencyAs(t[i], CostGroup, request.configParams.currencyType) {
      assert t[i] == Cost(request, keys[i], None, None);
    }
    assert Rank(CostGroup) == 6;
    PartIsSection(t, CostGroup, keys, request.configParams.currencyType);
  }

  /** The metrics section: the plain metrics, then the aggregated ones. */
  lemma MetricsSound(keys: seq<string>, entries: seq<(string, string)>, currency: string)
    requires DistinctKeys(keys) && CleanKeys(keys)
    requires DistinctKeys(Firsts(entries)) && CleanKeys(Firsts(entries))
    ensures Section(MetricsOf(keys) + AggregatedMetricsOf(entries), 7, 9, currency)
  {
    PlainMetricsSound(keys, currency);
    AggregatedMetricsSound(entries, currency);
    SectionConcat(MetricsOf(keys), AggregatedMetricsOf(entries), 7, 8, 9, currency);
  }

  lemma PlainMetricsSound(keys: seq<string>, currency: string)
    requires DistinctKeys(keys) && CleanKeys(keys)
    ensures Section(MetricsOf(keys), 7, 8, currency)
  {
    var t := MetricsOf(keys);
    var keys := keys;
    forall i | 0 <= i < |t| ensures NamedAs(t[i].name, MetricGroup, keys[i]) && TypedAs(t[i], MetricGroup) && CurrencyAs(t[i], MetricGroup, currency) {
      assert t[i] == Metric(keys[i], None, None);
    }
    assert Rank(MetricGroup) == 7;
    PartIsSection(t, MetricGroup, keys, currency);
  }

  lemma AggregatedMetricsSound(entries: seq<(string, string)>, currency: string)
    requires DistinctKeys(Firsts(entries)) && CleanKeys(Firsts(entries))
    ensures Section(AggregatedMetricsOf(entries), 8, 9, currency)
  {
    var t := AggregatedMetricsOf(entries);
    var keys := Firsts(entries);
    forall i | 0 <= i < |t| ensures NamedAs(t[i].name, AggregatedMetricGroup, keys[i]) && TypedAs(t[i], AggregatedMetricGroup) && CurrencyAs(t[i], AggregatedMetricGroup, currency) {
      assert t[i] == AggregatedMetric(entries[i].0, entries[i].1, None, None);
    }
    assert Rank(AggregatedMetricGroup) == 8;
    PartIsSection(t, AggregatedMetricGroup, keys, currency);
  }

  lemma PercentsSound(entries: seq<(string, string, Option<string>)>, currency: string)
    requires DistinctKeys(FirstsOfTriples(entries)) && CleanKeys(FirstsOfTriples(entries))
    ensures Section(PercentsOf(entries), 9, 10, currency)
  {
    var t := PercentsOf(entries);
    var keys := FirstsOfTriples(entries);
    forall i | 0 <= i < |t| ensures NamedAs(t[i].name, PercentGroup, keys[i]) && TypedAs(t[i], PercentGroup) && CurrencyAs(t[i], PercentGroup, currency) {
      assert t[i] == Percent(entries[i].0, entries[i].1, entries[i].2, None);
    }
    assert Rank(PercentGroup) == 9;
    PartIsSection(t, PercentGroup, keys, currency);
  }

  /** A table of one entry has distinct keys. */
  lemma SingleKeyDistinct(entries: seq<(string, string)>)
    requires |entries| == 1
    ensures DistinctKeys(Firsts(entries))
  {
  }

  /**
   * The table as a whole: names are distinct; each is the name one of the
   * ten kinds gives a key free of `__`, so it splits back into that kind's
   * prefix and that key; the groups come in source order; each descriptor is
   * typed as its group says; the currency groups take the request's currency;
   * and exactly the field `date__date` is marked as default.
   */
  lemma SchemaIsSection(request: Request)
    ensures Section(GetSchema(request), 0, 10, request.configParams.currencyType)
  {
    var c := request.configParams.currencyType;
    ActionsKeysDistinct();
    ActionsKeysClean();
    ActionsSound(ActionsEntries, c);
    ActionValuesKeysDistinct();
    ActionValuesKeysClean();
    ActionValuesSound(request, ActionValuesEntries);
    BreakdownKeysDistinct();
    BreakdownKeysClean();
    BreakdownsSound(BreakdownKeys, c);
    assert NoDoubleUnderscore("date");
    DatesSound(DateEntries, c);
    DimensionKeysDistinct();
    DimensionKeysClean();
    DimensionsSound(DimensionKeys, c);
    AggregatedCostKeysDistinct();
    AggregatedCostKeysClean();
    CostKeysDistinct();
    CostKeysClean();
    CostsSound(request, AggregatedCostEntries, CostKeys);
    MetricKeysDistinct();
    MetricKeysClean();
    SingleKeyDistinct(AggregatedMetricEntries);
    assert NoDoubleUnderscore("frequency") && Firsts(AggregatedMetricEntries) == ["frequency"];
    MetricsSound(MetricKeys, AggregatedMetricEntries, c);
    PercentKeysDistinct();
    PercentKeysClean();
    PercentsSound(PercentEntries, c);
    EightSections(
      ActionsOf(ActionsEntries), ActionValuesOf(request, ActionValuesEntries), BreakdownsOf(BreakdownKeys),
      DatesOf(DateEntries), DimensionsOf(DimensionKeys),
      AggregatedCostsOf(request, AggregatedCostEntries) + CostsOf(request, CostKeys),
      MetricsOf(MetricKeys) + AggregatedMetricsOf(AggregatedMetricEntries), PercentsOf(PercentEntries), c);
  }

  /** The eight sections of the table, over the rank ranges they cover, concatenated in order. */
  lemma EightSections(
    s1: seq<Descriptor>, s2: seq<Descriptor>, s3: seq<Descriptor>, s4: seq<Descriptor>,
    s5: seq<Descriptor>, s6: seq<Descriptor>, s7: seq<Descriptor>, s8: seq<Descriptor>, currency: string)
    requires Section(s1, 0, 1, currency) && Section(s2, 1, 2, currency) && Section(s3, 2, 3, currency)
    requires Section(s4, 3, 4, currency) && Section(s5, 4, 5, currency) && Section(s6, 5, 7, currency)
    requires Section(s7, 7, 9, currency) && Section(s8, 9, 10, currency)
    ensures Section(s1 + s2 + s3 + s4 + s5 + s6 + s7 + s8, 0, 10, currency)
  {
    SectionConcat(s1, s2, 0, 1, 2, currency);
    SectionConcat(s1 + s2, s3, 0, 2, 3, currency);
    SectionConcat(s1 + s2 + s3, s4, 0, 3, 4, currency);
    SectionConcat(s1 + s2 + s3 + s4, s5, 0, 4, 5, currency);
    SectionConcat(s1 + s2 + s3 + s4 + s5, s6, 0, 5, 7, currency);
    SectionConcat(s1 + s2 + s3 + s4 + s5 + s6, s7, 0, 7, 9, currency);
    SectionConcat(s1 + s2 + s3 + s4 + s5 + s6 + s7, s8, 0, 9, 10, currency);
  }
}
