/** The column filters of the account table (src/composables/useColumnFilter.ts):
    the selected values per filter key, kept as a JavaScript object whose keys
    keep their insertion order, the OData `$filter` built from them, the chips
    shown for them, and the parsing of the URL query that restores them. */
module ColumnFilters {
  import opened Wrappers
  import opened Strings

  /** Whether a column filter takes one value or several. */
  datatype FilterKind = Single | Multi

  /** A configured filter: its key in the URL and in the state, its label, and the
      OData field path it filters on. */
  datatype FilterConfig = FilterConfig(key: string, title: string, apiField: string, kind: FilterKind)

  /** The active-filter object as its entries, in the order the keys were first set. */
  type Filters = seq<(string, seq<string>)>

  // ---------------------------------------------------------------------------
  // The active-filter object
  // ---------------------------------------------------------------------------

  /** The keys of the object. */
  function Keys(f: Filters): set<string>
  {
    if |f| == 0 then {} else {f[0].0} + Keys(f[1..])
  }

  /** No key occurs twice, as in an object. */
  predicate DistinctKeys(f: Filters)
  {
    |f| == 0 || (f[0].0 !in Keys(f[1..]) && DistinctKeys(f[1..]))
  }

  /** `f[key]`: the values stored under `key`, if any. */
  function Get(f: Filters, key: string): Option<seq<string>>
  {
    if |f| == 0 then None
    else if f[0].0 == key then Some(f[0].1)
    else Get(f[1..], key)
  }

  /** `f[key] = values`: an existing key keeps its place, a new key goes last. */
  function Assigned(f: Filters, key: string, values: seq<string>): (r: Filters)
    ensures Keys(r) == Keys(f) + {key}
  {
    if |f| == 0 then [(key, values)]
    else if f[0].0 == key then
      assert ([(key, values)] + f[1..])[1..] == f[1..];
      [(key, values)] + f[1..]
    else
      var r := [f[0]] + Assigned(f[1..], key, values);
      assert r[1..] == Assigned(f[1..], key, values);
      r
  }

  /** `delete f[key]`: the entry for `key` goes, the others keep their order. */
  function Deleted(f: Filters, key: string): (r: Filters)
    ensures Keys(r) == Keys(f) - {key}
  {
    if |f| == 0 then []
    else if f[0].0 == key then Deleted(f[1..], key)
    else
      var r := [f[0]] + Deleted(f[1..], key);
      assert r[1..] == Deleted(f[1..], key);
      r
  }

  /** A key is set exactly when it is one of the keys. */
  lemma {:induction false} GetKeys(f: Filters, key: string)
    ensures Get(f, key).Some? <==> key in Keys(f)
  {
    if |f| > 0 {
      GetKeys(f[1..], key);
    }
  }

  /** After `f[key] = values`, `key` reads `values` and every other key reads as before. */
  lemma {:induction false} GetAssigned(f: Filters, key: string, values: seq<string>, other: string)
    ensures Get(Assigned(f, key, values), other) == if other == key then Some(values) else Get(f, other)
  {
    if |f| > 0 && f[0].0 != key {
      GetAssigned(f[1..], key, values, other);
      assert Assigned(f, key, values)[1..] == Assigned(f[1..], key, values);
    }
  }

  /** After `delete f[key]`, `key` is unset and every other key reads as before. */
  lemma {:induction false} GetDeleted(f: Filters, key: string, other: string)
    ensures Get(Deleted(f, key), other) == if other == key then None else Get(f, other)
  {
    if |f| > 0 {
      GetDeleted(f[1..], key, other);
      if f[0].0 != key {
        assert Deleted(f, key)[1..] == Deleted(f[1..], key);
      }
    }
  }

  /** Setting a key keeps the keys distinct. */
  lemma {:induction false} AssignedDistinct(f: Filters, key: string, values: seq<string>)
    requires DistinctKeys(f)
    ensures DistinctKeys(Assigned(f, key, values))
  {
    if |f| > 0 {
      if f[0].0 == key {
        assert Assigned(f, key, values)[1..] == f[1..];
      } else {
        AssignedDistinct(f[1..], key, values);
        assert Assigned(f, key, values)[1..] == Assigned(f[1..], key, values);
      }
    }
  }

  /** Deleting a key keeps the keys distinct. */
  lemma {:induction false} DeletedDistinct(f: Filters, key: string)
    requires DistinctKeys(f)
    ensures DistinctKeys(Deleted(f, key))
  {
    if |f| > 0 {
      DeletedDistinct(f[1..], key);
      if f[0].0 != key {
        assert Deleted(f, key)[1..] == Deleted(f[1..], key);
      }
    }
  }

  /** With distinct keys there are as many keys as entries. */
  lemma {:induction false} KeyCount(f: Filters)
    requires DistinctKeys(f)
    ensures |Keys(f)| == |f|
  {
    if |f| > 0 {
      KeyCount(f[1..]);
    }
  }

  // ---------------------------------------------------------------------------
  // OData values and clauses
  // ---------------------------------------------------------------------------

  /** The number of single quotes in `s`. */
  function Quotes(s: string): nat
  {
    if |s| == 0 then 0 else (if s[0] == '\'' then 1 else 0) + Quotes(s[1..])
  }

  /** `value.replace(/'/g, "''")`: every single quote doubled. */
  function EscapeODataValue(s: string): (r: string)
    ensures |r| == |s| + Quotes(s)
    ensures Quotes(s) == 0 ==> r == s
  {
    if |s| == 0 then ""
    else if s[0] == '\'' then "''" + EscapeODataValue(s[1..])
    else [s[0]] + EscapeODataValue(s[1..])
  }

  /** Reads a doubled quote back as one quote; every other character stands for itself. */
  function UnescapeODataValue(s: string): string
  {
    if |s| == 0 then ""
    else if |s| >= 2 && s[0] == '\'' && s[1] == '\'' then "'" + UnescapeODataValue(s[2..])
    else [s[0]] + UnescapeODataValue(s[1..])
  }

  /** Collapsing the doubled quotes recovers the value. */
  lemma {:induction false} ODataEscapeRoundTrip(s: string)
    ensures UnescapeODataValue(EscapeODataValue(s)) == s
  {
    if |s| > 0 {
      var rest := EscapeODataValue(s[1..]);
      ODataEscapeRoundTrip(s[1..]);
      if s[0] == '\'' {
        assert ("''" + rest)[2..] == rest;
      } else {
        var r := [s[0]] + rest;
        assert r[1..] == rest;
      }
    }
  }

  /** A name with an apostrophe: O'Brien is sent as O''Brien. */
  lemma EscapeExample()
    ensures EscapeODataValue("O'Brien") == "O''Brien"
  {
    assert EscapeODataValue("Brien") == "Brien";
  }

  /** `filterConfigs.find(c => c.key === key)`: the first config for `key`. */
  function FindConfig(configs: seq<FilterConfig>, key: string): (r: Option<FilterConfig>)
    ensures r.Some? ==> r.value in configs && r.value.key == key
    ensures r.None? <==> forall i :: 0 <= i < |configs| ==> configs[i].key != key
    ensures r.Some? ==> exists i :: (
      && 0 <= i < |configs| && configs[i] == r.value
      && forall j :: 0 <= j < i ==> configs[j].key != key)
  {
    if |configs| == 0 then None
    else if configs[0].key == key then Some(configs[0])
    else
      var r := FindConfig(configs[1..], key);
      if r.Some? then
        var i :| 0 <= i < |configs[1..]| && configs[1..][i] == r.value &&
          forall j :: 0 <= j < i ==> configs[1..][j].key != key;
        assert configs[i + 1] == r.value;
        r
      else r
  }

  /** `values.filter(Boolean)`: the non-empty values, in order. */
  function NonEmpty(values: seq<string>): (r: seq<string>)
    ensures |r| <= |values|
    ensures forall v :: v in r <==> v in values && v != ""
    ensures multiset(r) == multiset(values)["" := 0]
  {
    if |values| == 0 then []
    else
      assert values == [values[0]] + values[1..];
      (if values[0] != "" then [values[0]] else []) + NonEmpty(values[1..])
  }

  /** Filtering keeps the order: the non-empty values of consecutive parts are
      those of each part, one after the other. */
  lemma {:induction false} NonEmptyConcat(a: seq<string>, b: seq<string>)
    ensures NonEmpty(a + b) == NonEmpty(a) + NonEmpty(b)
  {
    if |a| > 0 {
      assert (a + b)[1..] == a[1..] + b;
      NonEmptyConcat(a[1..], b);
    } else {
      assert a + b == b;
    }
  }

  /** `field eq 'value'` with the value escaped. */
  function EqClause(field: string, value: string): string
  {
    field + " eq '" + EscapeODataValue(value) + "'"
  }

  /** One `field eq 'value'` per value, in order. */
  function EqClauses(field: string, values: seq<string>): (r: seq<string>)
    ensures |r| == |values|
    ensures forall i :: 0 <= i < |values| ==> r[i] == EqClause(field, values[i])
  {
    if |values| == 0 then [] else [EqClause(field, values[0])] + EqClauses(field, values[1..])
  }

  /** The clause of one entry: none for a key without values or without a config;
      for one value, its `eq` test unless it is empty; for several, the `or` of the
      tests of the non-empty ones, in parentheses, unless all are empty. */
  function Clause(configs: seq<FilterConfig>, key: string, values: seq<string>): Option<string>
  {
    if |values| == 0 || FindConfig(configs, key).None? then None
    else if |values| == 1 then
      (if values[0] != "" then Some(EqClause(FindConfig(configs, key).value.apiField, values[0])) else None)
    else if |NonEmpty(values)| > 0 then
      Some("(" + Join(EqClauses(FindConfig(configs, key).value.apiField, NonEmpty(values)), " or ") + ")")
    else None
  }

  function AsSeq(o: Option<string>): seq<string>
  {
    if o.Some? then [o.value] else []
  }

  /** The clauses of the entries of `f`, in entry order. */
  function Clauses(configs: seq<FilterConfig>, f: Filters): seq<string>
  {
    if |f| == 0 then []
    else Clauses(configs, f[..|f| - 1]) + AsSeq(Clause(configs, f[|f| - 1].0, f[|f| - 1].1))
  }

  /** The `$filter` value: the clauses joined with `and`. */
  function ODataFilter(configs: seq<FilterConfig>, f: Filters): string
  {
    Join(Clauses(configs, f), " and ")
  }

  /** An entry gives a clause exactly when it has a config and a non-empty value. */
  lemma ClauseWhen(configs: seq<FilterConfig>, key: string, values: seq<string>)
    ensures Clause(configs, key, values).Some? <==>
      FindConfig(configs, key).Some? && exists v :: v in values && v != ""
  {
    if |values| == 1 && values[0] != "" {
      assert values[0] in values;
    }
    if |values| >= 2 && |NonEmpty(values)| > 0 {
      assert NonEmpty(values)[0] in NonEmpty(values);
    }
    if exists v :: v in values && v != "" {
      var v :| v in values && v != "";
      assert v in NonEmpty(values);
    }
  }

  /** A single value gives `field eq 'escaped'`, with the field of the key's config. */
  lemma SingleValueClause(configs: seq<FilterConfig>, key: string, value: string)
    requires FindConfig(configs, key).Some? && value != ""
    ensures Clause(configs, key, [value]) == Some(EqClause(FindConfig(configs, key).value.apiField, value))
  {
  }

  /** Two or more values, some of them non-empty, give the `or` of the `eq` tests of
      the non-empty values, in their order, in parentheses, with the field of the
      key's config; empty values are skipped. */
  lemma MultiValueClause(configs: seq<FilterConfig>, key: string, values: seq<string>)
    requires FindConfig(configs, key).Some? && |values| >= 2
    requires exists v :: v in values && v != ""
    ensures Clause(configs, key, values) ==
      Some("(" + Join(EqClauses(FindConfig(configs, key).value.apiField, NonEmpty(values)), " or ") + ")")
  {
  }

  /** The clauses of consecutive entries are the clauses of each part, in order. */
  lemma {:induction false} ClausesConcat(configs: seq<FilterConfig>, a: Filters, b: Filters)
    ensures Clauses(configs, a + b) == Clauses(configs, a) + Clauses(configs, b)
    decreases |b|
  {
    if |b| == 0 {
      assert a + b == a;
    } else {
      var last := b[|b| - 1];
      assert (a + b)[..|a + b| - 1] == a + b[..|b| - 1];
      ClausesConcat(configs, a, b[..|b| - 1]);
    }
  }

  /** Entries without a clause add nothing, and no filters give the empty string. */
  lemma NoFiltersNoClauses(configs: seq<FilterConfig>)
    ensures ODataFilter(configs, []) == ""
  {
  }

  // ---------------------------------------------------------------------------
  // Labels
  // ---------------------------------------------------------------------------

  /** A chip for an active filter. */
  datatype FilterLabel = FilterLabel(key: string, text: string, values: seq<string>)

  /** The config's label for `key`, or the key itself. */
  function LabelOf(configs: seq<FilterConfig>, key: string): (r: string)
    ensures FindConfig(configs, key).Some? ==> r == FindConfig(configs, key).value.title
    ensures FindConfig(configs, key).None? ==> r == key
  {
    match FindConfig(configs, key)
    case Some(config) => config.title
    case None => key
  }

  /** `getActiveFilterLabels`: one chip per entry, in entry order, labelled
      `<label>: v1, v2, …`. */
  function ActiveFilterLabels(configs: seq<FilterConfig>, f: Filters): (r: seq<FilterLabel>)
    ensures |r| == |f|
    ensures forall i :: 0 <= i < |f| ==>
      && r[i].key == f[i].0
      && r[i].values == f[i].1
      && IsPrefix(LabelOf(configs, f[i].0) + ": ", r[i].text)
      && r[i].text[|LabelOf(configs, f[i].0)| + 2..] == Join(f[i].1, ", ")
  {
    if |f| == 0 then []
    else
      var text := LabelOf(configs, f[0].0) + ": " + Join(f[0].1, ", ");
      assert text[..|LabelOf(configs, f[0].0)| + 2] == LabelOf(configs, f[0].0) + ": ";
      [FilterLabel(f[0].0, text, f[0].1)] + ActiveFilterLabels(configs, f[1..])
  }

  // ---------------------------------------------------------------------------
  // URL parsing
  // ---------------------------------------------------------------------------

  /** A URL query as its `name=value` pairs, already decoded. */
  type UrlQuery = seq<(string, string)>

  /** `params.get(name)`: the first value for `name`. */
  function UrlGet(params: UrlQuery, name: string): Option<string>
  {
    if |params| == 0 then None
    else if params[0].0 == name then Some(params[0].1)
    else UrlGet(params[1..], name)
  }

  /** `.map(v => v.trim())` */
  function TrimAll(pieces: seq<string>): (r: seq<string>)
    ensures |r| == |pieces|
    ensures forall i :: 0 <= i < |pieces| ==> r[i] == Trim(pieces[i])
  {
    if |pieces| == 0 then [] else [Trim(pieces[0])] + TrimAll(pieces[1..])
  }

  /** `paramValue.split(',').map(v => v.trim()).filter(Boolean)` */
  function ParseValues(paramValue: string): seq<string>
  {
    NonEmpty(TrimAll(Split(paramValue, ',')))
  }

  /** Every parsed value is non-empty, free of commas and of surrounding white space. */
  lemma ParsedValuesClean(paramValue: string)
    ensures forall v :: v in ParseValues(paramValue) ==>
      v != "" && ',' !in v && !IsSpace(v[0]) && !IsSpace(v[|v| - 1])
  {
    var pieces := Split(paramValue, ',');
    var trimmed := TrimAll(pieces);
    forall v | v in ParseValues(paramValue)
      ensures v != "" && ',' !in v && !IsSpace(v[0]) && !IsSpace(v[|v| - 1])
    {
      assert v in trimmed;
      var i :| 0 <= i < |trimmed| && trimmed[i] == v;
      assert ',' !in pieces[i];
    }
  }

  /** The values the URL gives for `key`: none when the parameter is missing or empty. */
  function UrlValues(params: UrlQuery, key: string): seq<string>
  {
    if Given(UrlGet(params, key)) then ParseValues(UrlGet(params, key).value) else []
  }

  /** Every value the URL gives is non-empty. */
  lemma UrlValuesNonEmpty(params: UrlQuery, key: string)
    ensures forall v :: v in UrlValues(params, key) ==> v != ""
  {
    if Given(UrlGet(params, key)) {
      ParsedValuesClean(UrlGet(params, key).value);
    }
  }

  /** The URL's values for each key, as a function. */
  function UrlReader(params: UrlQuery): string -> seq<string>
  {
    key => UrlValues(params, key)
  }

  /** The filters restored for the first `n` configs when `values` gives the
      values of each key: a config whose values are not empty sets its key to them. */
  function ParsedFilters(configs: seq<FilterConfig>, values: string -> seq<string>, n: nat): Filters
    requires n <= |configs|
  {
    if n == 0 then []
    else if |values(configs[n - 1].key)| > 0
    then Assigned(ParsedFilters(configs, values, n - 1), configs[n - 1].key, values(configs[n - 1].key))
    else ParsedFilters(configs, values, n - 1)
  }

  /** Each entry is for a configured key and has at least one value, none of them empty. */
  predicate EntriesParsed(configs: seq<FilterConfig>, f: Filters)
  {
    |f| == 0 ||
    (&& FindConfig(configs, f[0].0).Some?
     && |f[0].1| > 0
     && (forall v :: v in f[0].1 ==> v != "")
     && EntriesParsed(configs, f[1..]))
  }

  lemma {:induction false} AssignedParsed(configs: seq<FilterConfig>, f: Filters, key: string, values: seq<string>)
    requires EntriesParsed(configs, f)
    requires FindConfig(configs, key).Some? && |values| > 0 && forall v :: v in values ==> v != ""
    ensures EntriesParsed(configs, Assigned(f, key, values))
  {
    if |f| > 0 {
      if f[0].0 == key {
        assert Assigned(f, key, values)[1..] == f[1..];
      } else {
        AssignedParsed(configs, f[1..], key, values);
        assert Assigned(f, key, values)[1..] == Assigned(f[1..], key, values);
      }
    }
  }

  /** Filters restored from non-empty values are well formed: only configured
      keys, each once, each with at least one non-empty value. */
  lemma {:induction false} RestoredWell(configs: seq<FilterConfig>, values: string -> seq<string>, n: nat)
    requires n <= |configs|
    requires forall key, v :: v in values(key) ==> v != ""
    ensures DistinctKeys(ParsedFilters(configs, values, n))
    ensures EntriesParsed(configs, ParsedFilters(configs, values, n))
  {
    if n > 0 {
      RestoredWell(configs, values, n - 1);
      var prev := ParsedFilters(configs, values, n - 1);
      var key := configs[n - 1].key;
      if |values(key)| > 0 {
        assert FindConfig(configs, key).Some? by {
          assert configs[n - 1].key == key;
        }
        AssignedDistinct(prev, key, values(key));
        AssignedParsed(configs, prev, key, values(key));
      }
    }
  }

  /** What the URL restores is well formed. */
  lemma ParsedWell(configs: seq<FilterConfig>, params: UrlQuery)
    ensures DistinctKeys(ParsedFilters(configs, UrlReader(params), |configs|))
    ensures EntriesParsed(configs, ParsedFilters(configs, UrlReader(params), |configs|))
  {
    forall key, v | v in UrlReader(params)(key)
      ensures v != ""
    {
      UrlValuesNonEmpty(params, key);
    }
    RestoredWell(configs, UrlReader(params), |configs|);
  }

  /** Some of the first `n` configs has `key`. */
  predicate Configured(configs: seq<FilterConfig>, n: nat, key: string)
    requires n <= |configs|
  {
    exists i :: 0 <= i < n && configs[i].key == key
  }

  lemma ConfiguredStep(configs: seq<FilterConfig>, n: nat, key: string)
    requires 0 < n <= |configs|
    ensures Configured(configs, n, key) <==> Configured(configs, n - 1, key) || configs[n - 1].key == key
  {
    if Configured(configs, n, key) && configs[n - 1].key != key {
      var i :| 0 <= i < n && configs[i].key == key;
      assert i < n - 1;
    }
  }

  /** A key is restored exactly when one of the first `n` configs has it and its
      values are not empty; it is restored with those values. */
  lemma {:induction false} RestoredGet(configs: seq<FilterConfig>, values: string -> seq<string>, n: nat, key: string)
    requires n <= |configs|
    ensures Get(ParsedFilters(configs, values, n), key) ==
      if Configured(configs, n, key) && |values(key)| > 0 then Some(values(key)) else None
  {
    if n == 0 {
      assert !Configured(configs, n, key);
    } else {
      RestoredGet(configs, values, n - 1, key);
      ConfiguredStep(configs, n, key);
      var k := configs[n - 1].key;
      if |values(k)| > 0 {
        GetAssigned(ParsedFilters(configs, values, n - 1), k, values(k), key);
      }
    }
  }

  /** A key is restored from the URL exactly when some config has it and the URL
      gives it values; it is restored with those values. */
  lemma ParsedGet(configs: seq<FilterConfig>, params: UrlQuery, key: string)
    ensures Get(ParsedFilters(configs, UrlReader(params), |configs|), key) ==
      if Configured(configs, |configs|, key) && |UrlValues(params, key)| > 0 then Some(UrlValues(params, key)) else None
  {
    RestoredGet(configs, UrlReader(params), |configs|, key);
  }

  /** The `forEach` callback of `syncFromUrl`: reads the parameter of one config
      and stores its values when the parameter is set and parses to something. */
  method RestoreParam(filters: Filters, config: FilterConfig, params: UrlQuery) returns (r: Filters)
    ensures r == if |UrlReader(params)(config.key)| > 0 then Assigned(filters, config.key, UrlReader(params)(config.key)) else filters
  {
    r := filters;
    var paramValue := UrlGet(params, config.key);
    if Given(paramValue) {
      var values := ParseValues(paramValue.value);
      if |values| > 0 {
        r := Assigned(filters, config.key, values);
      }
    }
  }

  /** The parsing loop of `syncFromUrl`: every config in order. */
  method FiltersFromUrl(configs: seq<FilterConfig>, params: UrlQuery) returns (filters: Filters)
    ensures filters == ParsedFilters(configs, UrlReader(params), |configs|)
  {
    filters := [];
    var n := 0;
    while n < |configs|
      invariant n <= |configs|
      invariant filters == ParsedFilters(configs, UrlReader(params), n)
    {
      filters := RestoreParam(filters, configs[n], params);
      n := n + 1;
    }
  }

  // ---------------------------------------------------------------------------
  // The composable
  // ---------------------------------------------------------------------------

  /** `useColumnFilter(filterConfigs)`: the configs and the active filters. */
  class ColumnFilter {
    const configs: seq<FilterConfig>
    var activeFilters: Filters

    /** The active filters form an object: no key twice. */
    ghost predicate Valid()
      reads this
    {
      DistinctKeys(activeFilters)
    }

    constructor(filterConfigs: seq<FilterConfig>)
      ensures configs == filterConfigs && activeFilters == []
      ensures Valid()
    {
      configs := filterConfigs;
      activeFilters := [];
    }

    /** `setFilter`: no values delete the key, otherwise the key is set to them;
        other keys keep their values. */
    method SetFilter(key: string, values: seq<string>)
      requires Valid()
      modifies this
      ensures Valid()
      ensures activeFilters == if |values| == 0 then Deleted(old(activeFilters), key)
                               else Assigned(old(activeFilters), key, values)
    {
      if |values| == 0 {
        DeletedDistinct(activeFilters, key);
        activeFilters := Deleted(activeFilters, key);
      } else {
        AssignedDistinct(activeFilters, key, values);
        activeFilters := Assigned(activeFilters, key, values);
      }
    }

    /** `removeFilter`: only `key` goes. */
    method RemoveFilter(key: string)
      requires Valid()
      modifies this
      ensures Valid()
      ensures activeFilters == Deleted(old(activeFilters), key)
    {
      DeletedDistinct(activeFilters, key);
      activeFilters := Deleted(activeFilters, key);
    }

    /** `clearFilters` */
    method ClearFilters()
      modifies this
      ensures Valid()
      ensures activeFilters == []
    {
      activeFilters := [];
    }

    /** `getActiveFilterCount`: the number of keys. */
    method GetActiveFilterCount() returns (n: nat)
      requires Valid()
      ensures n == |Keys(activeFilters)|
    {
      KeyCount(activeFilters);
      n := |activeFilters|;
    }

    /** `getActiveFilterLabels` */
    function GetActiveFilterLabels(): (r: seq<FilterLabel>)
      reads this
      ensures |r| == |activeFilters|
      ensures forall i :: 0 <= i < |activeFilters| ==>
        && r[i].key == activeFilters[i].0
        && r[i].values == activeFilters[i].1
        && IsPrefix(LabelOf(configs, activeFilters[i].0) + ": ", r[i].text)
        && r[i].text[|LabelOf(configs, activeFilters[i].0)| + 2..] == Join(activeFilters[i].1, ", ")
    {
      ActiveFilterLabels(configs, activeFilters)
    }

    /** `buildODataFilter`: walks the entries in order, pushing each clause. */
    method BuildODataFilter() returns (r: string)
      ensures r == ODataFilter(configs, activeFilters)
    {
      var filterParts: seq<string> := [];
      var i := 0;
      while i < |activeFilters|
        invariant 0 <= i <= |activeFilters|
        invariant filterParts == Clauses(configs, activeFilters[..i])
      {
        var key := activeFilters[i].0;
        var values := activeFilters[i].1;
        assert activeFilters[..i + 1][..i] == activeFilters[..i];
        var config := FindConfig(configs, key);
        if |values| == 0 || config.None? {
          // no values, or no config for the key: skipped
        } else if |values| == 1 {
          var value := values[0];
          if value != "" {
            filterParts := filterParts + [config.value.apiField + " eq '" + EscapeODataValue(value) + "'"];
          }
        } else {
          var orParts := EqClauses(config.value.apiField, NonEmpty(values));
          if |orParts| > 0 {
            filterParts := filterParts + ["(" + Join(orParts, " or ") + ")"];
          }
        }
        i := i + 1;
      }
      assert activeFilters[..i] == activeFilters;
      r := Join(filterParts, " and ");
    }

    /** `syncFromUrl`: the filters the URL gives replace the active ones. */
    method SyncFromUrl(params: UrlQuery)
      modifies this
      ensures activeFilters == ParsedFilters(configs, UrlReader(params), |configs|)
      ensures Valid()
    {
      var filters := FiltersFromUrl(configs, params);
      ParsedWell(configs, params);
      activeFilters := filters;
    }
  }
}
