/**
  The datasource registry built by the `BasicDao(Properties)` constructor: the
  configuration entries whose key matches the datasource pattern are grouped
  by datasource name, a default group is chosen, and one pooled datasource is
  created and given a dialect for every group.
*/
module Dao {
  import opened Wrappers
  import SQLDialectUtils

  /** One configuration entry, in the iteration order of the `Properties` table. */
  datatype Entry = Entry(key: string, value: string)

  /** The property group of one datasource (param -> value). */
  type Properties = map<string, string>

  /** The pooled datasource created from one property group. */
  datatype DataSource = DataSource(config: Properties)

  /** A datasource key cut into datasource name and parameter. */
  datatype KeyParts = KeyParts(name: string, param: string)

  /** What the constructor throws. */
  datatype BuildError =
    | NumberFormat(text: string)     // Integer.valueOf on sqltool.defaultBatchSize
    | IllegalConfig(message: string) // IllegalConfigException: no datasource key at all
    | InitializeDataSource           // InitializeDataSourceException wrapping any creation or dialect failure

  /** The state a successful construction leaves. */
  datatype Config = Config(
    dataSources: map<string, DataSource>,
    defaultName: string,
    showSql: bool,
    defaultBatchSize: int)

  const DatasourcePrefix := "sqltool.datasource."
  const DefaultName := "default"
  const ShowSqlKey := "sqltool.showSql"
  const BatchSizeKey := "sqltool.defaultBatchSize"
  const DefaultBatchSize := 500
  const NoDatasourceMessage := "No datasource is configured, please check the configuration"

  // ---------------------------------------------------------------------------
  // Plain configuration values

  /** `properties.getProperty(key)`: the value of the entry with that key. */
  function GetProperty(properties: seq<Entry>, key: string): (r: Option<string>)
    ensures r.None? <==> forall i :: 0 <= i < |properties| ==> properties[i].key != key
    ensures r.Some? ==> exists i :: 0 <= i < |properties| && properties[i] == Entry(key, r.value)
  {
    if properties == [] then None
    else if properties[|properties| - 1].key == key then Some(properties[|properties| - 1].value)
    else GetProperty(properties[..|properties| - 1], key)
  }

  function ToLowerAscii(c: char): char {
    if 'A' <= c <= 'Z' then (c as int + 32) as char else c
  }

  /** `Boolean.valueOf(s)`: "true" compared without regard to case. */
  function ParseBoolean(s: string): (b: bool)
    ensures b ==> |s| == 4 && forall k :: 0 <= k < 4 ==> ToLowerAscii(s[k]) == "true"[k]
    ensures |s| == 4 && (forall k :: 0 <= k < 4 ==> ToLowerAscii(s[k]) == "true"[k]) ==> b
  {
    |s| == 4 && ToLowerAscii(s[0]) == 't' && ToLowerAscii(s[1]) == 'r' &&
    ToLowerAscii(s[2]) == 'u' && ToLowerAscii(s[3]) == 'e'
  }

  predicate IsDigit(c: char) {
    '0' <= c <= '9'
  }

  predicate AllDigits(s: string) {
    forall k :: 0 <= k < |s| ==> IsDigit(s[k])
  }

  /** The value of a string of decimal digits. */
  function DigitsValue(s: string): nat
    requires AllDigits(s)
  {
    if s == [] then 0 else DigitsValue(s[..|s| - 1]) * 10 + (s[|s| - 1] as int - '0' as int)
  }

  /** `Integer.valueOf(s)`: an optional sign, at least one digit, and a 32-bit range. */
  function ParseInt(s: string): (r: Option<int>)
    ensures r.Some? ==> -0x8000_0000 <= r.value < 0x8000_0000
    ensures s == [] || s == "-" || s == "+" ==> r.None?
  {
    var signed := |s| > 0 && (s[0] == '-' || s[0] == '+');
    var digits := if signed then s[1..] else s;
    if digits == [] || !AllDigits(digits) then None
    else
      var magnitude: int := DigitsValue(digits);
      var v := if s[0] == '-' then -magnitude else magnitude;
      if -0x8000_0000 <= v < 0x8000_0000 then Some(v) else None
  }

  /** `sqltool.showSql`, false when absent. */
  function ShowSqlSetting(properties: seq<Entry>): (b: bool)
    ensures GetProperty(properties, ShowSqlKey).None? ==> !b
    ensures b ==> GetProperty(properties, ShowSqlKey).Some?
  {
    match GetProperty(properties, ShowSqlKey)
    case None => false
    case Some(s) => ParseBoolean(s)
  }

  /** `sqltool.defaultBatchSize`, 500 when absent; a malformed value throws. */
  function BatchSizeSetting(properties: seq<Entry>): (r: Result<int, BuildError>)
    ensures GetProperty(properties, BatchSizeKey).None? ==> r == Success(DefaultBatchSize)
    ensures r.Failure? ==> r.error.NumberFormat?
  {
    match GetProperty(properties, BatchSizeKey)
    case None => Success(DefaultBatchSize)
    case Some(s) => if ParseInt(s).Some? then Success(ParseInt(s).value) else Failure(NumberFormat(s))
  }

  lemma DefaultBatchSizeParses()
    ensures ParseInt("500") == Some(DefaultBatchSize)
  {
    assert "500"[..2] == "50" && "50"[..1] == "5" && "5"[..0] == "";
  }

  // ---------------------------------------------------------------------------
  // The datasource key pattern  ^sqltool\.datasource\.([\S]+\.){0,1}[^\.]+$

  /** Java's `\s`: space, tab, newline, vertical tab, form feed, carriage return. */
  predicate IsWhitespace(c: char) {
    c == ' ' || c == '\t' || c == '\n' || c == '\U{B}' || c == '\U{C}' || c == '\r'
  }

  predicate NoWhitespace(s: string) {
    forall k :: 0 <= k < |s| ==> !IsWhitespace(s[k])
  }

  /** `String.indexOf`: the first index of `c`, or -1. */
  function IndexOf(s: string, c: char): (r: int)
    ensures -1 <= r < |s|
    ensures r < 0 ==> c !in s
    ensures 0 <= r ==> s[r] == c && c !in s[..r]
  {
    if s == [] then -1
    else if s[0] == c then 0
    else
      var k := IndexOf(s[1..], c);
      assert s == [s[0]] + s[1..];
      if k < 0 then -1
      else
        assert s[..k + 1] == [s[0]] + s[1..][..k];
        k + 1
  }

  /** The last index of `c`, or -1. */
  function LastIndexOf(s: string, c: char): (r: int)
    ensures -1 <= r < |s|
    ensures r < 0 ==> c !in s
    ensures 0 <= r ==> s[r] == c && c !in s[r + 1..]
  {
    if s == [] then -1
    else if s[|s| - 1] == c then |s| - 1
    else
      var k := LastIndexOf(s[..|s| - 1], c);
      assert k >= 0 ==> s[k + 1..] == s[..|s| - 1][k + 1..] + [s[|s| - 1]];
      k
  }

  /**
    The remainder `r` after the prefix is `A + "." + B` with the separating dot
    at index `i`: `A` non-empty without whitespace, `B` non-empty without dot.
  */
  ghost predicate GroupedAt(r: string, i: int) {
    0 < i && i + 1 < |r| && r[i] == '.' && NoWhitespace(r[..i]) && '.' !in r[i + 1..]
  }

  /** What the pattern accepts after the prefix, read off its two alternatives. */
  ghost predicate RemainderMatchesPattern(r: string) {
    (r != [] && '.' !in r) || exists i :: GroupedAt(r, i)
  }

  /** The pattern decided at the last dot, which is where `[^\.]+` must start. */
  function RemainderMatches(r: string): (b: bool)
    ensures b ==> r != [] && r[|r| - 1] != '.'
  {
    var j := LastIndexOf(r, '.');
    if j < 0 then r != [] else 0 < j && j + 1 < |r| && NoWhitespace(r[..j])
  }

  lemma {:induction false} RemainderMatchesIff(r: string)
    ensures RemainderMatches(r) <==> RemainderMatchesPattern(r)
  {
    var j := LastIndexOf(r, '.');
    if RemainderMatches(r) && j >= 0 {
      assert GroupedAt(r, j);
    }
    if exists i :: GroupedAt(r, i) {
      var i :| GroupedAt(r, i);
      assert '.' in r;
      assert j == i;
    }
  }

  /** `key.matches(DATASOURCE_REGEX)`. */
  function IsDatasourceKey(key: string): (b: bool)
    ensures b ==> |DatasourcePrefix| < |key| && key[..|DatasourcePrefix|] == DatasourcePrefix
  {
    |DatasourcePrefix| <= |key| && key[..|DatasourcePrefix|] == DatasourcePrefix &&
    RemainderMatches(key[|DatasourcePrefix|..])
  }

  /**
    Name and parameter, cut at the FIRST dot of the remainder; the parameter
    keeps that dot (`substring(index)`). Without a dot past index 0 the whole
    remainder is a parameter of the "default" datasource.
  */
  function SplitKey(remainder: string): (parts: KeyParts)
    ensures remainder != [] && remainder[0] != '.' && '.' in remainder ==>
      parts.name != [] && '.' !in parts.name && parts.name + parts.param == remainder &&
      parts.param != [] && parts.param[0] == '.'
    ensures '.' !in remainder || remainder[0] == '.' ==> parts == KeyParts(DefaultName, remainder)
  {
    var index := IndexOf(remainder, '.');
    if index > 0 then KeyParts(remainder[..index], remainder[index..])
    else KeyParts(DefaultName, remainder)
  }

  /** Which (name, param) an entry contributes, if its key matches. */
  function Contribution(e: Entry): (r: Option<KeyParts>)
    ensures r.Some? <==> IsDatasourceKey(e.key)
    ensures r.Some? ==> r.value.param != [] && (r.value.name != DefaultName ==> r.value.param[0] == '.')
  {
    if IsDatasourceKey(e.key) then Some(SplitKey(e.key[|DatasourcePrefix|..])) else None
  }

  /** The prefix is cut off and the pattern decides on what follows it. */
  lemma PrefixedKey(r: string)
    ensures (DatasourcePrefix + r)[|DatasourcePrefix|..] == r
    ensures IsDatasourceKey(DatasourcePrefix + r) == RemainderMatches(r)
  {
    assert (DatasourcePrefix + r)[..|DatasourcePrefix|] == DatasourcePrefix;
  }

  /** In `name + "." + param` with a dot-free name, the first dot is the one after the name. */
  lemma FirstDotAfterName(name: string, param: string)
    requires name != [] && '.' !in name
    ensures IndexOf(name + "." + param, '.') == |name|
  {
    var r := name + "." + param;
    assert r[|name|] == '.';
    assert r[..|name|] == name;
    var index := IndexOf(r, '.');
    assert index <= |name| by {
      assert r[|name|] in r[..|name| + 1];
    }
    assert index >= |name| by {
      assert forall k :: 0 <= k < |name| ==> r[k] == name[k];
    }
  }

  lemma KeyWithoutDotIsDefault(r: string, value: string)
    requires IsDatasourceKey(DatasourcePrefix + r) && '.' !in r
    ensures Contribution(Entry(DatasourcePrefix + r, value)) == Some(KeyParts(DefaultName, r))
  {
    PrefixedKey(r);
  }

  /** `name.param` with a whitespace-free name and a dot-free param is accepted. */
  lemma NamedRemainderMatches(name: string, param: string)
    requires name != [] && '.' !in name && NoWhitespace(name) && param != [] && '.' !in param
    ensures RemainderMatches(name + "." + param)
  {
    var r := name + "." + param;
    assert r[..|name|] == name && r[|name| + 1..] == param;
    assert GroupedAt(r, |name|);
    RemainderMatchesIff(r);
  }

  /** `name.param` is cut into `name` and `.param`. */
  lemma NamedRemainderSplits(name: string, param: string)
    requires name != [] && '.' !in name
    ensures SplitKey(name + "." + param) == KeyParts(name, "." + param)
  {
    var r := name + "." + param;
    FirstDotAfterName(name, param);
    assert r[..|name|] == name && r[|name|..] == "." + param;
  }

  lemma KeyWithNameKeepsDot(name: string, param: string, value: string)
    requires name != [] && '.' !in name && NoWhitespace(name) && param != [] && '.' !in param
    ensures Contribution(Entry(DatasourcePrefix + (name + "." + param), value)) ==
      Some(KeyParts(name, "." + param))
  {
    PrefixedKey(name + "." + param);
    NamedRemainderMatches(name, param);
    NamedRemainderSplits(name, param);
  }

  // ---------------------------------------------------------------------------
  // Grouping (the first loop of the constructor)

  /** `datasourceConfigs.get(name)`, created when missing, then `put(param, value)`. */
  function PutParam(groups: map<string, Properties>, parts: KeyParts, value: string): (r: map<string, Properties>)
    ensures r.Keys == groups.Keys + {parts.name}
    ensures parts.param in r[parts.name] && r[parts.name][parts.param] == value
    ensures forall p :: p in r[parts.name] && p != parts.param ==>
      parts.name in groups && p in groups[parts.name] && r[parts.name][p] == groups[parts.name][p]
    ensures forall n :: n in groups && n != parts.name ==> r[n] == groups[n]
  {
    var config := if parts.name in groups then groups[parts.name] else map[];
    groups[parts.name := config[parts.param := value]]
  }

  /**
    The property groups after visiting `entries`, where `classify` says which
    (name, param) each entry contributes, if any.
  */
  function GroupBy(entries: seq<Entry>, classify: Entry -> Option<KeyParts>): (r: map<string, Properties>)
    ensures forall n :: n in r ==> r[n] != map[]
  {
    if entries == [] then map[]
    else
      var groups := GroupBy(entries[..|entries| - 1], classify);
      var e := entries[|entries| - 1];
      match classify(e)
      case None => groups
      case Some(parts) => PutParam(groups, parts, e.value)
  }

  /** The name of the first entry that contributes anything. */
  function FirstNameBy(entries: seq<Entry>, classify: Entry -> Option<KeyParts>): (r: Option<string>)
    ensures r.None? <==> GroupBy(entries, classify) == map[]
    ensures r.Some? ==> r.value in GroupBy(entries, classify)
  {
    if entries == [] then None
    else
      var first := FirstNameBy(entries[..|entries| - 1], classify);
      if first.Some? then first
      else match classify(entries[|entries| - 1])
        case None => None
        case Some(parts) => Some(parts.name)
  }

  /** The groups the constructor's first loop builds. */
  function Group(entries: seq<Entry>): (r: map<string, Properties>)
    ensures forall n :: n in r ==> r[n] != map[]
  {
    GroupBy(entries, Contribution)
  }

  /** `firstName` after the constructor's first loop. */
  function FirstName(entries: seq<Entry>): (r: Option<string>)
    ensures r.None? <==> Group(entries) == map[]
    ensures r.Some? ==> r.value in Group(entries)
  {
    FirstNameBy(entries, Contribution)
  }

  ghost predicate Names(classify: Entry -> Option<KeyParts>, e: Entry, name: string) {
    classify(e).Some? && classify(e).value.name == name
  }

  /** A group exists exactly for the names the entries contribute. */
  lemma {:induction false} GroupKeys(entries: seq<Entry>, classify: Entry -> Option<KeyParts>, name: string)
    ensures name in GroupBy(entries, classify) <==>
      exists i :: 0 <= i < |entries| && Names(classify, entries[i], name)
    decreases |entries|
  {
    if entries != [] {
      var init := entries[..|entries| - 1];
      GroupKeys(init, classify, name);
      if exists i :: 0 <= i < |init| && Names(classify, init[i], name) {
        var i :| 0 <= i < |init| && Names(classify, init[i], name);
        assert entries[i] == init[i];
      }
      if exists i :: 0 <= i < |entries| && Names(classify, entries[i], name) {
        var i :| 0 <= i < |entries| && Names(classify, entries[i], name);
        if i < |init| { assert entries[i] == init[i]; }
      }
    }
  }

  /** A group holds a parameter exactly when some entry contributes it. */
  lemma {:induction false} GroupParams(entries: seq<Entry>, classify: Entry -> Option<KeyParts>,
                                       name: string, param: string)
    ensures name in GroupBy(entries, classify) && param in GroupBy(entries, classify)[name] <==>
      exists i :: 0 <= i < |entries| && classify(entries[i]) == Some(KeyParts(name, param))
    decreases |entries|
  {
    if entries != [] {
      var init := entries[..|entries| - 1];
      GroupParams(init, classify, name, param);
      if exists i :: 0 <= i < |init| && classify(init[i]) == Some(KeyParts(name, param)) {
        var i :| 0 <= i < |init| && classify(init[i]) == Some(KeyParts(name, param));
        assert entries[i] == init[i];
      }
      if exists i :: 0 <= i < |entries| && classify(entries[i]) == Some(KeyParts(name, param)) {
        var i :| 0 <= i < |entries| && classify(entries[i]) == Some(KeyParts(name, param));
        if i < |init| { assert entries[i] == init[i]; }
      }
    }
  }

  /** A parameter's value is that of the LAST entry contributing it. */
  lemma {:induction false} GroupValue(entries: seq<Entry>, classify: Entry -> Option<KeyParts>,
                                      i: nat, name: string, param: string)
    requires i < |entries| && classify(entries[i]) == Some(KeyParts(name, param))
    requires forall j :: i < j < |entries| ==> classify(entries[j]) != Some(KeyParts(name, param))
    ensures name in GroupBy(entries, classify) && param in GroupBy(entries, classify)[name]
    ensures GroupBy(entries, classify)[name][param] == entries[i].value
    decreases |entries|
  {
    var init := entries[..|entries| - 1];
    if i < |init| {
      forall j | i < j < |init| ensures classify(init[j]) != Some(KeyParts(name, param)) {
        assert init[j] == entries[j];
      }
      GroupValue(init, classify, i, name, param);
    }
  }

  /** An entry that contributes nothing may be dropped anywhere without changing any group. */
  lemma {:induction false} IgnoredEntryDropped(before: seq<Entry>, e: Entry, after: seq<Entry>,
                                               classify: Entry -> Option<KeyParts>)
    requires classify(e).None?
    ensures GroupBy(before + [e] + after, classify) == GroupBy(before + after, classify)
    decreases |after|
  {
    if after == [] {
      assert (before + [e])[..|before|] == before;
      assert before + [e] + after == before + [e];
      assert before + after == before;
    } else {
      var init := after[..|after| - 1];
      IgnoredEntryDropped(before, e, init, classify);
      assert (before + [e] + after)[..|before + [e] + after| - 1] == before + [e] + init;
      assert (before + after)[..|before + after| - 1] == before + init;
    }
  }

  /** `firstName` names the first contributing entry, and is null when none contributes. */
  lemma {:induction false} FirstNameSpec(entries: seq<Entry>, classify: Entry -> Option<KeyParts>)
    ensures FirstNameBy(entries, classify).None? <==> forall i :: 0 <= i < |entries| ==> classify(entries[i]).None?
    ensures FirstNameBy(entries, classify).Some? ==>
      exists i :: 0 <= i < |entries| &&
        Names(classify, entries[i], FirstNameBy(entries, classify).value) &&
        (forall j :: 0 <= j < i ==> classify(entries[j]).None?)
    decreases |entries|
  {
    if entries != [] {
      var init := entries[..|entries| - 1];
      FirstNameSpec(init, classify);
      if FirstNameBy(init, classify).Some? {
        var i :| 0 <= i < |init| && Names(classify, init[i], FirstNameBy(init, classify).value) &&
          (forall j :: 0 <= j < i ==> classify(init[j]).None?);
        assert entries[i] == init[i];
        assert forall j :: 0 <= j < i ==> init[j] == entries[j];
      } else {
        assert forall j :: 0 <= j < |init| ==> init[j] == entries[j];
      }
    }
  }

  /** Keys that do not match the pattern contribute to no group. */
  lemma NonMatchingKeyIgnored(before: seq<Entry>, e: Entry, after: seq<Entry>)
    requires !IsDatasourceKey(e.key)
    ensures Group(before + [e] + after) == Group(before + after)
  {
    IgnoredEntryDropped(before, e, after, Contribution);
  }

  /** No group exists exactly when no key matches, and otherwise `firstName` is one of them. */
  lemma GroupEmptyIff(entries: seq<Entry>)
    ensures Group(entries) == map[] <==> forall i :: 0 <= i < |entries| ==> !IsDatasourceKey(entries[i].key)
    ensures FirstName(entries).None? <==> Group(entries) == map[]
    ensures FirstName(entries).Some? ==> FirstName(entries).value in Group(entries)
  {
    FirstNameSpec(entries, Contribution);
    if exists i :: 0 <= i < |entries| && IsDatasourceKey(entries[i].key) {
      var i :| 0 <= i < |entries| && IsDatasourceKey(entries[i].key);
      GroupKeys(entries, Contribution, Contribution(entries[i]).value.name);
    }
    if Group(entries) != map[] {
      var name :| name in Group(entries);
      GroupKeys(entries, Contribution, name);
    }
    if FirstName(entries).Some? {
      GroupKeys(entries, Contribution, FirstName(entries).value);
    }
  }

  /** Every parameter of a group other than "default" starts with the dot that cut it from the name. */
  lemma NamedParamsKeepDot(entries: seq<Entry>, name: string, param: string)
    requires name in Group(entries) && param in Group(entries)[name] && name != DefaultName
    ensures param != [] && param[0] == '.'
  {
    GroupParams(entries, Contribution, name, param);
    var i :| 0 <= i < |entries| && Contribution(entries[i]) == Some(KeyParts(name, param));
    var r := entries[i].key[|DatasourcePrefix|..];
    assert SplitKey(r) == KeyParts(name, param);
  }

  // ---------------------------------------------------------------------------
  // Default selection and registration

  /** `"default"` when that group exists, otherwise `firstName`. */
  function DefaultNameOf(groups: map<string, Properties>, first: Option<string>): (name: string)
    ensures DefaultName in groups ==> name == DefaultName
    ensures name != DefaultName ==> first == Some(name)
    ensures first.None? ==> name == DefaultName
    ensures first.Some? && first.value in groups ==> name in groups
  {
    if DefaultName in groups || first.None? then DefaultName else first.value
  }

  /** Every group's datasource can be created and its dialect resolved. */
  ghost predicate AllInitialise(groups: map<string, Properties>, creates: Properties -> bool) {
    forall name :: name in groups ==> Initialises(groups[name], creates)
  }

  /** The datasource of `config` can be created and its dialect resolved. */
  ghost predicate Initialises(config: Properties, creates: Properties -> bool) {
    creates(config) && SQLDialectUtils.GetSQLDialect(config).Success?
  }

  function Registered(groups: map<string, Properties>): map<string, DataSource> {
    map name | name in groups :: DataSource(groups[name])
  }

  lemma RegisteredAdd(groups: map<string, Properties>, name: string, config: Properties)
    ensures Registered(groups[name := config]) == Registered(groups)[name := DataSource(config)]
  {
  }

  /** The dialect cache after registration: the MySQL dialect for every created datasource. */
  function DialectsOf(dataSources: map<string, DataSource>): map<DataSource, SQLDialectUtils.SQLDialect> {
    map ds | ds in dataSources.Values :: SQLDialectUtils.MySQLDialect
  }

  /** Registering one more datasource adds exactly that datasource to the dialect cache. */
  lemma DialectsAfterAdd(m: map<string, DataSource>, k: string, v: DataSource)
    requires k !in m
    ensures DialectsOf(m[k := v]) == DialectsOf(m)[v := SQLDialectUtils.MySQLDialect]
  {
    var m' := m[k := v];
    assert m'[k] == v;
    forall x | x in m'.Values ensures x in m.Values || x == v {
      var k' :| k' in m' && m'[k'] == x;
      if k' != k { assert m[k'] == x; }
    }
    forall x | x in m.Values ensures x in m'.Values {
      var k' :| k' in m && m[k'] == x;
      assert m'[k'] == x;
    }
    assert m'.Values == m.Values + {v};
  }

  /**
    The whole constructor as a function of the entries, of which property groups
    `DataSourceFactory.createDataSource` accepts, and of how a key is classified.
  */
  ghost function ConstructBy(properties: seq<Entry>, creates: Properties -> bool,
                             classify: Entry -> Option<KeyParts>): (r: Result<Config, BuildError>)
    ensures r.Success? ==>
      r.value.dataSources.Keys == GroupBy(properties, classify).Keys && r.value.defaultName in r.value.dataSources
    ensures r.Failure? && r.error.IllegalConfig? <==>
      BatchSizeSetting(properties).Success? && GroupBy(properties, classify) == map[]
  {
    var batch := BatchSizeSetting(properties);
    var groups := GroupBy(properties, classify);
    if batch.Failure? then Failure(batch.error)
    else if groups == map[] then Failure(IllegalConfig(NoDatasourceMessage))
    else if !AllInitialise(groups, creates) then Failure(InitializeDataSource)
    else Success(Config(Registered(groups), DefaultNameOf(groups, FirstNameBy(properties, classify)),
                        ShowSqlSetting(properties), batch.value))
  }

  /** The constructor as written. */
  ghost function Construct(properties: seq<Entry>, creates: Properties -> bool): (r: Result<Config, BuildError>)
    ensures r.Success? ==> r.value.dataSources.Keys == Group(properties).Keys && r.value.defaultName in r.value.dataSources
  {
    ConstructBy(properties, creates, Contribution)
  }

  /** Without any matching key, construction fails with IllegalConfigException. */
  lemma NoDatasourceKeyFails(properties: seq<Entry>, creates: Properties -> bool)
    requires BatchSizeSetting(properties).Success?
    requires forall i :: 0 <= i < |properties| ==> !IsDatasourceKey(properties[i].key)
    ensures Construct(properties, creates) == Failure(IllegalConfig(NoDatasourceMessage))
  {
    GroupEmptyIff(properties);
  }

  /** Any failing creation or dialect resolution surfaces as InitializeDataSourceException. */
  lemma InitialisationFailureWrapped(properties: seq<Entry>, creates: Properties -> bool, name: string)
    requires BatchSizeSetting(properties).Success?
    requires name in Group(properties)
    requires !creates(Group(properties)[name]) || SQLDialectUtils.GetSQLDialect(Group(properties)[name]).Failure?
    ensures Construct(properties, creates) == Failure(InitializeDataSource)
  {
  }

  /**
    After a successful construction the registered names are exactly the group
    names, each with the datasource of its own group.
  */
  lemma ConstructedRegistry(properties: seq<Entry>, creates: Properties -> bool)
    requires Construct(properties, creates).Success?
    ensures var cfg := Construct(properties, creates).value;
      && cfg.dataSources.Keys == Group(properties).Keys
      && (forall name :: name in cfg.dataSources ==> cfg.dataSources[name] == DataSource(Group(properties)[name]))
  {
  }

  /**
    For any classification of the keys, the default name is registered: it is
    "default" when some entry names that datasource, and otherwise the name of
    the first entry that contributes anything.
  */
  lemma ConstructedDefaultBy(properties: seq<Entry>, creates: Properties -> bool,
                             classify: Entry -> Option<KeyParts>)
    requires ConstructBy(properties, creates, classify).Success?
    ensures var cfg := ConstructBy(properties, creates, classify).value;
      && cfg.defaultName in cfg.dataSources
      && ((exists i :: 0 <= i < |properties| && Names(classify, properties[i], DefaultName)) ==>
            cfg.defaultName == DefaultName)
      && ((forall i :: 0 <= i < |properties| ==> !Names(classify, properties[i], DefaultName)) ==>
            exists i :: 0 <= i < |properties| && Names(classify, properties[i], cfg.defaultName) &&
              forall j :: 0 <= j < i ==> classify(properties[j]).None?)
  {
    var groups := GroupBy(properties, classify);
    var cfg := ConstructBy(properties, creates, classify).value;
    assert cfg.defaultName == DefaultNameOf(groups, FirstNameBy(properties, classify));
    GroupKeys(properties, classify, DefaultName);
    FirstNameSpec(properties, classify);
  }

  /** The default selection of the constructor as written. */
  lemma ConstructedDefault(properties: seq<Entry>, creates: Properties -> bool)
    requires Construct(properties, creates).Success?
    ensures var cfg := Construct(properties, creates).value;
      && cfg.defaultName in cfg.dataSources
      && ((exists i :: 0 <= i < |properties| && Names(Contribution, properties[i], DefaultName)) ==>
            cfg.defaultName == DefaultName)
      && ((forall i :: 0 <= i < |properties| ==> !Names(Contribution, properties[i], DefaultName)) ==>
            exists i :: 0 <= i < |properties| && Names(Contribution, properties[i], cfg.defaultName) &&
              forall j :: 0 <= j < i ==> !IsDatasourceKey(properties[j].key))
  {
    ConstructedDefaultBy(properties, creates, Contribution);
  }

  /**
    As written, only the "default" group can ever be initialised: every other
    group's parameters start with a dot, so `getSQLDialect` finds no "url".
  */
  lemma OnlyDefaultGroupInitialises(properties: seq<Entry>, creates: Properties -> bool)
    requires Construct(properties, creates).Success?
    ensures Group(properties).Keys == {DefaultName}
    ensures Construct(properties, creates).value.defaultName == DefaultName
  {
    var groups := Group(properties);
    forall name | name in groups ensures name == DefaultName {
      if name != DefaultName {
        assert SQLDialectUtils.GetSQLDialect(groups[name]).Success?;
        NamedParamsKeepDot(properties, name, SQLDialectUtils.UrlKey);
      }
    }
    var some :| some in groups;
  }

  /** A single contributing entry makes a single group with a single parameter. */
  lemma SingleEntryGroup(e: Entry, classify: Entry -> Option<KeyParts>, parts: KeyParts)
    requires classify(e) == Some(parts)
    ensures GroupBy([e], classify) == map[parts.name := map[parts.param := e.value]]
    ensures FirstNameBy([e], classify) == Some(parts.name)
  {
    assert [e][..0] == [];
  }

  /**
    A datasource key is neither the batch-size key nor the showSql key, so both
    settings keep their defaults.
  */
  lemma DatasourceKeyKeepsDefaultBatchSize(r: string, value: string)
    ensures BatchSizeSetting([Entry(DatasourcePrefix + r, value)]) == Success(DefaultBatchSize)
    ensures !ShowSqlSetting([Entry(DatasourcePrefix + r, value)])
  {
    assert (DatasourcePrefix + r)[9] != BatchSizeKey[9];
    assert (DatasourcePrefix + r)[9] != ShowSqlKey[9];
    assert [Entry(DatasourcePrefix + r, value)][..0] == [];
  }

  /** A configuration whose only key names a datasource fails, whatever its url. */
  lemma SingleNamedKeyRejected(name: string, param: string, value: string, creates: Properties -> bool)
    requires name != [] && '.' !in name && NoWhitespace(name) && param != [] && '.' !in param
    ensures Construct([Entry(DatasourcePrefix + (name + "." + param), value)], creates) == Failure(InitializeDataSource)
  {
    var e := Entry(DatasourcePrefix + (name + "." + param), value);
    KeyWithNameKeepsDot(name, param, value);
    SingleEntryGroup(e, Contribution, KeyParts(name, "." + param));
    DatasourceKeyKeepsDefaultBatchSize(name + "." + param, value);
    var groups := Group([e]);
    assert ("." + param)[0] != SQLDialectUtils.UrlKey[0];
    assert SQLDialectUtils.GetSQLDialect(groups[name]).Failure?;
  }

  /** For instance "sqltool.datasource.a.url", although its url is a MySQL url. */
  lemma NamedDatasourceRejected(creates: Properties -> bool)
    ensures Construct([Entry("sqltool.datasource.a.url", "jdbc:mysql://localhost/db")], creates)
      == Failure(InitializeDataSource)
  {
    assert DatasourcePrefix + ("a" + "." + "url") == "sqltool.datasource.a.url";
    SingleNamedKeyRejected("a", "url", "jdbc:mysql://localhost/db", creates);
  }

  /**
    The evident intent: cut the parameter AFTER the dot (`substring(index + 1)`),
    so that `sqltool.datasource.<name>.<param>` yields exactly (name, param).
  */
  function SplitKeyIntended(remainder: string): (parts: KeyParts)
    ensures '.' !in remainder || remainder[0] == '.' ==> parts == KeyParts(DefaultName, remainder)
  {
    var index := IndexOf(remainder, '.');
    if index > 0 then KeyParts(remainder[..index], remainder[index + 1..])
    else KeyParts(DefaultName, remainder)
  }

  lemma IntendedSplitRoundTrip(name: string, param: string)
    requires name != [] && '.' !in name && param != [] && '.' !in param
    ensures SplitKeyIntended(name + "." + param) == KeyParts(name, param)
  {
    var r := name + "." + param;
    FirstDotAfterName(name, param);
    assert r[..|name|] == name && r[|name| + 1..] == param;
  }

  /** The constructor's classification with the intended split. */
  function ContributionIntended(e: Entry): Option<KeyParts> {
    if IsDatasourceKey(e.key) then Some(SplitKeyIntended(e.key[|DatasourcePrefix|..])) else None
  }

  /** With the intended split, `sqltool.datasource.<name>.<param>` lands under `param` itself. */
  lemma IntendedKeyKeepsParam(name: string, param: string, value: string)
    requires name != [] && '.' !in name && NoWhitespace(name) && param != [] && '.' !in param
    ensures GroupBy([Entry(DatasourcePrefix + (name + "." + param), value)], ContributionIntended) ==
      map[name := map[param := value]]
    ensures FirstNameBy([Entry(DatasourcePrefix + (name + "." + param), value)], ContributionIntended) == Some(name)
  {
    PrefixedKey(name + "." + param);
    NamedRemainderMatches(name, param);
    IntendedSplitRoundTrip(name, param);
    SingleEntryGroup(Entry(DatasourcePrefix + (name + "." + param), value), ContributionIntended, KeyParts(name, param));
  }

  /**
    So a named datasource whose url names MySQL resolves its dialect, where the
    as-written split makes the same key fail (`SingleNamedKeyRejected`).
  */
  lemma IntendedNamedDatasourceResolves(name: string, url: string)
    requires name != [] && '.' !in name && NoWhitespace(name)
    requires exists i :: SQLDialectUtils.OccursAt(url, SQLDialectUtils.MySqlMarker, i)
    ensures var groups := GroupBy([Entry(DatasourcePrefix + (name + "." + SQLDialectUtils.UrlKey), url)],
                                  ContributionIntended);
      name in groups && SQLDialectUtils.GetSQLDialect(groups[name]) == Success(SQLDialectUtils.MySQLDialect)
  {
    assert '.' !in SQLDialectUtils.UrlKey;
    IntendedKeyKeepsParam(name, SQLDialectUtils.UrlKey, url);
    SQLDialectUtils.GetSQLDialectSpec(map[SQLDialectUtils.UrlKey := url]);
  }

  /**
    With the intended split the same single-key configuration constructs: its
    one datasource is registered under its own name with the url as `url`, and
    becomes the default.
  */
  lemma IntendedNamedDatasourceConstructs(name: string, url: string, creates: Properties -> bool)
    requires name != [] && '.' !in name && NoWhitespace(name)
    requires exists i :: SQLDialectUtils.OccursAt(url, SQLDialectUtils.MySqlMarker, i)
    requires creates(map[SQLDialectUtils.UrlKey := url])
    ensures var properties := [Entry(DatasourcePrefix + (name + "." + SQLDialectUtils.UrlKey), url)];
      ConstructBy(properties, creates, ContributionIntended) ==
        Success(Config(map[name := DataSource(map[SQLDialectUtils.UrlKey := url])], name, false, DefaultBatchSize))
  {
    var key := DatasourcePrefix + (name + "." + SQLDialectUtils.UrlKey);
    IntendedNamedDatasourceResolves(name, url);
    assert '.' !in SQLDialectUtils.UrlKey;
    IntendedKeyKeepsParam(name, SQLDialectUtils.UrlKey, url);
    DatasourceKeyKeepsDefaultBatchSize(name + "." + SQLDialectUtils.UrlKey, url);
    ConstructSingleGroup([Entry(key, url)], creates, ContributionIntended, name, map[SQLDialectUtils.UrlKey := url]);
  }

  /** A configuration with a single initialisable group registers just that group, as default. */
  lemma ConstructSingleGroup(properties: seq<Entry>, creates: Properties -> bool,
                             classify: Entry -> Option<KeyParts>, name: string, config: Properties)
    requires BatchSizeSetting(properties) == Success(DefaultBatchSize) && !ShowSqlSetting(properties)
    requires GroupBy(properties, classify) == map[name := config]
    requires FirstNameBy(properties, classify) == Some(name)
    requires Initialises(config, creates)
    ensures ConstructBy(properties, creates, classify) ==
      Success(Config(map[name := DataSource(config)], name, false, DefaultBatchSize))
  {
    var groups := map[name := config];
    assert AllInitialise(groups, creates);
    assert DefaultNameOf(groups, Some(name)) == name;
    RegisteredAdd(map[], name, config);
    assert Registered(map[]) == map[];
    assert GroupBy(properties, classify) != map[] by { assert name in GroupBy(properties, classify); }
    assert AllInitialise(GroupBy(properties, classify), creates);
    assert ConstructBy(properties, creates, classify).Success?;
    assert ConstructBy(properties, creates, classify).value.dataSources == map[name := DataSource(config)];
    assert ConstructBy(properties, creates, classify).value.defaultName == name;
  }

  // ---------------------------------------------------------------------------
  // The registry object

  class BasicDao {
    var dataSources: map<string, DataSource>
    var defaultDataSource: Option<DataSource>
    /** `cacheSQLDialect`: the dialect resolved for each created datasource. */
    var dialectCache: map<DataSource, SQLDialectUtils.SQLDialect>
    var showSql: bool
    var defaultBatchSize: int

    /** The field initialisers, before the constructor body runs. */
    constructor ()
      ensures dataSources == map[] && defaultDataSource == None && dialectCache == map[]
      ensures !showSql && defaultBatchSize == DefaultBatchSize
    {
      dataSources := map[];
      defaultDataSource := None;
      dialectCache := map[];
      showSql := false;
      defaultBatchSize := DefaultBatchSize;
    }

    /** The object holds the registry `cfg` describes. */
    ghost predicate Models(cfg: Config)
      reads this
    {
      && dataSources == cfg.dataSources
      && cfg.defaultName in dataSources
      && defaultDataSource == Some(dataSources[cfg.defaultName])
      && dialectCache == DialectsOf(dataSources)
      && showSql == cfg.showSql
      && defaultBatchSize == cfg.defaultBatchSize
    }

    /** `getDataSource(name)`: null for an unregistered name. */
    function GetDataSource(name: string): (r: Option<DataSource>)
      reads this
      ensures r.Some? <==> name in dataSources
    {
      if name in dataSources then Some(dataSources[name]) else None
    }

    /** `getDefaultDataSource()`. */
    function GetDefaultDataSource(): Option<DataSource>
      reads this
    {
      defaultDataSource
    }

    /** In a constructed registry the default datasource is the one registered under the default name. */
    lemma DefaultIsRegistered(cfg: Config)
      requires Models(cfg)
      ensures GetDefaultDataSource() == GetDataSource(cfg.defaultName) && GetDefaultDataSource().Some?
    {
    }

    /** The constructor's first loop: group the matching keys and note the first name. */
    static method GroupConfigs(properties: seq<Entry>) returns (configs: map<string, Properties>, firstName: Option<string>)
      ensures configs == Group(properties) && firstName == FirstName(properties)
    {
      configs, firstName := map[], None;
      var i := 0;
      while i < |properties|
        invariant 0 <= i <= |properties|
        invariant configs == Group(properties[..i])
        invariant firstName == FirstName(properties[..i])
      {
        assert properties[..i + 1][..i] == properties[..i];
        var entry := properties[i];
        if IsDatasourceKey(entry.key) {
          var parts := SplitKey(entry.key[|DatasourcePrefix|..]);
          if firstName.None? {
            firstName := Some(parts.name);
          }
          var config := if parts.name in configs then configs[parts.name] else map[];
          configs := configs[parts.name := config[parts.param := entry.value]];
        }
        i := i + 1;
      }
      assert properties[..i] == properties;
    }

    /**
      Registration part-way through the `try` block: the groups outside `pending`
      are registered, each with its own datasource, could all be initialised,
      and their datasources have their dialect cached.
    */
    ghost predicate RegisteredExcept(groups: map<string, Properties>, pending: set<string>,
                                     creates: Properties -> bool)
      reads this
    {
      && pending <= groups.Keys
      && dataSources.Keys == groups.Keys - pending
      && (forall n :: n in dataSources ==>
            dataSources[n] == DataSource(groups[n]) && Initialises(groups[n], creates))
      && dialectCache == DialectsOf(dataSources)
    }

    /** With nothing pending, every group is registered and could be initialised. */
    lemma RegisteredAll(groups: map<string, Properties>, creates: Properties -> bool)
      requires RegisteredExcept(groups, {}, creates)
      ensures dataSources == Registered(groups) && AllInitialise(groups, creates)
    {
      assert dataSources == Registered(groups);
    }

    /**
      One step of the `try` block: create the datasource of the pending group
      `name`, register it and cache its dialect; false where creation or
      dialect resolution throws.
    */
    method CreateAndRegister(groups: map<string, Properties>, pending: set<string>, name: string,
                             creates: Properties -> bool)
      returns (ok: bool)
      requires RegisteredExcept(groups, pending, creates) && name in pending
      modifies this
      ensures ok == Initialises(groups[name], creates)
      ensures ok ==> RegisteredExcept(groups, pending - {name}, creates)
      ensures ok ==> dataSources[name] == DataSource(groups[name])
      ensures defaultDataSource == old(defaultDataSource)
      ensures showSql == old(showSql) && defaultBatchSize == old(defaultBatchSize)
    {
      var config := groups[name];
      if !creates(config) {
        return false;
      }
      var dataSource := DataSource(config);
      DialectsAfterAdd(dataSources, name, dataSource);
      dataSources := dataSources[name := dataSource];
      var dialect := SQLDialectUtils.GetSQLDialect(config);
      if dialect.Failure? {
        return false;
      }
      dialectCache := dialectCache[dataSource := dialect.value];
      return true;
    }

    /**
      The `try` block: create the default datasource first, then every other
      group's in the map's (unspecified) iteration order.
    */
    method Register(groups: map<string, Properties>, defaultName: string, creates: Properties -> bool)
      returns (ok: bool)
      requires defaultName in groups
      requires dataSources == map[] && dialectCache == map[]
      modifies this
      ensures ok == AllInitialise(groups, creates)
      ensures ok ==>
        (dataSources == Registered(groups) && dialectCache == DialectsOf(dataSources) &&
         defaultDataSource == Some(DataSource(groups[defaultName])))
      ensures showSql == old(showSql) && defaultBatchSize == old(defaultBatchSize)
    {
      ok := CreateAndRegister(groups, groups.Keys, defaultName, creates);
      if !ok {
        return;
      }
      defaultDataSource := Some(dataSources[defaultName]);
      var pending := groups.Keys - {defaultName};
      while pending != {}
        invariant RegisteredExcept(groups, pending, creates)
        invariant defaultDataSource == Some(DataSource(groups[defaultName]))
        invariant showSql == old(showSql) && defaultBatchSize == old(defaultBatchSize)
        decreases |pending|
      {
        var name :| name in pending;
        ok := CreateAndRegister(groups, pending, name, creates);
        if !ok {
          return;
        }
        pending := pending - {name};
      }
      RegisteredAll(groups, creates);
      return true;
    }

    /** `BasicDao.build(properties)`: the constructor body run on a fresh object. */
    static method Build(properties: seq<Entry>, creates: Properties -> bool) returns (r: Result<BasicDao, BuildError>)
      ensures r.Failure? ==> Construct(properties, creates) == Failure(r.error)
      ensures r.Success? ==>
        (fresh(r.value) && Construct(properties, creates).Success? &&
         r.value.Models(Construct(properties, creates).value))
    {
      var dao := new BasicDao();
      dao.showSql := ShowSqlSetting(properties);
      var batch := BatchSizeSetting(properties);
      if batch.Failure? {
        return Failure(batch.error);
      }
      dao.defaultBatchSize := batch.value;
      var configs, firstName := GroupConfigs(properties);
      if configs == map[] {
        return Failure(IllegalConfig(NoDatasourceMessage));
      }
      var defaultName := DefaultName;
      if DefaultName !in configs {
        GroupEmptyIff(properties);
        defaultName := firstName.value;
      }
      var ok := dao.Register(configs, defaultName, creates);
      if !ok {
        return Failure(InitializeDataSource);
      }
      return Success(dao);
    }
  }
}
