/** `filteredConfigurations.groupBy { it.language }` and the lazy list built from it:
    one header per language, followed by that language's configurations. */
module Grouping {
  import opened RunConfigData
  import opened Search

  /** One entry of the `Map<LanguageData, List<RunConfigurationData>>` that `groupBy` returns. */
  datatype Group = Group(language: Language, configs: seq<RunConfiguration>)

  /** Position of the group keyed by `language`, or `|groups|` when there is none. */
  function IndexOfLanguage(groups: seq<Group>, language: Language): (r: nat)
    ensures r <= |groups|
    ensures r < |groups| ==> groups[r].language == language
    ensures forall k :: 0 <= k < r ==> groups[k].language != language
    decreases |groups|
  {
    if groups == [] then 0
    else if groups[0].language == language then 0
    else 1 + IndexOfLanguage(groups[1..], language)
  }

  /** One step of `groupBy`: `getOrPut(key) { ArrayList() }.add(element)`. The element
      joins the end of its language's list; a language seen for the first time opens a
      new group after all existing ones (a `LinkedHashMap` keeps insertion order). */
  function AddToGroup(groups: seq<Group>, c: RunConfiguration): seq<Group> {
    var j := IndexOfLanguage(groups, c.language);
    if j < |groups| then groups[j := Group(c.language, groups[j].configs + [c])]
    else groups + [Group(c.language, [c])]
  }

  /** One step adds exactly the given configuration to the groups, and keeps distinct
      keys distinct. */
  lemma AddToGroupAddsOne(groups: seq<Group>, c: RunConfiguration)
    ensures multiset(Flatten(AddToGroup(groups, c))) == multiset(Flatten(groups)) + multiset{c}
    ensures KeysDistinct(groups) ==> KeysDistinct(AddToGroup(groups, c))
  {
    var j := IndexOfLanguage(groups, c.language);
    if j < |groups| {
      FlattenAppendAt(groups, j, Group(c.language, groups[j].configs + [c]), c);
    } else {
      FlattenSnoc(groups, Group(c.language, [c]));
    }
  }

  /** `groupBy { it.language }`: every element of the list added in turn, from the first.
      No configuration is lost or duplicated, and no language keys two groups. */
  function GroupByLanguage(configs: seq<RunConfiguration>): (r: seq<Group>)
    ensures multiset(Flatten(r)) == multiset(configs)
    ensures |Flatten(r)| == |configs|
    ensures KeysDistinct(r)
    decreases |configs|
  {
    if configs == [] then []
    else
      var init, c := configs[..|configs| - 1], configs[|configs| - 1];
      assert configs == init + [c];
      var g := GroupByLanguage(init);
      AddToGroupAddsOne(g, c);
      var r := AddToGroup(g, c);
      assert |multiset(Flatten(r))| == |multiset(configs)|;
      r
  }

  // ---------------------------------------------------------------------------
  // Reference definition: the distinct languages in order of first appearance,
  // each with the order-preserving sublist of its configurations.
  // ---------------------------------------------------------------------------

  predicate Distinct(ls: seq<Language>) {
    forall i, j :: 0 <= i < j < |ls| ==> ls[i] != ls[j]
  }

  /** The languages of `configs`, each once, in order of first appearance. */
  function Languages(configs: seq<RunConfiguration>): (r: seq<Language>)
    ensures Distinct(r)
    ensures forall l :: l in r <==> exists c :: c in configs && c.language == l
    decreases |configs|
  {
    if configs == [] then []
    else
      var init, last := configs[..|configs| - 1], configs[|configs| - 1];
      assert configs == init + [last];
      var seen := Languages(init);
      if last.language in seen then seen else seen + [last.language]
  }

  /** Position of the first configuration of `language`, or `|configs|` when there is none. */
  function FirstIndexOf(configs: seq<RunConfiguration>, language: Language): (k: nat)
    ensures k <= |configs|
    ensures k < |configs| ==> configs[k].language == language
    ensures forall m :: 0 <= m < k ==> configs[m].language != language
    decreases |configs|
  {
    if configs == [] then 0
    else if configs[0].language == language then 0
    else 1 + FirstIndexOf(configs[1..], language)
  }

  /** A configuration appended at the end does not move any earlier first appearance. */
  lemma {:induction false} FirstIndexOfSnoc(configs: seq<RunConfiguration>, c: RunConfiguration, language: Language)
    ensures FirstIndexOf(configs + [c], language)
         == if FirstIndexOf(configs, language) < |configs| then FirstIndexOf(configs, language)
            else if c.language == language then |configs|
            else |configs| + 1
    decreases |configs|
  {
    var s := configs + [c];
    if configs == [] {
      assert s[1..] == [];
    } else {
      assert s[0] == configs[0];
      assert s[1..] == configs[1..] + [c];
      if configs[0].language != language {
        FirstIndexOfSnoc(configs[1..], c, language);
        assert FirstIndexOf(s, language) == 1 + FirstIndexOf(configs[1..] + [c], language);
        assert FirstIndexOf(configs, language) == 1 + FirstIndexOf(configs[1..], language);
      }
    }
  }

  /** A language no configuration has is first found past the end. */
  lemma FirstIndexOfAbsent(configs: seq<RunConfiguration>, language: Language)
    requires language !in Languages(configs)
    ensures FirstIndexOf(configs, language) == |configs|
  {
  }

  /** The keys of the reference come in the order in which their languages first
      appear in the list. */
  lemma {:induction false} LanguagesInFirstAppearanceOrder(configs: seq<RunConfiguration>)
    ensures forall i, j :: 0 <= i < j < |Languages(configs)| ==>
      FirstIndexOf(configs, Languages(configs)[i]) < FirstIndexOf(configs, Languages(configs)[j])
    ensures forall i :: 0 <= i < |Languages(configs)| ==>
      FirstIndexOf(configs, Languages(configs)[i]) < |configs|
    decreases |configs|
  {
    if configs != [] {
      var init, c := configs[..|configs| - 1], configs[|configs| - 1];
      assert configs == init + [c];
      LanguagesInFirstAppearanceOrder(init);
      LanguagesSnoc(init, c);
      var keys, r := Languages(init), Languages(configs);
      forall i | 0 <= i < |keys| ensures FirstIndexOf(configs, keys[i]) == FirstIndexOf(init, keys[i]) {
        FirstIndexOfSnoc(init, c, keys[i]);
      }
      if c.language !in keys {
        FirstIndexOfSnoc(init, c, c.language);
        FirstIndexOfAbsent(init, c.language);
        assert r == keys + [c.language];
      } else {
        assert r == keys;
      }
    }
  }

  /** The configurations of one language, in their original order. */
  function OfLanguage(configs: seq<RunConfiguration>, language: Language): seq<RunConfiguration>
    decreases |configs|
  {
    if configs == [] then []
    else (if configs[0].language == language then [configs[0]] else []) + OfLanguage(configs[1..], language)
  }

  lemma {:induction false} OfLanguageSubsequence(configs: seq<RunConfiguration>, language: Language)
    ensures IsSubsequence(OfLanguage(configs, language), configs)
    decreases |configs|
  {
    if configs != [] {
      var r, rest := OfLanguage(configs, language), OfLanguage(configs[1..], language);
      OfLanguageSubsequence(configs[1..], language);
      if configs[0].language == language {
        assert r == [configs[0]] + rest;
        assert r[1..] == rest;
      } else {
        assert r == rest;
      }
    }
  }

  lemma {:induction false} OfLanguageCounts(configs: seq<RunConfiguration>, language: Language)
    ensures forall c :: multiset(OfLanguage(configs, language))[c]
                     == if c.language == language then multiset(configs)[c] else 0
    decreases |configs|
  {
    if configs != [] {
      var r, rest := OfLanguage(configs, language), OfLanguage(configs[1..], language);
      OfLanguageCounts(configs[1..], language);
      assert configs == [configs[0]] + configs[1..];
      assert multiset(configs) == multiset{configs[0]} + multiset(configs[1..]);
      if configs[0].language == language {
        assert multiset(r) == multiset{configs[0]} + multiset(rest);
      } else {
        assert r == rest;
      }
    }
  }

  /** `OfLanguage` keeps, in order and with their multiplicity, exactly the configurations
      of the given language. */
  lemma OfLanguageSpec(configs: seq<RunConfiguration>, language: Language)
    ensures var r := OfLanguage(configs, language);
      && IsSubsequence(r, configs)
      && (forall c :: c in r <==> c in configs && c.language == language)
      && (forall c :: multiset(r)[c] == if c.language == language then multiset(configs)[c] else 0)
  {
    OfLanguageSubsequence(configs, language);
    OfLanguageCounts(configs, language);
    var r := OfLanguage(configs, language);
    forall c ensures c in r <==> c in configs && c.language == language {
      assert c in r <==> multiset(r)[c] > 0;
      assert c in configs <==> multiset(configs)[c] > 0;
    }
  }

  function ReferenceGroups(configs: seq<RunConfiguration>): (r: seq<Group>)
    ensures |r| == |Languages(configs)|
    ensures forall i :: 0 <= i < |r| ==>
      r[i] == Group(Languages(configs)[i], OfLanguage(configs, Languages(configs)[i]))
  {
    var keys := Languages(configs);
    seq(|keys|, i requires 0 <= i < |keys| => Group(keys[i], OfLanguage(configs, keys[i])))
  }

  lemma {:induction false} OfLanguageSnoc(configs: seq<RunConfiguration>, c: RunConfiguration, language: Language)
    ensures OfLanguage(configs + [c], language)
         == OfLanguage(configs, language) + (if c.language == language then [c] else [])
    decreases |configs|
  {
    var s := configs + [c];
    if configs == [] {
      assert s[1..] == [];
    } else {
      assert s[0] == configs[0];
      assert s[1..] == configs[1..] + [c];
      OfLanguageSnoc(configs[1..], c, language);
      var head := if configs[0].language == language then [configs[0]] else [];
      assert OfLanguage(s, language) == head + OfLanguage(s[1..], language);
      assert OfLanguage(configs, language) == head + OfLanguage(configs[1..], language);
    }
  }

  /** A language that no configuration has selects nothing. */
  lemma OfAbsentLanguage(configs: seq<RunConfiguration>, language: Language)
    requires language !in Languages(configs)
    ensures OfLanguage(configs, language) == []
  {
    OfLanguageSpec(configs, language);
  }

  /** Appending a configuration adds its language to the keys only when it is new. */
  lemma LanguagesSnoc(init: seq<RunConfiguration>, c: RunConfiguration)
    ensures Languages(init + [c])
         == if c.language in Languages(init) then Languages(init) else Languages(init) + [c.language]
  {
    assert (init + [c])[..|init + [c]| - 1] == init;
  }

  /** Adding a configuration whose language already has a group extends that group. */
  lemma ReferenceAddKnownLanguage(init: seq<RunConfiguration>, c: RunConfiguration)
    requires c.language in Languages(init)
    ensures ReferenceGroups(init + [c]) == AddToGroup(ReferenceGroups(init), c)
  {
    var g, keys := ReferenceGroups(init), Languages(init);
    var j := IndexOfLanguage(g, c.language);
    var m :| 0 <= m < |keys| && keys[m] == c.language;
    assert j == m;
    var next := ReferenceGroups(init + [c]);
    LanguagesSnoc(init, c);
    assert Languages(init + [c]) == keys;
    var added := g[j := Group(c.language, g[j].configs + [c])];
    assert AddToGroup(g, c) == added;
    assert |next| == |added|;
    forall i | 0 <= i < |next| ensures next[i] == added[i] {
      OfLanguageSnoc(init, c, keys[i]);
      assert next[i] == Group(keys[i], OfLanguage(init + [c], keys[i]));
      if i == j {
        assert added[i] == Group(keys[i], OfLanguage(init, keys[i]) + [c]);
      } else {
        assert keys[i] != c.language;
        assert added[i] == g[i] == Group(keys[i], OfLanguage(init, keys[i]));
      }
    }
  }

  /** Adding a configuration of a language not seen before opens a group at the end. */
  lemma ReferenceAddNewLanguage(init: seq<RunConfiguration>, c: RunConfiguration)
    requires c.language !in Languages(init)
    ensures ReferenceGroups(init + [c]) == AddToGroup(ReferenceGroups(init), c)
  {
    var g, keys := ReferenceGroups(init), Languages(init);
    assert IndexOfLanguage(g, c.language) == |g|;
    var next, nextKeys := ReferenceGroups(init + [c]), Languages(init + [c]);
    LanguagesSnoc(init, c);
    var added := g + [Group(c.language, [c])];
    forall i | 0 <= i < |next| ensures next[i] == added[i] {
      OfLanguageSnoc(init, c, nextKeys[i]);
      if i == |keys| {
        OfAbsentLanguage(init, c.language);
      }
    }
  }

  /** The fold that `groupBy` performs builds exactly the reference grouping. */
  lemma {:induction false} GroupByLanguageIsReference(configs: seq<RunConfiguration>)
    ensures GroupByLanguage(configs) == ReferenceGroups(configs)
    decreases |configs|
  {
    if configs != [] {
      var init, c := configs[..|configs| - 1], configs[|configs| - 1];
      assert configs == init + [c];
      GroupByLanguageIsReference(init);
      if c.language in Languages(init) {
        ReferenceAddKnownLanguage(init, c);
      } else {
        ReferenceAddNewLanguage(init, c);
      }
    }
  }

  // ---------------------------------------------------------------------------
  // What the grouping promises.
  // ---------------------------------------------------------------------------

  /** The configurations of all groups, group after group. */
  function Flatten(groups: seq<Group>): seq<RunConfiguration>
    decreases |groups|
  {
    if groups == [] then [] else groups[0].configs + Flatten(groups[1..])
  }

  lemma {:induction false} FlattenSnoc(groups: seq<Group>, g: Group)
    ensures Flatten(groups + [g]) == Flatten(groups) + g.configs
    decreases |groups|
  {
    if groups == [] {
      assert [g][1..] == [];
    } else {
      assert (groups + [g])[1..] == groups[1..] + [g];
      FlattenSnoc(groups[1..], g);
    }
  }

  lemma {:induction false} FlattenAppendAt(groups: seq<Group>, j: nat, g: Group, c: RunConfiguration)
    requires j < |groups| && g.configs == groups[j].configs + [c]
    ensures multiset(Flatten(groups[j := g])) == multiset(Flatten(groups)) + multiset{c}
    decreases j
  {
    var updated := groups[j := g];
    assert Flatten(groups) == groups[0].configs + Flatten(groups[1..]);
    assert Flatten(updated) == updated[0].configs + Flatten(updated[1..]);
    if j == 0 {
      assert updated[1..] == groups[1..];
      assert multiset(updated[0].configs) == multiset(groups[0].configs) + multiset{c};
    } else {
      assert updated[0] == groups[0];
      assert updated[1..] == groups[1..][j - 1 := g];
      FlattenAppendAt(groups[1..], j - 1, g, c);
    }
  }

  predicate KeysDistinct(g: seq<Group>) {
    forall i, j :: 0 <= i < j < |g| ==> g[i].language != g[j].language
  }

  predicate CoversLanguages(g: seq<Group>, configs: seq<RunConfiguration>) {
    forall c :: c in configs ==> exists i :: 0 <= i < |g| && g[i].language == c.language
  }

  predicate GroupsNonEmpty(g: seq<Group>) {
    forall i :: 0 <= i < |g| ==> g[i].configs != []
  }

  /** Each group is an order-preserving sublist holding exactly its language's configurations. */
  ghost predicate GroupsAreLanguageSublists(g: seq<Group>, configs: seq<RunConfiguration>) {
    forall i :: 0 <= i < |g| ==>
      && IsSubsequence(g[i].configs, configs)
      && forall c :: c in g[i].configs <==> c in configs && c.language == g[i].language
  }

  lemma ReferenceGroupsAreSublists(configs: seq<RunConfiguration>)
    ensures GroupsAreLanguageSublists(ReferenceGroups(configs), configs)
  {
    var g, keys := ReferenceGroups(configs), Languages(configs);
    forall i | 0 <= i < |g|
      ensures IsSubsequence(g[i].configs, configs)
      ensures forall c :: c in g[i].configs <==> c in configs && c.language == g[i].language
    {
      OfLanguageSpec(configs, keys[i]);
    }
  }

  lemma ReferenceGroupsCover(configs: seq<RunConfiguration>)
    ensures CoversLanguages(ReferenceGroups(configs), configs)
  {
    var g, keys := ReferenceGroups(configs), Languages(configs);
    forall c | c in configs ensures exists i :: 0 <= i < |g| && g[i].language == c.language {
      assert c.language in keys;
      var i :| 0 <= i < |keys| && keys[i] == c.language;
      assert g[i].language == c.language;
    }
  }

  lemma ReferenceGroupsNonEmpty(configs: seq<RunConfiguration>)
    ensures GroupsNonEmpty(ReferenceGroups(configs))
  {
    var g, keys := ReferenceGroups(configs), Languages(configs);
    forall i | 0 <= i < |g| ensures g[i].configs != [] {
      assert keys[i] in keys;
      var c :| c in configs && c.language == keys[i];
      OfLanguageSpec(configs, keys[i]);
      assert c in g[i].configs;
    }
  }

  /** The grouping is a partition keyed by language: one group per language present,
      in order of first appearance; each group non-empty and holding, in their original
      order, exactly the configurations of its own language. */
  lemma GroupByLanguagePartitions(configs: seq<RunConfiguration>)
    ensures KeysDistinct(GroupByLanguage(configs))
    ensures CoversLanguages(GroupByLanguage(configs), configs)
    ensures GroupsNonEmpty(GroupByLanguage(configs))
    ensures GroupsAreLanguageSublists(GroupByLanguage(configs), configs)
  {
    GroupByLanguageIsReference(configs);
    ReferenceGroupsAreSublists(configs);
    ReferenceGroupsCover(configs);
    ReferenceGroupsNonEmpty(configs);
  }

  /** The groups come in the order in which their languages first appear in the list,
      which is the order the `LinkedHashMap` of `groupBy` iterates in. */
  lemma GroupsInFirstAppearanceOrder(configs: seq<RunConfiguration>)
    ensures var g := GroupByLanguage(configs);
      forall i, j :: 0 <= i < j < |g| ==>
        FirstIndexOf(configs, g[i].language) < FirstIndexOf(configs, g[j].language)
  {
    GroupByLanguageIsReference(configs);
    LanguagesInFirstAppearanceOrder(configs);
  }

  /** The group is keyed by the configuration's language and lists it. */
  predicate InGroup(g: Group, c: RunConfiguration) {
    g.language == c.language && c in g.configs
  }

  /** A configuration appears in the group of its own language and in no other. */
  lemma GroupOfConfiguration(configs: seq<RunConfiguration>, c: RunConfiguration)
    requires c in configs
    ensures exists i :: 0 <= i < |GroupByLanguage(configs)| && InGroup(GroupByLanguage(configs)[i], c)
    ensures forall i, k :: 0 <= i < k < |GroupByLanguage(configs)| ==>
      !(c in GroupByLanguage(configs)[i].configs && c in GroupByLanguage(configs)[k].configs)
  {
    GroupByLanguagePartitions(configs);
    var g := GroupByLanguage(configs);
    var i :| 0 <= i < |g| && g[i].language == c.language;
    assert InGroup(g[i], c);
  }

  // ---------------------------------------------------------------------------
  // The rows of the LazyColumn.
  // ---------------------------------------------------------------------------

  /** `LanguageGroupHeader(language, count = configs.size)` or `RunConfigurationItem(config)`. */
  datatype Row = Header(language: Language, count: nat) | Item(config: RunConfiguration)

  function ItemRows(configs: seq<RunConfiguration>): (r: seq<Row>)
    ensures |r| == |configs| && forall i :: 0 <= i < |r| ==> r[i] == Item(configs[i])
  {
    seq(|configs|, i requires 0 <= i < |configs| => Item(configs[i]))
  }

  /** `groupedConfigs.forEach { (language, configs) -> item(header); items(configs) }`. */
  function Rows(groups: seq<Group>): seq<Row>
    decreases |groups|
  {
    if groups == [] then []
    else [Header(groups[0].language, |groups[0].configs|)] + ItemRows(groups[0].configs) + Rows(groups[1..])
  }

  /** The configurations shown by the item rows, top to bottom. */
  function ItemsOf(rows: seq<Row>): seq<RunConfiguration>
    decreases |rows|
  {
    if rows == [] then []
    else (if rows[0].Item? then [rows[0].config] else []) + ItemsOf(rows[1..])
  }

  /** The sum of the counts shown in the headers. */
  function HeaderTotal(rows: seq<Row>): nat
    decreases |rows|
  {
    if rows == [] then 0
    else (if rows[0].Header? then rows[0].count else 0) + HeaderTotal(rows[1..])
  }

  /** Each header is followed by exactly `count` item rows, all of its own language,
      and then by the next header or the end of the list. */
  predicate HeadersCountTheirItems(rows: seq<Row>)
    decreases |rows|
  {
    if rows == [] then true
    else
      rows[0].Header?
      && 1 + rows[0].count <= |rows|
      && (forall k :: 1 <= k <= rows[0].count ==>
            rows[k].Item? && rows[k].config.language == rows[0].language)
      && (1 + rows[0].count < |rows| ==> rows[1 + rows[0].count].Header?)
      && HeadersCountTheirItems(rows[1 + rows[0].count..])
  }

  lemma {:induction false} ItemsOfConcat(a: seq<Row>, b: seq<Row>)
    ensures ItemsOf(a + b) == ItemsOf(a) + ItemsOf(b)
    ensures HeaderTotal(a + b) == HeaderTotal(a) + HeaderTotal(b)
    decreases |a|
  {
    if a == [] {
      assert a + b == b;
    } else {
      assert (a + b)[0] == a[0];
      assert (a + b)[1..] == a[1..] + b;
      ItemsOfConcat(a[1..], b);
    }
  }

  lemma {:induction false} ItemsOfItemRows(configs: seq<RunConfiguration>)
    ensures ItemsOf(ItemRows(configs)) == configs
    ensures HeaderTotal(ItemRows(configs)) == 0
    decreases |configs|
  {
    if configs != [] {
      assert ItemRows(configs)[1..] == ItemRows(configs[1..]);
      ItemsOfItemRows(configs[1..]);
    }
  }

  /** The item rows show the groups' configurations in group order, and the header
      counts add up to the number of items. */
  lemma {:induction false} RowsShowFlatten(groups: seq<Group>)
    ensures ItemsOf(Rows(groups)) == Flatten(groups)
    ensures HeaderTotal(Rows(groups)) == |Flatten(groups)|
    decreases |groups|
  {
    if groups != [] {
      var h := [Header(groups[0].language, |groups[0].configs|)];
      ItemsOfConcat(h + ItemRows(groups[0].configs), Rows(groups[1..]));
      ItemsOfConcat(h, ItemRows(groups[0].configs));
      ItemsOfItemRows(groups[0].configs);
      RowsShowFlatten(groups[1..]);
    }
  }

  lemma {:induction false} RowsWellFormed(groups: seq<Group>)
    requires forall i :: 0 <= i < |groups| ==> groups[i].configs != []
    requires forall i, c :: 0 <= i < |groups| && c in groups[i].configs ==> c.language == groups[i].language
    ensures HeadersCountTheirItems(Rows(groups))
    decreases |groups|
  {
    if groups != [] {
      var g := groups[0];
      var rows := Rows(groups);
      var n := |g.configs|;
      assert rows == [Header(g.language, n)] + ItemRows(g.configs) + Rows(groups[1..]);
      forall k | 1 <= k <= n ensures rows[k].Item? && rows[k].config.language == g.language {
        assert rows[k] == Item(g.configs[k - 1]);
        assert g.configs[k - 1] in g.configs;
      }
      assert rows[1 + n..] == Rows(groups[1..]);
      RowsWellFormed(groups[1..]);
    }
  }

  /** The rows of a grouped list show every configuration of the list once, the header
      counts sum to the list's length, and each header counts the items below it. */
  lemma GroupedRows(configs: seq<RunConfiguration>)
    ensures var rows := Rows(GroupByLanguage(configs));
      && multiset(ItemsOf(rows)) == multiset(configs)
      && HeaderTotal(rows) == |configs|
      && HeadersCountTheirItems(rows)
  {
    GroupByLanguagePartitions(configs);
    RowsShowFlatten(GroupByLanguage(configs));
    RowsWellFormed(GroupByLanguage(configs));
  }
}
