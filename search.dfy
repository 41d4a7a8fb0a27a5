/** The search box of the configurations list: a blank query shows every detected
    configuration; any other query keeps, in their original order, the configurations
    whose name, file path or language display name contains it, ignoring case. */
module Search {
  import opened RunConfigData
  import opened Text

  /** `LanguageData.displayName` belongs to the host's enumeration; its texts are
      not part of this model, so the search takes them as a table. */
  type DisplayNames = Language -> string

  /** `a` is `b` with some elements left out and the rest in their original order. */
  predicate IsSubsequence<T(==)>(a: seq<T>, b: seq<T>)
    decreases |b|
  {
    if a == [] then true
    else if b == [] then false
    else (a[0] == b[0] && IsSubsequence(a[1..], b[1..])) || IsSubsequence(a, b[1..])
  }

  lemma {:induction false} SubsequenceReflexive<T>(s: seq<T>)
    ensures IsSubsequence(s, s)
    decreases |s|
  {
    if s != [] {
      SubsequenceReflexive(s[1..]);
    }
  }

  /** The predicate of the `filter { config -> ... }` lambda. */
  predicate Matches(c: RunConfiguration, query: string, displayName: DisplayNames) {
    ContainsIgnoreCase(c.name, query)
    || ContainsIgnoreCase(c.filePath, query)
    || ContainsIgnoreCase(displayName(c.language), query)
  }

  /** `configurations.filter { Matches }`. */
  function KeepMatching(configs: seq<RunConfiguration>, query: string, displayName: DisplayNames)
    : (r: seq<RunConfiguration>)
    ensures IsSubsequence(r, configs)
    ensures forall c :: c in r <==> c in configs && Matches(c, query, displayName)
    ensures forall c :: multiset(r)[c] == if Matches(c, query, displayName) then multiset(configs)[c] else 0
    decreases |configs|
  {
    if configs == [] then []
    else
      var rest := KeepMatching(configs[1..], query, displayName);
      assert configs == [configs[0]] + configs[1..];
      if Matches(configs[0], query, displayName) then
        assert ([configs[0]] + rest)[1..] == rest;
        [configs[0]] + rest
      else
        rest
  }

  /** The remembered `filteredConfigurations` of the list screen. */
  function SearchFilter(configs: seq<RunConfiguration>, query: string, displayName: DisplayNames)
    : (r: seq<RunConfiguration>)
    ensures IsBlank(query) ==> r == configs
    ensures IsSubsequence(r, configs)
    ensures !IsBlank(query) ==> forall c :: c in r <==> c in configs && Matches(c, query, displayName)
    ensures !IsBlank(query) ==>
      forall c :: multiset(r)[c] == if Matches(c, query, displayName) then multiset(configs)[c] else 0
  {
    SubsequenceReflexive(configs);
    if IsBlank(query) then configs else KeepMatching(configs, query, displayName)
  }

  /** Filtering a list whose every element matches leaves it as it is. */
  lemma {:induction false} KeepMatchingAllMatch(configs: seq<RunConfiguration>, query: string, displayName: DisplayNames)
    requires forall c :: c in configs ==> Matches(c, query, displayName)
    ensures KeepMatching(configs, query, displayName) == configs
    decreases |configs|
  {
    if configs != [] {
      assert configs[0] in configs;
      forall c | c in configs[1..] ensures Matches(c, query, displayName) {
        assert c in configs;
      }
      KeepMatchingAllMatch(configs[1..], query, displayName);
    }
  }

  /** Searching the search result again with the same query changes nothing. */
  lemma SearchFilterIdempotent(configs: seq<RunConfiguration>, query: string, displayName: DisplayNames)
    ensures SearchFilter(SearchFilter(configs, query, displayName), query, displayName)
         == SearchFilter(configs, query, displayName)
  {
    if !IsBlank(query) {
      KeepMatchingAllMatch(KeepMatching(configs, query, displayName), query, displayName);
    }
  }

  /** A configuration matches the query exactly when it matches the lower-cased query. */
  lemma MatchesIgnoresQueryCase(c: RunConfiguration, query: string, displayName: DisplayNames)
    ensures Matches(c, Lowered(query), displayName) <==> Matches(c, query, displayName)
  {
    ContainsIgnoreCaseOfLoweredQuery(c.name, query);
    ContainsIgnoreCaseOfLoweredQuery(c.filePath, query);
    ContainsIgnoreCaseOfLoweredQuery(displayName(c.language), query);
  }

  lemma {:induction false} KeepMatchingIgnoresQueryCase(configs: seq<RunConfiguration>, query: string, displayName: DisplayNames)
    ensures KeepMatching(configs, Lowered(query), displayName) == KeepMatching(configs, query, displayName)
    decreases |configs|
  {
    if configs != [] {
      MatchesIgnoresQueryCase(configs[0], query, displayName);
      KeepMatchingIgnoresQueryCase(configs[1..], query, displayName);
    }
  }

  /** Typing the query in another letter case shows the same list. */
  lemma SearchFilterIgnoresQueryCase(configs: seq<RunConfiguration>, query: string, displayName: DisplayNames)
    ensures SearchFilter(configs, Lowered(query), displayName) == SearchFilter(configs, query, displayName)
  {
    assert IsBlank(Lowered(query)) <==> IsBlank(query) by {
      forall i | 0 <= i < |query| ensures IsWhitespace(Lowered(query)[i]) <==> IsWhitespace(query[i]) {
      }
    }
    KeepMatchingIgnoresQueryCase(configs, query, displayName);
  }
}
