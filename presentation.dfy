/** The decisions the panel's view functions make: which screen to show, which
    body the configurations list shows, the relative path of an item, and the
    icon and colour of each language and configuration type. */
module Presentation {
  import opened RunConfigData
  import opened Text
  import opened Search
  import opened Grouping

  // ---------------------------------------------------------------------------
  // Icons and colours.
  // ---------------------------------------------------------------------------

  /** The vector icons the panel draws: seven brand logos (SimpleIcons), two
      Feather icons and three Material outlined icons. */
  datatype Icon =
    | KotlinLogo | JavaLogo | PythonLogo | JavascriptLogo | TypescriptLogo | GoLogo | RustLogo
    | TerminalIcon | ZapIcon
    | ScienceIcon | CodeIcon | SearchIcon

  predicate IsBrandLogo(i: Icon) {
    i.KotlinLogo? || i.JavaLogo? || i.PythonLogo? || i.JavascriptLogo?
    || i.TypescriptLogo? || i.GoLogo? || i.RustLogo?
  }

  /** `getLanguageIcon`: each named language shows its brand logo; UNKNOWN shows a terminal. */
  function LanguageIcon(language: Language): (r: Icon)
    ensures IsBrandLogo(r) <==> language != Unknown
    ensures language == Unknown ==> r == TerminalIcon
  {
    match language
    case Kotlin => KotlinLogo
    case Java => JavaLogo
    case Python => PythonLogo
    case JavaScript => JavascriptLogo
    case TypeScript => TypescriptLogo
    case Go => GoLogo
    case Rust => RustLogo
    case Unknown => TerminalIcon
  }

  /** Different languages never share an icon. */
  lemma LanguageIconInjective(a: Language, b: Language)
    ensures LanguageIcon(a) == LanguageIcon(b) ==> a == b
  {
  }

  /** `getConfigTypeIcon`: never a brand logo; a script shares the terminal icon
      with the UNKNOWN language. */
  function ConfigTypeIcon(t: ConfigType): (r: Icon)
    ensures !IsBrandLogo(r)
    ensures r == TerminalIcon <==> t == Script
  {
    match t
    case MainFunction => ZapIcon
    case Script => TerminalIcon
    case Test => ScienceIcon
    case Custom => CodeIcon
  }

  lemma ConfigTypeIconInjective(a: ConfigType, b: ConfigType)
    ensures ConfigTypeIcon(a) == ConfigTypeIcon(b) ==> a == b
  {
  }

  /** A colour in the `Color(0xAARRGGBB)` notation. */
  newtype Argb = x: int | 0 <= x < 0x1_0000_0000

  /** Compose's `Color.Gray`. */
  const Gray: Argb := 0xFF88_8888

  function Alpha(c: Argb): int { c as int / 0x100_0000 }

  /** `getLanguageColor`: a fully opaque colour per language, Gray for UNKNOWN only. */
  function LanguageColor(language: Language): (r: Argb)
    ensures Alpha(r) == 0xFF
    ensures r == Gray <==> language == Unknown
  {
    match language
    case Kotlin => 0xFF7F_52FF
    case Java => 0xFFE7_6F00
    case Python => 0xFF37_76AB
    case JavaScript => 0xFFF7_DF1E
    case TypeScript => 0xFF31_78C6
    case Go => 0xFF00_ADD8
    case Rust => 0xFFDE_A584
    case Unknown => Gray
  }

  /** Different languages never share a colour. */
  lemma LanguageColorInjective(a: Language, b: Language)
    ensures LanguageColor(a) == LanguageColor(b) ==> a == b
  {
  }

  // ---------------------------------------------------------------------------
  // Relative path of an item.
  // ---------------------------------------------------------------------------

  /** `filePath.removePrefix(workingDirectory).removePrefix("/")`. */
  function RelativePath(filePath: string, workingDirectory: string): (r: string)
    ensures IsSuffix(r, filePath)
    ensures |filePath| - |r| <= |workingDirectory| + 1
  {
    RemovePrefix(RemovePrefix(filePath, workingDirectory), "/")
  }

  /** A file below the working directory shows the rest of its path. */
  lemma RelativePathBelowDirectory(workingDirectory: string, rest: string)
    ensures RelativePath(workingDirectory + "/" + rest, workingDirectory) == rest
  {
    var p := workingDirectory + "/" + rest;
    assert workingDirectory <= p;
    assert p[|workingDirectory|..] == "/" + rest;
  }

  /** A path whose text does not start with the working directory's text loses at most
      one leading slash. */
  lemma RelativePathWithoutDirectoryPrefix(filePath: string, workingDirectory: string)
    requires !(workingDirectory <= filePath)
    ensures RelativePath(filePath, workingDirectory)
         == if "/" <= filePath then filePath[1..] else filePath
  {
  }

  /** The prefix test is on text, not on path segments: a file in a sibling directory
      whose name extends the working directory's name also loses that text. With the
      working directory "/w/a", the file "/w/ab/x.kt" is shown as "b/x.kt". */
  lemma RelativePathSiblingDirectory(workingDirectory: string, tail: string)
    requires tail != [] && tail[0] != '/'
    ensures RelativePath(workingDirectory + tail, workingDirectory) == tail
  {
    var p := workingDirectory + tail;
    assert workingDirectory <= p;
    assert p[|workingDirectory|..] == tail;
  }

  /** The sibling-directory case with the paths written out. */
  lemma RelativePathSiblingExample()
    ensures RelativePath("/w/ab/x.kt", "/w/a") == "b/x.kt"
  {
    RelativePathSiblingDirectory("/w/a", "b/x.kt");
  }

  /** The working directory itself is shown as the empty path. */
  lemma RelativePathOfDirectory(workingDirectory: string)
    ensures RelativePath(workingDirectory, workingDirectory) == ""
  {
    assert workingDirectory[|workingDirectory|..] == "";
  }

  /** Only one slash after the working directory is removed. */
  lemma RelativePathKeepsSecondSlash(workingDirectory: string, rest: string)
    ensures RelativePath(workingDirectory + "//" + rest, workingDirectory) == "/" + rest
  {
    var p := workingDirectory + "//" + rest;
    assert workingDirectory <= p;
    assert p[|workingDirectory|..] == "/" + ("/" + rest);
  }

  // ---------------------------------------------------------------------------
  // Screen and list-body selection.
  // ---------------------------------------------------------------------------

  /** The three top-level screens of `RunConfigurationsContent`. */
  datatype Screen = NoProviderScreen | NoProjectScreen | ListScreen

  /** `if (!isAvailable()) ... else if (!hasProject()) ... else ...`. */
  function SelectScreen(isAvailable: bool, hasProject: bool): (r: Screen)
    ensures r == NoProviderScreen <==> !isAvailable
    ensures r == NoProjectScreen <==> isAvailable && !hasProject
    ensures r == ListScreen <==> isAvailable && hasProject
  {
    if !isAvailable then NoProviderScreen
    else if !hasProject then NoProjectScreen
    else ListScreen
  }

  /** The three bodies of the configurations list. */
  datatype ListBody =
    | ScanningPlaceholder(message: string)
    | EmptyPlaceholder(icon: Icon, message: string, hint: Option<string>)
    | GroupedList(rows: seq<Row>)

  const ScanningMessage := "Scanning for run configurations..."
  const NothingDetectedMessage := "No run configurations found"
  const NothingDetectedHint := "Add main functions or scripts to your project"

  /** The empty placeholder's text for a query that matched nothing. */
  function NoMatchMessage(query: string): string {
    "No configurations matching \"" + query + "\""
  }

  /** The `when` of `ConfigurationsList`: scanning with nothing detected yet, then an
      empty search result, then the grouped list. */
  function SelectListBody(
    isScanning: bool, configurations: seq<RunConfiguration>, query: string, displayName: DisplayNames)
    : (r: ListBody)
    ensures r.ScanningPlaceholder? <==> isScanning && configurations == []
    ensures r.EmptyPlaceholder? <==>
      !(isScanning && configurations == []) && SearchFilter(configurations, query, displayName) == []
    ensures r.GroupedList? <==>
      !(isScanning && configurations == []) && SearchFilter(configurations, query, displayName) != []
    ensures r.ScanningPlaceholder? ==> r.message == ScanningMessage
    ensures r.EmptyPlaceholder? && IsBlank(query) ==>
      r.icon == ScienceIcon && r.message == NothingDetectedMessage && r.hint == Some(NothingDetectedHint)
    ensures r.EmptyPlaceholder? && !IsBlank(query) ==>
      r.icon == SearchIcon && r.message == NoMatchMessage(query) && r.hint == None
    ensures r.GroupedList? ==>
      && r.rows != []
      && multiset(ItemsOf(r.rows)) == multiset(SearchFilter(configurations, query, displayName))
      && HeaderTotal(r.rows) == |SearchFilter(configurations, query, displayName)|
      && HeadersCountTheirItems(r.rows)
  {
    var filtered := SearchFilter(configurations, query, displayName);
    if isScanning && configurations == [] then
      ScanningPlaceholder(ScanningMessage)
    else if filtered == [] then
      if IsBlank(query) then EmptyPlaceholder(ScienceIcon, NothingDetectedMessage, Some(NothingDetectedHint))
      else EmptyPlaceholder(SearchIcon, NoMatchMessage(query), None)
    else
      GroupedRows(filtered);
      assert filtered[0] in multiset(filtered);
      GroupedList(Rows(GroupByLanguage(filtered)))
  }

  /** With a blank query the list is never empty because of the search: the empty
      placeholder means nothing was detected, and the grouped list shows every
      detected configuration. */
  lemma BlankQueryShowsEverything(
    isScanning: bool, configurations: seq<RunConfiguration>, query: string, displayName: DisplayNames)
    requires IsBlank(query)
    ensures var r := SelectListBody(isScanning, configurations, query, displayName);
      && (r.EmptyPlaceholder? <==> !isScanning && configurations == [])
      && (r.GroupedList? ==> multiset(ItemsOf(r.rows)) == multiset(configurations))
  {
  }

  /** Once something has been detected, the scanning placeholder is not shown, even
      while a rescan runs. */
  lemma DetectedListHidesScanningPlaceholder(
    isScanning: bool, configurations: seq<RunConfiguration>, query: string, displayName: DisplayNames)
    requires configurations != []
    ensures !SelectListBody(isScanning, configurations, query, displayName).ScanningPlaceholder?
  {
  }
}
