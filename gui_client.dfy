/** Start-up decisions of the GUI client: which interface language to use, which
    translation catalogs are asked for and in which order, and the start-minimized flag.
    Loading a catalog is Qt's `QTranslator::load`, given here as a function from a file
    name and a directory to whether the load succeeded. */
module GuiClient {

  import opened Wrappers
  import opened Text

  /** The interface languages the client ships catalogs for. */
  const SupportedLanguages: seq<string> := ["en", "ru", "zh"]

  /** The catalogs shipped with the client (`translations/veil_*.ts`). */
  const ShippedCatalogs: seq<string> := ["veil_en", "veil_ru", "veil_zh"]

  /** `QString::left(n)`: the first `n` characters, or the whole string when shorter. */
  function Left(s: string, n: nat): (r: string)
    ensures |r| == if |s| < n then |s| else n
    ensures r <= s
  {
    if |s| <= n then s else s[..n]
  }

  /** The language code the client uses. The stored `ui/language` setting (or "en" when
      there is none) is kept if supported; otherwise the language part of the system
      locale name (its first two characters, as in "ru_RU") if supported; otherwise "en". */
  function ResolveLanguage(stored: Option<string>, systemLocale: string): (code: string)
    ensures ListContains(SupportedLanguages, code)
  {
    var languageCode := if stored.Some? then stored.value else "en";
    if ListContains(SupportedLanguages, languageCode) then languageCode
    else
      var systemLang := Left(systemLocale, 2);
      if ListContains(SupportedLanguages, systemLang) then systemLang else "en"
  }

  /** The three steps of the fallback, each stated on its own terms. */
  lemma ResolutionSteps(stored: Option<string>, systemLocale: string)
    ensures stored == None ==> ResolveLanguage(stored, systemLocale) == "en"
    ensures stored.Some? && stored.value in SupportedLanguages ==>
      ResolveLanguage(stored, systemLocale) == stored.value
    ensures (stored.Some? && stored.value !in SupportedLanguages
             && |systemLocale| >= 2 && systemLocale[..2] in SupportedLanguages) ==>
      ResolveLanguage(stored, systemLocale) == systemLocale[..2]
    ensures (stored.Some? && stored.value !in SupportedLanguages
             && (|systemLocale| < 2 || systemLocale[..2] !in SupportedLanguages)) ==>
      ResolveLanguage(stored, systemLocale) == "en"
  {
    if |systemLocale| < 2 {
      assert Left(systemLocale, 2) == systemLocale;
      assert |systemLocale| < 2;
      assert forall l :: l in SupportedLanguages ==> |l| == 2;
    } else {
      assert Left(systemLocale, 2) == systemLocale[..2];
    }
  }

  /** Storing the resolved code makes the next start keep it, whatever the locale then. */
  lemma ResolutionStable(stored: Option<string>, systemLocale: string, laterLocale: string)
    ensures var code := ResolveLanguage(stored, systemLocale);
      ResolveLanguage(Some(code), laterLocale) == code
  {
  }

  /** The application catalog for a language. */
  function AppCatalog(code: string): string
  {
    "veil_" + code
  }

  /** Qt's own catalog for a language, for the standard dialogs. */
  function QtCatalog(code: string): string
  {
    "qt_" + code
  }

  /** Every language the client can resolve to has a shipped catalog, and Qt's catalog of
      the same language is asked for. */
  lemma CatalogShipped(stored: Option<string>, systemLocale: string)
    ensures var code := ResolveLanguage(stored, systemLocale);
      AppCatalog(code) in ShippedCatalogs
  {
    var code := ResolveLanguage(stored, systemLocale);
    assert code in SupportedLanguages;
    assert AppCatalog("en") == ShippedCatalogs[0];
    assert AppCatalog("ru") == ShippedCatalogs[1];
    assert AppCatalog("zh") == ShippedCatalogs[2];
  }

  /** Each language has its own application catalog and its own Qt catalog, and no Qt
      catalog is mistaken for an application one. */
  lemma CatalogsDistinct(a: string, b: string)
    ensures AppCatalog(a) == AppCatalog(b) <==> a == b
    ensures QtCatalog(a) == QtCatalog(b) <==> a == b
    ensures QtCatalog(a) != AppCatalog(b)
  {
    if AppCatalog(a) == AppCatalog(b) {
      assert a == AppCatalog(a)[5..] && b == AppCatalog(b)[5..];
    }
    if QtCatalog(a) == QtCatalog(b) {
      assert a == QtCatalog(a)[3..] && b == QtCatalog(b)[3..];
    }
    assert QtCatalog(a)[0] == 'q' && AppCatalog(b)[0] == 'v';
  }

  /** A catalog installed into the application: the file name and the directory of the
      successful load call ("" when the name is a resource path). */
  datatype Installed = Installed(file: string, directory: string)

  /** The catalogs installed, in installation order: Qt's catalog from Qt's translations
      path if it loads; then the application catalog from `<appdir>/translations`, or,
      only when that fails, from the resource path `:/translations/`. */
  function LoadTranslations(code: string, appDir: string, qtPath: string, load: (string, string) -> bool): (r: seq<Installed>)
    ensures |r| <= 2
    ensures forall k :: 0 <= k < |r| ==> load(r[k].file, r[k].directory)
  {
    var qt := if load(QtCatalog(code), qtPath) then [Installed(QtCatalog(code), qtPath)] else [];
    var translationsPath := appDir + "/translations";
    var app :=
      if load(AppCatalog(code), translationsPath) then [Installed(AppCatalog(code), translationsPath)]
      else if load(":/translations/" + AppCatalog(code), "") then [Installed(":/translations/" + AppCatalog(code), "")]
      else [];
    qt + app
  }

  /** The application catalog in the directory wins over the bundled one: the resource path
      is installed only when the directory load fails, and at most one application catalog
      is installed. Qt's catalog, when installed, comes first. */
  lemma DirectoryBeforeResources(code: string, appDir: string, qtPath: string, load: (string, string) -> bool)
    ensures var r := LoadTranslations(code, appDir, qtPath, load);
      var inDir := Installed(AppCatalog(code), appDir + "/translations");
      var bundled := Installed(":/translations/" + AppCatalog(code), "");
      (load(AppCatalog(code), appDir + "/translations") ==> inDir in r && bundled !in r)
      && (bundled in r <==> !load(AppCatalog(code), appDir + "/translations") && load(":/translations/" + AppCatalog(code), ""))
      && (load(QtCatalog(code), qtPath) <==> |r| > 0 && r[0] == Installed(QtCatalog(code), qtPath))
  {
    var r := LoadTranslations(code, appDir, qtPath, load);
    var qtItem := Installed(QtCatalog(code), qtPath);
    var inDir := Installed(AppCatalog(code), appDir + "/translations");
    var bundled := Installed(":/translations/" + AppCatalog(code), "");
    assert QtCatalog(code)[..1] == "q";
    assert AppCatalog(code)[..1] == "v" && bundled.file[..1] == ":";
    assert qtItem != inDir && qtItem != bundled && inDir != bundled;
  }

  /** The start-minimized flag is set exactly when the arguments contain `--minimized` or
      `-m`. The window is shown either way; the flag only selects a log line. */
  function StartMinimized(args: seq<string>): (r: bool)
    ensures r <==> "--minimized" in args || "-m" in args
  {
    ListContains(args, "--minimized") || ListContains(args, "-m")
  }
}
