/**
  The resource-bundle showcase: choosing a Locale from the command-line
  arguments, and the two message keys looked up in the bundle. Loading the
  bundle and the platform's default locale are inputs here.
*/
module Localization {

  /** java.util.Locale as built by its one- and two-argument constructors; "" is "no country". */
  datatype Locale = Locale(language: string, country: string)

  /**
    getLocale(args, locale): no arguments keep the given locale, one argument
    sets the language only, two or more set language and country.
  */
  function GetLocale(args: seq<string>, locale: Locale): (r: Locale)
    ensures |args| == 0 ==> r == locale
    ensures |args| > 0 ==> r.language == args[0]
    ensures |args| == 1 ==> r.country == ""
    ensures |args| >= 2 ==> r.country == args[1]
  {
    if |args| > 0 then
      if |args| == 1 then Locale(args[0], "")
      else Locale(args[0], args[1])
    else locale
  }

  /** Only the first two arguments matter: anything appended after them is ignored. */
  lemma ExtraArgumentsIgnored(args: seq<string>, extra: seq<string>, locale: Locale)
    requires |args| >= 2
    ensures GetLocale(args + extra, locale) == GetLocale(args[..2], locale)
  {
  }

  /** The given locale is kept for every default exactly when there are no arguments. */
  lemma DefaultKeptIff(args: seq<string>)
    ensures (forall locale :: GetLocale(args, locale) == locale) <==> |args| == 0
  {
    if |args| > 0 {
      var other := Locale(args[0] + "_", "");
      assert GetLocale(args, other).language != other.language;
    }
  }

  /** The keys of the message bundle, the constants of enum Translation. */
  datatype Translation = GREETING | FAREWELL

  /** Enum.name(): the constant's identifier as declared; the two names differ. */
  function Name(t: Translation): (s: string)
    ensures s == "GREETING" || s == "FAREWELL"
    ensures s == "GREETING" <==> t == GREETING
  {
    match t
    case GREETING => "GREETING"
    case FAREWELL => "FAREWELL"
  }

  /**
    main: the lines printed are the bundle's texts for GREETING and then FAREWELL,
    in the locale chosen from the arguments. `lookup` is ResourceBundle.getString
    on the bundle loaded for that locale.
  */
  function MainOutput(args: seq<string>, defaultLocale: Locale, lookup: (Locale, string) -> string): (lines: seq<string>)
    ensures |lines| == 2
    ensures lines[0] == lookup(GetLocale(args, defaultLocale), "GREETING")
    ensures lines[1] == lookup(GetLocale(args, defaultLocale), "FAREWELL")
  {
    var locale := GetLocale(args, defaultLocale);
    [lookup(locale, Name(GREETING)), lookup(locale, Name(FAREWELL))]
  }
}
