/**
  The info cog: `/roadmap`, `/whitepaper` and `/website` answer in the
  caller's language, chosen from the caller's roles by a fixed priority.
*/
module Info {
  import opened Wrappers
  import opened Locales

  /**
    `Info.get_user_lang`: Greek, then English, Spanish, Russian and Japanese,
    by that priority whatever the order of the roles; Greek without any
    language role.
  */
  function InfoLang(roles: seq<string>): (l: Locale)
    ensures "Greek" in roles ==> l == GR
    ensures "Greek" !in roles && "English" in roles ==> l == EN
    ensures "Greek" !in roles && "English" !in roles && "Spanish" in roles ==> l == ES
    ensures "Greek" !in roles && "English" !in roles && "Spanish" !in roles && "Russian" in roles ==> l == RU
    ensures ("Greek" !in roles && "English" !in roles && "Spanish" !in roles && "Russian" !in roles
             && "Japanese" in roles) ==> l == JA
    ensures ("Greek" !in roles && "English" !in roles && "Spanish" !in roles && "Russian" !in roles
             && "Japanese" !in roles) ==> l == GR
  {
    if "Greek" in roles then GR
    else if "English" in roles then EN
    else if "Spanish" in roles then ES
    else if "Russian" in roles then RU
    else if "Japanese" in roles then JA
    else GR
  }

  /** Users holding the same role names get the same language, in whatever
      order the roles come. */
  lemma InfoLangOrderFree(roles1: seq<string>, roles2: seq<string>)
    requires forall r :: r in roles1 <==> r in roles2
    ensures InfoLang(roles1) == InfoLang(roles2)
  {
  }

  /** The code handed to `get_text` always names a locale, so the language
      fallback of `get_text` is never taken. */
  lemma InfoLangNeverFallsBack(roles: seq<string>)
    ensures LocaleOf(Code(InfoLang(roles))).Some?
    ensures ChosenLocale(Some(Code(InfoLang(roles)))) == InfoLang(roles)
  {
    CodeRoundTrip(InfoLang(roles), Code(InfoLang(roles)));
  }

  /** The reply to `/roadmap` or `/whitepaper`: the text with the PDF attached,
      or, when the file is missing, the text and the path it was expected at. */
  datatype DocumentReply = WithFile(content: string, path: string) | FileMissing(content: string)

  /** `/roadmap` (key `RoadmapDesc`) and `/whitepaper` (key `WhitepaperDesc`):
      the description in the caller's language; `fileExists` stands for
      `os.path.exists(path)`. */
  function DocumentCommand(key: Key, roles: seq<string>, fileExists: bool, path: string): (r: DocumentReply)
    ensures fileExists ==> r == WithFile(Text(InfoLang(roles), key), path)
    ensures !fileExists ==> r == FileMissing(Text(InfoLang(roles), key) + "\n(File not found at " + path + ")")
  {
    var text := GetText(KeyName(key), Some(Code(InfoLang(roles))));
    KnownKeyTranslated(key, InfoLang(roles));
    if fileExists then WithFile(text, path)
    else FileMissing(text + "\n(File not found at " + path + ")")
  }

  /** The site the `/website` reply links to. */
  const SiteUrl: string := "https://thrchain.up.railway.app/"

  /** `/website`: the localized invitation followed by the site's address. */
  function WebsiteCommand(roles: seq<string>): (reply: string)
    ensures reply == Text(InfoLang(roles), WebsiteDesc) + " " + SiteUrl
    ensures reply[|reply| - |SiteUrl|..] == SiteUrl
  {
    KnownKeyTranslated(WebsiteDesc, InfoLang(roles));
    GetText(KeyName(WebsiteDesc), Some(Code(InfoLang(roles)))) + " " + SiteUrl
  }
}
