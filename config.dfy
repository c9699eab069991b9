// Configuration of the mirror fetcher: the two mirror lists, the onion
// fallback address, and the choice of list by the user's UI language.

module Config {

  /** The fallback resource, reachable only through the Tor network. */
  const DefaultTorUrl: string :=
    "http://ethanielragn6ug6op5w3x2f6rawzzzu7qfrsksaaq527oltkmmu7yad.onion/index.txt"

  /** Mirrors serving the Chinese index, in configuration order. */
  const ChineseUrls: seq<string> := [
    "https://z-lib.100713.xyz/index.txt",
    "https://z-libdomain.100713.xyz/index.txt",
    "https://zlib.100713.xyz/index.txt",
    "https://z-lib.2010hcy.us.kg/index.txt",
    "https://zlib.2010hcy.us.kg/index.txt",
    "https://z-libdomain.2010hcy.us.kg/index.txt",
    "https://z-lib.broker.us.kg/index.txt",
    "https://zlib.broker.us.kg/index.txt",
    "https://z-libdomain.broker.us.kg/index.txt",
    "https://z-librarydomain.pages.dev/index.txt"
  ]

  /** Mirrors serving the English index, in configuration order. */
  const EnglishUrls: seq<string> := [
    "https://z-lib.100713.xyz/index-EN.txt",
    "https://z-libdomain.100713.xyz/index-EN.txt",
    "https://zlib.100713.xyz/index-EN.txt",
    "https://z-lib.2010hcy.us.kg/index-EN.txt",
    "https://zlib.2010hcy.us.kg/index-EN.txt",
    "https://z-libdomain.2010hcy.us.kg/index-EN.txt",
    "https://z-lib.broker.us.kg/index-EN.txt",
    "https://zlib.broker.us.kg/index-EN.txt",
    "https://z-libdomain.broker.us.kg/index-EN.txt",
    "https://z-librarydomain.pages.dev/index-EN.txt"
  ]

  /** The language test: only a two-letter UI language name of "en" selects English. */
  predicate IsEnglishCulture(twoLetterLanguageName: string) {
    twoLetterLanguageName == "en"
  }

  /** The list of mirrors probed at start-up. The English list is used exactly
      when the language flag is set, and the Tor address is in neither list,
      so a probed mirror can never be mistaken for the fallback. */
  function CandidateUrls(isEnglish: bool): (urls: seq<string>)
    ensures (urls == EnglishUrls) == isEnglish
    ensures |urls| == 10
    ensures DefaultTorUrl !in urls
  {
    assert ChineseUrls[0] != EnglishUrls[0];
    if isEnglish then EnglishUrls else ChineseUrls
  }
}
