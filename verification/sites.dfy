/** `Site`: a named web address and the scheme check on its URL. */
module Sites {

  datatype Site = Site(name: string, url: string)

  /** `s.startswith(prefix)`, compared one character at a time. */
  function StartsWith(s: string, prefix: string): (r: bool)
    ensures r <==> |prefix| <= |s| && s[..|prefix|] == prefix
  {
    if |prefix| == 0 then true
    else if |s| == 0 || s[0] != prefix[0] then false
    else
      var r := StartsWith(s[1..], prefix[1..]);
      assert r ==> s[..|prefix|] == [s[0]] + s[1..][..|prefix| - 1];
      assert |prefix| <= |s| && s[..|prefix|] == prefix ==> s[1..][..|prefix| - 1] == prefix[1..];
      r
  }

  /** `Site.validate_url`: the URL starts with "http://" or "https://". */
  function ValidateUrl(url: string): (b: bool)
    ensures b <==> (|url| >= 7 && url[..7] == "http://") || (|url| >= 8 && url[..8] == "https://")
  {
    StartsWith(url, "http://") || StartsWith(url, "https://")
  }

  /** Text after a valid scheme does not change the verdict. */
  lemma ValidUrlExtends(url: string, rest: string)
    requires ValidateUrl(url)
    ensures ValidateUrl(url + rest)
  {
  }
}
