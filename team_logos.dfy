/**
 * `getTeamLogoUrl`: the ESPN CDN logo address of a team tricode, or nothing
 * for an empty tricode and for the All-Star and other special teams, which
 * have no logo there. The comparison with the special teams ignores letter
 * case, and the address uses the lower-case tricode.
 *
 * Case mapping is that of the ASCII letters.
 */
module TeamLogos {
  import opened Js

  const SpecialTeams: seq<string> := ["WLD", "STR", "USA", "WORLD", "EAST", "WEST"]

  const LogoBase := "https://a.espncdn.com/i/teamlogos/nba/500/"

  function UpperChar(c: char): char {
    if 'a' <= c <= 'z' then ((c as int) - 32) as char else c
  }

  function LowerChar(c: char): char {
    if 'A' <= c <= 'Z' then ((c as int) + 32) as char else c
  }

  /** `s.toUpperCase()`. */
  function Upper(s: string): string {
    seq(|s|, i requires 0 <= i < |s| => UpperChar(s[i]))
  }

  /** `s.toLowerCase()`. */
  function Lower(s: string): string {
    seq(|s|, i requires 0 <= i < |s| => LowerChar(s[i]))
  }

  /** `getTeamLogoUrl(teamTricode)` for a string tricode; `None` is `null`.
      An address always lies under the ESPN logo directory, names a `.png`
      file, and has a non-empty file name. */
  function TeamLogoUrl(tricode: string): (url: Option<string>)
    ensures tricode == "" ==> url.None?
    ensures Upper(tricode) in SpecialTeams ==> url.None?
    ensures url.Some? ==>
      && |url.value| > |LogoBase| + 4
      && url.value[..|LogoBase|] == LogoBase
      && url.value[|url.value| - 4..] == ".png"
  {
    if tricode == "" then None
    else if Upper(tricode) in SpecialTeams then None
    else Some(LogoBase + Lower(tricode) + ".png")
  }

  /** There is no logo exactly for the empty tricode and the special teams,
      whatever their letter case; every other tricode has the address of
      its lower-case form, which can be read back out of the address. */
  lemma LogoUrlCases(tricode: string)
    ensures TeamLogoUrl(tricode).None? <==> tricode == "" || Upper(tricode) in SpecialTeams
    ensures TeamLogoUrl(tricode).Some? ==>
      var url := TeamLogoUrl(tricode).value;
      && |url| == |LogoBase| + |tricode| + 4
      && url[..|LogoBase|] == LogoBase
      && url[|LogoBase|..|url| - 4] == Lower(tricode)
      && url[|url| - 4..] == ".png"
  {
    if TeamLogoUrl(tricode).Some? {
      var url := TeamLogoUrl(tricode).value;
      assert url == LogoBase + Lower(tricode) + ".png";
      assert url[|LogoBase|..|url| - 4] == Lower(tricode);
    }
  }

  /** Two characters with the same lower-case form have the same upper-case
      form. */
  lemma SameLowerSameUpper(a: char, b: char)
    requires LowerChar(a) == LowerChar(b)
    ensures UpperChar(a) == UpperChar(b)
  {
  }

  /** Tricodes that differ only in letter case get the same answer: both no
      logo, or the same address. */
  lemma LogoUrlIgnoresCase(a: string, b: string)
    requires Lower(a) == Lower(b)
    ensures TeamLogoUrl(a) == TeamLogoUrl(b)
  {
    assert |a| == |b|;
    forall i | 0 <= i < |a|
      ensures Upper(a)[i] == Upper(b)[i]
    {
      assert Lower(a)[i] == Lower(b)[i];
      SameLowerSameUpper(a[i], b[i]);
    }
    assert Upper(a) == Upper(b);
  }

  lemma LogoUrlExamples()
    ensures TeamLogoUrl("LAL") == Some("https://a.espncdn.com/i/teamlogos/nba/500/lal.png")
    ensures TeamLogoUrl("east") == None
    ensures TeamLogoUrl("") == None
  {
    assert Lower("LAL") == "lal";
    assert Upper("LAL") == "LAL";
    assert "LAL" != "WLD" && "LAL" != "STR" && "LAL" != "USA";
    assert "LAL" !in SpecialTeams;
    assert LogoBase + "lal" + ".png" == "https://a.espncdn.com/i/teamlogos/nba/500/lal.png";
    assert Upper("east") == "EAST";
  }
}
