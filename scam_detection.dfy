/** The scam-warning predicates of src/util/scamDetection.ts. */
module ScamDetection {
  import opened Types

  /** One hour in milliseconds, the unit of `Date.now()`. */
  const Hour: int := 3_600_000

  /** Slugs of the configuration the predicate compares against. */
  datatype ScamConfig = ScamConfig(usdtTrc20MainnetSlug: string, trxSlug: string)

  // ---------------------------------------------------------------------
  // shouldShowSeedPhraseScamWarning (lines 9-31)
  // ---------------------------------------------------------------------

  /** A token that makes the account look like it holds TRON assets. */
  predicate IsTronHolding(t: UserToken, cfg: ScamConfig) {
    t.slug == cfg.usdtTrc20MainnetSlug || (t.chain == Tron && t.amount > 0 && t.slug != cfg.trxSlug)
  }

  /** `accountTokens.some(IsTronHolding)`, scanning from the front. */
  function HasTronTokens(tokens: seq<UserToken>, cfg: ScamConfig): (found: bool)
    ensures found <==> exists i :: 0 <= i < |tokens| && IsTronHolding(tokens[i], cfg)
  {
    if tokens == [] then false
    else if IsTronHolding(tokens[0], cfg) then true
    else
      var rest := HasTronTokens(tokens[1..], cfg);
      assert forall i :: 1 <= i < |tokens| ==> tokens[i] == tokens[1..][i - 1];
      assert rest ==> exists i :: 0 <= i < |tokens| && IsTronHolding(tokens[i], cfg) by {
        if rest {
          var j :| 0 <= j < |tokens[1..]| && IsTronHolding(tokens[1..][j], cfg);
          assert tokens[j + 1] == tokens[1..][j];
        }
      }
      rest
  }

  /** JavaScript falsiness of the import time: absent or 0. */
  predicate ImportedAtFalsy(importedAt: Option<int>) {
    importedAt.None? || importedAt.value == 0
  }

  /** `shouldShowSeedPhraseScamWarning`; `now` is the reading of `Date.now()`. */
  function ShouldShowSeedPhraseScamWarning(importedAt: Option<int>, tokens: seq<UserToken>, transferChain: Chain,
                                           now: int, cfg: ScamConfig): (warn: bool)
    ensures ImportedAtFalsy(importedAt) ==> !warn
    ensures !ImportedAtFalsy(importedAt) && now - importedAt.value > Hour ==> !warn
    ensures transferChain != Tron ==> !warn
    ensures !ImportedAtFalsy(importedAt) && now - importedAt.value <= Hour && transferChain == Tron ==>
              (warn <==> exists i :: 0 <= i < |tokens| && IsTronHolding(tokens[i], cfg))
  {
    if ImportedAtFalsy(importedAt) || now - importedAt.value > Hour then false
    else if transferChain != Tron then false
    else HasTronTokens(tokens, cfg)
  }

  /** The comparison with the hour is strict: exactly one hour after import
      the warning is still shown, one millisecond later it no longer is. */
  lemma SeedPhraseWarningHourBoundary(importedAt: int, tokens: seq<UserToken>, cfg: ScamConfig)
    requires importedAt != 0
    requires exists i :: 0 <= i < |tokens| && IsTronHolding(tokens[i], cfg)
    ensures ShouldShowSeedPhraseScamWarning(Some(importedAt), tokens, Tron, importedAt + Hour, cfg)
    ensures !ShouldShowSeedPhraseScamWarning(Some(importedAt), tokens, Tron, importedAt + Hour + 1, cfg)
  {
  }

  // ---------------------------------------------------------------------
  // shouldShowDomainScamWarning (lines 7, 33-35)
  // ---------------------------------------------------------------------

  /** `\w` of a JavaScript regular expression without the `u` flag. */
  predicate IsWordChar(c: char) {
    ('a' <= c <= 'z') || ('A' <= c <= 'Z') || ('0' <= c <= '9') || c == '_'
  }

  /** Length of the run of word characters `s` begins with. */
  function LeadingWordRun(s: string): (n: nat)
    ensures n <= |s|
    ensures forall i :: 0 <= i < n ==> IsWordChar(s[i])
    ensures n < |s| ==> !IsWordChar(s[n])
  {
    if s == [] || !IsWordChar(s[0]) then 0
    else
      var rest := LeadingWordRun(s[1..]);
      assert forall i :: 1 <= i < 1 + rest ==> s[i] == s[1..][i - 1];
      1 + rest
  }

  /** The regular expression's own reading: some prefix of at least 26 word
      characters is immediately followed by a dot, whatever comes after. */
  predicate MatchesScamDomain(address: string) {
    exists n :: 26 <= n < |address| && (forall i :: 0 <= i < n ==> IsWordChar(address[i])) && address[n] == '.'
  }

  /** `/^\w{26,}\./.test(address)`, decided by scanning the leading run of
      word characters: the run must be at least 26 long and end at a dot. */
  function ShouldShowDomainScamWarning(address: string): (warn: bool)
    ensures warn <==> MatchesScamDomain(address)
  {
    var run := LeadingWordRun(address);
    assert MatchesScamDomain(address) ==> run >= 26 && run < |address| && address[run] == '.' by {
      if MatchesScamDomain(address) {
        var n :| 26 <= n < |address| && (forall i :: 0 <= i < n ==> IsWordChar(address[i])) && address[n] == '.';
        // the dot is not a word character, so the run ends exactly there
        assert !IsWordChar(address[n]);
        assert run == n;
      }
    }
    run >= 26 && run < |address| && address[run] == '.'
  }

  /** What follows the dot never matters. */
  lemma DomainScamWarningIgnoresSuffix(address: string, suffix: string)
    requires ShouldShowDomainScamWarning(address)
    ensures ShouldShowDomainScamWarning(address + suffix)
  {
    var n :| 26 <= n < |address| && (forall i :: 0 <= i < n ==> IsWordChar(address[i])) && address[n] == '.';
    assert forall i :: 0 <= i < n ==> (address + suffix)[i] == address[i];
    assert (address + suffix)[n] == '.';
  }
}
