// API keys: the text a key travels as, and the principal it stands for.
module ApiKeys {
  import opened Common
  import opened Cedar
  import opened Gate

  // Where the first underscore is, or the length when there is none.
  function FirstUnderscore(s: string): (i: nat)
    ensures i <= |s| && '_' !in s[..i] && (i < |s| ==> s[i] == '_')
  {
    if s == [] || s[0] == '_' then 0
    else
      var i := 1 + FirstUnderscore(s[1..]);
      assert s[..i] == [s[0]] + s[1..][..i - 1];
      i
  }

  // full.split("_", 2), when it has three parts of which the first is "ew".
  function SplitApiKey(full: string): Option<(string, string)> {
    var i := FirstUnderscore(full);
    if i == |full| then None
    else
      var rest := full[i + 1..];
      var j := FirstUnderscore(rest);
      if j == |rest| || full[..i] != "ew" then None else Some((rest[..j], rest[j + 1..]))
  }

  function FullKey(prefix: string, secret: string): string {
    "ew_" + (prefix + ("_" + secret))
  }

  lemma {:induction false} FirstUnderscoreAt(s: string, t: string)
    requires '_' !in s
    ensures FirstUnderscore(s + ("_" + t)) == |s|
  {
    if s != [] {
      assert (s + ("_" + t))[1..] == s[1..] + ("_" + t);
      FirstUnderscoreAt(s[1..], t);
    }
  }

  lemma SplitOfMint(prefix: string, secret: string)
    requires '_' !in prefix
    ensures SplitApiKey(FullKey(prefix, secret)) == Some((prefix, secret))
  {
    var full, rest := FullKey(prefix, secret), prefix + ("_" + secret);
    assert full == "ew" + ("_" + rest);
    FirstUnderscoreAt("ew", rest);
    FirstUnderscoreAt(prefix, secret);
    assert full[..2] == "ew" && full[3..] == rest;
    assert rest[..|prefix|] == prefix && rest[|prefix| + 1..] == secret;
  }

  lemma CutAt(s: string, i: nat)
    requires i < |s| && s[i] == '_'
    ensures s == s[..i] + ("_" + s[i + 1..])
  {
    assert s == s[..i] + s[i..];
  }

  lemma Joined(rest: string)
    ensures "ew" + ("_" + rest) == "ew_" + rest
  {
    assert "ew_" == "ew" + "_";
  }

  lemma MintOfSplit(full: string)
    requires SplitApiKey(full).Some?
    ensures var (prefix, secret) := SplitApiKey(full).value; full == FullKey(prefix, secret) && '_' !in prefix
  {
    var i := FirstUnderscore(full);
    var rest := full[i + 1..];
    var j := FirstUnderscore(rest);
    hide FirstUnderscore;
    CutAt(full, i);
    CutAt(rest, j);
    var prefix, secret := rest[..j], rest[j + 1..];
    assert SplitApiKey(full) == Some((prefix, secret)) && full[..i] == "ew";
    hide SplitApiKey;
    Joined(prefix + ("_" + secret));
  }

  // Splitting undoes minting exactly when the prefix has no underscore. Prefixes are
  // hexadecimal, so it always does, although secrets may contain underscores.
  lemma SplitUndoesMint(full: string, prefix: string, secret: string)
    ensures SplitApiKey(full) == Some((prefix, secret)) <==>
            full == "ew_" + (prefix + ("_" + secret)) && '_' !in prefix
  {
    if '_' !in prefix {
      SplitOfMint(prefix, secret);
    }
    if SplitApiKey(full).Some? {
      MintOfSplit(full);
    }
  }

  datatype KeyRow = KeyRow(user: Id, org: Id, hash: string, revoked: bool, expired: bool, scopes: set<string>)

  // `matches` says whether a secret belongs to a hash.
  function Authenticate(header: Option<string>, byPrefix: map<string, KeyRow>, matches: (string, string) -> bool)
    : Option<Principal>
  {
    if header.None? || header.value == "" then None
    else
      var parts := SplitApiKey(header.value);
      if parts.None? || parts.value.0 !in byPrefix then None
      else
        var row := byPrefix[parts.value.0];
        if row.revoked || row.expired || !matches(row.hash, parts.value.1) then None
        else Some(Principal(Account(row.user), ApiKey, row.scopes, Some(row.org)))
  }

  // The header is the minted text of the key, whose row is live and whose secret matches.
  predicate Presents(header: Option<string>, prefix: string, secret: string, byPrefix: map<string, KeyRow>,
                     matches: (string, string) -> bool)
  {
    && header == Some("ew_" + (prefix + ("_" + secret))) && '_' !in prefix && prefix in byPrefix
    && !byPrefix[prefix].revoked && !byPrefix[prefix].expired && matches(byPrefix[prefix].hash, secret)
  }

  // Whatever the header: it is accepted exactly when it presents a live key with a matching
  // secret, and it then stands for the key's owner in one organization with the row's scopes.
  lemma KeyStandsForOwner(header: Option<string>, byPrefix: map<string, KeyRow>, matches: (string, string) -> bool)
    ensures Authenticate(header, byPrefix, matches).Some? <==>
            exists prefix, secret :: Presents(header, prefix, secret, byPrefix, matches)
    ensures forall prefix, secret :: Presents(header, prefix, secret, byPrefix, matches) ==>
              Authenticate(header, byPrefix, matches) ==
              var row := byPrefix[prefix]; Some(Principal(Account(row.user), ApiKey, row.scopes, Some(row.org)))
  {
    forall prefix, secret | Presents(header, prefix, secret, byPrefix, matches)
      ensures SplitApiKey(header.value) == Some((prefix, secret)) {
      SplitUndoesMint(header.value, prefix, secret);
    }
    if Authenticate(header, byPrefix, matches).Some? {
      MintOfSplit(header.value);
      var (prefix, secret) := SplitApiKey(header.value).value;
      assert Presents(header, prefix, secret, byPrefix, matches);
    }
  }
}
