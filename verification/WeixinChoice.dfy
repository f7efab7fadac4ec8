/** config/config.go: which platform SaveWeixinPlatformCredentials chooses, and which values it gets. */
module WeixinChoice {
  import opened Wrappers
  import opened Text
  import opened TomlLine
  import opened TomlString
  import opened ConfigSections
  import opened ConfigText
  import opened PlatformEdit
  import opened PlatformOptions
  import opened WeixinCredentials
  import opened WeixinRoundTrip
  import opened FormatGroups
  import AllowFrom

  // --- The choice ---

  /** How many of the first n platforms are Weixin platforms. */
  function WeixinCount(platforms: seq<ParsedPlatform>, n: nat): nat
    requires n <= |platforms|
  {
    if n == 0 then 0 else WeixinCount(platforms, n - 1) + if platforms[n - 1].isWeixin then 1 else 0
  }

  lemma {:induction false} IndicesCount(platforms: seq<ParsedPlatform>, n: nat)
    requires n <= |platforms|
    ensures |WeixinIndices(platforms, n)| == WeixinCount(platforms, n)
    ensures forall k :: 0 <= k < |WeixinIndices(platforms, n)| ==>
              WeixinCount(platforms, WeixinIndices(platforms, n)[k]) == k
  {
    if n > 0 {
      IndicesCount(platforms, n - 1);
    }
  }

  lemma {:induction false} CountBetween(platforms: seq<ParsedPlatform>, m: nat, n: nat)
    requires m <= n <= |platforms|
    ensures WeixinCount(platforms, m) <= WeixinCount(platforms, n)
    ensures m < n && platforms[m].isWeixin ==> WeixinCount(platforms, m) < WeixinCount(platforms, n)
  {
    if m < n {
      CountBetween(platforms, m, n - 1);
    }
  }

  /** A platform is determined by being Weixin and by how many of them come before it. */
  lemma SamePlatform(platforms: seq<ParsedPlatform>, p: nat, q: nat)
    requires p < |platforms| && q < |platforms| && platforms[p].isWeixin && platforms[q].isWeixin
    requires WeixinCount(platforms, p) == WeixinCount(platforms, q)
    ensures p == q
  {
    if p < q {
      CountBetween(platforms, p, q);
    } else if q < p {
      CountBetween(platforms, q, p);
    }
  }

  lemma {:induction false} NoneCounted(platforms: seq<ParsedPlatform>, n: nat)
    requires n <= |platforms|
    ensures WeixinCount(platforms, n) == 0 <==> forall p :: 0 <= p < n ==> !platforms[p].isWeixin
  {
    if n > 0 {
      NoneCounted(platforms, n - 1);
    }
  }

  /** Both required arguments are given, and the index is no negative number. */
  predicate ArgumentsOk(u: Update) {
    TrimSpace(u.projectName) != "" && TrimSpace(u.token) != "" && u.platformIndex >= 0
  }

  /** Project i is the first one of this name. */
  predicate IsFirstNamed(parsed: seq<ParsedProject>, name: string, i: nat) {
    i < |parsed| && parsed[i].name == name && forall j :: 0 <= j < i ==> parsed[j].name != name
  }

  /** Counting from one, with zero meaning the first. */
  function Wished(u: Update): int {
    if u.platformIndex > 1 then u.platformIndex else 1
  }

  lemma NamedIs(parsed: seq<ParsedProject>, name: string, i: nat)
    requires IsFirstNamed(parsed, name, i)
    ensures FirstNamed(parsed, name) == i
  {
  }

  /** Platform p of project i is chosen if and only if the arguments are in order, the project is the
      first one with the name, and p is the Weixin platform of the wished number among its platforms. */
  lemma ChosenIff(parsed: seq<ParsedProject>, u: Update, i: nat, p: nat)
    ensures Choose(parsed, u) == Chosen(i, p)
       <==> ArgumentsOk(u) && IsFirstNamed(parsed, u.projectName, i) && p < |parsed[i].platforms|
            && parsed[i].platforms[p].isWeixin && WeixinCount(parsed[i].platforms, p) == Wished(u) - 1
  {
    if ArgumentsOk(u) && IsFirstNamed(parsed, u.projectName, i) {
      NamedIs(parsed, u.projectName, i);
      var platforms := parsed[i].platforms;
      var candidates := WeixinIndices(platforms, |platforms|);
      IndicesCount(platforms, |platforms|);
      if p < |platforms| && platforms[p].isWeixin && WeixinCount(platforms, p) == Wished(u) - 1 {
        CountBetween(platforms, p, |platforms|);
        SamePlatform(platforms, candidates[Wished(u) - 1], p);
      }
    }
  }

  /** And every failure happens if and only if its own condition holds, with the earlier tests passed. */
  lemma ChoiceFailsIff(parsed: seq<ParsedProject>, u: Update)
    ensures Choose(parsed, u) == NotChosen(NoProjectName) <==> TrimSpace(u.projectName) == ""
    ensures Choose(parsed, u) == NotChosen(NoToken) <==> TrimSpace(u.projectName) != "" && TrimSpace(u.token) == ""
    ensures Choose(parsed, u) == NotChosen(NegativeIndex)
       <==> TrimSpace(u.projectName) != "" && TrimSpace(u.token) != "" && u.platformIndex < 0
    ensures Choose(parsed, u) == NotChosen(ProjectNotFound)
       <==> ArgumentsOk(u) && forall j :: 0 <= j < |parsed| ==> parsed[j].name != u.projectName
    ensures Choose(parsed, u) == NotChosen(NoWeixinPlatform)
       <==> ArgumentsOk(u)
            && (exists i: nat :: IsFirstNamed(parsed, u.projectName, i)
                            && forall p :: 0 <= p < |parsed[i].platforms| ==> !parsed[i].platforms[p].isWeixin)
    ensures Choose(parsed, u) == NotChosen(IndexOutOfRange)
       <==> ArgumentsOk(u)
            && (exists i: nat :: IsFirstNamed(parsed, u.projectName, i)
                            && 0 < WeixinCount(parsed[i].platforms, |parsed[i].platforms|) < Wished(u))
  {
    var i := FirstNamed(parsed, u.projectName);
    forall j: nat | IsFirstNamed(parsed, u.projectName, j)
      ensures j == i
    {
      NamedIs(parsed, u.projectName, j);
    }
    if i < |parsed| {
      assert IsFirstNamed(parsed, u.projectName, i);
      var platforms := parsed[i].platforms;
      IndicesCount(platforms, |platforms|);
      NoneCounted(platforms, |platforms|);
    }
  }

  // --- The values ---

  /** What the written file says under each of the five keys, for a file without empty project or
      platform header: the trimmed values that the update gives. */
  lemma SaveWrites(raw: string, parsed: seq<ParsedProject>, u: Update, k: string, value: string)
    requires SaveResult(raw, parsed, u).Saved? && NoEmptyArrays(ConfigLines(raw)) && value != ""
    requires (k == "token" && value == TrimSpace(u.token)) || (k == "base_url" && value == TrimSpace(u.baseURL))
          || (k == "cdn_base_url" && value == TrimSpace(u.cdnBaseURL))
          || (k == "account_id" && value == TrimSpace(u.accountID))
    ensures var saved := SaveResult(raw, parsed, u);
            ReadOption(ConfigLines(saved.text), saved.project, saved.platform, k) == Some(Quote(value))
  {
    KeysProper();
    KeysDiffer();
    assert Given(u, SaveResult(raw, parsed, u).allowFrom, k) == Some(value);
    SaveThenRead(raw, parsed, u, k);
  }

  /** A scanned user ends up on the allow list: read back, it holds what it held before and the user, or
      everybody. */
  lemma SaveAddsUser(raw: string, parsed: seq<ParsedProject>, u: Update)
    requires SaveResult(raw, parsed, u).Saved? && NoEmptyArrays(ConfigLines(raw))
    requires u.setAllowFromEmpty && TrimSpace(u.scannedUserID) != "" && Free(u.scannedUserID, ',')
    ensures var saved := SaveResult(raw, parsed, u);
            var list := saved.allowFrom;
            && ReadOption(ConfigLines(saved.text), saved.project, saved.platform, "allow_from") == Some(Quote(list))
            && saved.project < |parsed| && saved.platform < |parsed[saved.project].platforms|
            && var all := AllowFrom.Entries(TrimSpace(parsed[saved.project].platforms[saved.platform].allowFrom))
                          + {TrimSpace(u.scannedUserID)};
               AllowFrom.Entries(list) == if "*" in all then {"*"} else all
  {
    var saved := SaveResult(raw, parsed, u);
    ListOfSaved(raw, parsed, u);
    ListReads(raw, parsed, u);
    UserMerged(parsed[saved.project].platforms[saved.platform].allowFrom, u.scannedUserID);
  }

  lemma ListReads(raw: string, parsed: seq<ParsedProject>, u: Update)
    requires SaveResult(raw, parsed, u).Saved? && NoEmptyArrays(ConfigLines(raw))
    requires u.setAllowFromEmpty && TrimSpace(u.scannedUserID) != ""
    ensures var saved := SaveResult(raw, parsed, u);
            ReadOption(ConfigLines(saved.text), saved.project, saved.platform, "allow_from") == Some(Quote(saved.allowFrom))
  {
    KeysProper();
    KeysDiffer();
    assert Given(u, SaveResult(raw, parsed, u).allowFrom, "allow_from") == Some(SaveResult(raw, parsed, u).allowFrom);
    SaveThenRead(raw, parsed, u, "allow_from");
  }

  lemma ListOfSaved(raw: string, parsed: seq<ParsedProject>, u: Update)
    requires SaveResult(raw, parsed, u).Saved? && u.setAllowFromEmpty && TrimSpace(u.scannedUserID) != ""
    ensures var saved := SaveResult(raw, parsed, u);
            && saved.project < |parsed| && saved.platform < |parsed[saved.project].platforms|
            && saved.allowFrom == AllowFrom.Merged(TrimSpace(parsed[saved.project].platforms[saved.platform].allowFrom),
                                                   TrimSpace(u.scannedUserID))
  {
    ChosenIff(parsed, u, SaveResult(raw, parsed, u).project, SaveResult(raw, parsed, u).platform);
  }

  /** Without a scanned user the reported list is the old one, trimmed. */
  lemma ListStays(raw: string, parsed: seq<ParsedProject>, u: Update)
    requires SaveResult(raw, parsed, u).Saved? && (!u.setAllowFromEmpty || TrimSpace(u.scannedUserID) == "")
    ensures var saved := SaveResult(raw, parsed, u);
            && saved.project < |parsed| && saved.platform < |parsed[saved.project].platforms|
            && saved.allowFrom == TrimSpace(parsed[saved.project].platforms[saved.platform].allowFrom)
  {
    ChosenIff(parsed, u, SaveResult(raw, parsed, u).project, SaveResult(raw, parsed, u).platform);
  }

  lemma UserMerged(current: string, user: string)
    requires Free(user, ',') && TrimSpace(user) != ""
    ensures var all := AllowFrom.Entries(TrimSpace(current)) + {TrimSpace(user)};
            AllowFrom.Entries(AllowFrom.Merged(TrimSpace(current), TrimSpace(user)))
              == if "*" in all then {"*"} else all
  {
    AllowFrom.TrimFree(user, ',');
    TrimIdempotent(user);
    TrimIdempotent(current);
    AllowFrom.MergeIsUnion(TrimSpace(current), TrimSpace(user));
  }

  /** The keys that get no value: an optional one whose argument is blank, the allow list without a
      scanned user, and any other key. */
  lemma NotGiven(u: Update, allowFrom: string, k: string)
    requires k == "base_url" ==> TrimSpace(u.baseURL) == ""
    requires k == "cdn_base_url" ==> TrimSpace(u.cdnBaseURL) == ""
    requires k == "account_id" ==> TrimSpace(u.accountID) == ""
    requires k == "allow_from" ==> !u.setAllowFromEmpty || TrimSpace(u.scannedUserID) == ""
    requires k != "token"
    ensures Given(u, allowFrom, k) == None
  {
  }

  /** And these read as before, in the chosen platform as in every other. */
  lemma SaveKeepsTheRest(raw: string, parsed: seq<ParsedProject>, u: Update, k: string)
    requires SaveResult(raw, parsed, u).Saved? && NoEmptyArrays(ConfigLines(raw)) && ProperKey(k)
    requires k == "base_url" ==> TrimSpace(u.baseURL) == ""
    requires k == "cdn_base_url" ==> TrimSpace(u.cdnBaseURL) == ""
    requires k == "account_id" ==> TrimSpace(u.accountID) == ""
    requires k == "allow_from" ==> !u.setAllowFromEmpty || TrimSpace(u.scannedUserID) == ""
    requires k != "token"
    ensures var saved := SaveResult(raw, parsed, u);
            var was := ReadOption(ConfigLines(raw), saved.project, saved.platform, k);
            was.Some? ==> ReadOption(ConfigLines(saved.text), saved.project, saved.platform, k) == was
  {
    var saved := SaveResult(raw, parsed, u);
    NotGiven(u, saved.allowFrom, k);
    if ReadOption(ConfigLines(raw), saved.project, saved.platform, k).Some? {
      SaveKeepsOthers(raw, parsed, u, saved.project, saved.platform, k);
    }
  }
}
