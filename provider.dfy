/** Provider classification by URL text (`detect_provider` in
    packages/src/cloud_storage_bridge.rs). */
module Provider {

  const AWS_S3 := "aws-s3"
  const CLOUDFLARE_R2 := "cloudflare-r2"
  const GOOGLE_CLOUD_STORAGE := "google-cloud-storage"
  const AZURE_BLOB := "azure-blob"
  const UNKNOWN := "unknown"

  /** Every tag `DetectProvider` can return. */
  const Tags: set<string> := {AWS_S3, CLOUDFLARE_R2, GOOGLE_CLOUD_STORAGE, AZURE_BLOB, UNKNOWN}

  /** Lower-cases one ASCII letter; every other character is kept. */
  function LowerChar(c: char): (l: char)
    ensures 'A' <= c <= 'Z' ==> l as int == c as int + 32
    ensures !('A' <= c <= 'Z') ==> l == c
    ensures !('A' <= l <= 'Z')
  {
    if 'A' <= c <= 'Z' then (c as int + 32) as char else c
  }

  /** `str::to_lowercase`, restricted to ASCII letters. */
  function ToLower(s: string): (l: string)
    ensures |l| == |s|
    ensures forall i :: 0 <= i < |s| ==> l[i] == LowerChar(s[i])
  {
    seq(|s|, i requires 0 <= i < |s| => LowerChar(s[i]))
  }

  /** `pattern` occurs in `s` starting at position `i`. */
  predicate OccursAt(s: string, pattern: string, i: int) {
    0 <= i && i + |pattern| <= |s| && s[i..i + |pattern|] == pattern
  }

  /** `str::contains`: `pattern` occurs somewhere in `s`. */
  predicate Contains(s: string, pattern: string) {
    exists i | 0 <= i <= |s| - |pattern| :: OccursAt(s, pattern, i)
  }

  /** `detect_provider`: substring rules on the lower-cased URL, first match wins. */
  function DetectProvider(url: string): (tag: string)
    ensures tag in Tags
  {
    var lower := ToLower(url);
    if Contains(lower, "amazonaws.com") || Contains(lower, "s3.") then AWS_S3
    else if Contains(lower, "r2.dev") || Contains(lower, "r2.cloudflarestorage.com") then CLOUDFLARE_R2
    else if Contains(lower, "googleapis.com") || Contains(lower, "storage.cloud.google.com") then GOOGLE_CLOUD_STORAGE
    else if Contains(lower, "blob.core.windows.net") then AZURE_BLOB
    else UNKNOWN
  }

  /** One classification rule: any of `patterns` in the URL selects `tag`. */
  datatype Rule = Rule(patterns: seq<string>, tag: string)

  /** The rules in the order they are tried. */
  const Rules: seq<Rule> := [
    Rule(["amazonaws.com", "s3."], AWS_S3),
    Rule(["r2.dev", "r2.cloudflarestorage.com"], CLOUDFLARE_R2),
    Rule(["googleapis.com", "storage.cloud.google.com"], GOOGLE_CLOUD_STORAGE),
    Rule(["blob.core.windows.net"], AZURE_BLOB)
  ]

  ghost predicate Matches(rule: Rule, s: string) {
    exists k :: 0 <= k < |rule.patterns| && Contains(s, rule.patterns[k])
  }

  /** Reference classifier: the tag of the first rule that matches, `unknown` if none does. */
  ghost function FirstMatch(rules: seq<Rule>, s: string): string {
    if rules == [] then UNKNOWN
    else if Matches(rules[0], s) then rules[0].tag
    else FirstMatch(rules[1..], s)
  }

  /** First-match semantics: the first rule that matches decides the tag; `unknown` when none matches. */
  lemma {:induction false} FirstMatchIsFirst(rules: seq<Rule>, s: string)
    ensures (forall j :: 0 <= j < |rules| ==> !Matches(rules[j], s)) ==> FirstMatch(rules, s) == UNKNOWN
    ensures forall j :: 0 <= j < |rules| && Matches(rules[j], s) && (forall k :: 0 <= k < j ==> !Matches(rules[k], s)) ==>
                          FirstMatch(rules, s) == rules[j].tag
  {
    if rules != [] {
      FirstMatchIsFirst(rules[1..], s);
      forall j | 0 <= j < |rules| && Matches(rules[j], s) && (forall k :: 0 <= k < j ==> !Matches(rules[k], s))
        ensures FirstMatch(rules, s) == rules[j].tag
      {
        if j > 0 {
          assert !Matches(rules[0], s);
          assert rules[j] == rules[1..][j - 1];
          assert forall k :: 0 <= k < j - 1 ==> rules[1..][k] == rules[k + 1];
        }
      }
      if forall j :: 0 <= j < |rules| ==> !Matches(rules[j], s) {
        assert forall j :: 0 <= j < |rules| - 1 ==> rules[1..][j] == rules[j + 1];
      }
    }
  }

  /** `DetectProvider` is the first-match classifier over `Rules`, applied to the lower-cased URL. */
  lemma DetectProviderFollowsRules(url: string)
    ensures DetectProvider(url) == FirstMatch(Rules, ToLower(url))
  {
    var lower := ToLower(url);
    assert Matches(Rules[0], lower) <==> Contains(lower, "amazonaws.com") || Contains(lower, "s3.") by {
      assert Rules[0].patterns[0] == "amazonaws.com" && Rules[0].patterns[1] == "s3.";
    }
    assert Matches(Rules[1], lower) <==> Contains(lower, "r2.dev") || Contains(lower, "r2.cloudflarestorage.com") by {
      assert Rules[1].patterns[0] == "r2.dev" && Rules[1].patterns[1] == "r2.cloudflarestorage.com";
    }
    assert Matches(Rules[2], lower) <==> Contains(lower, "googleapis.com") || Contains(lower, "storage.cloud.google.com") by {
      assert Rules[2].patterns[0] == "googleapis.com" && Rules[2].patterns[1] == "storage.cloud.google.com";
    }
    assert Matches(Rules[3], lower) <==> Contains(lower, "blob.core.windows.net") by {
      assert Rules[3].patterns[0] == "blob.core.windows.net";
    }
    var tail1 := Rules[1..];
    var tail2 := tail1[1..];
    var tail3 := tail2[1..];
    assert tail3[1..] == [] && tail3[0] == Rules[3] && tail2[0] == Rules[2] && tail1[0] == Rules[1];
    assert FirstMatch(tail3, lower) == if Matches(Rules[3], lower) then AZURE_BLOB else UNKNOWN;
    assert FirstMatch(tail2, lower) == if Matches(Rules[2], lower) then GOOGLE_CLOUD_STORAGE else FirstMatch(tail3, lower);
    assert FirstMatch(tail1, lower) == if Matches(Rules[1], lower) then CLOUDFLARE_R2 else FirstMatch(tail2, lower);
  }

  /** Case does not matter: URLs that agree letter by letter up to ASCII case get the same tag. */
  lemma DetectProviderIgnoresCase(u: string, v: string)
    requires |u| == |v|
    requires forall i :: 0 <= i < |u| ==> LowerChar(u[i]) == LowerChar(v[i])
    ensures DetectProvider(u) == DetectProvider(v)
  {
    assert ToLower(u) == ToLower(v);
  }

  /** Lower-casing the URL first changes nothing. */
  lemma DetectProviderOfLowered(url: string)
    ensures DetectProvider(ToLower(url)) == DetectProvider(url)
  {
    DetectProviderIgnoresCase(ToLower(url), url);
  }

  /** Rule precedence: an Amazon pattern decides, whatever else the URL contains. */
  lemma AwsTakesPrecedence(url: string)
    requires Contains(ToLower(url), "s3.") || Contains(ToLower(url), "amazonaws.com")
    ensures DetectProvider(url) == AWS_S3
  {
  }

  /** A pattern holding a character that `s` lacks does not occur in `s`. */
  lemma AbsentCharacter(s: string, pattern: string, c: char)
    requires c in pattern && c !in s
    ensures !Contains(s, pattern)
  {
  }

  /** Each rule's patterns hold one of 'z', '3', '2', 'g', 'w': a URL without them matches no rule. */
  lemma UnknownWithoutKeyCharacters(url: string)
    requires 'z' !in ToLower(url) && '3' !in ToLower(url) && '2' !in ToLower(url)
    requires 'g' !in ToLower(url) && 'w' !in ToLower(url)
    ensures DetectProvider(url) == UNKNOWN
  {
    var lower := ToLower(url);
    AbsentCharacter(lower, "amazonaws.com", 'z');
    AbsentCharacter(lower, "s3.", '3');
    AbsentCharacter(lower, "r2.dev", '2');
    AbsentCharacter(lower, "r2.cloudflarestorage.com", '2');
    AbsentCharacter(lower, "googleapis.com", 'g');
    AbsentCharacter(lower, "storage.cloud.google.com", 'g');
    AbsentCharacter(lower, "blob.core.windows.net", 'w');
  }

  /** The virtual-hosted S3 example is already lower case. */
  lemma S3BucketUrl(url: string)
    requires url == "https://mybucket.s3.amazonaws.com/key"
    ensures ToLower(url) == url
  {
  }

  /** Example: a virtual-hosted S3 URL. */
  lemma DetectsS3Bucket(url: string)
    requires url == "https://mybucket.s3.amazonaws.com/key"
    ensures DetectProvider(url) == AWS_S3
  {
    S3BucketUrl(url);
    assert OccursAt(url, "s3.", 17);
  }

  /** The plain example URL has no '3' and no '2'. */
  lemma PlainUrlLacksDigits(url: string)
    requires url == "https://example.com/file"
    ensures '3' !in url && '2' !in url
  {
  }

  /** The plain example URL has no 'z', 'g' or 'w'. */
  lemma PlainUrlLacksLetters(url: string)
    requires url == "https://example.com/file"
    ensures 'z' !in url && 'g' !in url && 'w' !in url
  {
  }

  /** Example: a URL that matches no rule. */
  lemma DetectsUnknown(url: string)
    requires url == "https://example.com/file"
    ensures DetectProvider(url) == UNKNOWN
  {
    assert ToLower(url) == url;
    PlainUrlLacksDigits(url);
    PlainUrlLacksLetters(url);
    UnknownWithoutKeyCharacters(url);
  }

  /** Example: "s3." wins over "r2.dev" because its rule comes first. */
  lemma DetectsS3BeforeR2(url: string)
    requires url == "https://s3.eu.r2.dev/obj"
    ensures DetectProvider(url) == AWS_S3
  {
    assert ToLower(url) == url;
    assert OccursAt(url, "s3.", 8);
  }

  /** Lower-casing the upper-case R2 example. */
  lemma UpperR2Lowered(url: string)
    requires url == "HTTPS://PUB-1.R2.DEV/OBJ"
    ensures ToLower(url) == "https://pub-1.r2.dev/obj"
  {
  }

  /** Example: an upper-case R2 URL is still Cloudflare R2. */
  lemma DetectsUpperCaseR2(url: string)
    requires url == "HTTPS://PUB-1.R2.DEV/OBJ"
    ensures DetectProvider(url) == CLOUDFLARE_R2
  {
    UpperR2Lowered(url);
    var lower := ToLower(url);
    assert 'z' !in lower && '3' !in lower;
    AbsentCharacter(lower, "amazonaws.com", 'z');
    AbsentCharacter(lower, "s3.", '3');
    assert OccursAt(lower, "r2.dev", 14);
  }
}
