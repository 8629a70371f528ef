/** internal/hostnames: the DNS label of an appliance. */
module Hostnames {
  import Text
  import Tokens

  const MAX_NAME_PART: nat := 40

  predicate AlNum(c: char) {
    'a' <= c <= 'z' || '0' <= c <= '9'
  }

  predicate IsDash(c: char) {
    c == '-'
  }

  /** The class [^a-z0-9-] of the first substitution. */
  predicate NonLabelChar(c: char) {
    !AlNum(c) && !IsDash(c)
  }

  predicate Separator(c: char) {
    !AlNum(c)
  }

  /** What is used of Unicode lower-casing: label characters are fixed, white space yields none. */
  ghost predicate Folds(lower: char -> char) {
    && (forall c :: AlNum(c) || IsDash(c) ==> lower(c) == c)
    && (forall c :: Text.IsSpace(c) ==> Separator(lower(c)))
  }

  function ToLower(lower: char -> char, s: string): (r: string)
    ensures |r| == |s| && forall i :: 0 <= i < |s| ==> r[i] == lower(s[i])
  {
    seq(|s|, i requires 0 <= i < |s| => lower(s[i]))
  }

  /** Each maximal run of the class becomes one dash. */
  function ReplaceRuns(inClass: char -> bool, s: string): string {
    if s == "" then ""
    else if !inClass(s[0]) then [s[0]] + ReplaceRuns(inClass, s[1..])
    else if |s| > 1 && inClass(s[1]) then ReplaceRuns(inClass, s[1..])
    else "-" + ReplaceRuns(inClass, s[1..])
  }

  function Cut(s: string): string {
    if |s| > MAX_NAME_PART then Text.Trim(IsDash, s[..MAX_NAME_PART]) else s
  }

  function OrDefault(s: string): string {
    if s == "" then "appliance" else s
  }

  /** The passes in source order. */
  function Sanitize(lower: char -> char, name: string): string {
    var lowered := ToLower(lower, Text.TrimSpace(name));
    var replaced := ReplaceRuns(NonLabelChar, lowered);
    var collapsed := ReplaceRuns(IsDash, replaced);
    var trimmed := Text.Trim(IsDash, collapsed);
    OrDefault(Cut(trimmed))
  }

  function GenerateLabel(lower: char -> char, name: string, suffix: string): string {
    Sanitize(lower, name) + "-" + suffix
  }

  function FullHostname(hostLabel: string, baseDomain: string): string {
    hostLabel + "." + baseDomain
  }

  // ---------- the simple specification ----------

  /** The maximal runs of [a-z0-9], in order. */
  function Words(s: string): seq<string> {
    if s == "" then []
    else if Separator(s[0]) then Words(s[1..])
    else if |s| > 1 && AlNum(s[1]) then
      var rest := Words(s[1..]);
      if rest == [] then [[s[0]]] else [[s[0]] + rest[0]] + rest[1..]
    else [[s[0]]] + Words(s[1..])
  }

  function JoinDash(words: seq<string>): string {
    if words == [] then ""
    else if |words| == 1 then words[0]
    else words[0] + "-" + JoinDash(words[1..])
  }

  function Slug(s: string): string {
    JoinDash(Words(s))
  }

  /** The label characters one by one. */
  lemma LettersListed(c: char)
    ensures AlNum(c) && c > '9' <==> c in "abcdefghijklmnopqrstuvwxyz"
  {}

  lemma DigitsListed(c: char)
    ensures AlNum(c) && c <= '9' <==> c in "0123456789"
  {}

  lemma WordsNonEmpty(s: string)
    ensures forall i :: 0 <= i < |Words(s)| ==> Words(s)[i] != ""
    ensures s != "" && AlNum(s[0]) ==> Words(s) != []
  {}

  /** How a slug grows by one character at the front. */
  lemma SlugStep(s: string)
    requires s != ""
    ensures Separator(s[0]) ==> Slug(s) == Slug(s[1..])
    ensures AlNum(s[0]) && |s| > 1 && AlNum(s[1]) ==> Slug(s) == [s[0]] + Slug(s[1..])
    ensures AlNum(s[0]) && (|s| == 1 || Separator(s[1])) ==>
              Slug(s) == if Slug(s[1..]) == "" then [s[0]] else [s[0]] + "-" + Slug(s[1..])
  {
    var rest := Words(s[1..]);
    WordsNonEmpty(s[1..]);
    if AlNum(s[0]) && |s| > 1 && AlNum(s[1]) {
      assert Words(s) == [[s[0]] + rest[0]] + rest[1..];
      assert Words(s)[1..] == rest[1..];
      if |rest| > 1 {
        assert [s[0]] + rest[0] + "-" + JoinDash(rest[1..]) == [s[0]] + (rest[0] + "-" + JoinDash(rest[1..]));
      }
    } else if AlNum(s[0]) {
      assert Words(s) == [[s[0]]] + rest;
      assert Words(s)[1..] == rest;
      if rest != [] {
        assert Slug(s[1..]) != "";
      }
    }
  }

  /** A cleaned name part: nothing left for any pass to change. */
  predicate Clean(s: string) {
    && s != ""
    && (forall i :: 0 <= i < |s| ==> !NonLabelChar(s[i]))
    && Text.Tight(IsDash, s)
    && (forall i :: 0 < i < |s| ==> !(IsDash(s[i - 1]) && IsDash(s[i])))
  }

  lemma {:induction false} SlugIsClean(s: string)
    ensures Slug(s) != "" ==> Clean(Slug(s))
    ensures s != "" && AlNum(s[0]) ==> Slug(s) != "" && Slug(s)[0] == s[0]
  {
    if s != "" {
      SlugIsClean(s[1..]);
      SlugStep(s);
    }
  }

  /** Two substitutions in a row act like one that treats every separator alike. */
  lemma {:induction false} PassesMerge(s: string)
    ensures ReplaceRuns(IsDash, ReplaceRuns(NonLabelChar, s)) == ReplaceRuns(Separator, s)
    ensures s == "" <==> ReplaceRuns(NonLabelChar, s) == ""
    ensures s != "" ==> (Separator(s[0]) <==> IsDash(ReplaceRuns(NonLabelChar, s)[0]))
  {
    if s != "" {
      PassesMerge(s[1..]);
      var p, q := ReplaceRuns(NonLabelChar, s), ReplaceRuns(NonLabelChar, s[1..]);
      if NonLabelChar(s[0]) && |s| > 1 && NonLabelChar(s[1]) {
        assert p == q;
      } else {
        assert p[0] == (if NonLabelChar(s[0]) then '-' else s[0]) && p[1..] == q;
      }
    }
  }

  function Lead(s: string): string {
    if s != "" && Separator(s[0]) then "-" else ""
  }

  function Tail(s: string): string {
    if Slug(s) != "" && Separator(s[|s| - 1]) then "-" else ""
  }

  /** The merged pass yields the slug, with at most one dash left over at each end. */
  ghost predicate PaddedSlug(s: string) {
    ReplaceRuns(Separator, s) == Lead(s) + Slug(s) + Tail(s)
  }

  lemma {:induction false} MergedIsPaddedSlug(s: string)
    ensures PaddedSlug(s)
  {
    if s != "" {
      MergedIsPaddedSlug(s[1..]);
      if Separator(s[0]) {
        PadSeparator(s);
      } else {
        PadAlNum(s);
      }
    }
  }

  lemma PadSeparator(s: string)
    requires s != "" && Separator(s[0]) && PaddedSlug(s[1..])
    ensures PaddedSlug(s)
  {
    var t := s[1..];
    SlugStep(s);
    assert Tail(s) == Tail(t);
    if t == "" || AlNum(t[0]) {
      assert Lead(t) == "";
      assert "-" + (Slug(t) + Tail(t)) == "-" + Slug(t) + Tail(t);
    }
  }

  lemma TailAfterAlNum(s: string)
    requires s != "" && AlNum(s[0])
    ensures Tail(s) == if Slug(s[1..]) == "" then Lead(s[1..]) else Tail(s[1..])
  {
    hide Slug;
    var t := s[1..];
    SlugIsClean(s);
    SlugOfEmpty();
    if t != "" {
      assert s[|s| - 1] == t[|t| - 1];
      if Slug(t) == "" {
        NoWords(t);
        assert Separator(t[0]) && Separator(t[|t| - 1]);
      }
    }
  }

  lemma SlugAfterAlNum(s: string)
    requires s != "" && AlNum(s[0])
    ensures Slug(s) == if Slug(s[1..]) == "" then [s[0]] else [s[0]] + (Lead(s[1..]) + Slug(s[1..]))
  {
    hide Slug;
    var t := s[1..];
    SlugIsClean(t);
    SlugStep(s);
    SlugOfEmpty();
    if t != "" && AlNum(t[0]) {
      assert s[1] == t[0] && Lead(t) + Slug(t) == Slug(t);
    } else if t != "" {
      assert s[1] == t[0] && [s[0]] + (Lead(t) + Slug(t)) == [s[0]] + "-" + Slug(t);
    }
  }

  lemma SlugOfEmpty()
    ensures Slug("") == ""
  {}

  lemma PadAlNum(s: string)
    requires s != "" && AlNum(s[0]) && PaddedSlug(s[1..])
    ensures PaddedSlug(s)
  {
    hide Slug, Tail;
    var t, rest := s[1..], ReplaceRuns(Separator, s[1..]);
    TailAfterAlNum(s);
    SlugAfterAlNum(s);
    assert ReplaceRuns(Separator, s) == [s[0]] + rest;
    if Slug(t) == "" {
      assert Tail(t) == "" by { NoTail(t); }
      assert rest == Lead(t);
    } else {
      assert [s[0]] + (Lead(t) + Slug(t) + Tail(t)) == [s[0]] + (Lead(t) + Slug(t)) + Tail(t);
    }
  }

  lemma NoTail(s: string)
    ensures Slug(s) == "" ==> Tail(s) == ""
  {}

  predicate AllSeparators(s: string) {
    forall i :: 0 <= i < |s| ==> Separator(s[i])
  }

  lemma {:induction false} NoWords(s: string)
    requires Slug(s) == ""
    ensures AllSeparators(s)
  {
    if s != "" {
      SlugStep(s);
      NoWords(s[1..]);
    }
  }

  lemma {:induction false} SlugSkipsLeft(a: string, s: string)
    requires AllSeparators(a)
    ensures Slug(a + s) == Slug(s)
  {
    if a == "" {
      assert a + s == s;
    } else {
      SlugStep(a + s);
      assert (a + s)[1..] == a[1..] + s;
      SlugSkipsLeft(a[1..], s);
    }
  }

  lemma {:induction false} SlugSkipsRight(s: string, b: string)
    requires AllSeparators(b)
    ensures Slug(s + b) == Slug(s)
  {
    if s == "" {
      SlugSkipsLeft(b, s);
      assert s + b == b + s;
    } else {
      SlugStep(s + b);
      SlugStep(s);
      assert (s + b)[1..] == s[1..] + b;
      SlugSkipsRight(s[1..], b);
    }
  }

  lemma SpaceLowersToSeparators(lower: char -> char, s: string)
    requires Folds(lower)
    requires Text.AllDrop(Text.IsSpace, s)
    ensures AllSeparators(ToLower(lower, s))
  {}

  /** The leading TrimSpace never matters. */
  lemma TrimSpaceRedundant(lower: char -> char, name: string)
    requires Folds(lower)
    ensures Slug(ToLower(lower, Text.TrimSpace(name))) == Slug(ToLower(lower, name))
  {
    var a, b := Text.TrimSplits(Text.IsSpace, name);
    var core := Text.TrimSpace(name);
    LowerAppends(lower, a, core + b);
    LowerAppends(lower, core, b);
    SpaceLowersToSeparators(lower, a);
    SpaceLowersToSeparators(lower, b);
    SlugSkipsLeft(ToLower(lower, a), ToLower(lower, core + b));
    SlugSkipsRight(ToLower(lower, core), ToLower(lower, b));
  }

  lemma LowerAppends(lower: char -> char, a: string, b: string)
    ensures ToLower(lower, a + b) == ToLower(lower, a) + ToLower(lower, b)
  {}

  /** r is the longest prefix of s of at most 40 characters that does not end in a dash. */
  ghost predicate IsCut(s: string, r: string) {
    && r <= s && |r| <= 40 && (r != "" ==> r[|r| - 1] != '-')
    && forall k :: |r| <= k < 40 && k < |s| ==> s[k] == '-'
  }

  lemma NoLongerCut(s: string, r: string, p: string)
    requires IsCut(s, r) && p <= s && |p| <= 40 && (p != "" ==> p[|p| - 1] != '-')
    ensures |p| <= |r|
  {
    if p != "" {
      assert p[|p| - 1] == s[|p| - 1];
    }
  }

  lemma CutIsLongest(s: string)
    requires Clean(s)
    ensures IsCut(s, Cut(s)) && Cut(s) != ""
  {
    if |s| > MAX_NAME_PART {
      var t := s[..MAX_NAME_PART];
      assert Text.TrimLeft(IsDash, t) == t;
      Text.TrimRightEnds(IsDash, t);
      var b := Text.TrimRightSplits(IsDash, t);
      forall k | |Cut(s)| <= k < 40 ensures s[k] == '-' {
        assert s[k] == t[k] == b[k - |Cut(s)|];
      }
    }
  }

  /** Five passes, one sentence: lower-case, join the words by single dashes, and take the longest prefix of at most
      40 characters that does not end in a dash; without words it is "appliance". */
  lemma SanitizeMeetsSpecification(lower: char -> char, name: string)
    requires Folds(lower)
    ensures var slug := Slug(ToLower(lower, name));
            if slug == "" then Sanitize(lower, name) == "appliance" else IsCut(slug, Sanitize(lower, name))
  {
    var slug := Slug(ToLower(lower, name));
    SanitizeIsSlug(lower, name);
    if slug != "" {
      SlugIsClean(ToLower(lower, name));
      CutIsLongest(slug);
    }
  }

  lemma SanitizeIsSlug(lower: char -> char, name: string)
    requires Folds(lower)
    ensures Sanitize(lower, name) == OrDefault(Cut(Slug(ToLower(lower, name))))
  {
    var l := ToLower(lower, Text.TrimSpace(name));
    PassesMerge(l);
    MergedIsPaddedSlug(l);
    SlugIsClean(l);
    Text.TrimUnpads(IsDash, Lead(l), Slug(l), Tail(l));
    TrimSpaceRedundant(lower, name);
  }

  lemma CutIsClean(s: string)
    requires Clean(s)
    ensures Clean(Cut(s)) && |Cut(s)| <= 40
  {
    if |s| > MAX_NAME_PART {
      var t := s[..MAX_NAME_PART];
      assert Text.TrimLeft(IsDash, t) == t;
      Text.TrimRightEnds(IsDash, t);
    }
  }

  lemma SanitizeIsClean(lower: char -> char, name: string)
    requires Folds(lower)
    ensures Clean(Sanitize(lower, name)) && |Sanitize(lower, name)| <= 40
  {
    SanitizeIsSlug(lower, name);
    var s := Slug(ToLower(lower, name));
    SlugIsClean(ToLower(lower, name));
    if s != "" {
      CutIsClean(s);
    } else {
      DefaultIsClean();
    }
  }

  lemma DefaultIsClean()
    ensures Clean("appliance")
  {}

  lemma {:induction false} ReplaceRunsFixes(inClass: char -> bool, s: string)
    requires forall i :: 0 <= i < |s| && inClass(s[i]) ==> s[i] == '-' && (i + 1 < |s| ==> !inClass(s[i + 1]))
    ensures ReplaceRuns(inClass, s) == s
  {
    if s != "" {
      assert forall i :: 0 <= i < |s[1..]| ==> s[1..][i] == s[i + 1];
      ReplaceRunsFixes(inClass, s[1..]);
      assert [s[0]] + s[1..] == s;
    }
  }

  lemma CleanSurvivesPasses(lower: char -> char, s: string)
    requires Folds(lower) && Clean(s)
    ensures ToLower(lower, s) == s
    ensures ReplaceRuns(NonLabelChar, s) == s
    ensures ReplaceRuns(IsDash, s) == s
  {
    ReplaceRunsFixes(NonLabelChar, s);
    ReplaceRunsFixes(IsDash, s);
  }

  lemma CleanSurvivesTrims(s: string)
    requires Clean(s)
    ensures Text.TrimSpace(s) == s
    ensures Text.Trim(IsDash, s) == s
  {
    Text.TrimFixesTight(Text.IsSpace, s);
    Text.TrimFixesTight(IsDash, s);
  }

  lemma CleanIsFixed(lower: char -> char, s: string)
    requires Folds(lower) && Clean(s) && |s| <= MAX_NAME_PART
    ensures Sanitize(lower, s) == s
  {
    CleanSurvivesPasses(lower, s);
    CleanSurvivesTrims(s);
  }

  /** Sanitising is idempotent. */
  lemma SanitizeIdempotent(lower: char -> char, name: string)
    requires Folds(lower)
    ensures Sanitize(lower, Sanitize(lower, name)) == Sanitize(lower, name)
  {
    SanitizeIsClean(lower, name);
    CleanIsFixed(lower, Sanitize(lower, name));
  }

  /** Section 2.3.1 of RFC 1035 as relaxed by section 2.1 of RFC 1123. */
  predicate IsDnsLabel(s: string) {
    && 0 < |s| <= 63
    && (forall i :: 0 <= i < |s| ==> AlNum(s[i]) || IsDash(s[i]))
    && AlNum(s[0]) && AlNum(s[|s| - 1])
  }

  lemma CleanWithSuffix(s: string, suffix: string)
    requires Clean(s) && |s| <= 40
    requires |suffix| == 6 && forall i :: 0 <= i < |suffix| ==> AlNum(suffix[i])
    ensures IsDnsLabel(s + "-" + suffix) && |s + "-" + suffix| <= 47
  {
    var l := s + "-" + suffix;
    forall i | 0 <= i < |l| ensures AlNum(l[i]) || IsDash(l[i]) {
      if i < |s| {
        assert l[i] == s[i];
      } else if i > |s| {
        assert l[i] == suffix[i - |s| - 1];
      }
    }
    assert l[|l| - 1] == suffix[|suffix| - 1];
    assert l[0] == s[0] && !NonLabelChar(s[0]);
  }

  lemma LabelIsDnsSafe(lower: char -> char, name: string, suffix: string)
    requires Folds(lower) && Tokens.IsNonce(suffix) && |suffix| == 6
    ensures IsDnsLabel(GenerateLabel(lower, name, suffix))
    ensures |GenerateLabel(lower, name, suffix)| <= 47
  {
    SanitizeIsClean(lower, name);
    forall i | 0 <= i < |suffix| ensures AlNum(suffix[i]) {
      assert suffix[i] in suffix;
    }
    CleanWithSuffix(Sanitize(lower, name), suffix);
  }

  /** A label is the sanitised name, a dash and the suffix, in that order. */
  lemma LabelReads(lower: char -> char, name: string, suffix: string)
    ensures var l, s := GenerateLabel(lower, name, suffix), Sanitize(lower, name);
            |l| == |s| + 1 + |suffix| && l[..|s|] == s && l[|s|] == '-' && l[|s| + 1..] == suffix
  {}

  /** A hostname is the label, a dot and the base domain, in that order. */
  lemma HostnameReads(hostLabel: string, baseDomain: string)
    ensures var h := FullHostname(hostLabel, baseDomain);
            && |h| == |hostLabel| + 1 + |baseDomain|
            && h[..|hostLabel|] == hostLabel && h[|hostLabel|] == '.' && h[|hostLabel| + 1..] == baseDomain
  {}

  /** Under one base domain, the hostname determines the label. */
  lemma FullHostnameInjective(a: string, b: string, domain: string)
    requires FullHostname(a, domain) == FullHostname(b, domain)
    ensures a == b
  {
    var h := FullHostname(a, domain);
    assert h[..|h| - |domain| - 1] == a;
    assert h[..|h| - |domain| - 1] == b;
  }
}
