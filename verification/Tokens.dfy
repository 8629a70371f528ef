/** internal/tokens: bearer headers, generated secrets and configured token lists. */
module Tokens {
  import opened Wrappers
  import Text

  /** A SHA-256 digest, named by what was hashed: distinct inputs have distinct digests. */
  datatype Hash = Sha256(preimage: string)

  /** The hex rendering of freshly drawn random bytes. */
  predicate IsNonce(s: string) {
    s != "" && forall c :: c in s ==> '0' <= c <= '9' || 'a' <= c <= 'f'
  }

  function BearerToken(header: string): Option<string> {
    if "Bearer " <= header then Some(Text.TrimSpace(header[7..])) else None
  }

  predicate Blank(s: string) {
    Text.AllDrop(Text.IsSpace, s)
  }

  predicate Padded(s: string, a: string, x: string, b: string) {
    s == a + x + b && Blank(a) && Blank(b)
  }

  /** The header's scheme is "Bearer", and white space apart, x is all that follows. */
  ghost predicate Bears(header: string, x: string) {
    && (x != "" ==> !Text.IsSpace(x[0]) && !Text.IsSpace(x[|x| - 1]))
    && |header| >= 7 && header[..7] == "Bearer " && exists a, b :: Padded(header[7..], a, x, b)
  }

  /** BearerToken yields exactly what a header bears. */
  lemma BearerTokenIff(header: string, x: string)
    ensures BearerToken(header) == Some(x) <==> Bears(header, x)
  {
    if BearerToken(header) == Some(x) {
      Text.TrimIsTight(Text.IsSpace, header[7..]);
      var a, b := Text.TrimSplits(Text.IsSpace, header[7..]);
      assert a + (x + b) == a + x + b;
      assert Padded(header[7..], a, x, b);
    }
    if Bears(header, x) {
      var a, b :| Padded(header[7..], a, x, b);
      Text.TrimUnpads(Text.IsSpace, a, x, b);
    }
  }

  lemma NoBearerIff(header: string)
    ensures BearerToken(header) == None <==> !(|header| >= 7 && header[..7] == "Bearer ")
  {}

  /** chisel's "user:pass" value for one appliance. */
  function ApplianceSecret(id: int, nonce: string): string {
    "appliance-" + Text.Decimal(id) + ":" + nonce
  }

  // ---------- what a generated value says about its origin ----------

  function AfterColon(s: string): string {
    if s == "" then "" else if s[0] == ':' then s[1..] else AfterColon(s[1..])
  }

  /** The random part of a generated value: all of a token or code, the tail of a secret. */
  function NonceOf(s: string): string {
    if ':' in s then AfterColon(s) else s
  }

  lemma AfterColonSkips(a: string, b: string)
    requires ':' !in a
    ensures AfterColon(a + ":" + b) == b
  {
    if a == "" {
      assert a + ":" + b == ":" + b;
    } else {
      assert (a + ":" + b)[1..] == a[1..] + ":" + b;
      AfterColonSkips(a[1..], b);
    }
  }

  lemma NonceOfGenerated(id: int, nonce: string)
    requires IsNonce(nonce)
    ensures NonceOf(nonce) == nonce
    ensures NonceOf(ApplianceSecret(id, nonce)) == nonce
  {
    var a := "appliance-" + Text.Decimal(id);
    assert ApplianceSecret(id, nonce) == a + ":" + nonce;
    assert (a + ":" + nonce)[|a|] == ':';
    AfterColonSkips(a, nonce);
  }

  lemma SecretNamesAppliance(id: int, nonce: string)
    ensures |nonce| + 11 <= |ApplianceSecret(id, nonce)|
    ensures ApplianceSecret(id, nonce)[10..|ApplianceSecret(id, nonce)| - |nonce| - 1] == Text.Decimal(id)
  {
    var a, d := "appliance-", Text.Decimal(id);
    assert ApplianceSecret(id, nonce) == a + d + (":" + nonce);
    assert (a + d + (":" + nonce))[|a|..|a| + |d|] == d;
  }

  /** A secret reads: "appliance-", the appliance's id in decimal, a colon, the random part. */
  lemma ApplianceSecretReads(id: nat, nonce: string) returns (numeral: string)
    ensures Text.IsNumeral(numeral, id)
    ensures ApplianceSecret(id, nonce) == "appliance-" + numeral + ":" + nonce
  {
    numeral := Text.Decimal(id);
    Text.DecimalIsNumeral(id);
  }

  /** A secret names its appliance and its random part, and no other pair yields it. */
  lemma ApplianceSecretInjective(i: int, m: string, j: int, n: string)
    requires IsNonce(m) && IsNonce(n)
    requires ApplianceSecret(i, m) == ApplianceSecret(j, n)
    ensures i == j && m == n
  {
    hide ApplianceSecret;
    NonceOfGenerated(i, m);
    NonceOfGenerated(j, n);
    SecretNamesAppliance(i, m);
    SecretNamesAppliance(j, n);
    Text.DecimalInjective(i, j);
  }

  /** A token that trimming leaves alone travels unchanged through a Bearer header. */
  lemma BearerRoundTrip(token: string)
    requires Text.Tight(Text.IsSpace, token)
    ensures BearerToken("Bearer " + token) == Some(token)
  {
    var h := "Bearer " + token;
    assert h[7..] == token;
    assert "Bearer " <= h;
    Text.TrimFixesTight(Text.IsSpace, token);
  }

  /** In particular every secret handed to an appliance comes back as the same secret. */
  lemma SecretSurvivesHeader(id: int, nonce: string)
    requires IsNonce(nonce)
    ensures BearerToken("Bearer " + ApplianceSecret(id, nonce)) == Some(ApplianceSecret(id, nonce))
  {
    var s := ApplianceSecret(id, nonce);
    assert s[|s| - 1] == nonce[|nonce| - 1] && nonce[|nonce| - 1] in nonce;
    assert s[0] == 'a';
    BearerRoundTrip(s);
  }

  // ---------- configured token lists ----------

  /** strings.Split on a comma. */
  function Split(raw: string): seq<string> {
    SplitFrom("", raw)
  }

  /** Splitting with the characters of the current part already read. */
  function SplitFrom(part: string, raw: string): seq<string>
    decreases raw
  {
    if raw == "" then [part]
    else if raw[0] == ',' then [part] + SplitFrom("", raw[1..])
    else SplitFrom(part + [raw[0]], raw[1..])
  }

  /** The trimmed parts that are not empty, in order. */
  function Kept(parts: seq<string>): seq<string> {
    if parts == [] then []
    else
      var t := Text.TrimSpace(parts[0]);
      (if t == "" then [] else [t]) + Kept(parts[1..])
  }

  method ParseTokenList(raw: string) returns (out: seq<string>)
    ensures out == Kept(Split(raw))
  {
    out := [];
    var parts := Split(raw);
    for i := 0 to |parts|
      invariant out == Kept(parts[..i])
    {
      KeptNext(parts, i);
      var t := Text.TrimSpace(parts[i]);
      if t != "" {
        out := out + [t];
      }
    }
    assert parts[..|parts|] == parts;
  }

  lemma KeptNext(parts: seq<string>, i: nat)
    requires i < |parts|
    ensures Kept(parts[..i + 1]) ==
            Kept(parts[..i]) + if Text.TrimSpace(parts[i]) == "" then [] else [Text.TrimSpace(parts[i])]
  {
    assert parts[..i + 1] == parts[..i] + [parts[i]];
    KeptAppends(parts[..i], [parts[i]]);
  }

  method CheckServiceTokens(valid: seq<string>, header: string) returns (ok: bool)
    ensures ok <==> exists x :: Bears(header, x) && x in valid
  {
    var provided := BearerToken(header);
    BearsAtMostOne(header);
    if provided.None? {
      return false;
    }
    for i := 0 to |valid|
      invariant forall k :: 0 <= k < i ==> valid[k] != provided.value
    {
      if provided.value == valid[i] {
        return true;
      }
    }
    return false;
  }

  lemma BearsAtMostOne(header: string)
    ensures forall x :: Bears(header, x) <==> BearerToken(header) == Some(x)
  {
    forall x ensures Bears(header, x) <==> BearerToken(header) == Some(x) {
      BearerTokenIff(header, x);
    }
  }

  /** The value is a part of the raw list, white space apart, and not empty. */
  ghost predicate Lists(raw: string, x: string) {
    x != "" && exists part :: part in Split(raw) && Text.TrimSpace(part) == x
  }

  /** The header a list accepts, said without the list. */
  ghost predicate Accepts(raw: string, header: string) {
    exists x :: Bears(header, x) && Lists(raw, x)
  }

  lemma KeptAppends(a: seq<string>, b: seq<string>)
    ensures Kept(a + b) == Kept(a) + Kept(b)
  {
    if a == [] {
      assert a + b == b;
    } else {
      assert (a + b)[1..] == a[1..] + b;
      KeptAppends(a[1..], b);
    }
  }

  lemma {:induction false} SplitFromAtComma(part: string, a: string, b: string)
    ensures SplitFrom(part, a + "," + b) == SplitFrom(part, a) + Split(b)
    decreases a
  {
    var s := a + "," + b;
    if a == "" {
      assert s[1..] == b;
    } else {
      assert s[1..] == a[1..] + "," + b;
      if a[0] == ',' {
        SplitFromAtComma("", a[1..], b);
      } else {
        SplitFromAtComma(part + [a[0]], a[1..], b);
      }
    }
  }

  lemma SplitAtComma(a: string, b: string)
    ensures Split(a + "," + b) == Split(a) + Split(b)
  {
    SplitFromAtComma("", a, b);
  }

  /** Rotation support: joining two configured lists with a comma joins what they accept. */
  lemma ParseOfJoined(a: string, b: string)
    ensures Kept(Split(a + "," + b)) == Kept(Split(a)) + Kept(Split(b))
  {
    SplitAtComma(a, b);
    KeptAppends(Split(a), Split(b));
  }

  lemma KeptMembers(parts: seq<string>, t: string)
    ensures t in Kept(parts) <==> t != "" && exists p :: p in parts && Text.TrimSpace(p) == t
  {
    if parts != [] {
      KeptMembers(parts[1..], t);
      assert parts == [parts[0]] + parts[1..];
    }
  }

  lemma ListAcceptsExactly(raw: string, header: string)
    ensures Accepts(raw, header) <==> exists x :: Bears(header, x) && x in Kept(Split(raw))
  {
    forall x ensures Lists(raw, x) <==> x in Kept(Split(raw)) {
      KeptMembers(Split(raw), x);
    }
  }

  /** Adding a value on either side of a comma never invalidates one already there. */
  lemma AppendingKeepsTokens(raw: string, extra: string, header: string)
    ensures Accepts(raw + "," + extra, header) <==> Accepts(raw, header) || Accepts(extra, header)
  {
    SplitAtComma(raw, extra);
    assert forall x :: Lists(raw + "," + extra, x) <==> Lists(raw, x) || Lists(extra, x);
  }

  predicate CleanToken(t: string) {
    t != "" && ',' !in t && Text.Tight(Text.IsSpace, t)
  }

  function JoinTokens(ts: seq<string>): string {
    if ts == [] then "" else if |ts| == 1 then ts[0] else ts[0] + "," + JoinTokens(ts[1..])
  }

  lemma {:induction false} SplitWithoutComma(part: string, s: string)
    requires ',' !in s
    ensures SplitFrom(part, s) == [part + s]
    decreases s
  {
    if s == "" {
      assert part + s == part;
    } else {
      SplitWithoutComma(part + [s[0]], s[1..]);
      assert part + [s[0]] + s[1..] == part + s;
    }
  }

  lemma CleanTokenParses(t: string)
    requires CleanToken(t)
    ensures Kept(Split(t)) == [t]
  {
    Text.TrimFixesTight(Text.IsSpace, t);
    SplitWithoutComma("", t);
    assert "" + t == t;
  }

  lemma JoinedParses(t: string, rest: string)
    requires CleanToken(t)
    ensures Kept(Split(t + "," + rest)) == [t] + Kept(Split(rest))
  {
    CleanTokenParses(t);
    ParseOfJoined(t, rest);
  }

  lemma EmptyParses()
    ensures Kept(Split("")) == []
  {
    assert Split("") == [""];
    assert Text.TrimSpace("") == "";
  }

  predicate AllClean(ts: seq<string>) {
    forall i :: 0 <= i < |ts| ==> CleanToken(ts[i])
  }

  /** Writing clean tokens out and parsing them back is the identity. */
  lemma {:induction false} ParseInvertsJoin(ts: seq<string>)
    requires AllClean(ts)
    ensures Kept(Split(JoinTokens(ts))) == ts
  {
    if ts == [] {
      EmptyParses();
    } else if |ts| == 1 {
      CleanTokenParses(ts[0]);
    } else {
      var rest := ts[1..];
      ParseInvertsJoin(rest);
      JoinedParses(ts[0], JoinTokens(rest));
      assert ts == [ts[0]] + rest;
    }
  }
}
