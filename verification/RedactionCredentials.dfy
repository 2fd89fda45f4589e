/**
 * The credentials as they are written: prefixes, character ranges, labels and dashes are spelled out in
 * the statements, so that what the stages take for a credential is said here once more, independently.
 */
module RedactionCredentials {
  import opened Text
  import opened Redaction
  import opened RedactionProofs
  import opened RedactionTokens
  import opened RedactionTheorems
  import opened RedactionSecrets

  // ---------------------------------------------------------------- prefixed tokens

  lemma PrefixIndex(p: string) returns (k: nat)
    requires p in {"github_pat_", "ghp_", "gho_", "ghu_", "ghs_", "xoxb-", "xoxp-", "sk-"}
    ensures k < |TOKEN_PREFIXES| && TOKEN_PREFIXES[k] == p
  {
    k := if p == "github_pat_" then 0 else if p == "ghp_" then 1 else if p == "gho_" then 2 else if p == "ghu_" then 3
         else if p == "ghs_" then 4 else if p == "xoxb-" then 5 else if p == "xoxp-" then 6 else 7;
  }

  /** A prefix and twelve or more letters, digits, `_`, `-` or `.` are in no output. */
  lemma PrefixedTokenAbsent(p: string, b: string, text: string, secrets: seq<string>, r: string)
    requires ValidReplacement(r) && NonEmpty(secrets)
    requires p in {"github_pat_", "ghp_", "gho_", "ghu_", "ghs_", "xoxb-", "xoxp-", "sk-"}
    requires |b| >= 12 && forall i :: 0 <= i < |b| ==>
               '0' <= b[i] <= '9' || 'a' <= b[i] <= 'z' || 'A' <= b[i] <= 'Z' || b[i] in {'_', '-', '.'}
    ensures Absent(Redacted(text, secrets, r), p + b)
  {
    hide Redacted, TOKEN_PREFIXES, Absent;
    var k := PrefixIndex(p);
    TokenPrefixShape(k);
    TokenHere(p, b);
    TokenAbsent(p + b, text, secrets, r);
  }

  lemma TokenHere(p: string, b: string)
    requires PrefixShape(p) && |b| >= 12 && AllTokenChars(b, 0, |b|)
    ensures TokenAt(p + b, 0, p) && !TokenFree(p + b, p)
  {
    forall j | 0 <= j < |p + b| ensures IsTokenChar((p + b)[j]) {
      if j < |p| {
        assert p[j] in p;
      }
    }
    assert TokenAt(p + b, 0, p);
  }

  /** No prefix occurs inside another, or across its end. */
  lemma PrefixesApart(p: nat, q: nat, b: string, o: nat)
    requires p < |TOKEN_PREFIXES| && q < |TOKEN_PREFIXES| && o < |TOKEN_PREFIXES[p]| && (o > 0 || p != q)
    ensures !MatchAt(TOKEN_PREFIXES[p] + b, o, TOKEN_PREFIXES[q])
  {
    var s, t := TOKEN_PREFIXES[p], TOKEN_PREFIXES[q];
    if MatchAt(s + b, o, t) {
      MatchChar(s + b, o, t, 0);
      MatchChar(s + b, o, t, 1);
      if o == 0 {
        MatchChar(s + b, o, t, 2);
        MatchChar(s + b, o, t, |t| - 2);
      }
    }
  }

  ghost predicate EndsOutsideRun(text: string) {
    text == "" || !IsTokenChar(text[|text| - 1])
  }

  /** A run lies between its neighbours. */
  lemma RunWithin(u: string, m: string, v: string, lo: nat, hi: nat)
    requires EndsOutsideRun(u) && StartsOutsideRun(v) && lo < hi && AllTokenChars(u + m + v, lo, hi)
    ensures hi <= |u| || (|u| <= lo && hi <= |u| + |m|) || |u| + |m| <= lo
  {
    var text := u + m + v;
    assert |u| > 0 ==> text[|u| - 1] == u[|u| - 1];
    assert |v| > 0 ==> text[|u| + |m|] == v[0];
  }

  /** Around the first run of `m`, there is no credential but at its start, and that of its own kind. */
  lemma OtherKindsFree(u: string, p: nat, b: string, v: string, q: nat)
    requires p < |TOKEN_PREFIXES| && q < |TOKEN_PREFIXES| && p != q
    requires EndsOutsideRun(u) && StartsOutsideRun(v)
    requires TokenFree(u, TOKEN_PREFIXES[q]) && TokenFree(b, TOKEN_PREFIXES[q]) && TokenFree(v, TOKEN_PREFIXES[q])
    ensures TokenFree(u + (TOKEN_PREFIXES[p] + b) + v, TOKEN_PREFIXES[q])
  {
    hide TOKEN_PREFIXES;
    var s, t := TOKEN_PREFIXES[p], TOKEN_PREFIXES[q];
    var m := s + b;
    var text := u + m + v;
    var length := |t| + MIN_TOKEN_BODY;
    forall i ensures !TokenAt(text, i, t) {
      if i < 0 || i + length > |text| {
      } else if i + length <= |u| {
        TokenAtMiddle("", u, m + v, i, t);
        assert "" + u + (m + v) == text;
      } else if i >= |u| + |m| {
        TokenAtMiddle(u + m, v, "", i - |u| - |m|, t);
        assert (u + m) + v + "" == text;
      } else if |u| <= i && i + length <= |u| + |m| {
        TokenAtMiddle(u, m, v, i - |u|, t);
        TokenInBody(p, q, b, i - |u|);
      } else if AllTokenChars(text, i, i + length) {
        RunWithin(u, m, v, i, i + length);
      }
    }
  }

  lemma TokenInBody(p: nat, q: nat, b: string, o: nat)
    requires p < |TOKEN_PREFIXES| && q < |TOKEN_PREFIXES| && p != q && TokenFree(b, TOKEN_PREFIXES[q])
    ensures !TokenAt(TOKEN_PREFIXES[p] + b, o, TOKEN_PREFIXES[q])
  {
    hide TOKEN_PREFIXES;
    var s, t := TOKEN_PREFIXES[p], TOKEN_PREFIXES[q];
    if o < |s| {
      PrefixesApart(p, q, b, o);
    } else if o + |t| + MIN_TOKEN_BODY <= |s + b| {
      TokenAtMiddle(s, b, "", o - |s|, t);
      assert s + b + "" == s + b;
    }
  }

  /** The stage of its own prefix passes over what is before the credential, and cuts it out whole. */
  lemma {:induction false} CutsWholeToken(u: string, m: string, v: string, from: nat, p: string)
    requires PrefixShape(p) && from <= |u| && EndsOutsideRun(u) && StartsOutsideRun(v) && TokenFree(u, p)
    requires MatchAt(m, 0, p) && AllTokenChars(m, 0, |m|) && |m| >= |p| + MIN_TOKEN_BODY
    ensures TokenCuts(u + m + v, from, p) == Cut(u, m, TokenCuts(v, 0, p))
    decreases |u| - from
  {
    hide Find, RunEnd, TokenCuts, MatchAt;
    var text := u + m + v;
    FindFirst(text, p, from);
    MatchInMiddle(u, m, v, 0, p);
    var i := Find(text, p, from).value;
    TokenCutsUnfold(text, from, p);
    if i < |u| {
      assert u + (m + v) == text;
      ShortOfRun(u, m + v, i, p);
      CutsWholeToken(u, m, v, i + |p|, p);
    } else {
      RunOfMiddle(u, m, v);
      assert text[..|u|] == u && text[|u|..|u| + |m|] == m && text[|u| + |m|..] == v;
    }
  }

  lemma RunOfMiddle(u: string, m: string, v: string)
    requires AllTokenChars(m, 0, |m|) && StartsOutsideRun(v)
    ensures RunEnd(u + m + v, |u|) == |u| + |m|
  {
    var text, n := u + m + v, |u| + |m|;
    forall j | |u| <= j < n ensures IsTokenChar(text[j]) {
      assert text[j] == m[j - |u|];
    }
    assert |v| > 0 ==> text[n] == v[0];
    RunEndExact(text, |u|, n);
  }

  /** An occurrence of the prefix before the end of `u` is in a run too short. */
  lemma ShortOfRun(u: string, w: string, i: nat, p: string)
    requires PrefixShape(p) && EndsOutsideRun(u) && i < |u| && TokenFree(u, p) && MatchAt(u + w, i, p)
    ensures i + |p| <= |u| && RunEnd(u + w, i) < i + |p| + MIN_TOKEN_BODY
  {
    hide RunEnd;
    var text := u + w;
    RunEndIs(text, i);
    MatchedChars(text, i, p);
    assert text[|u| - 1] == u[|u| - 1];
    if i + |p| + MIN_TOKEN_BODY <= |u| {
      assert "" + u + w == text;
      TokenAtMiddle("", u, w, i, p);
      assert !TokenAt(text, i, p);
    }
  }

  lemma MatchedChars(text: string, i: nat, p: string)
    requires PrefixShape(p) && MatchAt(text, i, p)
    ensures AllTokenChars(text, i, i + |p|)
  {
    forall j | i <= j < i + |p| ensures IsTokenChar(text[j]) {
      assert text[i + (j - i)] == p[j - i] && p[j - i] in p;
    }
  }

  lemma {:induction false} PrefixStageCutsOne(u: string, m: string, v: string, prefixes: seq<string>, r: string, k: nat)
    requires AllPrefixShape(prefixes) && k < |prefixes|
    requires forall j :: 0 <= j < k ==> TokenFree(u + m + v, prefixes[j])
    requires forall j :: k < j < |prefixes| ==> TokenFree(u + r + v, prefixes[j])
    requires TokenCuts(u + m + v, 0, prefixes[k]) == Cut(u, m, TokenCuts(v, 0, prefixes[k]))
    requires TokenFree(v, prefixes[k])
    ensures PrefixStage(u + m + v, prefixes, r) == u + r + v
    decreases |prefixes|
  {
    hide TokenCuts, TokenFree, PrefixShape;
    PrefixShapeNonEmpty(prefixes);
    var rest := prefixes[1..];
    assert forall j :: 0 <= j < |rest| ==> rest[j] == prefixes[j + 1];
    if k == 0 {
      TokenUnchanged(v, 0, prefixes[0], r);
      PrefixStageUnchanged(u + r + v, rest, r);
    } else {
      TokenUnchanged(u + m + v, 0, prefixes[0], r);
      PrefixStageCutsOne(u, m, v, rest, r, k - 1);
    }
  }

  lemma PrefixShapeNonEmpty(prefixes: seq<string>)
    requires AllPrefixShape(prefixes)
    ensures NonEmpty(prefixes)
  {
  }

  lemma TokenStageCutsOne(u: string, k: nat, b: string, v: string, r: string)
    requires ValidReplacement(r) && k < |TOKEN_PREFIXES| && AllTokenChars(b, 0, |b|) && |b| >= MIN_TOKEN_BODY
    requires EndsOutsideRun(u) && StartsOutsideRun(v) && AllTokenFree(u) && AllTokenFree(b) && AllTokenFree(v)
    ensures PrefixStage(u + (TOKEN_PREFIXES[k] + b) + v, TOKEN_PREFIXES, r) == u + r + v
  {
    hide TOKEN_PREFIXES, TokenFree, TokenCuts, PrefixStage, PrefixShape, IsTokenChar;
    var p := TOKEN_PREFIXES[k];
    var m := p + b;
    TokenPrefixShapes();
    forall j | 0 <= j < k ensures TokenFree(u + m + v, TOKEN_PREFIXES[j]) {
      OtherKindsFree(u, k, b, v, j);
    }
    forall j | k < j < |TOKEN_PREFIXES| ensures TokenFree(u + r + v, TOKEN_PREFIXES[j]) {
      TokenFreeJoin(u, r, v, TOKEN_PREFIXES[j]);
    }
    PrefixedChars(p, b);
    CutsWholeToken(u, m, v, 0, p);
    PrefixStageCutsOne(u, m, v, TOKEN_PREFIXES, r, k);
  }

  lemma PrefixedChars(p: string, b: string)
    requires PrefixShape(p) && AllTokenChars(b, 0, |b|)
    ensures MatchAt(p + b, 0, p) && AllTokenChars(p + b, 0, |p + b|)
  {
    forall j | 0 <= j < |p + b| ensures IsTokenChar((p + b)[j]) {
      if j < |p| {
        assert p[j] in p;
      }
    }
  }

  /** Between texts without a credential, such a run is replaced as one, by either replacement. */
  lemma PrefixedTokenReplaced(u: string, p: string, b: string, v: string, secrets: seq<string>, r: string)
    requires ValidReplacement(r) && NonEmpty(secrets)
    requires p in {"github_pat_", "ghp_", "gho_", "ghu_", "ghs_", "xoxb-", "xoxp-", "sk-"}
    requires |b| >= 12 && forall i :: 0 <= i < |b| ==>
               '0' <= b[i] <= '9' || 'a' <= b[i] <= 'z' || 'A' <= b[i] <= 'Z' || b[i] in {'_', '-', '.'}
    requires u == "" || var c := u[|u| - 1];
               !('0' <= c <= '9' || 'a' <= c <= 'z' || 'A' <= c <= 'Z' || c in {'_', '-', '.'})
    requires v == "" || var c := v[0];
               !('0' <= c <= '9' || 'a' <= c <= 'z' || 'A' <= c <= 'Z' || c in {'_', '-', '.'})
    requires AllTokenFree(u) && AllTokenFree(b) && AllTokenFree(v)
    requires var text := u + (p + b) + v;
             SecretFree(text, secrets) && HeaderFree(text) && Absent(Lower(text), "bearer ")
    ensures Redacted(u + (p + b) + v, secrets, r) == u + r + v
  {
    hide TOKEN_PREFIXES, PRIVATE_KEY_LABELS, PemStage, SecretStage, PrefixStage, TokenFree, HeaderFree, SecretFree,
      Absent;
    var k := PrefixIndex(p);
    var text := u + (p + b) + v;
    SecretStageUnchanged(text, secrets, r);
    HeaderFreeUnchanged(text, r);
    NoBearerUnchanged(text, r);
    TokenStageCutsOne(u, k, b, v, r);
  }

  lemma NoBearerUnchanged(text: string, r: string)
    requires Absent(Lower(text), "bearer ")
    ensures BearerCuts(text, 0).Output(r) == text
  {
    FindFirst(Lower(text), BEARER, 0);
  }

  // ---------------------------------------------------------------- private keys

  /** A block goes up to the end of the first footer after its header, whatever is in between. */
  lemma ClosedBlockCut(text: string, start: nat, footer: nat, kind: string, r: string)
    requires ValidReplacement(r) && start <= footer
    requires var header := "-----BEGIN " + kind + "-----";
             MatchAt(text, start, header) && forall i :: 0 <= i < start ==> !MatchAt(text, i, header)
    requires var end := "-----END " + kind + "-----";
             MatchAt(text, footer, end) && forall i :: start <= i < footer ==> !MatchAt(text, i, end)
    ensures WithoutBlocks(text, kind, r) == WithoutBlocks(text[..start] + r + text[footer + 14 + |kind|..], kind, r)
  {
    hide Find, MatchAt, WithoutBlocks;
    FindFirst(text, Begin(kind), 0);
    FindFirst(text, End(kind), start);
    assert |End(kind)| == 14 + |kind|;
    BlocksStep(text, kind, start, r);
  }

  /** Without a footer it goes up to the end of the text: nothing after the header is left. */
  lemma UnclosedBlockCut(text: string, start: nat, kind: string, r: string)
    requires ValidReplacement(r)
    requires var header := "-----BEGIN " + kind + "-----";
             MatchAt(text, start, header) && forall i :: 0 <= i < start ==> !MatchAt(text, i, header)
    requires var end := "-----END " + kind + "-----"; forall i :: start <= i ==> !MatchAt(text, i, end)
    ensures WithoutBlocks(text, kind, r) == text[..start] + r
  {
    hide Find, MatchAt, WithoutBlocks;
    FindFirst(text, Begin(kind), 0);
    FindFirst(text, End(kind), start);
    BlocksStep(text, kind, start, r);
    assert text[..start] + r + text[|text|..] == text[..start] + r;
    HeaderCutBefore(text, start, kind, r);
    FindFirst(text[..start] + r, Begin(kind), 0);
    BlocksDone(text[..start] + r, kind, r);
  }

  lemma BlocksStep(text: string, kind: string, start: nat, r: string)
    requires ValidReplacement(r) && Find(text, Begin(kind), 0) == Some(start)
    ensures WithoutBlocks(text, kind, r) == WithoutBlocks(Splice(text, start, BlockEnd(text, kind, start), r), kind, r)
  {
  }

  lemma BlocksDone(text: string, kind: string, r: string)
    requires ValidReplacement(r) && Find(text, Begin(kind), 0).None?
    ensures WithoutBlocks(text, kind, r) == text
  {
  }

  /** A header ends in a dash, so the replacement does not complete one. */
  lemma HeaderCutBefore(text: string, start: nat, kind: string, r: string)
    requires ValidReplacement(r) && start <= |text|
    requires forall i :: 0 <= i < start ==> !MatchAt(text, i, Begin(kind))
    ensures Absent(text[..start] + r, Begin(kind))
  {
    var header, out := Begin(kind), text[..start] + r;
    var last := |header| - 1;
    forall i ensures !MatchAt(out, i, header) {
      if 0 <= i && i + |header| <= start {
        MatchInMiddle("", text[..start], text[start..], i, header);
        assert "" + text[..start] + text[start..] == text;
        MatchInMiddle("", text[..start], r, i, header);
        assert "" + text[..start] + r == out;
      } else if 0 <= i && i + |header| <= |out| {
        assert header[last] == '-' && out[i + last] == r[i + last - start] && '-' !in r;
      }
    }
  }

  const KEY_KINDS := {
    "PRIVATE KEY", "RSA PRIVATE KEY", "EC PRIVATE KEY", "OPENSSH PRIVATE KEY", "ENCRYPTED PRIVATE KEY"
  }

  /** The only private key header in the text is that of `kind`, at `at`. */
  ghost predicate OnlyHeader(text: string, at: nat, kind: string) {
    forall other, i | other in KEY_KINDS ::
      MatchAt(text, i, "-----BEGIN " + other + "-----") ==> i == at && other == kind
  }

  lemma LabelIndex(kind: string) returns (k: nat)
    requires kind in KEY_KINDS
    ensures k < |PRIVATE_KEY_LABELS| && PRIVATE_KEY_LABELS[k] == kind
  {
    k := if kind == "PRIVATE KEY" then 0 else if kind == "RSA PRIVATE KEY" then 1
         else if kind == "EC PRIVATE KEY" then 2 else if kind == "OPENSSH PRIVATE KEY" then 3 else 4;
  }

  lemma LabelKnown(k: nat)
    requires k < |PRIVATE_KEY_LABELS|
    ensures PRIVATE_KEY_LABELS[k] in KEY_KINDS
    ensures forall j :: 0 <= j < |PRIVATE_KEY_LABELS| && j != k ==> PRIVATE_KEY_LABELS[j] != PRIVATE_KEY_LABELS[k]
  {
  }

  lemma {:induction false} PemStageCutsOne(text: string, out: string, kinds: seq<string>, r: string, k: nat)
    requires ValidReplacement(r) && k < |kinds| && WithoutBlocks(text, kinds[k], r) == out
    requires forall j :: 0 <= j < k ==> Absent(text, Begin(kinds[j]))
    requires forall j :: k < j < |kinds| ==> Absent(out, Begin(kinds[j]))
    ensures PemStage(text, kinds, r) == out
    decreases |kinds|
  {
    hide Absent, WithoutBlocks, Begin;
    var rest := kinds[1..];
    assert forall j :: 0 <= j < |rest| ==> rest[j] == kinds[j + 1];
    if k == 0 {
      PemStageUnchanged(out, rest, r);
    } else {
      FindFirst(text, Begin(kinds[0]), 0);
      HeaderAbsentDone(text, kinds[0], r);
      PemStageCutsOne(text, out, rest, r, k - 1);
    }
  }

  lemma HeaderAbsentDone(text: string, kind: string, r: string)
    requires ValidReplacement(r) && Absent(text, Begin(kind))
    ensures WithoutBlocks(text, kind, r) == text
  {
    FindFirst(text, Begin(kind), 0);
  }

  /** With its only header dealt with, the text is redacted as what is left of it. */
  lemma KeyReplaced(text: string, at: nat, kind: string, out: string, secrets: seq<string>, r: string)
    requires ValidReplacement(r) && NonEmpty(secrets) && OnlyHeader(text, at, kind)
    requires kind in KEY_KINDS
    requires WithoutBlocks(text, kind, r) == out && HeaderFree(out) && SecretFree(text, secrets)
    requires SecretFree(out, secrets)
    ensures Redacted(text, secrets, r) == Redacted(out, secrets, r)
  {
    hide PRIVATE_KEY_LABELS, TOKEN_PREFIXES, WithoutBlocks, PemStage, SecretStage, BearerCuts, PrefixStage, MatchAt,
      SecretFree;
    var k := LabelIndex(kind);
    LabelKnown(k);
    forall j | 0 <= j < |PRIVATE_KEY_LABELS| && j != k ensures Absent(text, Begin(PRIVATE_KEY_LABELS[j])) {
      LabelKnown(j);
      forall i ensures !MatchAt(text, i, Begin(PRIVATE_KEY_LABELS[j])) {
      }
    }
    SecretStageUnchanged(text, secrets, r);
    SecretStageUnchanged(out, secrets, r);
    PemStageCutsOne(text, out, PRIVATE_KEY_LABELS, r, k);
    HeaderFreeUnchanged(out, r);
  }

  /** A private key between header and footer is replaced with them, whatever it holds. */
  lemma PrivateKeyReplaced(k: string, kind: string, body: string, v: string, text: string, secrets: seq<string>,
                           r: string)
    requires ValidReplacement(r) && NonEmpty(secrets) && kind in KEY_KINDS
    requires text == k + ("-----BEGIN " + kind + "-----") + body + ("-----END " + kind + "-----") + v
    requires OnlyHeader(text, |k|, kind)
    requires forall i :: |k| <= i < |k| + 16 + |kind| + |body| ==> !MatchAt(text, i, "-----END " + kind + "-----")
    requires SecretFree(text, secrets) && SecretFree(k + r + v, secrets) && HeaderFree(k + r + v)
    ensures Redacted(text, secrets, r) == Redacted(k + r + v, secrets, r)
  {
    hide Redacted, WithoutBlocks, SecretFree, HeaderFree, MatchAt, OnlyHeader, KEY_KINDS;
    var header, end := "-----BEGIN " + kind + "-----", "-----END " + kind + "-----";
    var front := k + header + body;
    assert text == k + header + (body + end + v);
    FirstHeaderAt(k, header, body + end + v, text, kind);
    MatchesItself(end);
    MatchInMiddle(front, end, v, 0, end);
    ClosedBlockCut(text, |k|, |front|, kind, r);
    assert text[..|k|] == k && text[|front| + 14 + |kind|..] == v;
    HeaderFreeDone(k + r + v, kind, r);
    KeyReplaced(text, |k|, kind, k + r + v, secrets, r);
  }

  /** A private key that is cut short is replaced from its header to the end of the text. */
  lemma TruncatedKeyReplaced(k: string, kind: string, body: string, text: string, secrets: seq<string>, r: string)
    requires ValidReplacement(r) && NonEmpty(secrets) && kind in KEY_KINDS
    requires text == k + ("-----BEGIN " + kind + "-----") + body && OnlyHeader(text, |k|, kind)
    requires forall i :: |k| <= i ==> !MatchAt(text, i, "-----END " + kind + "-----")
    requires SecretFree(text, secrets) && SecretFree(k + r, secrets) && HeaderFree(k + r)
    ensures Redacted(text, secrets, r) == Redacted(k + r, secrets, r)
  {
    hide Redacted, WithoutBlocks, SecretFree, HeaderFree, MatchAt, OnlyHeader, KEY_KINDS;
    FirstHeaderAt(k, "-----BEGIN " + kind + "-----", body, text, kind);
    UnclosedBlockCut(text, |k|, kind, r);
    assert text[..|k|] == k;
    KeyReplaced(text, |k|, kind, k + r, secrets, r);
  }

  lemma FirstHeaderAt(k: string, header: string, rest: string, text: string, kind: string)
    requires text == k + header + rest && header == "-----BEGIN " + kind + "-----" && OnlyHeader(text, |k|, kind)
    requires kind in KEY_KINDS
    ensures MatchAt(text, |k|, header) && forall i :: 0 <= i < |k| ==> !MatchAt(text, i, header)
  {
    MatchInMiddle(k, header, rest, 0, header);
  }

  lemma HeaderFreeDone(text: string, kind: string, r: string)
    requires ValidReplacement(r) && HeaderFree(text)
    requires kind in KEY_KINDS
    ensures WithoutBlocks(text, kind, r) == text
  {
    hide WithoutBlocks, PRIVATE_KEY_LABELS;
    var k := LabelIndex(kind);
    assert Absent(text, Begin(PRIVATE_KEY_LABELS[k]));
    HeaderAbsentDone(text, kind, r);
  }

  // ---------------------------------------------------------------- bearer tokens

  /** The White_Space property of the Unicode Character Database, by code point. */
  const WHITE_SPACE: set<int> := {
    0x09, 0x0A, 0x0B, 0x0C, 0x0D, 0x20, 0x85, 0xA0, 0x1680, 0x2000, 0x2001, 0x2002, 0x2003, 0x2004, 0x2005, 0x2006,
    0x2007, 0x2008, 0x2009, 0x200A, 0x2028, 0x2029, 0x202F, 0x205F, 0x3000
  }

  lemma WhitespaceIs(c: char)
    ensures IsWhitespace(c) <==> c as int in WHITE_SPACE
  {
  }

  /** The word `bearer` in letters of either case, and a space. */
  predicate SpellsBearer(text: string, i: int) {
    && 0 <= i && i + 7 <= |text|
    && text[i] in {'b', 'B'} && text[i + 1] in {'e', 'E'} && text[i + 2] in {'a', 'A'} && text[i + 3] in {'r', 'R'}
    && text[i + 4] in {'e', 'E'} && text[i + 5] in {'r', 'R'} && text[i + 6] == ' '
  }

  lemma LowerCharIs(c: char)
    ensures LowerChar(c) == 'b' <==> c in {'b', 'B'}
    ensures LowerChar(c) == 'e' <==> c in {'e', 'E'}
    ensures LowerChar(c) == 'a' <==> c in {'a', 'A'}
    ensures LowerChar(c) == 'r' <==> c in {'r', 'R'}
    ensures LowerChar(c) == ' ' <==> c == ' '
  {
  }

  lemma BearerIsSpelled(text: string, i: int)
    ensures BearerAt(text, i) <==> SpellsBearer(text, i)
  {
    hide LowerChar;
    if 0 <= i && i + 7 <= |text| {
      assert BEARER == ['b', 'e', 'a', 'r', 'e', 'r', ' '];
      LowerCharIs(text[i]);
      LowerCharIs(text[i + 1]);
      LowerCharIs(text[i + 2]);
      LowerCharIs(text[i + 3]);
      LowerCharIs(text[i + 4]);
      LowerCharIs(text[i + 5]);
      LowerCharIs(text[i + 6]);
      if SpellsBearer(text, i) {
        assert forall j :: 0 <= j < 7 ==> Lower(text)[i + j] == BEARER[j];
      } else if BearerAt(text, i) {
        MatchChar(Lower(text), i, BEARER, 0);
        MatchChar(Lower(text), i, BEARER, 1);
        MatchChar(Lower(text), i, BEARER, 2);
        MatchChar(Lower(text), i, BEARER, 3);
        MatchChar(Lower(text), i, BEARER, 4);
        MatchChar(Lower(text), i, BEARER, 5);
        MatchChar(Lower(text), i, BEARER, 6);
      }
    }
  }

  /** The word after it is replaced, up to the next white space and no further. */
  lemma BearerWordReplaced(u: string, x: string, w: string, v: string, r: string)
    requires |x| == 7 && SpellsBearer(x, 0) && forall i :: !SpellsBearer(u, i)
    requires w != "" && forall i :: 0 <= i < |w| ==> w[i] as int !in WHITE_SPACE
    requires v == "" || v[0] as int in WHITE_SPACE
    ensures BearerCuts(u + x + w + v, 0).Output(r) == u + x + r + BearerCuts(v, 0).Output(r)
  {
    hide Find, WordEnd, BearerCuts, IsWhitespace, SpellsBearer, WHITE_SPACE;
    var text, start := u + x + w + v, |u| + 7;
    BearerFirstAt(u, x, w + v);
    assert u + x + (w + v) == text;
    assert forall i :: 0 <= i < |w| ==> text[start + i] == w[i];
    forall i | start <= i < start + |w| ensures !IsWhitespace(text[i]) {
      WhitespaceIs(w[i - start]);
    }
    if v != "" {
      WhitespaceIs(v[0]);
      assert text[start + |w|] == v[0];
    }
    WordEndExact(text, start, start + |w|);
    BearerCutsUnfold(text, 0);
    assert text[..start] == u + x && text[start..start + |w|] == w && text[start + |w|..] == v;
  }

  lemma {:induction false} WordEndExact(text: string, from: nat, n: nat)
    requires from <= n <= |text| && forall i :: from <= i < n ==> !IsWhitespace(text[i])
    requires n == |text| || IsWhitespace(text[n])
    ensures WordEnd(text, from) == n
    decreases n - from
  {
    hide IsWhitespace;
    if from < n {
      WordEndExact(text, from + 1, n);
    }
  }

  lemma BearerFirstAt(u: string, x: string, w: string)
    requires |x| == 7 && SpellsBearer(x, 0) && forall i :: !SpellsBearer(u, i)
    ensures Find(Lower(u + x + w), BEARER, 0) == Some(|u|)
  {
    hide Find, Lower, MatchAt;
    var text := u + x + w;
    FindFirst(Lower(text), BEARER, 0);
    forall i | 0 <= i <= |u| ensures MatchAt(Lower(text), i, BEARER) <==> i == |u| {
      BearerIsSpelled(text, i);
      SpelledAt(u, x, w, i);
    }
    assert MatchAt(Lower(text), |u|, BEARER);
  }

  lemma SpelledAt(u: string, x: string, w: string, i: nat)
    requires |x| == 7 && SpellsBearer(x, 0) && i <= |u| && forall j :: !SpellsBearer(u, j)
    ensures SpellsBearer(u + x + w, i) <==> i == |u|
  {
    var text := u + x + w;
    assert forall j :: 0 <= j < 7 ==> text[|u| + j] == x[j];
    assert !SpellsBearer(u, i);
    if i < |u| && i + 7 > |u| {
      assert text[i + 6] == x[i + 6 - |u|];
    }
  }

  /** So a bearer token in a text with no other credential is replaced, and nothing else. */
  lemma BearerTokenReplaced(u: string, x: string, w: string, v: string, secrets: seq<string>, r: string)
    requires ValidReplacement(r) && NonEmpty(secrets)
    requires |x| == 7 && SpellsBearer(x, 0) && forall i :: !SpellsBearer(u, i) && !SpellsBearer(v, i)
    requires w != "" && forall i :: 0 <= i < |w| ==> w[i] as int !in WHITE_SPACE
    requires v == "" || v[0] as int in WHITE_SPACE
    requires SecretFree(u + x + w + v, secrets) && HeaderFree(u + x + w + v) && AllTokenFree(u + x + r + v)
    ensures Redacted(u + x + w + v, secrets, r) == u + x + r + v
  {
    hide TOKEN_PREFIXES, PRIVATE_KEY_LABELS, PemStage, SecretStage, PrefixStage, TokenFree, HeaderFree, SecretFree,
      BearerCuts, SpellsBearer, WHITE_SPACE;
    var text := u + x + w + v;
    SecretStageUnchanged(text, secrets, r);
    HeaderFreeUnchanged(text, r);
    BearerWordReplaced(u, x, w, v, r);
    forall i ensures !MatchAt(Lower(v), i, BEARER) {
      BearerIsSpelled(v, i);
    }
    NoBearerUnchanged(v, r);
    PrefixesNonEmpty();
    PrefixStageUnchanged(u + x + r + v, TOKEN_PREFIXES, r);
  }

  // ---------------------------------------------------------------- clean text

  /** A prefix followed by twelve letters, digits, `_`, `-` or `.`. */
  ghost predicate HoldsToken(text: string, i: int, p: string) {
    && MatchAt(text, i, p) && i + |p| + 12 <= |text|
    && forall j :: i + |p| <= j < i + |p| + 12 ==>
      var c := text[j]; '0' <= c <= '9' || 'a' <= c <= 'z' || 'A' <= c <= 'Z' || c in {'_', '-', '.'}
  }

  /** The end of the text or white space, possibly behind the marker. */
  ghost predicate NothingSaid(text: string, i: nat) {
    || i == |text| || (i < |text| && text[i] as int in WHITE_SPACE)
    || (i + 10 <= |text| && text[i..i + 10] == "[REDACTED]"
        && (i + 10 == |text| || text[i + 10] as int in WHITE_SPACE))
  }

  /** Said without reference to the stages: nothing configured, and no key, bearer token or prefixed token. */
  ghost predicate NothingToHide(text: string, secrets: seq<string>) {
    && (forall k :: 0 <= k < |secrets| ==> Absent(text, secrets[k]))
    && (forall kind | kind in KEY_KINDS :: Absent(text, "-----BEGIN " + kind + "-----"))
    && (forall i: nat | SpellsBearer(text, i) :: NothingSaid(text, i + 7))
    && (forall p, i | p in {"github_pat_", "ghp_", "gho_", "ghu_", "ghs_", "xoxb-", "xoxp-", "sk-"} ::
          !HoldsToken(text, i, p))
  }

  lemma HiddenIsSaid(text: string, i: nat)
    ensures Hidden(text, i) <==> NothingSaid(text, i)
  {
    hide IsWhitespace, WHITE_SPACE;
    if i < |text| {
      WhitespaceIs(text[i]);
    }
    if i + 10 < |text| {
      WhitespaceIs(text[i + 10]);
    }
    if i + 10 <= |text| {
      MatchIsSlice(text, i, REDACTED);
    }
  }

  lemma TokenIsHeld(text: string, i: int, k: nat)
    requires k < |TOKEN_PREFIXES|
    ensures TokenAt(text, i, TOKEN_PREFIXES[k]) <==> HoldsToken(text, i, TOKEN_PREFIXES[k])
  {
    hide TOKEN_PREFIXES;
    var p := TOKEN_PREFIXES[k];
    TokenPrefixShape(k);
    if MatchAt(text, i, p) {
      MatchedChars(text, i, p);
    }
  }

  lemma PrefixKnown(k: nat)
    requires k < |TOKEN_PREFIXES|
    ensures TOKEN_PREFIXES[k] in {"github_pat_", "ghp_", "gho_", "ghu_", "ghs_", "xoxb-", "xoxp-", "sk-"}
  {
  }

  lemma TokensAreHeld(text: string)
    ensures AllTokenFree(text) <==>
            forall p, i | p in {"github_pat_", "ghp_", "gho_", "ghu_", "ghs_", "xoxb-", "xoxp-", "sk-"} ::
              !HoldsToken(text, i, p)
  {
    hide HoldsToken, TokenAt, TOKEN_PREFIXES;
    if AllTokenFree(text) {
      forall p, i | p in {"github_pat_", "ghp_", "gho_", "ghu_", "ghs_", "xoxb-", "xoxp-", "sk-"}
        ensures !HoldsToken(text, i, p)
      {
        var k := PrefixIndex(p);
        assert TokenFree(text, TOKEN_PREFIXES[k]);
        TokenIsHeld(text, i, k);
      }
    } else {
      var k, i :| 0 <= k < |TOKEN_PREFIXES| && TokenAt(text, i, TOKEN_PREFIXES[k]);
      PrefixKnown(k);
      TokenIsHeld(text, i, k);
    }
  }

  lemma HeadersAreSpelled(text: string)
    ensures HeaderFree(text) <==> forall kind | kind in KEY_KINDS :: Absent(text, "-----BEGIN " + kind + "-----")
  {
    hide Absent, PRIVATE_KEY_LABELS, KEY_KINDS;
    forall kind | kind in KEY_KINDS ensures HeaderFree(text) ==> Absent(text, Begin(kind)) {
      var k := LabelIndex(kind);
    }
    forall k | 0 <= k < |PRIVATE_KEY_LABELS| ensures PRIVATE_KEY_LABELS[k] in KEY_KINDS {
      LabelKnown(k);
    }
  }

  lemma BearersAreSpelled(text: string)
    ensures BearerHidden(text) <==> forall i: nat | SpellsBearer(text, i) :: NothingSaid(text, i + 7)
  {
    hide Hidden, NothingSaid, SpellsBearer, BearerAt;
    forall i: nat ensures BearerAt(text, i) <==> SpellsBearer(text, i) {
      BearerIsSpelled(text, i);
    }
    forall i: nat ensures Hidden(text, i) <==> NothingSaid(text, i) {
      HiddenIsSaid(text, i);
    }
  }

  /** The texts redaction leaves alone are exactly those in which there is nothing to hide. */
  lemma UnchangedExactlyWhenNothingToHide(text: string, secrets: seq<string>)
    requires NonEmpty(secrets) && AllDisjoint(secrets, REDACTED)
    ensures Redacted(text, secrets, "[REDACTED]") == text <==> NothingToHide(text, secrets)
  {
    hide Redacted, HeaderFree, BearerHidden, AllTokenFree, Absent, SpellsBearer, NothingSaid, HoldsToken, KEY_KINDS;
    UnchangedExactlyWhenClean(text, secrets);
    HeadersAreSpelled(text);
    BearersAreSpelled(text);
    TokensAreHeld(text);
  }

  /** And every output is such a text. */
  lemma NothingToHideIsLeft(text: string, secrets: seq<string>)
    requires NonEmpty(secrets) && AllDisjoint(secrets, REDACTED)
    ensures NothingToHide(Redacted(text, secrets, "[REDACTED]"), secrets)
  {
    hide Redacted, NothingToHide;
    RedactedTwice(text, secrets);
    UnchangedExactlyWhenNothingToHide(Redacted(text, secrets, REDACTED), secrets);
  }
}
