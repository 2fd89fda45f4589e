/**
 * The pipeline's main results: its outputs are exactly the texts it leaves alone; and what the stages
 * after the secrets can make of a text when they cut without leaving a marker.
 */
module RedactionTheorems {
  import opened Text
  import opened Redaction
  import opened RedactionProofs
  import opened RedactionTokens

  ghost predicate SecretFree(text: string, secrets: seq<string>) {
    forall k :: 0 <= k < |secrets| ==> Absent(text, secrets[k])
  }

  ghost predicate AllTokenFree(text: string) {
    forall k :: 0 <= k < |TOKEN_PREFIXES| ==> TokenFree(text, TOKEN_PREFIXES[k])
  }

  /** Nothing in the text is a credential the redactor knows of. */
  ghost predicate Clean(text: string, secrets: seq<string>) {
    SecretFree(text, secrets) && HeaderFree(text) && BearerHidden(text) && AllTokenFree(text)
  }

  predicate AllDisjoint(secrets: seq<string>, r: string) {
    forall k :: 0 <= k < |secrets| ==> Disjoint(secrets[k], r)
  }

  // ---------------------------------------------------------------- clean text is left alone

  lemma {:induction false} SecretStageUnchanged(text: string, secrets: seq<string>, r: string)
    requires NonEmpty(secrets) && SecretFree(text, secrets)
    ensures SecretStage(text, secrets, r) == text
    decreases |secrets|
  {
    if secrets != [] {
      FindFirst(text, secrets[0], 0);
      assert forall k :: 0 <= k < |secrets[1..]| ==> secrets[1..][k] == secrets[k + 1];
      SecretStageUnchanged(text, secrets[1..], r);
    }
  }

  lemma {:induction false} PemStageUnchanged(text: string, kinds: seq<string>, r: string)
    requires ValidReplacement(r) && forall k :: 0 <= k < |kinds| ==> Absent(text, Begin(kinds[k]))
    ensures PemStage(text, kinds, r) == text
    decreases |kinds|
  {
    if kinds != [] {
      FindFirst(text, Begin(kinds[0]), 0);
      assert forall k :: 0 <= k < |kinds[1..]| ==> kinds[1..][k] == kinds[k + 1];
      PemStageUnchanged(text, kinds[1..], r);
    }
  }

  /** The word after `bearer ` is then the marker itself, and is replaced by itself. */
  lemma HiddenSpanIsMarker(text: string, from: nat)
    requires BearerHidden(text) && NextBearer(text, from).Span?
    ensures var h := NextBearer(text, from); text[h.start..h.end] == REDACTED
  {
    hide WordEnd;
    FindFirst(Lower(text), BEARER, from);
    var start := Find(Lower(text), BEARER, from).value + |BEARER|;
    WordEndIs(text, start);
    var end := WordEnd(text, start);
    assert BearerAt(text, start - |BEARER|);
    assert !AtWordEnd(text, start);
    assert forall j {:trigger REDACTED[j]} :: 0 <= j < |REDACTED| ==> text[start + j] == REDACTED[j];
    MarkerHasNoWhitespace(text, start, end);
    assert end == start + |REDACTED|;
    assert text[start..end] == REDACTED;
  }

  lemma MarkerHasNoWhitespace(text: string, start: nat, end: nat)
    requires MatchAt(text, start, REDACTED) && start <= end && AtWordEnd(text, end)
    ensures start + |REDACTED| <= end
  {
    forall i | start <= i < start + |REDACTED| ensures !IsWhitespace(text[i]) {
      assert text[start + (i - start)] == REDACTED[i - start];
    }
  }

  lemma {:induction false} BearerUnchanged(text: string, from: nat)
    requires BearerHidden(text)
    ensures BearerCuts(text, from).Output(REDACTED) == text
    decreases |text|, |text| - from
  {
    hide NextBearer, BearerHidden;
    BearerCutsUnfold(text, from);
    match NextBearer(text, from)
    case Miss =>
    case Skip(next) => BearerUnchanged(text, next);
    case Span(start, end) =>
      HiddenSpanIsMarker(text, from);
      assert text == text[..end] + text[end..];
      BearerHiddenSuffix(text[..end], text[end..]);
      BearerUnchanged(text[end..], 0);
      assert text == text[..start] + text[start..end] + text[end..];
  }

  lemma {:induction false} TokenUnchanged(text: string, from: nat, prefix: string, r: string)
    requires prefix != "" && TokenFree(text, prefix)
    ensures TokenCuts(text, from, prefix).Output(r) == text
    decreases |text| - from
  {
    FindFirst(text, prefix, from);
    match NextToken(text, from, prefix)
    case Miss =>
    case Skip(next) => TokenUnchanged(text, next, prefix, r);
    case Span(start, end) =>
      RunEndIs(text, start);
      assert TokenAt(text, start, prefix);
      assert false;
  }

  lemma {:induction false} PrefixStageUnchanged(text: string, prefixes: seq<string>, r: string)
    requires NonEmpty(prefixes) && forall k :: 0 <= k < |prefixes| ==> TokenFree(text, prefixes[k])
    ensures PrefixStage(text, prefixes, r) == text
    decreases |prefixes|
  {
    if prefixes != [] {
      TokenUnchanged(text, 0, prefixes[0], r);
      assert forall k :: 0 <= k < |prefixes[1..]| ==> prefixes[1..][k] == prefixes[k + 1];
      PrefixStageUnchanged(text, prefixes[1..], r);
    }
  }

  lemma CleanUnchanged(text: string, secrets: seq<string>)
    requires NonEmpty(secrets) && Clean(text, secrets)
    ensures Redacted(text, secrets, REDACTED) == text
  {
    hide SecretStage, PemStage, BearerCuts, PrefixStage, TOKEN_PREFIXES, PRIVATE_KEY_LABELS;
    PrefixesNonEmpty();
    SecretStageUnchanged(text, secrets, REDACTED);
    PemStageUnchanged(text, PRIVATE_KEY_LABELS, REDACTED);
    BearerUnchanged(text, 0);
    PrefixStageUnchanged(text, TOKEN_PREFIXES, REDACTED);
  }

  // ---------------------------------------------------------------- main results

  /** With the marker, every output is clean. */
  lemma RedactedClean(text: string, secrets: seq<string>)
    requires NonEmpty(secrets) && AllDisjoint(secrets, REDACTED)
    ensures Clean(Redacted(text, secrets, REDACTED), secrets)
  {
    hide Patterns, SecretStage, TOKEN_PREFIXES;
    var t := SecretStage(text, secrets, REDACTED);
    forall k | 0 <= k < |secrets| ensures Absent(Redacted(text, secrets, REDACTED), secrets[k]) {
      SecretAbsent(text, secrets, REDACTED, k);
    }
    PatternsHeaderFree(t);
    PatternsBearerHidden(t);
    forall k | 0 <= k < |TOKEN_PREFIXES| ensures TokenFree(Redacted(text, secrets, REDACTED), TOKEN_PREFIXES[k]) {
      RedactedTokenFree(text, secrets, REDACTED, k);
    }
  }

  /** The texts redaction does not change are the clean ones, no more and no fewer. */
  lemma UnchangedExactlyWhenClean(text: string, secrets: seq<string>)
    requires NonEmpty(secrets) && AllDisjoint(secrets, REDACTED)
    ensures Redacted(text, secrets, REDACTED) == text <==> Clean(text, secrets)
  {
    hide Redacted, Clean;
    RedactedClean(text, secrets);
    if Clean(text, secrets) {
      CleanUnchanged(text, secrets);
    }
  }

  lemma RedactedTwice(text: string, secrets: seq<string>)
    requires NonEmpty(secrets) && AllDisjoint(secrets, REDACTED)
    ensures var once := Redacted(text, secrets, REDACTED); Redacted(once, secrets, REDACTED) == once
  {
    hide Redacted, Clean;
    RedactedClean(text, secrets);
    CleanUnchanged(Redacted(text, secrets, REDACTED), secrets);
  }

  // ---------------------------------------------------------------- the empty replacement

  /** A shortest credential of the `sk-` kind. */
  const SHORT_TOKEN := "sk-aaaaaaaaaaaa"

  lemma {:induction false} PrefixStageSkips(text: string, prefixes: seq<string>, r: string, n: nat)
    requires NonEmpty(prefixes) && n <= |prefixes|
    requires forall k :: 0 <= k < n ==> Absent(text, prefixes[k])
    ensures PrefixStage(text, prefixes, r) == PrefixStage(text, prefixes[n..], r)
    decreases |prefixes|
  {
    if n > 0 {
      FindFirst(text, prefixes[0], 0);
      PrefixStageSkips(text, prefixes[1..], r, n - 1);
      assert prefixes[1..][n - 1..] == prefixes[n..];
    } else {
      assert prefixes[0..] == prefixes;
    }
  }

  lemma ShortTokenAt(u: string, v: string)
    requires 'k' !in u && 'k' !in v
    ensures Find(u + SHORT_TOKEN + v, "sk-", 0) == Some(|u|)
  {
    var text := u + SHORT_TOKEN + v;
    FindFirst(text, "sk-", 0);
    MatchInMiddle(u, SHORT_TOKEN, v, 0, "sk-");
    assert MatchAt(SHORT_TOKEN, 0, "sk-");
    forall i | 0 <= i < |text| && i != |u| + 1 ensures text[i] != 'k' {
      if i < |u| {
        assert text[i] in u;
      } else if i >= |u| + |SHORT_TOKEN| {
        assert text[i] in v;
      }
    }
    forall i | MatchAt(text, i, "sk-") ensures i == |u| {
      assert text[i + 1] == "sk-"[1];
    }
  }

  lemma {:induction false} RunEndExact(text: string, from: nat, n: nat)
    requires from <= n && AllTokenChars(text, from, n) && (n < |text| ==> !IsTokenChar(text[n]))
    ensures RunEnd(text, from) == n
    decreases n - from
  {
    if from < n {
      RunEndExact(text, from + 1, n);
    }
  }

  lemma RunEndAfter(u: string, m: string, v: string)
    requires AllTokenChars(m, 0, |m|) && v != "" && !IsTokenChar(v[0])
    ensures RunEnd(u + m + v, |u|) == |u| + |m|
  {
    hide RunEnd;
    var text, n := u + m + v, |u| + |m|;
    forall j | |u| <= j < n ensures IsTokenChar(text[j]) {
      assert text[j] == m[j - |u|];
    }
    assert text[n] == v[0];
    RunEndExact(text, |u|, n);
  }

  lemma ShortTokenChars()
    ensures AllTokenChars(SHORT_TOKEN, 0, |SHORT_TOKEN|)
  {
  }

  lemma ShortTokenFound(u: string, v: string)
    requires 'k' !in u && 'k' !in v && v != "" && !IsTokenChar(v[0])
    ensures TokenCuts(u + SHORT_TOKEN + v, 0, "sk-") == Cut(u, SHORT_TOKEN, Rest(v))
  {
    hide Find, RunEnd, MatchAt;
    var text, n := u + SHORT_TOKEN + v, |u| + |SHORT_TOKEN|;
    ShortTokenAt(u, v);
    ShortTokenChars();
    RunEndAfter(u, SHORT_TOKEN, v);
    assert NextToken(text, 0, "sk-") == Span(|u|, n);
    assert text[..|u|] == u && text[|u|..n] == SHORT_TOKEN && text[n..] == v;
    AbsentByChar(v, "sk-", 1);
    FindFirst(v, "sk-", 0);
    assert TokenCuts(v, 0, "sk-") == Rest(v);
  }

  lemma OnePrefixStage(text: string, prefix: string, r: string)
    requires prefix != ""
    ensures PrefixStage(text, [prefix], r) == TokenCuts(text, 0, prefix).Output(r)
  {
  }

  /** With the empty replacement, a credential between `u` and `v` joins them up. */
  lemma ShortTokenRemoved(u: string, v: string)
    requires 'k' !in u && 'k' !in v && v != "" && !IsTokenChar(v[0])
    requires '_' !in u && '_' !in v && 'x' !in u && 'x' !in v
    requires HeaderFree(u + SHORT_TOKEN + v) && Absent(Lower(u + SHORT_TOKEN + v), BEARER)
    ensures Patterns(u + SHORT_TOKEN + v, "") == u + v
  {
    hide PemStage, TokenCuts, PrefixStage, HeaderFree, PRIVATE_KEY_LABELS, MatchAt, Find;
    var text := u + SHORT_TOKEN + v;
    HeaderFreeUnchanged(text, "");
    FindFirst(Lower(text), BEARER, 0);
    NoOtherPrefix(text);
    PrefixesNonEmpty();
    PrefixStageSkips(text, TOKEN_PREFIXES, "", 7);
    assert TOKEN_PREFIXES[7..] == ["sk-"];
    OnePrefixStage(text, "sk-", "");
    ShortTokenFound(u, v);
    assert u + "" + v == u + v;
  }

  lemma HeaderFreeUnchanged(text: string, r: string)
    requires HeaderFree(text) && ValidReplacement(r)
    ensures PemStage(text, PRIVATE_KEY_LABELS, r) == text
  {
    hide PRIVATE_KEY_LABELS;
    PemStageUnchanged(text, PRIVATE_KEY_LABELS, r);
  }

  lemma NoOtherPrefix(text: string)
    requires '_' !in text && 'x' !in text
    ensures forall k :: 0 <= k < 7 ==> Absent(text, TOKEN_PREFIXES[k])
  {
    forall k | 0 <= k < 7 ensures Absent(text, TOKEN_PREFIXES[k]) {
      if k == 0 {
        AbsentByChar(text, TOKEN_PREFIXES[0], 6);
      } else if k < 5 {
        AbsentByChar(text, TOKEN_PREFIXES[k], 3);
      } else {
        AbsentByChar(text, TOKEN_PREFIXES[k], 0);
      }
    }
  }

  /** Cutting a token out can uncover a bearer token, and a second pass then changes the text again. */
  lemma CutUncoversBearer()
    ensures Patterns("bearer" + SHORT_TOKEN + " s", "") == "bearer s"
    ensures !BearerHidden("bearer s")
    ensures Patterns("bearer s", "") != "bearer s"
  {
    hide PemStage, PrefixStage, PRIVATE_KEY_LABELS, TOKEN_PREFIXES;
    var u, v := "bearer", " s";
    var text := u + SHORT_TOKEN + v;
    HeaderFreeByCase(text);
    NoBearerAcrossToken(u, v);
    ShortTokenRemoved(u, v);
    assert u + v == "bearer s";
    BearerSecondPass();
  }

  lemma BearerSecondPass()
    ensures BearerAt("bearer s", 0) && !BearerHidden("bearer s")
    ensures Patterns("bearer s", "") != "bearer s"
  {
    hide PemStage, PRIVATE_KEY_LABELS, TOKEN_PREFIXES, PrefixStage, WordEnd;
    var t := "bearer s";
    assert BearerAt(t, 0);
    assert !Hidden(t, 7);
    HeaderFreeByCase(t);
    HeaderFreeUnchanged(t, "");
    FindFirst(Lower(t), BEARER, 0);
    WordEndIs(t, 7);
    assert NextBearer(t, 0) == Span(7, 8);
    FindFirst(Lower(t[8..]), BEARER, 0);
    assert BearerCuts(t, 0) == Cut(t[..7], t[7..8], Rest(t[8..]));
    assert t[..7] + "" + t[8..] == "bearer ";
    NoTokensWithout("bearer ");
    PrefixesNonEmpty();
    PrefixStageUnchanged("bearer ", TOKEN_PREFIXES, "");
  }

  /** Every prefix ends in `_` or `-`. */
  lemma NoTokensWithout(s: string)
    requires '_' !in s && '-' !in s
    ensures AllTokenFree(s)
  {
    forall k | 0 <= k < |TOKEN_PREFIXES| ensures TokenFree(s, TOKEN_PREFIXES[k]) {
      AbsentByChar(s, TOKEN_PREFIXES[k], |TOKEN_PREFIXES[k]| - 1);
    }
  }

  /** Headers hold the letter `B`. */
  lemma HeaderFreeByCase(text: string)
    requires 'B' !in text
    ensures HeaderFree(text)
  {
    hide PRIVATE_KEY_LABELS;
    forall k | 0 <= k < |PRIVATE_KEY_LABELS| ensures Absent(text, Begin(PRIVATE_KEY_LABELS[k])) {
      var header := Begin(PRIVATE_KEY_LABELS[k]);
      assert header[5] == 'B';
      AbsentByChar(text, header, 5);
    }
  }

  lemma SplitHeaderFree(k: nat)
    requires k < |PRIVATE_KEY_LABELS|
    ensures Absent("-----BEGIN" + SHORT_TOKEN + " PRIVATE KEY-----", Begin(PRIVATE_KEY_LABELS[k]))
  {
    hide PRIVATE_KEY_LABELS;
    var text, header := "-----BEGIN" + SHORT_TOKEN + " PRIVATE KEY-----", Begin(PRIVATE_KEY_LABELS[k]);
    assert forall j :: 0 <= j < |text| && text[j] == 'B' ==> j == 5;
    assert header[5] == 'B' && header[10] == ' ' && text[10] == 's';
    forall i ensures !MatchAt(text, i, header) {
      if 0 <= i && i + |header| <= |text| && text[i + 5] == header[5] {
        assert text[i + 10] != header[10];
      }
    }
  }

  /** Cutting a token out can put the two halves of a header together. */
  lemma CutUncoversHeader()
    ensures Patterns("-----BEGIN" + SHORT_TOKEN + " PRIVATE KEY-----", "") == Begin("PRIVATE KEY")
  {
    hide Patterns, PRIVATE_KEY_LABELS, SHORT_TOKEN;
    var u, v := "-----BEGIN", " PRIVATE KEY-----";
    forall k | 0 <= k < |PRIVATE_KEY_LABELS| ensures Absent(u + SHORT_TOKEN + v, Begin(PRIVATE_KEY_LABELS[k])) {
      SplitHeaderFree(k);
    }
    NoBearerAcrossToken(u, v);
    ShortTokenRemoved(u, v);
    assert u + v == Begin("PRIVATE KEY");
  }

  /** The only space comes right after the credential, where `bearer ` would have an `r`. */
  lemma NoBearerAcrossToken(u: string, v: string)
    requires ' ' !in u && |v| > 0 && v[0] == ' '
    requires forall j :: 1 <= j < |v| && v[j] == ' ' ==> LowerChar(v[j - 1]) != 'r'
    ensures Absent(Lower(u + SHORT_TOKEN + v), BEARER)
  {
    var text := u + SHORT_TOKEN + v;
    var t := Lower(text);
    forall i ensures !MatchAt(t, i, BEARER) {
      if 0 <= i && i + 7 <= |t| {
        assert BEARER[5] == 'r' && BEARER[6] == ' ';
        if i + 6 < |u| {
          assert text[i + 6] in u;
        } else if i + 6 < |u| + |SHORT_TOKEN| {
          assert text[i + 6] == SHORT_TOKEN[i + 6 - |u|];
        } else if i + 6 == |u| + |SHORT_TOKEN| {
          assert text[i + 5] == SHORT_TOKEN[14];
        } else {
          var j := i + 6 - |u| - |SHORT_TOKEN|;
          assert text[i + 6] == v[j] && text[i + 5] == v[j - 1];
        }
      }
    }
  }
}
