/** What the redaction pipeline guarantees of its output, for every input text. */
module RedactionProofs {
  import opened Text
  import opened Redaction

  // ---------------------------------------------------------------- the pieces a stage makes

  lemma {:induction false} SecretCutsSource(text: string, s: string)
    requires s != ""
    ensures SecretCuts(text, s).Source() == text
    decreases |text|
  {
    var found := Find(text, s, 0);
    if found.Some? {
      FindFirst(text, s, 0);
      var rest := text[found.value + |s|..];
      SecretCutsSource(rest, s);
      assert text == text[..found.value] + s + rest;
    }
  }

  lemma {:induction false} BearerCutsSource(text: string, from: nat)
    ensures BearerCuts(text, from).Source() == text
    decreases |text|, |text| - from
  {
    match NextBearer(text, from)
    case Miss =>
    case Skip(next) => BearerCutsSource(text, next);
    case Span(start, end) =>
      BearerCutsSource(text[end..], 0);
      assert text == text[..start] + text[start..end] + text[end..];
  }

  lemma {:induction false} TokenCutsSource(text: string, from: nat, prefix: string)
    requires prefix != ""
    ensures TokenCuts(text, from, prefix).Source() == text
    decreases |text|, |text| - from
  {
    match NextToken(text, from, prefix)
    case Miss =>
    case Skip(next) => TokenCutsSource(text, next, prefix);
    case Span(start, end) =>
      TokenCutsSource(text[end..], 0, prefix);
      assert text == text[..start] + text[start..end] + text[end..];
  }

  // ---------------------------------------------------------------- absence survives every stage

  lemma {:induction false} PiecesKeepAbsent(p: Pieces, r: string, s: string)
    requires Disjoint(s, r) && s != "" && Absent(p.Source(), s)
    ensures Absent(p.Output(r), s)
  {
    match p
    case Rest(_) =>
    case Cut(keep, cut, tail) =>
      AbsentFromParts(keep, cut, tail.Source(), s);
      PiecesKeepAbsent(tail, r, s);
      SpliceAbsent(keep, r, tail.Output(r), s);
  }

  lemma {:induction false} SecretStageKeepsAbsent(text: string, secrets: seq<string>, r: string, s: string)
    requires NonEmpty(secrets) && Disjoint(s, r) && s != "" && Absent(text, s)
    ensures Absent(SecretStage(text, secrets, r), s)
    decreases |secrets|
  {
    if secrets != [] {
      SecretCutsSource(text, secrets[0]);
      PiecesKeepAbsent(SecretCuts(text, secrets[0]), r, s);
      SecretStageKeepsAbsent(SecretCuts(text, secrets[0]).Output(r), secrets[1..], r, s);
    }
  }

  lemma {:induction false} WithoutBlocksKeepsAbsent(text: string, kind: string, r: string, s: string)
    requires ValidReplacement(r) && Disjoint(s, r) && s != "" && Absent(text, s)
    ensures Absent(WithoutBlocks(text, kind, r), s)
    decreases |text|
  {
    var found := Find(text, Begin(kind), 0);
    if found.Some? {
      var start := found.value;
      var end := BlockEnd(text, kind, start);
      assert text == text[..start] + text[start..end] + text[end..];
      AbsentFromParts(text[..start], text[start..end], text[end..], s);
      SpliceAbsent(text[..start], r, text[end..], s);
      WithoutBlocksKeepsAbsent(Splice(text, start, end, r), kind, r, s);
    }
  }

  lemma {:induction false} PemStageKeepsAbsent(text: string, kinds: seq<string>, r: string, s: string)
    requires ValidReplacement(r) && Disjoint(s, r) && s != "" && Absent(text, s)
    ensures Absent(PemStage(text, kinds, r), s)
    decreases |kinds|
  {
    if kinds != [] {
      WithoutBlocksKeepsAbsent(text, kinds[0], r, s);
      PemStageKeepsAbsent(WithoutBlocks(text, kinds[0], r), kinds[1..], r, s);
    }
  }

  lemma BearerKeepsAbsent(text: string, r: string, s: string)
    requires Disjoint(s, r) && s != "" && Absent(text, s)
    ensures Absent(BearerCuts(text, 0).Output(r), s)
  {
    BearerCutsSource(text, 0);
    PiecesKeepAbsent(BearerCuts(text, 0), r, s);
  }

  lemma {:induction false} PrefixStageKeepsAbsent(text: string, prefixes: seq<string>, r: string, s: string)
    requires NonEmpty(prefixes) && Disjoint(s, r) && s != "" && Absent(text, s)
    ensures Absent(PrefixStage(text, prefixes, r), s)
    decreases |prefixes|
  {
    if prefixes != [] {
      TokenCutsSource(text, 0, prefixes[0]);
      PiecesKeepAbsent(TokenCuts(text, 0, prefixes[0]), r, s);
      PrefixStageKeepsAbsent(TokenCuts(text, 0, prefixes[0]).Output(r), prefixes[1..], r, s);
    }
  }

  // ---------------------------------------------------------------- configured secrets

  lemma {:induction false} SecretCutsClear(text: string, s: string, r: string)
    requires s != "" && Disjoint(s, r)
    ensures Absent(SecretCuts(text, s).Output(r), s)
    decreases |text|
  {
    hide MatchAt;
    FindFirst(text, s, 0);
    var found := Find(text, s, 0);
    if found.Some? {
      var i := found.value;
      var rest := text[i + |s|..];
      SecretCutsClear(rest, s, r);
      AbsentBeforeFirst(text, i, s);
      SpliceAbsent(text[..i], r, SecretCuts(rest, s).Output(r), s);
    }
  }

  lemma {:induction false} SecretStageClears(text: string, secrets: seq<string>, r: string, k: nat)
    requires NonEmpty(secrets) && k < |secrets| && Disjoint(secrets[k], r)
    ensures Absent(SecretStage(text, secrets, r), secrets[k])
    decreases |secrets|
  {
    var next := SecretCuts(text, secrets[0]).Output(r);
    if k == 0 {
      SecretCutsClear(text, secrets[0], r);
      SecretStageKeepsAbsent(next, secrets[1..], r, secrets[0]);
    } else {
      SecretStageClears(next, secrets[1..], r, k - 1);
    }
  }

  /** A secret the marker cannot touch is nowhere in the final output, whatever the other secrets are. */
  lemma SecretAbsent(text: string, secrets: seq<string>, r: string, k: nat)
    requires NonEmpty(secrets) && ValidReplacement(r) && k < |secrets| && Disjoint(secrets[k], r)
    ensures Absent(Redacted(text, secrets, r), secrets[k])
  {
    hide SecretStage, PemStage, BearerCuts, PrefixStage, TOKEN_PREFIXES, PRIVATE_KEY_LABELS;
    var s := secrets[k];
    SecretStageClears(text, secrets, r, k);
    PrefixesNonEmpty();
    var t := SecretStage(text, secrets, r);
    PemStageKeepsAbsent(t, PRIVATE_KEY_LABELS, r, s);
    var u := PemStage(t, PRIVATE_KEY_LABELS, r);
    BearerKeepsAbsent(u, r, s);
    PrefixStageKeepsAbsent(BearerCuts(u, 0).Output(r), TOKEN_PREFIXES, r, s);
  }

  /** The practical reading: bracket-free text that is not part of the marker is disjoint from it. */
  lemma BracketFreeDisjoint(s: string)
    requires '[' !in s && ']' !in s && Absent(REDACTED, s)
    ensures Disjoint(s, REDACTED)
  {
    forall d ensures -|s| < d < |REDACTED| ==> Clash(s, REDACTED, d) {
      if -|s| < d <= 0 {
        assert s[-d] != REDACTED[d + -d];
      } else if 0 < d < |REDACTED| {
        if d + |s| >= |REDACTED| {
          var last := |REDACTED| - 1;
          assert s[last - d] != REDACTED[d + (last - d)];
        } else {
          assert !MatchAt(REDACTED, d, s);
        }
      }
    }
  }

  lemma SingleCharacterDisjoint(s: string, r: string)
    requires |s| == 1 && s[0] !in r
    ensures Disjoint(s, r)
  {
    forall d ensures -|s| < d < |r| ==> Clash(s, r, d) {
      if -|s| < d < |r| {
        assert s[0] != r[d + 0];
      }
    }
  }

  // ---------------------------------------------------------------- PEM headers

  lemma {:induction false} WithoutBlocksClears(text: string, kind: string, r: string)
    requires ValidReplacement(r)
    ensures Absent(WithoutBlocks(text, kind, r), Begin(kind))
    decreases |text|
  {
    FindFirst(text, Begin(kind), 0);
    var found := Find(text, Begin(kind), 0);
    if found.Some? {
      WithoutBlocksClears(Splice(text, found.value, BlockEnd(text, kind, found.value), r), kind, r);
    }
  }

  lemma {:induction false} PemStageClears(text: string, kinds: seq<string>, k: nat)
    requires k < |kinds| && Disjoint(Begin(kinds[k]), REDACTED)
    ensures Absent(PemStage(text, kinds, REDACTED), Begin(kinds[k]))
    decreases |kinds|
  {
    var next := WithoutBlocks(text, kinds[0], REDACTED);
    if k == 0 {
      WithoutBlocksClears(text, kinds[0], REDACTED);
      PemStageKeepsAbsent(next, kinds[1..], REDACTED, Begin(kinds[0]));
    } else {
      PemStageClears(next, kinds[1..], k - 1);
    }
  }

  lemma HeaderDisjoint(k: nat)
    requires k < |PRIVATE_KEY_LABELS|
    ensures Disjoint(Begin(PRIVATE_KEY_LABELS[k]), REDACTED)
  {
    AbsentByChar(REDACTED, Begin(PRIVATE_KEY_LABELS[k]), 0);
    BracketFreeDisjoint(Begin(PRIVATE_KEY_LABELS[k]));
  }

  ghost predicate HeaderFree(text: string) {
    forall k :: 0 <= k < |PRIVATE_KEY_LABELS| ==> Absent(text, Begin(PRIVATE_KEY_LABELS[k]))
  }

  lemma PatternsHeaderFree(text: string)
    ensures HeaderFree(Patterns(text, REDACTED))
  {
    hide PemStage, BearerCuts, PrefixStage, TOKEN_PREFIXES, PRIVATE_KEY_LABELS, Begin;
    PrefixesNonEmpty();
    forall k | 0 <= k < |PRIVATE_KEY_LABELS|
      ensures Absent(Patterns(text, REDACTED), Begin(PRIVATE_KEY_LABELS[k]))
    {
      HeaderDisjoint(k);
      var header := Begin(PRIVATE_KEY_LABELS[k]);
      BeginNonEmpty(PRIVATE_KEY_LABELS[k]);
      PemStageClears(text, PRIVATE_KEY_LABELS, k);
      var u := PemStage(text, PRIVATE_KEY_LABELS, REDACTED);
      BearerKeepsAbsent(u, REDACTED, header);
      PrefixStageKeepsAbsent(BearerCuts(u, 0).Output(REDACTED), TOKEN_PREFIXES, REDACTED, header);
    }
  }

  lemma BeginNonEmpty(kind: string)
    ensures Begin(kind) != ""
  {
  }

  // ---------------------------------------------------------------- bearer tokens

  /** `bearer ` in any letter case at offset `i`. */
  ghost predicate BearerAt(text: string, i: int) {
    MatchAt(Lower(text), i, BEARER)
  }

  ghost predicate AtWordEnd(text: string, i: nat) {
    i == |text| || (i < |text| && IsWhitespace(text[i]))
  }

  /** Only whitespace, the end of the text, or a marker that is a word of its own. */
  ghost predicate Hidden(text: string, i: nat) {
    AtWordEnd(text, i) || (MatchAt(text, i, REDACTED) && AtWordEnd(text, i + |REDACTED|))
  }

  ghost predicate BearerHidden(text: string) {
    forall i: nat :: BearerAt(text, i) ==> Hidden(text, i + |BEARER|)
  }

  lemma {:induction false} WordEndIs(text: string, from: nat)
    requires from <= |text|
    ensures AtWordEnd(text, WordEnd(text, from))
    ensures forall i :: from <= i < WordEnd(text, from) ==> !IsWhitespace(text[i])
    decreases |text| - from
  {
    if from < |text| && !IsWhitespace(text[from]) {
      WordEndIs(text, from + 1);
    }
  }

  lemma BearerDisjointFromMarker()
    ensures Disjoint(BEARER, Lower(REDACTED))
  {
    var m := Lower(REDACTED);
    forall d ensures -|BEARER| < d < |m| ==> Clash(BEARER, m, d) {
      if -|BEARER| < d <= 0 {
        assert m[0] == '[' && BEARER[-d] != m[d + -d];
      } else if 0 < d < |m| {
        if d + |BEARER| >= |m| {
          assert m[9] == ']' && BEARER[9 - d] != m[d + (9 - d)];
        } else {
          assert forall c :: 1 <= c < 9 ==> m[c] != ' ';
          assert BEARER[6] != m[d + 6];
        }
      }
    }
  }

  lemma LowerSplice(k: string, r: string, v: string)
    ensures Lower(k + r + v) == Lower(k) + Lower(r) + Lower(v)
  {
  }

  /** Where `bearer ` can be once the marker stands between `k` and `v`. */
  lemma BearerAroundMarker(k: string, v: string, i: nat)
    ensures BearerAt(k + REDACTED + v, i) ==>
              (i + |BEARER| <= |k| && BearerAt(k, i)) ||
              (i >= |k| + |REDACTED| && BearerAt(v, i - |k| - |REDACTED|))
  {
    BearerDisjointFromMarker();
    LowerSplice(k, REDACTED, v);
    MatchInSplice(Lower(k), Lower(REDACTED), Lower(v), i, BEARER);
  }

  lemma BearerAtPrefix(k: string, v: string, i: nat)
    requires i + |BEARER| <= |k|
    ensures BearerAt(k + v, i) == BearerAt(k, i)
  {
    assert Lower(k + v) == Lower(k) + Lower(v);
    MatchInMiddle("", Lower(k), Lower(v), i, BEARER);
    assert "" + Lower(k) + Lower(v) == Lower(k) + Lower(v);
  }

  lemma BearerAtSuffix(k: string, v: string, i: nat)
    ensures BearerAt(k + v, |k| + i) == BearerAt(v, i)
  {
    assert Lower(k + v)[|k|..] == Lower(v);
    MatchInSuffix(Lower(k + v), |k|, i, BEARER);
  }

  lemma HiddenInSuffix(k: string, v: string, i: nat)
    requires i <= |v|
    ensures Hidden(k + v, |k| + i) == Hidden(v, i)
  {
    assert (k + v)[|k|..] == v;
    MatchInSuffix(k + v, |k|, i, REDACTED);
  }

  lemma BearerHiddenSuffix(k: string, v: string)
    requires BearerHidden(k + v)
    ensures BearerHidden(v)
  {
    forall i: nat ensures BearerAt(v, i) ==> Hidden(v, i + |BEARER|) {
      BearerAtSuffix(k, v, i);
      if BearerAt(v, i) {
        HiddenInSuffix(k, v, i + |BEARER|);
      }
    }
  }

  /** A marker written between `k` and `v`, both of which are fine by themselves. */
  lemma BearerHiddenJoin(k: string, v: string)
    requires BearerHidden(v) && AtWordEnd(v, 0)
    requires forall i: nat | i + |BEARER| <= |k| :: BearerAt(k, i) ==> i + |BEARER| == |k| || AtWordEnd(k, i + |BEARER|)
    ensures BearerHidden(k + REDACTED + v)
  {
    var text := k + REDACTED + v;
    forall i: nat ensures BearerAt(text, i) ==> Hidden(text, i + |BEARER|) {
      BearerAroundMarker(k, v, i);
      if BearerAt(text, i) {
        if i + |BEARER| < |k| {
          assert text[i + |BEARER|] == k[i + |BEARER|];
        } else if i + |BEARER| == |k| {
          MatchInMiddle(k, REDACTED, v, 0, REDACTED);
          assert |v| > 0 ==> text[|k| + |REDACTED|] == v[0];
        } else {
          HiddenInSuffix(k + REDACTED, v, i - |k| - |REDACTED| + |BEARER|);
        }
      }
    }
  }

  /** Two occurrences of `bearer ` never overlap. */
  lemma BearerNoOverlap(text: string, i: nat, j: nat)
    requires BearerAt(text, i) && i < j < i + |BEARER|
    ensures !BearerAt(text, j)
  {
    var t := Lower(text);
    assert t[i + (j - i)] == BEARER[j - i];
    if j + |BEARER| <= |t| {
      assert BEARER[0] == 'b' && BEARER[j - i] != 'b';
    }
  }

  /** The stage never rewrites the first character. */
  lemma {:induction false} BearerCutsHead(text: string, from: nat)
    ensures var out := BearerCuts(text, from).Output(REDACTED);
            (text == "" ==> out == "") && (text != "" ==> out != "" && out[0] == text[0])
    decreases |text| - from
  {
    match NextBearer(text, from)
    case Miss =>
    case Skip(next) => BearerCutsHead(text, next);
    case Span(start, end) =>
  }

  /** Every `bearer ` before `from` has been dealt with. */
  ghost predicate BearerDone(text: string, from: nat) {
    forall i: nat | i < from :: BearerAt(text, i) ==> AtWordEnd(text, i + |BEARER|)
  }

  lemma BearerDoneSkip(text: string, from: nat)
    requires BearerDone(text, from) && NextBearer(text, from).Skip?
    ensures BearerDone(text, NextBearer(text, from).next)
  {
    hide Find, WordEnd, AtWordEnd, MatchAt;
    FindFirst(Lower(text), BEARER, from);
    var next := NextBearer(text, from).next;
    WordEndIs(text, next);
    forall i: nat | i < next ensures BearerAt(text, i) ==> AtWordEnd(text, i + |BEARER|) {
      if next - |BEARER| < i {
        BearerNoOverlap(text, next - |BEARER|, i);
      }
    }
  }

  lemma BearerDoneBefore(text: string, from: nat)
    requires BearerDone(text, from) && NextBearer(text, from).Span?
    ensures var start := NextBearer(text, from).start;
            forall i: nat | i + |BEARER| <= start ::
              BearerAt(text[..start], i) ==> i + |BEARER| == start || AtWordEnd(text[..start], i + |BEARER|)
  {
    hide Find, WordEnd, MatchAt, Lower;
    FindFirst(Lower(text), BEARER, from);
    var start := NextBearer(text, from).start;
    var k := text[..start];
    assert text == k + text[start..];
    forall i: nat | i + |BEARER| <= start
      ensures BearerAt(k, i) ==> i + |BEARER| == start || AtWordEnd(k, i + |BEARER|)
    {
      BearerAtPrefix(k, text[start..], i);
    }
  }

  lemma {:induction false} BearerCutsHide(text: string, from: nat)
    requires BearerDone(text, from)
    ensures BearerHidden(BearerCuts(text, from).Output(REDACTED))
    decreases |text|, |text| - from
  {
    hide Find, NextBearer, MatchAt, WordEnd, Lower;
    BearerCutsUnfold(text, from);
    match NextBearer(text, from)
    case Miss =>
      NoBearerLeft(text, from);
    case Skip(next) =>
      BearerDoneSkip(text, from);
      BearerCutsHide(text, next);
    case Span(start, end) =>
      var rest := text[end..];
      BearerCutsHide(rest, 0);
      BearerCutsHead(rest, 0);
      SpanEndsWord(text, from);
      BearerDoneBefore(text, from);
      BearerHiddenJoin(text[..start], BearerCuts(rest, 0).Output(REDACTED));
  }

  lemma NoBearerLeft(text: string, from: nat)
    requires BearerDone(text, from) && NextBearer(text, from).Miss?
    ensures BearerHidden(text)
  {
    FindFirst(Lower(text), BEARER, from);
  }

  lemma SpanEndsWord(text: string, from: nat)
    requires NextBearer(text, from).Span?
    ensures AtWordEnd(text, NextBearer(text, from).end)
  {
    WordEndIs(text, NextBearer(text, from).start);
  }
}
