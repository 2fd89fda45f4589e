/** Prefixed credentials: what the eight token stages remove, and what they leave of earlier work. */
module RedactionTokens {
  import opened Text
  import opened Redaction
  import opened RedactionProofs

  /** All token characters, starting with a lower-case letter: true of each of the eight prefixes. */
  predicate PrefixShape(prefix: string) {
    && prefix != "" && 'a' <= prefix[0] <= 'z'
    && forall c :: c in prefix ==> IsTokenChar(c)
  }

  lemma TokenPrefixShape(k: nat)
    requires k < |TOKEN_PREFIXES|
    ensures PrefixShape(TOKEN_PREFIXES[k])
  {
  }

  ghost predicate AllTokenChars(text: string, lo: int, hi: int) {
    0 <= lo && hi <= |text| && forall j :: lo <= j < hi ==> IsTokenChar(text[j])
  }

  /** A credential at `i`: the prefix, in a run of token characters long enough to be one. */
  ghost predicate TokenAt(text: string, i: int, prefix: string) {
    MatchAt(text, i, prefix) && AllTokenChars(text, i, i + |prefix| + MIN_TOKEN_BODY)
  }

  ghost predicate TokenFree(text: string, prefix: string) {
    forall i :: !TokenAt(text, i, prefix)
  }

  lemma {:induction false} RunEndIs(text: string, from: nat)
    requires from <= |text|
    ensures AllTokenChars(text, from, RunEnd(text, from))
    ensures RunEnd(text, from) < |text| ==> !IsTokenChar(text[RunEnd(text, from)])
    decreases |text| - from
  {
    if from < |text| && IsTokenChar(text[from]) {
      RunEndIs(text, from + 1);
    }
  }

  ghost predicate StartsOutsideRun(text: string) {
    text == "" || !IsTokenChar(text[0])
  }

  /** Every span cut out is a run of token characters, starts lower-case, and ends where its run ends. */
  ghost predicate TokenPieces(p: Pieces) {
    match p
    case Rest(_) => true
    case Cut(keep, cut, tail) =>
      && cut != "" && 'a' <= cut[0] <= 'z' && AllTokenChars(cut, 0, |cut|)
      && StartsOutsideRun(tail.Source())
      && TokenPieces(tail)
  }

  lemma {:induction false} TokenCutsArePieces(text: string, from: nat, prefix: string)
    requires PrefixShape(prefix)
    ensures TokenPieces(TokenCuts(text, from, prefix))
    decreases |text|, |text| - from
  {
    FindFirst(text, prefix, from);
    match NextToken(text, from, prefix)
    case Miss =>
    case Skip(next) => TokenCutsArePieces(text, next, prefix);
    case Span(start, end) =>
      RunEndIs(text, start);
      TokenCutsArePieces(text[end..], 0, prefix);
      TokenCutsSource(text[end..], 0, prefix);
      assert text[start] == prefix[0];
  }

  /** A tail that starts outside a run is left with its first character. */
  lemma PiecesHead(p: Pieces, r: string)
    requires TokenPieces(p) && StartsOutsideRun(p.Source())
    ensures p.Source() == "" ==> p.Output(r) == ""
    ensures p.Source() != "" ==> p.Output(r) != "" && p.Output(r)[0] == p.Source()[0]
  {
    match p
    case Rest(_) =>
    case Cut(keep, cut, tail) =>
      assert p.Source()[|keep|] == cut[0];
  }

  // ---------------------------------------------------------------- no credential is left or recreated

  lemma TokenAtMiddle(k: string, m: string, v: string, i: nat, q: string)
    requires i + |q| + MIN_TOKEN_BODY <= |m|
    ensures TokenAt(k + m + v, |k| + i, q) == TokenAt(m, i, q)
  {
    var text, n := k + m + v, i + |q| + MIN_TOKEN_BODY;
    MatchInMiddle(k, m, v, i, q);
    assert forall j {:trigger m[j]} :: i <= j < n ==> text[|k| + j] == m[j];
    if AllTokenChars(text, |k| + i, |k| + n) {
      assert forall j {:trigger m[j]} :: i <= j < n ==> IsTokenChar(text[|k| + j]);
    }
    if AllTokenChars(m, i, n) {
      forall j | |k| + i <= j < |k| + n ensures IsTokenChar(text[j]) {
        assert text[j] == m[j - |k|];
      }
    }
  }

  /** A replacement written between `k` and `v`, where `v` starts outside any run. */
  lemma TokenFreeJoin(k: string, r: string, v: string, q: string)
    requires ValidReplacement(r) && PrefixShape(q)
    requires TokenFree(k, q) && TokenFree(v, q) && StartsOutsideRun(v)
    ensures TokenFree(k + r + v, q)
  {
    var text := k + r + v;
    var length := |q| + MIN_TOKEN_BODY;
    forall i ensures !TokenAt(text, i, q) {
      if i < 0 || i + length > |text| {
      } else if i + length <= |k| {
        TokenAtMiddle("", k, r + v, i, q);
        assert "" + k + (r + v) == text;
      } else if i >= |k| + |r| {
        TokenAtMiddle(k + r, v, "", i - |k| - |r|, q);
        assert (k + r) + v + "" == text;
      } else {
        // The run would have to take in a bracket of the marker, or the first character of `v`.
        var edge := if r == "" then |k| else if i <= |k| then |k| else |k| + |r| - 1;
        assert i <= edge < i + length;
        assert !IsTokenChar(text[edge]);
      }
    }
  }

  lemma {:induction false} PiecesKeepTokenFree(p: Pieces, r: string, q: string)
    requires ValidReplacement(r) && PrefixShape(q) && TokenPieces(p) && TokenFree(p.Source(), q)
    ensures TokenFree(p.Output(r), q)
  {
    match p
    case Rest(_) =>
    case Cut(keep, cut, tail) =>
      TokenFreeParts(keep, cut, tail.Source(), q);
      PiecesKeepTokenFree(tail, r, q);
      PiecesHead(tail, r);
      TokenFreeJoin(keep, r, tail.Output(r), q);
  }

  lemma TokenFreeParts(k: string, c: string, v: string, q: string)
    requires TokenFree(k + c + v, q)
    ensures TokenFree(k, q) && TokenFree(v, q)
  {
    forall i ensures !TokenAt(k, i, q) && !TokenAt(v, i, q) {
      if 0 <= i && i + |q| + MIN_TOKEN_BODY <= |k| {
        TokenAtMiddle("", k, c + v, i, q);
        assert "" + k + (c + v) == k + c + v;
      }
      if 0 <= i && i + |q| + MIN_TOKEN_BODY <= |v| {
        TokenAtMiddle(k + c, v, "", i, q);
        assert (k + c) + v + "" == k + c + v;
      }
    }
  }

  /** A short run at an occurrence leaves no credential at it, nor at an occurrence inside the prefix. */
  lemma ShortRunNoToken(text: string, from: nat, prefix: string)
    requires PrefixShape(prefix) && NextToken(text, from, prefix).Skip?
    ensures forall i :: from <= i < NextToken(text, from, prefix).next ==> !TokenAt(text, i, prefix)
  {
    hide RunEnd;
    FindFirst(text, prefix, from);
    var start := Find(text, prefix, from).value;
    RunEndIs(text, start);
    forall i | from <= i < start + |prefix| ensures !TokenAt(text, i, prefix) {
      forall j | start <= j < i ensures IsTokenChar(text[j]) {
        assert text[start + (j - start)] == prefix[j - start] && prefix[j - start] in prefix;
      }
    }
  }

  lemma {:induction false} TokenCutsClear(text: string, from: nat, prefix: string, r: string)
    requires ValidReplacement(r) && PrefixShape(prefix)
    requires forall i :: i < from ==> !TokenAt(text, i, prefix)
    ensures TokenFree(TokenCuts(text, from, prefix).Output(r), prefix)
    decreases |text|, |text| - from
  {
    hide Find, RunEnd, NextToken, TokenAt;
    TokenCutsUnfold(text, from, prefix);
    match NextToken(text, from, prefix)
    case Miss =>
      NoTokenLeft(text, from, prefix);
    case Skip(next) =>
      ShortRunNoToken(text, from, prefix);
      TokenCutsClear(text, next, prefix, r);
    case Span(start, end) =>
      var rest := text[end..];
      NoTokenBefore(text, from, prefix);
      NegativeNoToken(rest, prefix);
      TokenCutsClear(rest, 0, prefix, r);
      TokenCutsArePieces(rest, 0, prefix);
      TokenCutsSource(rest, 0, prefix);
      PiecesHead(TokenCuts(rest, 0, prefix), r);
      TokenFreeJoin(text[..start], r, TokenCuts(rest, 0, prefix).Output(r), prefix);
  }

  lemma NegativeNoToken(text: string, prefix: string)
    ensures forall i :: i < 0 ==> !TokenAt(text, i, prefix)
  {
  }

  lemma NoTokenLeft(text: string, from: nat, prefix: string)
    requires prefix != "" && NextToken(text, from, prefix).Miss?
    requires forall i :: i < from ==> !TokenAt(text, i, prefix)
    ensures TokenFree(text, prefix)
  {
    FindFirst(text, prefix, from);
  }

  lemma NoTokenBefore(text: string, from: nat, prefix: string)
    requires prefix != "" && NextToken(text, from, prefix).Span?
    requires forall i :: i < from ==> !TokenAt(text, i, prefix)
    ensures TokenFree(text[..NextToken(text, from, prefix).start], prefix)
    ensures StartsOutsideRun(text[NextToken(text, from, prefix).end..])
  {
    hide RunEnd;
    FindFirst(text, prefix, from);
    var start := Find(text, prefix, from).value;
    RunEndIs(text, start);
    var k := text[..start];
    forall i ensures !TokenAt(k, i, prefix) {
      if 0 <= i && i + |prefix| + MIN_TOKEN_BODY <= start {
        TokenAtMiddle("", k, text[start..], i, prefix);
        assert "" + k + text[start..] == text;
      }
    }
  }

  predicate AllPrefixShape(prefixes: seq<string>) {
    forall k :: 0 <= k < |prefixes| ==> PrefixShape(prefixes[k])
  }

  lemma {:induction false} PrefixStageKeepsTokenFree(text: string, prefixes: seq<string>, r: string, q: string)
    requires ValidReplacement(r) && AllPrefixShape(prefixes) && PrefixShape(q) && TokenFree(text, q)
    ensures TokenFree(PrefixStage(text, prefixes, r), q)
    decreases |prefixes|
  {
    if prefixes != [] {
      TokenCutsSource(text, 0, prefixes[0]);
      TokenCutsArePieces(text, 0, prefixes[0]);
      PiecesKeepTokenFree(TokenCuts(text, 0, prefixes[0]), r, q);
      PrefixStageKeepsTokenFree(TokenCuts(text, 0, prefixes[0]).Output(r), prefixes[1..], r, q);
    }
  }

  lemma {:induction false} PrefixStageClears(text: string, prefixes: seq<string>, r: string, k: nat)
    requires ValidReplacement(r) && AllPrefixShape(prefixes) && k < |prefixes|
    ensures TokenFree(PrefixStage(text, prefixes, r), prefixes[k])
    decreases |prefixes|
  {
    var next := TokenCuts(text, 0, prefixes[0]).Output(r);
    if k == 0 {
      NegativeNoToken(text, prefixes[0]);
      TokenCutsClear(text, 0, prefixes[0], r);
      PrefixStageKeepsTokenFree(next, prefixes[1..], r, prefixes[0]);
    } else {
      PrefixStageClears(next, prefixes[1..], r, k - 1);
    }
  }

  lemma TokenPrefixShapes()
    ensures AllPrefixShape(TOKEN_PREFIXES)
  {
    forall k | 0 <= k < |TOKEN_PREFIXES| ensures PrefixShape(TOKEN_PREFIXES[k]) {
      TokenPrefixShape(k);
    }
  }

  /** Under either replacement and any secrets, no credential of the eight kinds is in the output. */
  lemma RedactedTokenFree(text: string, secrets: seq<string>, r: string, k: nat)
    requires ValidReplacement(r) && NonEmpty(secrets) && k < |TOKEN_PREFIXES|
    ensures TokenFree(Redacted(text, secrets, r), TOKEN_PREFIXES[k])
  {
    hide SecretStage, PemStage, BearerCuts, PrefixStage, TOKEN_PREFIXES, PRIVATE_KEY_LABELS;
    TokenPrefixShapes();
    PrefixesNonEmpty();
    var u := PemStage(SecretStage(text, secrets, r), PRIVATE_KEY_LABELS, r);
    PrefixStageClears(BearerCuts(u, 0).Output(r), TOKEN_PREFIXES, r, k);
  }

  // ---------------------------------------------------------------- bearer tokens stay hidden

  /** The marker holds no lower-case letter. */
  lemma MarkerAvoids(text: string, i: nat, p: nat)
    requires p < |text| && 'a' <= text[p] <= 'z'
    ensures MatchAt(text, i, REDACTED) ==> p < i || i + |REDACTED| <= p
  {
    if i <= p < i + |REDACTED| {
      assert REDACTED[p - i] < 'a';
      assert text[i + (p - i)] != REDACTED[p - i];
    }
  }

  /** Past a credential that is cut out, what hides a bearer token before it is still there. */
  lemma HiddenBeforeCut(k: string, c: string, v: string, i: nat)
    requires i <= |k| && c != "" && 'a' <= c[0] <= 'z' && Hidden(k + c + v, i)
    ensures i < |k| && forall w: string :: Hidden(k + REDACTED + w, i)
  {
    var text := k + c + v;
    assert text[|k|] == c[0];
    if AtWordEnd(text, i) {
      assert i < |k|;
      assert forall w: string :: (k + REDACTED + w)[i] == text[i];
    } else {
      MarkerAvoids(text, i, |k|);
      assert i + |REDACTED| < |k|;
      forall w: string ensures Hidden(k + REDACTED + w, i) {
        var out := k + REDACTED + w;
        assert forall j {:trigger REDACTED[j]} :: 0 <= j < |REDACTED| ==> out[i + j] == text[i + j];
        assert out[i + |REDACTED|] == text[i + |REDACTED|];
      }
    }
  }

  lemma BearerHiddenCut(k: string, c: string, v: string, w: string)
    requires c != "" && 'a' <= c[0] <= 'z' && BearerHidden(k + c + v) && BearerHidden(w)
    ensures BearerHidden(k + REDACTED + w)
  {
    hide Hidden;
    var out := k + REDACTED + w;
    assert k + c + v == k + (c + v);
    forall i: nat ensures BearerAt(out, i) ==> Hidden(out, i + |BEARER|) {
      BearerAroundMarker(k, w, i);
      if BearerAt(out, i) {
        if i + |BEARER| <= |k| {
          BearerAtPrefix(k, REDACTED + w, i);
          assert out == k + (REDACTED + w);
          BearerAtPrefix(k, c + v, i);
          HiddenBeforeCut(k, c, v, i + |BEARER|);
        } else {
          HiddenInSuffix(k + REDACTED, w, i - |k| - |REDACTED| + |BEARER|);
        }
      }
    }
  }

  lemma {:induction false} PiecesKeepBearerHidden(p: Pieces)
    requires TokenPieces(p) && BearerHidden(p.Source())
    ensures BearerHidden(p.Output(REDACTED))
  {
    hide BearerHidden;
    match p
    case Rest(_) =>
    case Cut(k, c, tail) =>
      BearerHiddenSuffix(k + c, tail.Source());
      PiecesKeepBearerHidden(tail);
      BearerHiddenCut(k, c, tail.Source(), tail.Output(REDACTED));
  }

  lemma {:induction false} PrefixStageKeepsBearerHidden(text: string, prefixes: seq<string>)
    requires AllPrefixShape(prefixes) && BearerHidden(text)
    ensures BearerHidden(PrefixStage(text, prefixes, REDACTED))
    decreases |prefixes|
  {
    if prefixes != [] {
      TokenCutsSource(text, 0, prefixes[0]);
      TokenCutsArePieces(text, 0, prefixes[0]);
      PiecesKeepBearerHidden(TokenCuts(text, 0, prefixes[0]));
      PrefixStageKeepsBearerHidden(TokenCuts(text, 0, prefixes[0]).Output(REDACTED), prefixes[1..]);
    }
  }

  lemma PatternsBearerHidden(text: string)
    ensures BearerHidden(Patterns(text, REDACTED))
  {
    hide PemStage, BearerCuts, PrefixStage, TOKEN_PREFIXES, PRIVATE_KEY_LABELS;
    PrefixesNonEmpty();
    TokenPrefixShapes();
    var u := PemStage(text, PRIVATE_KEY_LABELS, REDACTED);
    BearerCutsHide(u, 0);
    PrefixStageKeepsBearerHidden(BearerCuts(u, 0).Output(REDACTED), TOKEN_PREFIXES);
  }
}
