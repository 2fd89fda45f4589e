/**
 * Which configured secrets are kept out of every output. A secret that can overlap the replacement
 * is not: text next to a replacement can then complete it. For a secret that is not itself made of the
 * other patterns, that condition is exact; one that holds a whole header or token is always kept out.
 */
module RedactionSecrets {
  import opened Text
  import opened Redaction
  import opened RedactionProofs
  import opened RedactionTokens
  import opened RedactionTheorems

  /** The marker, unless it would write one of the secrets. */
  function ReplacementFor(secrets: seq<string>): (r: string)
    ensures ValidReplacement(r)
  {
    if exists k :: 0 <= k < |secrets| && Contains(REDACTED, secrets[k]) then "" else REDACTED
  }

  /** Every header begins and ends with these. */
  const DASHES := "-----"

  /** Nothing in the text could be part of a credential of another kind. */
  ghost predicate Harmless(text: string) {
    Absent(text, DASHES) && Absent(Lower(text), BEARER) && AllTokenFree(text)
  }

  lemma HarmlessHeaderFree(text: string)
    requires Absent(text, DASHES)
    ensures HeaderFree(text)
  {
    hide PRIVATE_KEY_LABELS;
    forall k | 0 <= k < |PRIVATE_KEY_LABELS| ensures Absent(text, Begin(PRIVATE_KEY_LABELS[k])) {
      AbsentByStart(text, PRIVATE_KEY_LABELS[k]);
    }
  }

  lemma MatchChar(text: string, i: int, s: string, j: nat)
    requires MatchAt(text, i, s) && j < |s|
    ensures 0 <= i && i + j < |text| && text[i + j] == s[j]
  {
  }

  lemma AbsentByStart(text: string, kind: string)
    requires Absent(text, DASHES)
    ensures Absent(text, Begin(kind))
  {
    var header := Begin(kind);
    forall i ensures !MatchAt(text, i, header) {
      if 0 <= i && i + |header| <= |text| {
        assert !MatchAt(text, i, DASHES);
        var j :| 0 <= j < |DASHES| && text[i + j] != DASHES[j];
        assert header[j] == DASHES[j];
      }
    }
  }

  lemma HarmlessUnchanged(text: string, r: string)
    requires ValidReplacement(r) && Harmless(text)
    ensures Patterns(text, r) == text
  {
    hide PemStage, PrefixStage, TOKEN_PREFIXES, PRIVATE_KEY_LABELS, MatchAt;
    HarmlessHeaderFree(text);
    HeaderFreeUnchanged(text, r);
    FindFirst(Lower(text), BEARER, 0);
    PrefixesNonEmpty();
    PrefixStageUnchanged(text, TOKEN_PREFIXES, r);
  }

  lemma AllTokenFreeParts(k: string, v: string)
    requires AllTokenFree(k + v)
    ensures AllTokenFree(k) && AllTokenFree(v)
  {
    hide TOKEN_PREFIXES, TokenFree;
    assert k + "" + v == k + v;
    forall q | 0 <= q < |TOKEN_PREFIXES| ensures TokenFree(k, TOKEN_PREFIXES[q]) && TokenFree(v, TOKEN_PREFIXES[q]) {
      TokenFreeParts(k, "", v, TOKEN_PREFIXES[q]);
    }
  }

  /** Its parts are as harmless as the whole. */
  lemma HarmlessParts(s: string, n: nat)
    requires Harmless(s) && n <= |s|
    ensures Harmless(s[..n]) && Harmless(s[n..])
  {
    hide AllTokenFree, BEARER, Absent;
    var k, v := s[..n], s[n..];
    assert k + "" + v == s && k + v == s;
    AbsentFromParts(k, "", v, DASHES);
    LowerSplice(k, "", v);
    assert Lower("") == "";
    AbsentFromParts(Lower(k), "", Lower(v), BEARER);
    AllTokenFreeParts(k, v);
  }

  /** A token has no room inside the marker, and does not reach across its brackets. */
  lemma TokenFreeAround(k: string, v: string, q: string)
    requires PrefixShape(q) && TokenFree(k, q) && TokenFree(v, q)
    ensures TokenFree(k + REDACTED + v, q)
  {
    var text, length := k + REDACTED + v, |q| + MIN_TOKEN_BODY;
    forall i ensures !TokenAt(text, i, q) {
      if i < 0 || i + length > |text| {
      } else if i + length <= |k| {
        TokenAtMiddle("", k, REDACTED + v, i, q);
        assert "" + k + (REDACTED + v) == text;
      } else if i >= |k| + |REDACTED| {
        TokenAtMiddle(k + REDACTED, v, "", i - |k| - |REDACTED|, q);
        assert (k + REDACTED) + v + "" == text;
      } else {
        var b := if i <= |k| then |k| else |k| + |REDACTED| - 1;
        assert i <= b < i + length && !IsTokenChar(text[b]);
      }
    }
  }

  lemma AllTokenFreeAround(k: string, v: string)
    requires AllTokenFree(k) && AllTokenFree(v)
    ensures AllTokenFree(k + REDACTED + v)
  {
    hide TOKEN_PREFIXES, TokenFree, REDACTED;
    TokenPrefixShapes();
    forall q | 0 <= q < |TOKEN_PREFIXES| ensures TokenFree(k + REDACTED + v, TOKEN_PREFIXES[q]) {
      TokenFreeAround(k, v, TOKEN_PREFIXES[q]);
    }
  }

  lemma DashesDisjoint()
    ensures Disjoint(DASHES, REDACTED)
  {
    AbsentByChar(REDACTED, DASHES, 0);
    BracketFreeDisjoint(DASHES);
  }

  /** The marker joins harmless texts into a harmless one. */
  lemma HarmlessAround(k: string, v: string)
    requires Harmless(k) && Harmless(v)
    ensures Harmless(k + REDACTED + v)
  {
    hide AllTokenFree, Absent, Disjoint, REDACTED;
    DashesDisjoint();
    SpliceAbsent(k, REDACTED, v, DASHES);
    BearerDisjointFromMarker();
    LowerSplice(k, REDACTED, v);
    SpliceAbsent(Lower(k), Lower(REDACTED), Lower(v), BEARER);
    AllTokenFreeAround(k, v);
  }

  /** Parts of the marker are harmless. */
  lemma MarkerPartHarmless(s: string)
    requires Contains(REDACTED, s)
    ensures Harmless(s) && forall c | c in s :: c in REDACTED
  {
    FindFirst(REDACTED, s, 0);
    var o := Find(REDACTED, s, 0).value;
    forall c | c in s ensures c in REDACTED {
      var j :| 0 <= j < |s| && s[j] == c;
      assert REDACTED[o + j] == c;
    }
    assert '-' !in s && '_' !in s && ' ' !in s;
    AbsentByChar(s, DASHES, 0);
    assert forall i :: 0 <= i < |s| ==> s[i] in s && Lower(s)[i] != ' ';
    AbsentByChar(Lower(s), BEARER, 6);
    NoTokensWithout(s);
  }

  // ---------------------------------------------------------------- a secret inside the marker

  lemma OneSecretStage(text: string, s: string, r: string)
    requires s != ""
    ensures SecretStage(text, [s], r) == SecretCuts(text, s).Output(r)
  {
  }

  lemma MatchesItself(s: string)
    ensures MatchAt(s, 0, s)
  {
  }

  lemma NoMatchBySecond(text: string, s: string)
    requires |s| >= 2 && |text| >= 2 && text[1] != s[1]
    ensures !MatchAt(text, 0, s)
  {
    assert text[0 + 1] != s[1];
  }

  lemma SecondCopyFirst(s: string)
    requires |s| >= 2 && s[0] != s[1]
    ensures Find(s[..1] + s + s[1..], s, 0) == Some(1)
  {
    hide Find, MatchAt;
    var text := s[..1] + s + s[1..];
    FindFirst(text, s, 0);
    MatchesItself(s);
    MatchInMiddle(s[..1], s, s[1..], 0, s);
    NoMatchBySecond(text, s);
  }

  /** Removing the middle copy of `s` leaves the outer halves to form it again. */
  lemma SecretRejoins(s: string)
    requires |s| >= 2 && s[0] != s[1]
    ensures SecretStage(s[..1] + s + s[1..], [s], "") == s
  {
    hide MatchAt, Find;
    var text := s[..1] + s + s[1..];
    SecondCopyFirst(s);
    assert text[..1] == s[..1] && text[1 + |s|..] == s[1..];
    TooShort(s[1..], s);
    OneSecretStage(text, s, "");
    assert s[..1] + "" + s[1..] == s;
  }

  lemma TooShort(text: string, s: string)
    requires |text| < |s|
    ensures SecretCuts(text, s) == Rest(text)
  {
  }

  /** No two neighbours in the marker are equal. */
  lemma MarkerNeighboursDiffer(s: string, o: nat)
    requires |s| >= 2 && MatchAt(REDACTED, o, s)
    ensures s[0] != s[1]
  {
    assert REDACTED[o + 0] == s[0] && REDACTED[o + 1] == s[1];
  }

  lemma LeakUnderEmpty(s: string)
    requires Contains(REDACTED, s) && !Disjoint(s, "")
    ensures exists text :: !Absent(Redacted(text, [s], ""), s)
  {
    hide Patterns, SecretStage, Harmless;
    FindFirst(REDACTED, s, 0);
    var o := Find(REDACTED, s, 0).value;
    MarkerNeighboursDiffer(s, o);
    SecretRejoins(s);
    MarkerPartHarmless(s);
    HarmlessUnchanged(s, "");
    var text := s[..1] + s + s[1..];
    assert MatchAt(s, 0, s);
    assert !Absent(Redacted(text, [s], ""), s);
  }

  // ---------------------------------------------------------------- a secret overlapping the marker's edge

  const BLOCK := Begin("PRIVATE KEY") + End("PRIVATE KEY")

  lemma BlockShape()
    ensures |BLOCK| == 52 && |Begin("PRIVATE KEY")| == 27 && |End("PRIVATE KEY")| == 25
    ensures BLOCK[0] == '-' && BLOCK[|BLOCK| - 1] == '-' && '[' !in BLOCK && ']' !in BLOCK
    ensures MatchAt(BLOCK, 0, Begin("PRIVATE KEY")) && MatchAt(BLOCK, 27, End("PRIVATE KEY"))
    ensures forall o :: 0 <= o < 27 ==> !MatchAt(BLOCK, o, End("PRIVATE KEY"))
  {
    var end := End("PRIVATE KEY");
    assert end[0] == '-' && end[4] == '-' && end[5] == 'E';
    assert BLOCK[5] == 'B' && forall p :: 6 <= p < 22 ==> BLOCK[p] != '-';
    assert forall p :: 27 <= p < 32 ==> BLOCK[p] == '-';
    forall o | 0 <= o < 27 ensures !MatchAt(BLOCK, o, end) {
      if o == 0 || o >= 22 {
        assert BLOCK[o + 5] != end[5];
      } else if o <= 5 {
        assert forall q :: 0 <= q < 5 ==> end[q] == '-';
        assert BLOCK[o + (5 - o)] != end[5 - o];
      } else {
        assert BLOCK[o + 0] != end[0];
      }
    }
  }

  lemma BlockReplaced(k: string, v: string)
    requires Harmless(k) && Harmless(v)
    ensures Patterns(k + BLOCK + v, REDACTED) == k + REDACTED + v
  {
    hide PemStage, BearerCuts, PrefixStage, TOKEN_PREFIXES, PRIVATE_KEY_LABELS, BLOCK, Harmless;
    var out := k + REDACTED + v;
    HarmlessAround(k, v);
    BlockPem(k, v);
    PemUnchanged(out);
    HarmlessUnchanged(out, REDACTED);
  }

  lemma PemUnchanged(text: string)
    requires Harmless(text)
    ensures PemStage(text, PRIVATE_KEY_LABELS, REDACTED) == text
  {
    hide PemStage, PRIVATE_KEY_LABELS, AllTokenFree, Absent;
    HarmlessHeaderFree(text);
    HeaderFreeUnchanged(text, REDACTED);
  }

  /** Dashes before the block do not make its header start any earlier. */
  lemma BlockFound(k: string, v: string)
    requires Absent(k, DASHES)
    ensures Find(k + BLOCK + v, Begin("PRIVATE KEY"), 0) == Some(|k|)
  {
    hide Find, BLOCK;
    BlockShape();
    var text, header := k + BLOCK + v, Begin("PRIVATE KEY");
    FindFirst(text, header, 0);
    MatchInMiddle(k, BLOCK, v, 0, header);
    forall i | 0 <= i < |k| ensures !MatchAt(text, i, header) {
      NotBeforeBlock(k, v, i);
    }
  }

  lemma NotBeforeBlock(k: string, v: string, i: nat)
    requires Absent(k, DASHES) && i < |k|
    ensures !MatchAt(k + BLOCK + v, i, Begin("PRIVATE KEY"))
  {
    var text, header := k + BLOCK + v, Begin("PRIVATE KEY");
    assert header[5] == 'B';
    if i + 5 <= |k| {
      assert !MatchAt(k, i, DASHES);
      var j :| 0 <= j < |DASHES| && k[i + j] != DASHES[j];
      assert text[i + j] == k[i + j] && header[j] == DASHES[j];
    } else {
      assert text[i + 5] == BLOCK[i + 5 - |k|] == '-';
    }
  }

  lemma FindInside(k: string, m: string, v: string, pat: string, n: nat)
    requires MatchAt(m, n, pat) && forall o :: 0 <= o < n ==> !MatchAt(m, o, pat)
    ensures Find(k + m + v, pat, |k|) == Some(|k| + n)
  {
    hide Find;
    var text := k + m + v;
    FindFirst(text, pat, |k|);
    MatchInMiddle(k, m, v, n, pat);
    forall i | |k| <= i < |k| + n ensures !MatchAt(text, i, pat) {
      MatchInMiddle(k, m, v, i - |k|, pat);
    }
  }

  lemma BlockPem(k: string, v: string)
    requires Harmless(k) && Harmless(v)
    ensures PemStage(k + BLOCK + v, PRIVATE_KEY_LABELS, REDACTED) == k + REDACTED + v
  {
    hide BLOCK, HeaderFree, PemStage, WithoutBlocks, Find, MatchAt, AllTokenFree;
    var kind := PRIVATE_KEY_LABELS[0];
    BlockShape();
    BlockFound(k, v);
    FindInside(k, BLOCK, v, End(kind), 27);
    HarmlessAround(k, v);
    BlockCutOut(k + BLOCK + v, k, BLOCK, v, kind);
    HarmlessHeaderFree(k + REDACTED + v);
    AllHeadersAbsent(k + REDACTED + v);
    PemStageFirst(k + BLOCK + v, k + REDACTED + v, PRIVATE_KEY_LABELS);
  }

  lemma AllHeadersAbsent(text: string)
    requires HeaderFree(text)
    ensures forall k :: 0 <= k < |PRIVATE_KEY_LABELS| ==> Absent(text, Begin(PRIVATE_KEY_LABELS[k]))
  {
    hide PRIVATE_KEY_LABELS;
  }

  lemma BlockCutOut(text: string, k: string, m: string, v: string, kind: string)
    requires text == k + m + v && Absent(k + REDACTED + v, DASHES)
    requires Find(text, Begin(kind), 0) == Some(|k|)
    requires |m| >= |End(kind)| && Find(text, End(kind), |k|) == Some(|k| + |m| - |End(kind)|)
    ensures WithoutBlocks(text, kind, REDACTED) == k + REDACTED + v
  {
    hide Find, MatchAt, WithoutBlocks, Begin, End, Splice, REDACTED, BlockEnd, Absent;
    WithoutBlocksStep(text, kind, |k|);
    BlockEndsAt(text, kind, |k|, |k| + |m| - |End(kind)|);
    SpliceMiddle(k, m, v, REDACTED);
    NoBlocksLeft(k + REDACTED + v, kind);
  }

  lemma BlockEndsAt(text: string, kind: string, start: nat, footer: nat)
    requires start + |Begin(kind)| <= |text| && Find(text, End(kind), start) == Some(footer)
    ensures BlockEnd(text, kind, start) == footer + |End(kind)|
  {
    hide Find, Begin, End;
  }

  lemma SpliceMiddle(k: string, m: string, v: string, r: string)
    ensures Splice(k + m + v, |k|, |k| + |m|, r) == k + r + v
  {
    assert (k + m + v)[..|k|] == k && (k + m + v)[|k| + |m|..] == v;
  }

  lemma WithoutBlocksStep(text: string, kind: string, start: nat)
    requires Find(text, Begin(kind), 0) == Some(start)
    ensures start + |Begin(kind)| <= |text|
    ensures WithoutBlocks(text, kind, REDACTED)
         == WithoutBlocks(Splice(text, start, BlockEnd(text, kind, start), REDACTED), kind, REDACTED)
  {
  }

  lemma NoBlocksLeft(text: string, kind: string)
    requires Absent(text, DASHES)
    ensures WithoutBlocks(text, kind, REDACTED) == text
  {
    AbsentByStart(text, kind);
    FindFirst(text, Begin(kind), 0);
  }

  lemma PemStageFirst(text: string, out: string, kinds: seq<string>)
    requires kinds != [] && WithoutBlocks(text, kinds[0], REDACTED) == out
    requires forall k :: 0 <= k < |kinds| ==> Absent(out, Begin(kinds[k]))
    ensures PemStage(text, kinds, REDACTED) == out
  {
    assert forall k :: 0 <= k < |kinds[1..]| ==> kinds[1..][k] == kinds[k + 1];
    PemStageUnchanged(out, kinds[1..], REDACTED);
  }

  /** Where `s` sticks out of the marker it is laid over at `d`, to the left and to the right. */
  function LeftPart(s: string, d: int): string
    requires -|s| < d
  {
    if d < 0 then s[..-d] else ""
  }

  function RightPart(s: string, d: int): string
    requires d < |REDACTED|
  {
    if |REDACTED| - d < |s| then s[|REDACTED| - d..] else ""
  }

  /** With a block in the place of the marker there is no occurrence: it would need a bracket of its own. */
  lemma AbsentAroundBlock(s: string, d: int)
    requires s != "" && -|s| < d < |REDACTED| && !Clash(s, REDACTED, d) && Absent(REDACTED, s)
    ensures Absent(LeftPart(s, d) + BLOCK + RightPart(s, d), s)
  {
    hide BLOCK, Absent;
    BlockShape();
    var k, v := LeftPart(s, d), RightPart(s, d);
    var text := k + BLOCK + v;
    var b := if d < 0 then -d else |REDACTED| - 1 - d;
    BracketWithin(s, d);
    forall i ensures !MatchAt(text, i, s) {
      if 0 <= i && i + |s| <= |text| {
        assert |k| <= i + b < |k| + 52;
        assert text[i + b] == BLOCK[i + b - |k|] && BLOCK[i + b - |k|] in BLOCK;
      }
    }
    NoMatchAbsent(text, s);
  }

  lemma NoMatchAbsent(text: string, s: string)
    requires forall i :: !MatchAt(text, i, s)
    ensures Absent(text, s)
  {
  }

  lemma BracketWithin(s: string, d: int)
    requires s != "" && -|s| < d < |REDACTED| && !Clash(s, REDACTED, d) && Absent(REDACTED, s)
    ensures var b := if d < 0 then -d else |REDACTED| - 1 - d;
            0 <= b < |s| && s[b] == if d < 0 then '[' else ']'
  {
    if d < 0 {
      assert s[-d] == REDACTED[d + -d];
    } else if |s| <= |REDACTED| - d {
      forall j | 0 <= j < |s| ensures REDACTED[d + j] == s[j] {
      }
      assert MatchAt(REDACTED, d, s);
    } else {
      var b := |REDACTED| - 1 - d;
      assert s[b] == REDACTED[d + b];
    }
  }

  lemma PartsHarmless(s: string, d: int)
    requires Harmless(s) && -|s| < d < |REDACTED|
    ensures Harmless(LeftPart(s, d)) && Harmless(RightPart(s, d))
  {
    hide Harmless;
    HarmlessParts(s, 0);
    assert s[..0] == "";
    if d < 0 {
      HarmlessParts(s, -d);
    }
    if |REDACTED| - d < |s| {
      HarmlessParts(s, |REDACTED| - d);
    }
  }

  /** What `s` overlaps, completed: an output, and `s` in it. */
  lemma LeakedText(s: string, d: int)
    requires s != "" && Harmless(s) && Absent(REDACTED, s) && -|s| < d < |REDACTED| && !Clash(s, REDACTED, d)
    ensures var k, v := LeftPart(s, d), RightPart(s, d);
            && Redacted(k + BLOCK + v, [s], REDACTED) == k + REDACTED + v
            && Harmless(k + REDACTED + v) && MatchAt(k + REDACTED + v, |k| + d, s)
  {
    hide Patterns, SecretStage, BLOCK, Harmless, Absent, MatchAt, Clash;
    var k, v := LeftPart(s, d), RightPart(s, d);
    AbsentAroundBlock(s, d);
    SecretStageUnchanged(k + BLOCK + v, [s], REDACTED);
    PartsHarmless(s, d);
    BlockReplaced(k, v);
    HarmlessAround(k, v);
    OverlapCompleted(s, d, k, v);
  }

  lemma LeakUnderMarker(s: string)
    requires s != "" && Harmless(s) && !Contains(REDACTED, s) && !Disjoint(s, REDACTED)
    ensures exists text :: !Absent(Redacted(text, [s], REDACTED), s)
  {
    hide Redacted, BLOCK, Harmless, MatchAt, Clash;
    FindFirst(REDACTED, s, 0);
    var d :| -|s| < d < |REDACTED| && !Clash(s, REDACTED, d);
    LeakedText(s, d);
    assert !Absent(Redacted(LeftPart(s, d) + BLOCK + RightPart(s, d), [s], REDACTED), s);
  }

  lemma OverlapCompleted(s: string, d: int, k: string, v: string)
    requires s != "" && -|s| < d < |REDACTED| && !Clash(s, REDACTED, d)
    requires k == if d < 0 then s[..-d] else ""
    requires v == if |REDACTED| - d < |s| then s[|REDACTED| - d..] else ""
    ensures MatchAt(k + REDACTED + v, |k| + d, s)
  {
    var out := k + REDACTED + v;
    forall j | 0 <= j < |s| ensures |k| + d + j < |out| && out[|k| + d + j] == s[j] {
      if 0 <= d + j < |REDACTED| {
        assert out[|k| + d + j] == REDACTED[d + j];
      }
    }
  }

  // ---------------------------------------------------------------- exactly which secrets are safe

  /**
   * A configured secret that is harmless itself is absent from every output exactly when it cannot
   * overlap the chosen replacement.
   */
  lemma SecretSafeExactly(s: string)
    requires s != "" && Harmless(s)
    ensures var r := ReplacementFor([s]);
            (forall text :: Absent(Redacted(text, [s], r), s)) <==> Disjoint(s, r)
  {
    hide Redacted, Disjoint, Harmless;
    var r := ReplacementFor([s]);
    assert [s][0] == s;
    if Disjoint(s, r) {
      forall text ensures Absent(Redacted(text, [s], r), s) {
        SecretAbsent(text, [s], r, 0);
      }
    } else if r == "" {
      LeakUnderEmpty(s);
    } else {
      LeakUnderMarker(s);
    }
  }

  /**
   * Over all configurations that hold a harmless secret and get the marker, whatever other secrets there
   * are: it is absent from every output exactly when it cannot overlap the marker.
   */
  lemma SecretSafeWithMarkerExactly(s: string)
    requires s != "" && Harmless(s) && !Contains(REDACTED, s)
    ensures (forall secrets, k: nat, text |
               NonEmpty(secrets) && k < |secrets| && secrets[k] == s && ReplacementFor(secrets) == REDACTED ::
               Absent(Redacted(text, secrets, REDACTED), s)) <==> Disjoint(s, REDACTED)
  {
    hide Redacted, Disjoint, Harmless, Absent;
    if Disjoint(s, REDACTED) {
      forall secrets, k: nat, text |
        NonEmpty(secrets) && k < |secrets| && secrets[k] == s && ReplacementFor(secrets) == REDACTED
        ensures Absent(Redacted(text, secrets, REDACTED), s)
      {
        SecretAbsent(text, secrets, REDACTED, k);
      }
    } else {
      LeakUnderMarker(s);
      assert [s][0] == s;
    }
  }

  // ---------------------------------------------------------------- a secret is replaced as a whole

  /** No secret is part of one that comes after it, so none breaks a longer one. */
  predicate NoneBreaksALater(secrets: seq<string>) {
    forall i, j :: 0 <= i < j < |secrets| ==> !Contains(secrets[j], secrets[i])
  }

  lemma {:induction false} SecretStageCutsOne(u: string, s: string, v: string, secrets: seq<string>, r: string, k: nat)
    requires NonEmpty(secrets) && k < |secrets| && secrets[k] == s
    requires forall i :: 0 <= i < k ==> Absent(u + s + v, secrets[i])
    requires forall i :: k < i < |secrets| ==> Absent(u + r + v, secrets[i])
    requires Find(u + s + v, s, 0) == Some(|u|) && Absent(v, s)
    ensures SecretStage(u + s + v, secrets, r) == u + r + v
    decreases |secrets|
  {
    hide Find, Absent, SecretCuts;
    var text, rest := u + s + v, secrets[1..];
    assert forall i :: 0 <= i < |rest| ==> rest[i] == secrets[i + 1];
    if k == 0 {
      OneSecretCut(u, s, v);
      assert SecretCuts(text, s).Output(r) == u + r + v;
      SecretStageUnchanged(u + r + v, rest, r);
    } else {
      AbsentSecretCuts(text, secrets[0]);
      SecretStageCutsOne(u, s, v, rest, r, k - 1);
    }
  }

  lemma AbsentSecretCuts(text: string, s: string)
    requires s != "" && Absent(text, s)
    ensures SecretCuts(text, s) == Rest(text)
  {
    FindFirst(text, s, 0);
  }

  lemma OneSecretCut(u: string, s: string, v: string)
    requires s != "" && Find(u + s + v, s, 0) == Some(|u|) && Absent(v, s)
    ensures SecretCuts(u + s + v, s) == Cut(u, s, Rest(v))
  {
    hide Find;
    AbsentSecretCuts(v, s);
    assert (u + s + v)[..|u|] == u && (u + s + v)[|u| + |s|..] == v;
  }

  /** Every occurrence of a secret in the text is within the copy of `s` that starts at `at`. */
  ghost predicate OnlyWithin(text: string, at: nat, s: string, secrets: seq<string>) {
    forall i, o :: 0 <= i < |secrets| && MatchAt(text, o, secrets[i]) ==> at <= o && o + |secrets[i]| <= at + |s|
  }

  /** Then it is absent, if it is no part of `s`. */
  lemma NotPartAbsent(u: string, s: string, v: string, secrets: seq<string>, i: nat)
    requires i < |secrets| && OnlyWithin(u + s + v, |u|, s, secrets) && !Contains(s, secrets[i])
    ensures Absent(u + s + v, secrets[i])
  {
    FindFirst(s, secrets[i], 0);
    forall o ensures !MatchAt(u + s + v, o, secrets[i]) {
      if |u| <= o && o + |secrets[i]| <= |u| + |s| {
        MatchInMiddle(u, s, v, o - |u|, secrets[i]);
      }
    }
  }

  lemma BothSidesFree(u: string, s: string, v: string, secrets: seq<string>, i: nat)
    requires NonEmpty(secrets) && i < |secrets| && s != "" && OnlyWithin(u + s + v, |u|, s, secrets)
    ensures Absent(u, secrets[i]) && Absent(v, secrets[i])
  {
    var text, t := u + s + v, secrets[i];
    forall o ensures !MatchAt(u, o, t) && !MatchAt(v, o, t) {
      if 0 <= o && o + |t| <= |u| {
        MatchInMiddle("", u, s + v, o, t);
        assert "" + u + (s + v) == text;
      }
      if 0 <= o && o + |t| <= |v| {
        MatchInMiddle(u + s, v, "", o, t);
        assert (u + s) + v + "" == text;
      }
    }
  }

  lemma SecretFirstAt(u: string, s: string, v: string, secrets: seq<string>, k: nat)
    requires k < |secrets| && secrets[k] == s && OnlyWithin(u + s + v, |u|, s, secrets)
    ensures Find(u + s + v, s, 0) == Some(|u|)
  {
    hide Find;
    FindFirst(u + s + v, s, 0);
    MatchesItself(s);
    MatchInMiddle(u, s, v, 0, s);
  }

  /** A configured secret in a text is replaced in one piece, though shorter ones may be parts of it. */
  lemma SecretReplaced(u: string, v: string, secrets: seq<string>, r: string, k: nat)
    requires ValidReplacement(r) && NonEmpty(secrets) && k < |secrets| && NoneBreaksALater(secrets)
    requires OnlyWithin(u + secrets[k] + v, |u|, secrets[k], secrets)
    requires forall i :: k < i < |secrets| ==> Disjoint(secrets[i], r)
    ensures Redacted(u + secrets[k] + v, secrets, r) == Patterns(u + r + v, r)
  {
    hide Patterns, SecretStage, OnlyWithin, Absent, Disjoint, Contains, Find;
    var s := secrets[k];
    forall i | 0 <= i < k ensures Absent(u + s + v, secrets[i]) {
      NotPartAbsent(u, s, v, secrets, i);
    }
    forall i | k < i < |secrets| ensures Absent(u + r + v, secrets[i]) {
      BothSidesFree(u, s, v, secrets, i);
      SpliceAbsent(u, r, v, secrets[i]);
    }
    BothSidesFree(u, s, v, secrets, k);
    SecretFirstAt(u, s, v, secrets, k);
    SecretStageCutsOne(u, s, v, secrets, r, k);
  }

  lemma ReplacementUnchanged(r: string)
    requires ValidReplacement(r)
    ensures Patterns(r, r) == r
  {
    hide Patterns, Harmless;
    FindFirst(REDACTED, REDACTED, 0);
    MatchesItself(REDACTED);
    MarkerPartHarmless(REDACTED);
    HarmlessParts(REDACTED, 0);
    assert REDACTED[..0] == "";
    HarmlessUnchanged(r, r);
  }

  /** Alone, every configured secret is redacted to the replacement, whichever is chosen. */
  lemma WholeSecretReplaced(secrets: seq<string>, k: nat)
    requires NonEmpty(secrets) && k < |secrets| && NoneBreaksALater(secrets)
    ensures var r := ReplacementFor(secrets); Redacted(secrets[k], secrets, r) == r
  {
    hide Patterns, SecretStage, Find;
    var s, r := secrets[k], ReplacementFor(secrets);
    forall i | 0 <= i < k ensures Absent(s, secrets[i]) {
      FindFirst(s, secrets[i], 0);
    }
    forall i | k < i < |secrets| ensures Absent(r, secrets[i]) {
      FindFirst(REDACTED, secrets[i], 0);
    }
    assert "" + s + "" == s && "" + r + "" == r;
    FindFirst(s, s, 0);
    MatchesItself(s);
    SecretStageCutsOne("", s, "", secrets, r, k);
    ReplacementUnchanged(r);
  }

  // ---------------------------------------------------------------- a secret that holds a credential

  /** A string that holds a whole token is absent from every output, whatever is configured and put in its place. */
  lemma TokenAbsent(s: string, text: string, secrets: seq<string>, r: string)
    requires ValidReplacement(r) && NonEmpty(secrets) && !AllTokenFree(s)
    ensures Absent(Redacted(text, secrets, r), s)
  {
    hide Redacted, Absent, TokenFree, TOKEN_PREFIXES;
    var k :| 0 <= k < |TOKEN_PREFIXES| && !TokenFree(s, TOKEN_PREFIXES[k]);
    RedactedTokenFree(text, secrets, r, k);
    TokenInside(Redacted(text, secrets, r), s, TOKEN_PREFIXES[k]);
  }

  /** So is one that holds a whole header, with every configuration for which the marker is chosen. */
  lemma HeaderAbsent(s: string, text: string, secrets: seq<string>)
    requires NonEmpty(secrets) && ReplacementFor(secrets) == REDACTED && !HeaderFree(s)
    ensures Absent(Redacted(text, secrets, REDACTED), s)
  {
    hide Patterns, SecretStage, Absent, PRIVATE_KEY_LABELS, ReplacementFor;
    PatternsHeaderFree(SecretStage(text, secrets, REDACTED));
    var k :| 0 <= k < |PRIVATE_KEY_LABELS| && !Absent(s, Begin(PRIVATE_KEY_LABELS[k]));
    PatternInside(Redacted(text, secrets, REDACTED), s, Begin(PRIVATE_KEY_LABELS[k]));
  }

  /** And one that holds `bearer ` and the start of a word other than the marker. */
  lemma BearerAbsent(s: string, i: nat, text: string, secrets: seq<string>)
    requires NonEmpty(secrets) && ReplacementFor(secrets) == REDACTED
    requires BearerAt(s, i) && i + |BEARER| < |s| && !IsWhitespace(s[i + |BEARER|]) && s[i + |BEARER|] != '['
    ensures Absent(Redacted(text, secrets, REDACTED), s)
  {
    hide Patterns, SecretStage, BearerHidden, ReplacementFor;
    PatternsBearerHidden(SecretStage(text, secrets, REDACTED));
    BearerInside(Redacted(text, secrets, REDACTED), s, i);
  }

  /** Configured alone, a secret of either kind is absent without any condition: it makes the marker the choice. */
  lemma CredentialSecretAbsent(s: string, text: string)
    requires s != "" && !(AllTokenFree(s) && HeaderFree(s))
    ensures Absent(Redacted(text, [s], ReplacementFor([s])), s)
  {
    hide Redacted, Absent, AllTokenFree, HeaderFree;
    if !AllTokenFree(s) {
      TokenAbsent(s, text, [s], ReplacementFor([s]));
    } else {
      HeaderSecretMarker(s);
      HeaderAbsent(s, text, [s]);
    }
  }

  lemma BearerSecretAbsent(s: string, i: nat, text: string)
    requires BearerAt(s, i) && i + |BEARER| < |s| && !IsWhitespace(s[i + |BEARER|]) && s[i + |BEARER|] != '['
    ensures Absent(Redacted(text, [s], ReplacementFor([s])), s)
  {
    hide Redacted, Absent;
    BearerSecretMarker(s, i);
    BearerAbsent(s, i, text, [s]);
  }

  lemma BearerSecretMarker(s: string, i: nat)
    requires BearerAt(s, i)
    ensures s != "" && ReplacementFor([s]) == REDACTED
  {
    if Contains(REDACTED, s) {
      MarkerPartHarmless(s);
    }
    assert forall k :: 0 <= k < |[s]| ==> [s][k] == s;
  }

  lemma BearerInside(text: string, s: string, i: nat)
    requires BearerHidden(text)
    requires BearerAt(s, i) && i + |BEARER| < |s| && !IsWhitespace(s[i + |BEARER|]) && s[i + |BEARER|] != '['
    ensures Absent(text, s)
  {
    hide BEARER, REDACTED;
    MarkerStart();
    forall o ensures !MatchAt(text, o, s) {
      if 0 <= o && o + |s| <= |text| {
        MatchIsSlice(text, o, s);
        if text[o..o + |s|] == s {
          BearerShifted(text, o, s, i);
        }
      }
    }
  }

  lemma MarkerStart()
    ensures REDACTED[0] == '[' && |REDACTED| > 0
  {
  }

  lemma BearerShifted(text: string, o: nat, s: string, i: nat)
    requires o + |s| <= |text| && text[o..o + |s|] == s && BearerAt(s, i)
    ensures BearerAt(text, o + i) && (i + |BEARER| < |s| ==> text[o + i + |BEARER|] == s[i + |BEARER|])
  {
    hide BEARER;
    assert i + |BEARER| < |s| ==> text[o + (i + |BEARER|)] == text[o..o + |s|][i + |BEARER|];
    forall j | 0 <= j < |BEARER| ensures Lower(text)[o + i + j] == BEARER[j] {
      assert text[o + i + j] == text[o..o + |s|][i + j];
    }
  }

  lemma SecretThenPatterns(text: string, s: string, r: string)
    requires s != "" && ValidReplacement(r)
    ensures Redacted(text, [s], r) == Patterns(SecretStage(text, [s], r), r)
  {
    hide Patterns, SecretStage;
  }

  /** A header does not fit in the marker, so the marker is chosen. */
  lemma HeaderSecretMarker(s: string)
    requires !HeaderFree(s)
    ensures ReplacementFor([s]) == REDACTED
  {
    if Contains(REDACTED, s) {
      MarkerPartHarmless(s);
      HarmlessHeaderFree(s);
    }
    assert forall k :: 0 <= k < |[s]| ==> [s][k] == s;
  }

  lemma PatternInside(text: string, s: string, pat: string)
    requires Absent(text, pat) && !Absent(s, pat)
    ensures Absent(text, s)
  {
    var o :| MatchAt(s, o, pat);
    forall i ensures !MatchAt(text, i, s) {
      if MatchAt(text, i, s) {
        assert !MatchAt(text, i + o, pat);
        assert forall j {:trigger pat[j]} :: 0 <= j < |pat| ==>
                 text[i + o + j] == text[i + (o + j)] == s[o + j] == pat[j];
      }
    }
  }

  lemma TokenInside(text: string, s: string, q: string)
    requires TokenFree(text, q) && !TokenFree(s, q)
    ensures Absent(text, s)
  {
    var o :| TokenAt(s, o, q);
    var length := |q| + MIN_TOKEN_BODY;
    forall i ensures !MatchAt(text, i, s) {
      if 0 <= i && i + |s| <= |text| {
        TokenInsideAt(text, i, s, o, q);
      }
    }
  }

  lemma TokenInsideAt(text: string, i: nat, s: string, o: int, q: string)
    requires TokenFree(text, q) && TokenAt(s, o, q) && i + |s| <= |text|
    ensures !MatchAt(text, i, s)
  {
    assert !TokenAt(text, i + o, q);
    MatchIsSlice(text, i, s);
    if text[i..i + |s|] == s {
      assert text == text[..i] + s + text[i + |s|..];
      TokenAtMiddle(text[..i], s, text[i + |s|..], o, q);
    }
  }

  lemma MatchIsSlice(text: string, i: nat, s: string)
    requires i + |s| <= |text|
    ensures MatchAt(text, i, s) <==> text[i..i + |s|] == s
  {
    if text[i..i + |s|] == s {
      forall j | 0 <= j < |s| ensures text[i + j] == s[j] {
        assert text[i + j] == text[i..i + |s|][j];
      }
    }
  }

  /** A one-character secret never survives, whichever replacement the configuration gets. */
  lemma OneCharacterSecretAbsent(text: string, secrets: seq<string>, k: nat)
    requires NonEmpty(secrets) && k < |secrets| && |secrets[k]| == 1
    ensures Absent(Redacted(text, secrets, ReplacementFor(secrets)), secrets[k])
  {
    var r, s := ReplacementFor(secrets), secrets[k];
    FindFirst(REDACTED, s, 0);
    forall i | 0 <= i < |r| ensures r[i] != s[0] {
      assert !MatchAt(REDACTED, i, s);
    }
    SingleCharacterDisjoint(s, r);
    SecretAbsent(text, secrets, r, k);
  }

  /** A bracket-free secret never survives when no secret is part of the marker. */
  lemma BracketFreeSecretAbsent(text: string, secrets: seq<string>, k: nat)
    requires NonEmpty(secrets) && k < |secrets| && '[' !in secrets[k] && ']' !in secrets[k]
    requires forall j :: 0 <= j < |secrets| ==> !Contains(REDACTED, secrets[j])
    ensures Absent(Redacted(text, secrets, ReplacementFor(secrets)), secrets[k])
  {
    FindFirst(REDACTED, secrets[k], 0);
    BracketFreeDisjoint(secrets[k]);
    SecretAbsent(text, secrets, REDACTED, k);
  }
}
