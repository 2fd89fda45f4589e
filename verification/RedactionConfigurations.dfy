/**
 * What depends on the configuration. The empty replacement is only chosen for a configured secret, and
 * that secret is deleted first; which guarantees are left is said here of whole configurations.
 */
module RedactionConfigurations {
  import opened Text
  import opened Redaction
  import opened RedactionProofs
  import opened RedactionTokens
  import opened RedactionTheorems
  import opened RedactionSecrets

  // ---------------------------------------------------------------- a secret that is part of the marker

  /** It leaves text without the marker's characters alone. */
  lemma MarkerPartIdle(s: string, text: string)
    requires s != "" && Contains(REDACTED, s) && forall c | c in text :: c !in REDACTED
    ensures SecretStage(text, [s], "") == text
  {
    hide SecretStage;
    MarkerPartHarmless(s);
    assert s[0] in s;
    AbsentByChar(text, s, 0);
    SecretStageUnchanged(text, [s], "");
  }

  lemma ChosenEmpty(s: string)
    ensures ReplacementFor([s]) == "" <==> Contains(REDACTED, s)
    ensures ReplacementFor([s]) == REDACTED <==> !Contains(REDACTED, s)
  {
    assert [s][0] == s;
  }

  const BEARER_TEXT := "bearer" + SHORT_TOKEN + " s"

  lemma BearerTextPlain()
    ensures forall c | c in BEARER_TEXT :: c !in REDACTED
    ensures forall c | c in "bearer s" :: c !in REDACTED
  {
  }

  /** With any secret for which the empty replacement is chosen, redaction itself uncovers a bearer token. */
  lemma EmptyReplacementUncoversBearer(s: string)
    requires s != "" && ReplacementFor([s]) == ""
    ensures Redacted(BEARER_TEXT, [s], "") == "bearer s" && !BearerHidden("bearer s")
    ensures Redacted("bearer s", [s], "") != "bearer s"
  {
    hide Patterns, SecretStage, BearerHidden, Contains, BEARER_TEXT;
    ChosenEmpty(s);
    BearerTextPlain();
    MarkerPartIdle(s, BEARER_TEXT);
    MarkerPartIdle(s, "bearer s");
    SecretThenPatterns(BEARER_TEXT, s, "");
    SecretThenPatterns("bearer s", s, "");
    BearerTextIs();
    CutUncoversBearer();
  }

  lemma BearerTextIs()
    ensures BEARER_TEXT == "bearer" + SHORT_TOKEN + " s"
  {
  }

  const HEADER_TEXT := "-----BEGIN" + SHORT_TOKEN + " PRIVATE KEY-----"

  lemma HeaderTextIs()
    ensures HEADER_TEXT == "-----BEGIN" + SHORT_TOKEN + " PRIVATE KEY-----"
  {
  }

  /** With a secret that does not occur in it, the same happens to a header. */
  lemma EmptyReplacementUncoversHeader(s: string)
    requires s != "" && ReplacementFor([s]) == "" && Absent(HEADER_TEXT, s)
    ensures Redacted(HEADER_TEXT, [s], "") == Begin("PRIVATE KEY") && !HeaderFree(Begin("PRIVATE KEY"))
  {
    hide Patterns, SecretStage, HEADER_TEXT, Contains;
    SecretStageUnchanged(HEADER_TEXT, [s], "");
    SecretThenPatterns(HEADER_TEXT, s, "");
    HeaderTextIs();
    CutUncoversHeader();
    HeaderItself();
  }

  lemma HeaderItself()
    ensures !HeaderFree(Begin("PRIVATE KEY"))
  {
    var header := Begin(PRIVATE_KEY_LABELS[0]);
    assert MatchAt(header, 0, header);
  }

  // ---------------------------------------------------------------- over all configurations

  /** The marker is what keeps headers out: with it always, without it not in every configuration. */
  lemma HeadersGoneExactlyWithMarker(r: string)
    requires ValidReplacement(r)
    ensures (forall secrets, text | NonEmpty(secrets) && ReplacementFor(secrets) == r ::
               HeaderFree(Redacted(text, secrets, r))) <==> r == REDACTED
  {
    hide Patterns, SecretStage, HeaderFree, NonEmpty, ReplacementFor;
    if r == REDACTED {
      forall secrets, text | NonEmpty(secrets) && ReplacementFor(secrets) == r
        ensures HeaderFree(Redacted(text, secrets, r))
      {
        PatternsHeaderFree(SecretStage(text, secrets, r));
      }
    } else {
      BracketSecret();
      EmptyReplacementUncoversHeader("[");
      assert !HeaderFree(Redacted(HEADER_TEXT, ["["], r));
    }
  }

  /** A secret that occurs in neither text. */
  lemma BracketSecret()
    ensures NonEmpty(["["]) && ReplacementFor(["["]) == "" && Absent(HEADER_TEXT, "[")
  {
    FindFirst(REDACTED, "[", 0);
    assert MatchAt(REDACTED, 0, "[");
    assert ["["][0] == "[";
    AbsentByChar(HEADER_TEXT, "[", 0);
  }

  lemma BearersHiddenExactlyWithMarker(r: string)
    requires ValidReplacement(r)
    ensures (forall secrets, text | NonEmpty(secrets) && ReplacementFor(secrets) == r ::
               BearerHidden(Redacted(text, secrets, r))) <==> r == REDACTED
  {
    hide Patterns, SecretStage, BearerHidden, NonEmpty, ReplacementFor;
    if r == REDACTED {
      forall secrets, text | NonEmpty(secrets) && ReplacementFor(secrets) == r
        ensures BearerHidden(Redacted(text, secrets, r))
      {
        PatternsBearerHidden(SecretStage(text, secrets, r));
      }
    } else {
      BracketSecret();
      EmptyReplacementUncoversBearer("[");
      assert !BearerHidden(Redacted(BEARER_TEXT, ["["], r));
    }
  }

  // ---------------------------------------------------------------- one secret: which configurations

  /** With one secret configured, bearer tokens are hidden in every output exactly when the marker is chosen. */
  lemma BearersHiddenExactly(s: string)
    requires s != ""
    ensures var r := ReplacementFor([s]);
            (forall text :: BearerHidden(Redacted(text, [s], r))) <==> r == REDACTED
  {
    hide Redacted, Patterns, SecretStage, BearerHidden;
    var r := ReplacementFor([s]);
    if r == REDACTED {
      forall text ensures BearerHidden(Redacted(text, [s], r)) {
        SecretThenPatterns(text, s, r);
        PatternsBearerHidden(SecretStage(text, [s], r));
      }
    } else {
      EmptyReplacementUncoversBearer(s);
      assert !BearerHidden(Redacted(BEARER_TEXT, [s], r));
    }
  }

  /** A secret that every header contains and that deletion cannot put back together. */
  predicate BreaksHeaders(s: string) {
    |s| == 1 && s[0] in Begin("PRIVATE KEY")
  }

  lemma LabelsEndAlike(k: nat) returns (front: string)
    requires k < |PRIVATE_KEY_LABELS|
    ensures PRIVATE_KEY_LABELS[k] == front + "PRIVATE KEY"
  {
    front := ["", "RSA ", "EC ", "OPENSSH ", "ENCRYPTED "][k];
  }

  lemma LongerHeaderHas(front: string, kind: string, c: char)
    requires c in Begin(kind)
    ensures c in Begin(front + kind)
  {
    var a, b := Begin(kind), Begin(front + kind);
    var i :| 0 <= i < |a| && a[i] == c;
    assert b[if i < 11 then i else i + |front|] == c;
  }

  lemma EveryHeaderHas(c: char, k: nat)
    requires k < |PRIVATE_KEY_LABELS| && c in Begin("PRIVATE KEY")
    ensures c in Begin(PRIVATE_KEY_LABELS[k])
  {
    hide Begin, PRIVATE_KEY_LABELS;
    var front := LabelsEndAlike(k);
    LongerHeaderHas(front, "PRIVATE KEY", c);
  }

  lemma BrokenHeaders(s: string, text: string)
    requires BreaksHeaders(s)
    ensures HeaderFree(Redacted(text, [s], ReplacementFor([s])))
  {
    hide Redacted, PRIVATE_KEY_LABELS;
    var out := Redacted(text, [s], ReplacementFor([s]));
    OneCharacterSecretAbsent(text, [s], 0);
    assert s[0] !in out by { OneCharacterGone(out, s); }
    forall k | 0 <= k < |PRIVATE_KEY_LABELS| ensures Absent(out, Begin(PRIVATE_KEY_LABELS[k])) {
      EveryHeaderHas(s[0], k);
      var header := Begin(PRIVATE_KEY_LABELS[k]);
      var j :| 0 <= j < |header| && header[j] == s[0];
      AbsentByChar(out, header, j);
    }
  }

  lemma OneCharacterGone(text: string, s: string)
    requires |s| == 1 && Absent(text, s)
    ensures s[0] !in text
  {
    forall i | 0 <= i < |text| ensures text[i] != s[0] {
      assert !MatchAt(text, i, s);
    }
  }

  /** Of the parts of the marker with more than one character only `TE` occurs in a header text. */
  lemma OnlyOneOccurs(s: string)
    requires s != "" && Contains(REDACTED, s) && !Absent(HEADER_TEXT, s) && !BreaksHeaders(s)
    ensures s == "TE"
  {
    hide REDACTED, HEADER_TEXT, MatchAt;
    FindFirst(REDACTED, s, 0);
    var o := Find(REDACTED, s, 0).value;
    var i :| MatchAt(HEADER_TEXT, i, s);
    MatchChar(REDACTED, o, s, 0);
    MatchChar(HEADER_TEXT, i, s, 0);
    if |s| == 1 {
      OneInHeader(s, i);
    } else {
      MatchChar(REDACTED, o, s, 1);
      MatchChar(HEADER_TEXT, i, s, 1);
      PairInHeader(o, i);
      if |s| > 2 {
        MatchChar(REDACTED, o, s, 2);
        MatchChar(HEADER_TEXT, i, s, 2);
      }
    }
  }

  /** Outside the token it is the header's characters. */
  lemma OneInHeader(s: string, i: nat)
    requires |s| == 1 && s[0] in REDACTED && i < |HEADER_TEXT| && HEADER_TEXT[i] == s[0]
    ensures s[0] in Begin("PRIVATE KEY")
  {
    hide HEADER_TEXT, REDACTED, SHORT_TOKEN;
    HeaderLengths();
    HeaderTextAt(i);
    if i < 10 {
      assert Begin("PRIVATE KEY")[i] == "-----BEGIN"[i];
    } else if i < 25 {
      TokenOutsideMarker(i - 10);
    } else {
      assert Begin("PRIVATE KEY")[i - 15] == " PRIVATE KEY-----"[i - 25];
    }
  }

  /** The only neighbours the marker and the header text share, and what follows them differs. */
  lemma PairInHeader(o: int, i: int)
    requires 0 <= o && o + 1 < |REDACTED| && 0 <= i && i + 1 < |HEADER_TEXT|
    requires HEADER_TEXT[i] == REDACTED[o] && HEADER_TEXT[i + 1] == REDACTED[o + 1]
    ensures REDACTED[o] == 'T' && REDACTED[o + 1] == 'E'
    ensures o + 2 < |REDACTED| && i + 2 < |HEADER_TEXT| ==> REDACTED[o + 2] != HEADER_TEXT[i + 2]
  {
    hide HEADER_TEXT;
    HeaderLengths();
    HeaderTextAt(i);
    HeaderTextAt(i + 1);
    if i < 25 {
      PairBefore(o, i);
    } else {
      PairAfter(o, i - 25);
      HeaderTextAt(33);
    }
  }

  lemma HeaderLengths()
    ensures |HEADER_TEXT| == 42 && |SHORT_TOKEN| == 15
  {
  }

  lemma HeaderTextAt(i: nat)
    requires i < 42
    ensures |HEADER_TEXT| == 42
    ensures HEADER_TEXT[i] ==
            if i < 10 then "-----BEGIN"[i] else if i < 25 then SHORT_TOKEN[i - 10] else " PRIVATE KEY-----"[i - 25]
  {
  }

  lemma TokenOutsideMarker(i: nat)
    requires i < |SHORT_TOKEN|
    ensures SHORT_TOKEN[i] !in REDACTED
  {
  }

  lemma PairBefore(o: nat, i: nat)
    requires o + 1 < |REDACTED| && i < 25
    ensures var text := "-----BEGIN" + SHORT_TOKEN + " ";
            !(text[i] == REDACTED[o] && text[i + 1] == REDACTED[o + 1])
  {
    if i >= 10 {
      TokenOutsideMarker(i - 10);
    } else if i == 9 {
      assert "-----BEGIN"[9] !in REDACTED;
    } else {
      assert "-----BEGIN"[i] in REDACTED ==> i == 6;
      assert "-----BEGIN"[7] !in REDACTED;
    }
  }

  lemma PairAfter(o: nat, i: nat)
    requires o + 1 < |REDACTED| && i < 16
    ensures var text := " PRIVATE KEY-----";
            text[i] == REDACTED[o] && text[i + 1] == REDACTED[o + 1] ==> o == 6 && i == 6
  {
    var text := " PRIVATE KEY-----";
    assert text[i] in REDACTED ==> i == 2 || i == 5 || i == 6 || i == 7 || i == 10;
    assert text[3] !in REDACTED && text[8] !in REDACTED && text[11] !in REDACTED;
    assert text[5] == REDACTED[o] ==> o == 4;
    assert text[6] == REDACTED[o] ==> o == 6;
  }

  /** A text with the copy `TE` nested in another; `front` has no such pair, and `back` not its first half. */
  lemma NestedCopyGoes(front: string, back: string, s: string)
    requires |s| == 2 && s[0] != s[1] && Absent(front, s) && s[0] !in back
    ensures SecretStage(front + s + back, [s], "") == front + back
  {
    hide SecretStage, SecretCuts;
    var text := front + s + back;
    FirstIsInner(front, back, s);
    AbsentByChar(back, s, 0);
    OneSecretStage(text, s, "");
    OneCut(front, s, back);
    assert front + "" + back == front + back;
  }

  lemma NotBeforeInner(front: string, back: string, s: string, i: nat)
    requires |s| == 2 && s[0] != s[1] && Absent(front, s) && i < |front|
    ensures !MatchAt(front + s + back, i, s)
  {
    hide Absent;
    var text := front + s + back;
    if i + 1 < |front| {
      NotIn(front, s, i);
      MatchInMiddle("", front, s + back, i, s);
      assert "" + front + (s + back) == text;
    } else {
      assert text[i + 1] == s[0];
    }
  }

  lemma NotIn(text: string, s: string, i: int)
    requires Absent(text, s)
    ensures !MatchAt(text, i, s)
  {
  }

  lemma FirstIsInner(front: string, back: string, s: string)
    requires |s| == 2 && s[0] != s[1] && Absent(front, s)
    ensures Find(front + s + back, s, 0) == Some(|front|)
  {
    hide Find, MatchAt, Absent;
    var text := front + s + back;
    FindFirst(text, s, 0);
    MatchesItself(s);
    MatchInMiddle(front, s, back, 0, s);
    forall i | 0 <= i < |front| ensures !MatchAt(text, i, s) {
      NotBeforeInner(front, back, s, i);
    }
  }

  lemma OneCut(front: string, s: string, back: string)
    requires s != "" && Find(front + s + back, s, 0) == Some(|front|) && Absent(back, s)
    ensures SecretCuts(front + s + back, s).Output("") == front + "" + back
  {
    hide Find;
    var text := front + s + back;
    FindFirst(back, s, 0);
    assert text[..|front|] == front && text[|front| + |s|..] == back;
    assert SecretCuts(back, s) == Rest(back);
  }

  const NESTED_TEXT := "-----BEGIN" + SHORT_TOKEN + " PRIVAT" + "TE" + "E KEY-----"

  lemma NestedShape()
    ensures var front, back := "-----BEGIN" + SHORT_TOKEN + " PRIVAT", "E KEY-----";
            && NESTED_TEXT == front + "TE" + back && front + back == HEADER_TEXT
            && Absent(front, "TE") && 'T' !in back && |front| == 32 && front[31] == 'T'
  {
    var front := "-----BEGIN" + SHORT_TOKEN + " PRIVAT";
    assert forall i :: 0 <= i < |front| && front[i] == 'T' ==> i == 31;
    forall i ensures !MatchAt(front, i, "TE") {
      if 0 <= i && i + 2 <= |front| {
        assert front[i + 0] != "TE"[0];
      }
    }
  }

  /** Deleting the inner one of two nested copies brings the other about. */
  lemma NestedCopy()
    ensures SecretStage(NESTED_TEXT, ["TE"], "") == HEADER_TEXT
  {
    hide NESTED_TEXT, HEADER_TEXT, SecretStage, SHORT_TOKEN, Absent;
    NestedShape();
    NestedCopyGoes("-----BEGIN" + SHORT_TOKEN + " PRIVAT", "E KEY-----", "TE");
  }

  lemma NestedCopyUncoversHeader()
    requires ReplacementFor(["TE"]) == ""
    ensures Redacted(NESTED_TEXT, ["TE"], "") == Begin("PRIVATE KEY")
  {
    hide Patterns, SecretStage, SHORT_TOKEN, HEADER_TEXT, NESTED_TEXT;
    NestedCopy();
    SecretThenPatterns(NESTED_TEXT, "TE", "");
    HeaderTextIs();
    CutUncoversHeader();
  }

  /**
   * With one secret configured, no header survives in any output exactly when the marker is chosen, or
   * the secret is a single character that headers contain.
   */
  lemma HeadersGoneExactly(s: string)
    requires s != ""
    ensures var r := ReplacementFor([s]);
            (forall text :: HeaderFree(Redacted(text, [s], r))) <==> (r == REDACTED || BreaksHeaders(s))
  {
    hide Redacted, Patterns, SecretStage, HeaderFree, BreaksHeaders, Contains, Absent;
    var r := ReplacementFor([s]);
    if r == REDACTED {
      forall text ensures HeaderFree(Redacted(text, [s], r)) {
        SecretThenPatterns(text, s, r);
        PatternsHeaderFree(SecretStage(text, [s], r));
      }
    } else if BreaksHeaders(s) {
      forall text ensures HeaderFree(Redacted(text, [s], r)) {
        BrokenHeaders(s, text);
      }
    } else {
      ChosenEmpty(s);
      HeaderItself();
      if Absent(HEADER_TEXT, s) {
        EmptyReplacementUncoversHeader(s);
        assert !HeaderFree(Redacted(HEADER_TEXT, [s], r));
      } else {
        OnlyOneOccurs(s);
        NestedCopyUncoversHeader();
        assert !HeaderFree(Redacted(NESTED_TEXT, [s], r));
      }
    }
  }

  // ---------------------------------------------------------------- the second pass

  /** Replacing an occurrence by something else changes the text, however often it is done. */
  lemma {:induction false} CutsGrow(text: string, s: string, r: string)
    requires s != ""
    ensures var out := SecretCuts(text, s).Output(r);
            && (|r| >= |s| ==> |out| >= |text|) && (|r| <= |s| ==> |out| <= |text|)
    decreases |text|
  {
    var found := Find(text, s, 0);
    if found.Some? {
      var i := found.value;
      CutsGrow(text[i + |s|..], s, r);
    }
  }

  lemma FirstCut(text: string, s: string, r: string, i: nat)
    requires s != "" && Find(text, s, 0) == Some(i)
    ensures i + |s| <= |text| && text[i..i + |s|] == s
    ensures SecretCuts(text, s).Output(r) == text[..i] + r + SecretCuts(text[i + |s|..], s).Output(r)
  {
    FindFirst(text, s, 0);
    MatchIsSlice(text, i, s);
  }

  lemma DiffersAt(text: string, i: nat, s: string, r: string, rest: string)
    requires i + |s| <= |text| && text[i..i + |s|] == s && s != r && |s| == |r|
    ensures text[..i] + r + rest != text
  {
    var out := text[..i] + r + rest;
    assert out[i..i + |r|] == r;
  }

  lemma CutsChange(text: string, s: string, r: string)
    requires s != "" && s != r && !Absent(text, s)
    ensures SecretCuts(text, s).Output(r) != text
  {
    hide SecretCuts, Find, MatchAt;
    FindFirst(text, s, 0);
    var i := Find(text, s, 0).value;
    var rest := SecretCuts(text[i + |s|..], s).Output(r);
    CutsGrow(text[i + |s|..], s, r);
    FirstCut(text, s, r, i);
    if |s| == |r| {
      DiffersAt(text, i, s, r, rest);
    } else {
      assert |text[..i] + r + rest| != |text|;
    }
  }

  lemma {:induction false} PiecesKeepHarmless(p: Pieces)
    requires Harmless(p.Source())
    ensures Harmless(p.Output(REDACTED))
  {
    hide Harmless;
    match p
    case Rest(_) =>
    case Cut(keep, cut, tail) =>
      var whole := p.Source();
      HarmlessParts(whole, |keep|);
      assert whole[..|keep|] == keep;
      HarmlessParts(whole, |keep| + |cut|);
      assert whole[|keep| + |cut|..] == tail.Source();
      PiecesKeepHarmless(tail);
      HarmlessAround(keep, tail.Output(REDACTED));
  }

  /** A secret that leaked is replaced by the second pass. */
  lemma LeakedOnceChanges(s: string, text: string)
    requires s != "" && s != REDACTED && Harmless(text) && !Absent(text, s)
    ensures Redacted(text, [s], REDACTED) != text
  {
    hide Patterns, SecretStage, Harmless, SecretCuts, Absent;
    var once := SecretCuts(text, s).Output(REDACTED);
    OneSecretStage(text, s, REDACTED);
    SecretThenPatterns(text, s, REDACTED);
    SecretCutsSource(text, s);
    PiecesKeepHarmless(SecretCuts(text, s));
    HarmlessUnchanged(once, REDACTED);
    CutsChange(text, s, REDACTED);
  }

  predicate SecondPassIdle(text: string, s: string) {
    var r := ReplacementFor([s]);
    s != "" && Redacted(Redacted(text, [s], r), [s], r) == Redacted(text, [s], r)
  }

  /** With the marker chosen a secret that overlaps it still makes the second pass work. */
  lemma OverlapBreaksSecondPass(s: string)
    requires s != "" && Harmless(s) && ReplacementFor([s]) == REDACTED && !Disjoint(s, REDACTED)
    ensures exists text :: !SecondPassIdle(text, s)
  {
    hide Redacted, Harmless, MatchAt, Clash, BLOCK, Contains;
    ChosenEmpty(s);
    NotContained(s);
    var d :| -|s| < d < |REDACTED| && !Clash(s, REDACTED, d);
    var k, v := LeftPart(s, d), RightPart(s, d);
    LeakedText(s, d);
    var out := k + REDACTED + v;
    assert !Absent(out, s);
    LeakedOnceChanges(s, out);
    assert !SecondPassIdle(k + BLOCK + v, s);
  }

  lemma NotContained(s: string)
    requires !Contains(REDACTED, s)
    ensures Absent(REDACTED, s) && s != REDACTED
  {
    FindFirst(REDACTED, s, 0);
    assert MatchAt(REDACTED, 0, REDACTED);
  }

  /**
   * With one harmless secret configured, a second pass changes no output exactly when the marker is
   * chosen and the secret cannot overlap it.
   */
  lemma SecondPassIdleExactly(s: string)
    requires s != "" && Harmless(s)
    ensures (forall text :: SecondPassIdle(text, s)) <==> (ReplacementFor([s]) == REDACTED && Disjoint(s, REDACTED))
  {
    hide Redacted, Harmless, Disjoint, BEARER_TEXT, BearerHidden;
    if ReplacementFor([s]) == "" {
      EmptyReplacementUncoversBearer(s);
      assert !SecondPassIdle(BEARER_TEXT, s);
    } else if Disjoint(s, REDACTED) {
      forall text ensures SecondPassIdle(text, s) {
        RedactedTwice(text, [s]);
      }
    } else {
      OverlapBreaksSecondPass(s);
    }
  }

  /** The marker alone is not enough: the configured secret `]x` is completed by the text after a block. */
  lemma MarkerIsNotEnough()
    ensures ReplacementFor(["]x"]) == REDACTED && !Disjoint("]x", REDACTED)
    ensures Redacted(BLOCK + "x", ["]x"], REDACTED) == "[REDACTED]x"
    ensures Redacted("[REDACTED]x", ["]x"], REDACTED) != "[REDACTED]x"
  {
    hide Redacted, BLOCK, Harmless;
    var s := "]x";
    AbsentByChar(REDACTED, s, 1);
    FindFirst(REDACTED, s, 0);
    ChosenEmpty(s);
    ShortHarmless();
    assert !Clash(s, REDACTED, 9);
    LeakedText(s, 9);
    assert LeftPart(s, 9) == "" && RightPart(s, 9) == "x";
    assert "" + BLOCK + "x" == BLOCK + "x" && "" + REDACTED + "x" == "[REDACTED]x";
    assert !Absent("[REDACTED]x", s);
    LeakedOnceChanges(s, "[REDACTED]x");
  }

  lemma ShortHarmless()
    ensures Harmless("]x")
  {
    AbsentByChar("]x", DASHES, 0);
    AbsentByChar(Lower("]x"), BEARER, 6);
    NoTokensWithout("]x");
  }
}
