/**
 * The credential redactor. Every stage rewrites the text left to right with a cursor; its
 * specification is the list of pieces the stage keeps and cuts out (`Pieces`), so that what a stage
 * leaves alone is explicit.
 */
module Redaction {
  import opened Text

  const REDACTED := "[REDACTED]"

  const PRIVATE_KEY_LABELS: seq<string> := [
    "PRIVATE KEY", "RSA PRIVATE KEY", "EC PRIVATE KEY", "OPENSSH PRIVATE KEY", "ENCRYPTED PRIVATE KEY"
  ]

  const TOKEN_PREFIXES: seq<string> := [
    "github_pat_", "ghp_", "gho_", "ghu_", "ghs_", "xoxb-", "xoxp-", "sk-"
  ]

  const BEARER := "bearer "

  /** Characters a prefixed token must have after its prefix. */
  const MIN_TOKEN_BODY: nat := 12

  datatype Pieces =
    | Rest(text: string)
    | Cut(keep: string, cut: string, tail: Pieces)
  {
    function Source(): string {
      match this
      case Rest(text) => text
      case Cut(keep, cut, tail) => keep + cut + tail.Source()
    }

    function Output(r: string): string {
      match this
      case Rest(text) => text
      case Cut(keep, _, tail) => keep + r + tail.Output(r)
    }
  }

  /** `replace_range`. */
  function Splice(text: string, start: nat, end: nat, r: string): (t: string)
    requires start <= end <= |text|
    ensures |t| == |text| - (end - start) + |r|
  {
    text[..start] + r + text[end..]
  }

  // ---------------------------------------------------------------- configured secrets

  function SecretCuts(text: string, secret: string): Pieces
    requires secret != ""
    decreases |text|
  {
    match Find(text, secret, 0)
    case None => Rest(text)
    case Some(i) => Cut(text[..i], secret, SecretCuts(text[i + |secret|..], secret))
  }

  predicate NonEmpty(patterns: seq<string>) {
    forall i :: 0 <= i < |patterns| ==> patterns[i] != ""
  }

  function SecretStage(text: string, secrets: seq<string>, r: string): string
    requires NonEmpty(secrets)
    decreases |secrets|
  {
    if secrets == [] then text
    else SecretStage(SecretCuts(text, secrets[0]).Output(r), secrets[1..], r)
  }

  // ---------------------------------------------------------------- PEM private keys

  function Begin(kind: string): string { "-----BEGIN " + kind + "-----" }

  function End(kind: string): string { "-----END " + kind + "-----" }

  predicate ValidReplacement(r: string) { r == REDACTED || r == "" }

  /** Where the block opened by a header at `start` ends: past its footer, or at the end of the text. */
  function BlockEnd(text: string, kind: string, start: nat): (end: nat)
    requires start + |Begin(kind)| <= |text|
    ensures start + |REDACTED| < end <= |text|
  {
    match Find(text, End(kind), start)
    case None => |text|
    case Some(j) => j + |End(kind)|
  }

  function WithoutBlocks(text: string, kind: string, r: string): string
    requires ValidReplacement(r)
    decreases |text|
  {
    match Find(text, Begin(kind), 0)
    case None => text
    case Some(start) => WithoutBlocks(Splice(text, start, BlockEnd(text, kind, start), r), kind, r)
  }

  function PemStage(text: string, kinds: seq<string>, r: string): string
    requires ValidReplacement(r)
    decreases |kinds|
  {
    if kinds == [] then text else PemStage(WithoutBlocks(text, kinds[0], r), kinds[1..], r)
  }

  // ---------------------------------------------------------------- bearer tokens

  /** `char::is_whitespace`: the Unicode White_Space property. */
  predicate IsWhitespace(c: char) {
    var n := c as int;
    || 0x09 <= n <= 0x0D || n == 0x20 || n == 0x85 || n == 0xA0 || n == 0x1680
    || 0x2000 <= n <= 0x200A || n == 0x2028 || n == 0x2029 || n == 0x202F || n == 0x205F || n == 0x3000
  }

  function LowerChar(c: char): char {
    if 'A' <= c <= 'Z' then (c as int + 32) as char else c
  }

  /** `to_ascii_lowercase`. */
  function Lower(text: string): string {
    seq(|text|, i requires 0 <= i < |text| => LowerChar(text[i]))
  }

  /** The offset of the first whitespace at or after `from`, or the end of the text. */
  function WordEnd(text: string, from: nat): (end: nat)
    requires from <= |text|
    ensures from <= end <= |text|
    decreases |text| - from
  {
    if from == |text| || IsWhitespace(text[from]) then from else WordEnd(text, from + 1)
  }

  /** Outcome of one search: nothing left, a match with nothing to hide, or a span to replace. */
  datatype Hit = Miss | Skip(next: nat) | Span(start: nat, end: nat) {
    function Shift(base: nat): Hit {
      match this
      case Miss => Miss
      case Skip(next) => Skip(base + next)
      case Span(start, end) => Span(base + start, base + end)
    }
  }

  /** The span after the next `bearer ` is the text up to the next whitespace, if there is any. */
  function NextBearer(text: string, from: nat): (h: Hit)
    ensures h.Skip? ==> from < h.next <= |text|
    ensures h.Span? ==> from < h.start < h.end <= |text|
  {
    match Find(Lower(text), BEARER, from)
    case None => Miss
    case Some(i) =>
      var start := i + |BEARER|;
      var end := WordEnd(text, start);
      if end > start then Span(start, end) else Skip(start)
  }

  function BearerCuts(text: string, from: nat): Pieces
    decreases |text|, |text| - from
  {
    match NextBearer(text, from)
    case Miss => Rest(text)
    case Skip(next) => BearerCuts(text, next)
    case Span(start, end) => Cut(text[..start], text[start..end], BearerCuts(text[end..], 0))
  }

  // ---------------------------------------------------------------- prefixed tokens

  predicate IsTokenChar(c: char) {
    '0' <= c <= '9' || 'a' <= c <= 'z' || 'A' <= c <= 'Z' || c == '_' || c == '-' || c == '.'
  }

  /** Where the run of token characters at `from` ends. */
  function RunEnd(text: string, from: nat): (end: nat)
    requires from <= |text|
    ensures from <= end <= |text|
    decreases |text| - from
  {
    if from == |text| || !IsTokenChar(text[from]) then from else RunEnd(text, from + 1)
  }

  /** The span is a whole run of token characters, if it is long enough to be a credential. */
  function NextToken(text: string, from: nat, prefix: string): (h: Hit)
    requires prefix != ""
    ensures h.Skip? ==> from < h.next <= |text|
    ensures h.Span? ==> from <= h.start < h.end <= |text|
  {
    match Find(text, prefix, from)
    case None => Miss
    case Some(start) =>
      var end := RunEnd(text, start);
      if end - start >= |prefix| + MIN_TOKEN_BODY then Span(start, end) else Skip(start + |prefix|)
  }

  function TokenCuts(text: string, from: nat, prefix: string): Pieces
    requires prefix != ""
    decreases |text|, |text| - from
  {
    match NextToken(text, from, prefix)
    case Miss => Rest(text)
    case Skip(next) => TokenCuts(text, next, prefix)
    case Span(start, end) => Cut(text[..start], text[start..end], TokenCuts(text[end..], 0, prefix))
  }

  function PrefixStage(text: string, prefixes: seq<string>, r: string): string
    requires NonEmpty(prefixes)
    decreases |prefixes|
  {
    if prefixes == [] then text
    else PrefixStage(TokenCuts(text, 0, prefixes[0]).Output(r), prefixes[1..], r)
  }

  // ---------------------------------------------------------------- the whole pipeline

  /** Everything after the configured secrets. */
  function Patterns(text: string, r: string): string
    requires ValidReplacement(r)
  {
    PrefixStage(BearerCuts(PemStage(text, PRIVATE_KEY_LABELS, r), 0).Output(r), TOKEN_PREFIXES, r)
  }

  function Redacted(text: string, secrets: seq<string>, r: string): string
    requires ValidReplacement(r) && NonEmpty(secrets)
  {
    Patterns(SecretStage(text, secrets, r), r)
  }

  // ---------------------------------------------------------------- in-place rewriters

  lemma FindInSuffix(text: string, pat: string, base: nat, from: nat)
    requires base <= from <= |text|
    ensures var inner := Find(text[base..], pat, from - base);
            var outer := Find(text, pat, from);
            inner.Some? == outer.Some? && (outer.Some? ==> outer.value == inner.value + base)
    decreases |text| - from
  {
    MatchInSuffix(text, base, from - base, pat);
    if from < |text| {
      FindInSuffix(text, pat, base, from + 1);
    }
  }

  lemma Subslice(text: string, base: nat, a: nat, b: nat)
    requires a <= b && base + b <= |text|
    ensures text[base..][a..b] == text[base + a..base + b]
    ensures text[base..][a..] == text[base + a..] && text[base..][b..] == text[base + b..]
  {
  }

  method RedactBlocks(input: string, kind: string, r: string) returns (text: string)
    requires ValidReplacement(r)
    ensures text == WithoutBlocks(input, kind, r)
  {
    text := input;
    var found := Find(text, Begin(kind), 0);
    while found.Some?
      invariant found == Find(text, Begin(kind), 0)
      invariant WithoutBlocks(text, kind, r) == WithoutBlocks(input, kind, r)
      decreases |text|
    {
      var end := BlockEnd(text, kind, found.value);
      text := Splice(text, found.value, end, r);
      found := Find(text, Begin(kind), 0);
    }
  }

  method RedactPrivateKeys(input: string, kinds: seq<string>, r: string) returns (text: string)
    requires ValidReplacement(r)
    ensures text == PemStage(input, kinds, r)
  {
    text := input;
    for k := 0 to |kinds|
      invariant PemStage(text, kinds[k..], r) == PemStage(input, kinds, r)
    {
      assert kinds[k..][1..] == kinds[k + 1..];
      text := RedactBlocks(text, kinds[k], r);
    }
  }

  lemma WordEndInSuffix(text: string, base: nat, from: nat)
    requires base <= from <= |text|
    ensures WordEnd(text, from) == base + WordEnd(text[base..], from - base)
    decreases |text| - from
  {
    if from < |text| {
      WordEndInSuffix(text, base, from + 1);
    }
  }

  lemma RunEndInSuffix(text: string, base: nat, from: nat)
    requires base <= from <= |text|
    ensures RunEnd(text, from) == base + RunEnd(text[base..], from - base)
    decreases |text| - from
  {
    if from < |text| {
      RunEndInSuffix(text, base, from + 1);
    }
  }

  lemma NextBearerInSuffix(text: string, base: nat, from: nat)
    requires base <= from <= |text|
    ensures NextBearer(text, from) == NextBearer(text[base..], from - base).Shift(base)
  {
    assert Lower(text[base..]) == Lower(text)[base..];
    FindInSuffix(Lower(text), BEARER, base, from);
    var found := Find(Lower(text), BEARER, from);
    if found.Some? {
      WordEndInSuffix(text, base, found.value + |BEARER|);
    }
  }

  lemma NextTokenInSuffix(text: string, base: nat, from: nat, prefix: string)
    requires base <= from <= |text| && prefix != ""
    ensures NextToken(text, from, prefix) == NextToken(text[base..], from - base, prefix).Shift(base)
  {
    FindInSuffix(text, prefix, base, from);
    var found := Find(text, prefix, from);
    if found.Some? {
      RunEndInSuffix(text, base, found.value);
    }
  }

  /** One replacement in place, `base` characters being final, against one piece cut out. */
  lemma CutInPlace(text: string, base: nat, start: nat, end: nat, tail: Pieces, r: string)
    requires base <= start <= end <= |text|
    ensures var todo := text[base..];
            var piece := Cut(todo[..start - base], todo[start - base..end - base], tail);
            var spliced := Splice(text, start, end, r);
            && text[..base] + piece.Output(r) == spliced[..start + |r|] + tail.Output(r)
            && spliced[start + |r|..] == todo[end - base..]
  {
    var spliced := Splice(text, start, end, r);
    assert spliced[..start + |r|] == text[..base] + text[base..][..start - base] + r;
  }

  /** What the bearer loop is still going to return: `base` characters are final, `cursor` is where it searches. */
  ghost function BearerGoal(text: string, base: nat, cursor: nat, r: string): string
    requires base <= cursor <= |text|
  {
    text[..base] + BearerCuts(text[base..], cursor - base).Output(r)
  }

  lemma BearerStart(text: string, r: string)
    ensures BearerGoal(text, 0, 0, r) == BearerCuts(text, 0).Output(r)
  {
    assert text[0..] == text;
  }

  lemma BearerCutsUnfold(text: string, from: nat)
    ensures BearerCuts(text, from) ==
            match NextBearer(text, from)
            case Miss => Rest(text)
            case Skip(next) => BearerCuts(text, next)
            case Span(start, end) => Cut(text[..start], text[start..end], BearerCuts(text[end..], 0))
  {
  }

  lemma BearerRound(text: string, base: nat, cursor: nat, r: string)
    requires base <= cursor <= |text|
    ensures var goal := BearerGoal(text, base, cursor, r);
            match NextBearer(text, cursor)
            case Miss => goal == text
            case Skip(next) => goal == BearerGoal(text, base, next, r)
            case Span(start, end) =>
              goal == BearerGoal(Splice(text, start, end, r), start + |r|, start + |r|, r)
  {
    hide NextBearer, BearerCuts;
    BearerCutsUnfold(text[base..], cursor - base);
    NextBearerInSuffix(text, base, cursor);
    var hit := NextBearer(text, cursor);
    if hit.Span? {
      Subslice(text, base, hit.end - base, |text| - base);
      CutInPlace(text, base, hit.start, hit.end, BearerCuts(text[hit.end..], 0), r);
    }
  }

  method RedactBearerTokens(input: string, r: string) returns (text: string)
    ensures text == BearerCuts(input, 0).Output(r)
  {
    hide BearerGoal, BearerCuts, Splice, Pieces.Output, Find, WordEnd, Lower, BEARER;
    text := input;
    var cursor: nat := 0;
    ghost var base: nat := 0;
    BearerStart(input, r);
    while true
      invariant base <= cursor <= |text|
      invariant BearerGoal(text, base, cursor, r) == BearerCuts(input, 0).Output(r)
      decreases |text| - base, |text| - cursor
    {
      BearerRound(text, base, cursor, r);
      var found := Find(Lower(text), BEARER, cursor);
      if found.None? {
        break;
      }
      var start := found.value + |BEARER|;
      var end := WordEnd(text, start);
      if end > start {
        text := Splice(text, start, end, r);
        cursor := start + |r|;
        base := cursor;
      } else {
        cursor := start;
      }
    }
  }

  /** The same for the loop over prefixed tokens. */
  ghost function TokenGoal(text: string, base: nat, cursor: nat, prefix: string, r: string): string
    requires base <= cursor <= |text| && prefix != ""
  {
    text[..base] + TokenCuts(text[base..], cursor - base, prefix).Output(r)
  }

  lemma TokenStart(text: string, prefix: string, r: string)
    requires prefix != ""
    ensures TokenGoal(text, 0, 0, prefix, r) == TokenCuts(text, 0, prefix).Output(r)
  {
    assert text[0..] == text;
  }

  lemma TokenCutsUnfold(text: string, from: nat, prefix: string)
    requires prefix != ""
    ensures TokenCuts(text, from, prefix) ==
            match NextToken(text, from, prefix)
            case Miss => Rest(text)
            case Skip(next) => TokenCuts(text, next, prefix)
            case Span(start, end) => Cut(text[..start], text[start..end], TokenCuts(text[end..], 0, prefix))
  {
  }

  lemma TokenRound(text: string, base: nat, cursor: nat, prefix: string, r: string)
    requires base <= cursor <= |text| && prefix != ""
    ensures var goal := TokenGoal(text, base, cursor, prefix, r);
            match NextToken(text, cursor, prefix)
            case Miss => goal == text
            case Skip(next) => goal == TokenGoal(text, base, next, prefix, r)
            case Span(start, end) =>
              goal == TokenGoal(Splice(text, start, end, r), start + |r|, start + |r|, prefix, r)
  {
    hide NextToken, TokenCuts;
    TokenCutsUnfold(text[base..], cursor - base, prefix);
    NextTokenInSuffix(text, base, cursor, prefix);
    var hit := NextToken(text, cursor, prefix);
    if hit.Span? {
      Subslice(text, base, hit.end - base, |text| - base);
      CutInPlace(text, base, hit.start, hit.end, TokenCuts(text[hit.end..], 0, prefix), r);
    }
  }

  method RedactPrefixedTokens(input: string, prefix: string, r: string) returns (text: string)
    requires prefix != ""
    ensures text == TokenCuts(input, 0, prefix).Output(r)
  {
    hide TokenGoal, TokenCuts, Splice, Pieces.Output, Find, RunEnd;
    text := input;
    var cursor: nat := 0;
    ghost var base: nat := 0;
    TokenStart(input, prefix, r);
    while true
      invariant base <= cursor <= |text|
      invariant TokenGoal(text, base, cursor, prefix, r) == TokenCuts(input, 0, prefix).Output(r)
      decreases |text| - base, |text| - cursor
    {
      TokenRound(text, base, cursor, prefix, r);
      var found := Find(text, prefix, cursor);
      if found.None? {
        break;
      }
      var start := found.value;
      var end := RunEnd(text, start);
      if end - start >= |prefix| + MIN_TOKEN_BODY {
        text := Splice(text, start, end, r);
        cursor := start + |r|;
        base := cursor;
      } else {
        cursor := start + |prefix|;
      }
    }
  }

  lemma PrefixesNonEmpty()
    ensures NonEmpty(TOKEN_PREFIXES)
  {
  }

  method RedactText(secrets: seq<string>, r: string, input: string) returns (text: string)
    requires ValidReplacement(r) && NonEmpty(secrets)
    ensures text == Redacted(input, secrets, r)
  {
    hide SecretCuts, TokenCuts, BearerCuts, PemStage, Pieces.Output, TOKEN_PREFIXES, PRIVATE_KEY_LABELS;
    text := input;
    for k := 0 to |secrets|
      invariant SecretStage(text, secrets[k..], r) == SecretStage(input, secrets, r)
    {
      assert secrets[k..][1..] == secrets[k + 1..];
      text := SecretCuts(text, secrets[k]).Output(r);
    }
    text := RedactPrivateKeys(text, PRIVATE_KEY_LABELS, r);
    text := RedactBearerTokens(text, r);
    var prefixes := TOKEN_PREFIXES;
    PrefixesNonEmpty();
    ghost var before := text;
    for k := 0 to |prefixes|
      invariant PrefixStage(text, prefixes[k..], r) == PrefixStage(before, prefixes, r)
    {
      assert prefixes[k..][1..] == prefixes[k + 1..];
      text := RedactPrefixedTokens(text, prefixes[k], r);
    }
  }
}
