/** Building the redactor from the environment, and redacting a whole event. */
module Redactor {
  import opened Text
  import opened Protocol
  import opened Redaction
  import opened RedactionProofs
  import opened RedactionTokens
  import opened RedactionTheorems
  import opened RedactionSecrets
  import opened RedactionCredentials
  import opened Utf8

  // ---------------------------------------------------------------- which values are secrets

  const SENSITIVE_MARKERS: seq<string> := [
    "API_KEY", "TOKEN", "SECRET", "PASSWORD", "PASSWD", "PRIVATE_KEY", "CREDENTIAL", "AUTH"
  ]

  function UpperChar(c: char): char {
    if 'a' <= c <= 'z' then (c as int - 32) as char else c
  }

  function Upper(text: string): string {
    seq(|text|, i requires 0 <= i < |text| => UpperChar(text[i]))
  }

  predicate EndsWith(text: string, suffix: string) {
    |suffix| <= |text| && text[|text| - |suffix|..] == suffix
  }

  predicate IsSensitiveName(name: string) {
    var upper := Upper(name);
    || (exists k :: 0 <= k < |SENSITIVE_MARKERS| && Contains(upper, SENSITIVE_MARKERS[k]))
    || upper == "DATABASE_URL" || upper == "REDIS_URL"
    || EndsWith(upper, "_DATABASE_URL") || EndsWith(upper, "_DSN")
  }

  const SECRET_WORDS: set<string> := {
    "API_KEY", "TOKEN", "SECRET", "PASSWORD", "PASSWD", "PRIVATE_KEY", "CREDENTIAL", "AUTH"
  }

  predicate EitherCase(c: char, capital: char) {
    c == capital || ('A' <= capital <= 'Z' && c as int == capital as int + 32)
  }

  /** In letters of either case; `word` is in capitals. */
  ghost predicate Spells(text: string, i: int, word: string) {
    0 <= i && i + |word| <= |text| && forall j :: 0 <= j < |word| ==> EitherCase(text[i + j], word[j])
  }

  ghost predicate Capitals(word: string) {
    forall j :: 0 <= j < |word| ==> 'A' <= word[j] <= 'Z' || word[j] == '_'
  }

  lemma UpperSpells(text: string, i: int, word: string)
    requires Capitals(word)
    ensures MatchAt(Upper(text), i, word) <==> Spells(text, i, word)
  {
    if 0 <= i && i + |word| <= |text| {
      forall j | 0 <= j < |word| ensures Upper(text)[i + j] == word[j] <==> EitherCase(text[i + j], word[j]) {
        assert Upper(text)[i + j] == UpperChar(text[i + j]);
      }
    }
  }

  lemma UpperContains(text: string, word: string)
    requires Capitals(word)
    ensures Contains(Upper(text), word) <==> exists i :: Spells(text, i, word)
  {
    hide Upper, Spells;
    FindFirst(Upper(text), word, 0);
    forall i ensures MatchAt(Upper(text), i, word) <==> Spells(text, i, word) {
      UpperSpells(text, i, word);
    }
    if i :| Spells(text, i, word) {
      assert MatchAt(Upper(text), i, word);
    }
  }

  lemma UpperEnds(text: string, word: string)
    requires Capitals(word)
    ensures EndsWith(Upper(text), word) <==> Spells(text, |text| - |word|, word)
    ensures Upper(text) == word <==> |text| == |word| && Spells(text, 0, word)
  {
    UpperSpells(text, |text| - |word|, word);
    UpperSpells(text, 0, word);
    if |word| <= |text| {
      MatchIsSlice(Upper(text), |text| - |word|, word);
    }
  }

  lemma MarkerCapitals(k: nat)
    requires k < |SENSITIVE_MARKERS|
    ensures Capitals(SENSITIVE_MARKERS[k])
    ensures SENSITIVE_MARKERS[k] in SECRET_WORDS
  {
  }

  lemma MarkerIndex(word: string) returns (k: nat)
    requires word in SECRET_WORDS
    ensures k < |SENSITIVE_MARKERS| && SENSITIVE_MARKERS[k] == word
  {
    k := if word == "API_KEY" then 0 else if word == "TOKEN" then 1 else if word == "SECRET" then 2
         else if word == "PASSWORD" then 3 else if word == "PASSWD" then 4 else if word == "PRIVATE_KEY" then 5
         else if word == "CREDENTIAL" then 6 else 7;
  }

  /** Which names are sensitive, in whatever case they are written. */
  ghost predicate NamesASecret(name: string) {
    || (exists word, i :: word in SECRET_WORDS && Spells(name, i, word))
    || (|name| == 12 && Spells(name, 0, "DATABASE_URL")) || (|name| == 9 && Spells(name, 0, "REDIS_URL"))
    || Spells(name, |name| - 13, "_DATABASE_URL") || Spells(name, |name| - 4, "_DSN")
  }

  lemma SensitiveExactly(name: string)
    ensures IsSensitiveName(name) <==> NamesASecret(name)
  {
    hide Spells, Contains, Upper, EndsWith, SENSITIVE_MARKERS;
    UpperEnds(name, "DATABASE_URL");
    UpperEnds(name, "REDIS_URL");
    UpperEnds(name, "_DATABASE_URL");
    UpperEnds(name, "_DSN");
    forall k | 0 <= k < |SENSITIVE_MARKERS|
      ensures Contains(Upper(name), SENSITIVE_MARKERS[k]) <==> exists i :: Spells(name, i, SENSITIVE_MARKERS[k])
    {
      MarkerCapitals(k);
      UpperContains(name, SENSITIVE_MARKERS[k]);
    }
    forall word | word in SECRET_WORDS
      ensures exists k :: 0 <= k < |SENSITIVE_MARKERS| && SENSITIVE_MARKERS[k] == word
    {
      var k := MarkerIndex(word);
    }
    forall k | 0 <= k < |SENSITIVE_MARKERS| ensures SENSITIVE_MARKERS[k] in SECRET_WORDS {
      MarkerCapitals(k);
    }
  }

  /** The non-empty provider key and the non-empty values of sensitive names. */
  ghost predicate Configured(secret: string, providerKey: string, values: seq<(string, string)>) {
    && secret != ""
    && (secret == providerKey || exists k :: 0 <= k < |values| && NamesASecret(values[k].0) && values[k].1 == secret)
  }

  // ---------------------------------------------------------------- longest first, no duplicates

  // A string's bytes are not built to sort it: `Utf8Width` counts them, `LexBefore` compares code points.

  function Utf8Width(c: char): nat {
    if c as int < 0x80 then 1 else if c as int < 0x800 then 2 else if c as int < 0x10000 then 3 else 4
  }

  /** `str::len`: the length in UTF-8 bytes. */
  function ByteLength(text: string): nat {
    if text == "" then 0 else Utf8Width(text[0]) + ByteLength(text[1..])
  }

  lemma {:induction false} ByteLengthIs(text: string)
    ensures ByteLength(text) == |Bytes(text)|
    decreases |text|
  {
    if text != "" {
      ByteLengthIs(text[1..]);
    }
  }

  predicate Before(a: string, b: string) {
    ByteLength(a) > ByteLength(b) || (ByteLength(a) == ByteLength(b) && LexBefore(a, b))
  }

  lemma {:induction false} LexTotal(a: string, b: string)
    ensures a == b || LexBefore(a, b) || LexBefore(b, a)
    ensures !(LexBefore(a, b) && LexBefore(b, a)) && !LexBefore(a, a)
    decreases |a|
  {
    if a != "" && b != "" && a[0] == b[0] {
      LexTotal(a[1..], b[1..]);
      assert a == [a[0]] + a[1..] && b == [b[0]] + b[1..];
    }
    if a != "" {
      LexTotal(a[1..], a[1..]);
    }
  }

  lemma {:induction false} LexTransitive(a: string, b: string, c: string)
    requires LexBefore(a, b) && LexBefore(b, c)
    ensures LexBefore(a, c)
    decreases |a|
  {
    if a != "" && a[0] == b[0] == c[0] {
      LexTransitive(a[1..], b[1..], c[1..]);
    }
  }

  lemma PartIsShorter(b: string, a: string)
    requires Contains(b, a)
    ensures ByteLength(a) < ByteLength(b) || a == b
  {
    hide ByteLength, Find, Bytes;
    FindFirst(b, a, 0);
    var i := Find(b, a, 0).value;
    var front, back := b[..i], b[i + |a|..];
    PartOf(b, i, a);
    BytesParts(front + a, back);
    BytesParts(front, a);
    BytesParts(back, "");
    ByteLengthIs(a);
    ByteLengthIs(b);
    assert front == "" && back == "" ==> b == a;
  }

  /** What comes before is no part of what comes after. */
  lemma BeforeIsNoPart(a: string, b: string)
    requires Before(a, b)
    ensures !Contains(b, a)
  {
    hide ByteLength, LexBefore, Contains;
    LexTotal(a, a);
    if Contains(b, a) {
      PartIsShorter(b, a);
    }
  }

  lemma PartOf(b: string, i: nat, a: string)
    requires MatchAt(b, i, a)
    ensures b == b[..i] + a + b[i + |a|..]
  {
    MatchIsSlice(b, i, a);
  }

  ghost predicate Ordered(secrets: seq<string>) {
    forall i, j :: 0 <= i < j < |secrets| ==> Before(secrets[i], secrets[j])
  }

  /** An ordered list is determined by its elements: the order the environment is read in is forgotten. */
  lemma {:induction false} OrderedUnique(a: seq<string>, b: seq<string>)
    requires Ordered(a) && Ordered(b) && forall s :: s in a <==> s in b
    ensures a == b
  {
    assert |b| > 0 ==> b[0] in b;
    if a != [] {
      assert a[0] in b;
      assert b[0] in a;
      LexTotal(a[0], b[0]);
      assert a[0] == b[0];
      forall s ensures s in a[1..] <==> s in b[1..] {
        TailMembers(a, s);
        TailMembers(b, s);
      }
      assert Ordered(a[1..]) && Ordered(b[1..]);
      OrderedUnique(a[1..], b[1..]);
      assert a == [a[0]] + a[1..] && b == [b[0]] + b[1..];
    }
  }

  lemma TailMembers(a: seq<string>, s: string)
    requires a != [] && Ordered(a)
    ensures s in a[1..] <==> s in a && s != a[0]
  {
    LexTotal(a[0], a[0]);
    if s in a[1..] {
      var i :| 0 <= i < |a[1..]| && a[1..][i] == s;
      assert Before(a[0], a[i + 1]);
    }
  }

  method Insert(secrets: seq<string>, s: string) returns (r: seq<string>)
    requires Ordered(secrets)
    ensures Ordered(r) && forall t :: t in r <==> t == s || t in secrets
  {
    var i := 0;
    while i < |secrets| && Before(secrets[i], s)
      invariant 0 <= i <= |secrets|
      invariant forall k :: 0 <= k < i ==> Before(secrets[k], s)
    {
      i := i + 1;
    }
    if i < |secrets| && secrets[i] == s {
      return secrets;
    }
    forall k | i <= k < |secrets| ensures Before(s, secrets[k]) {
      LexTotal(secrets[i], s);
      if i < k { BeforeTransitive(s, secrets[i], secrets[k]); }
    }
    r := secrets[..i] + [s] + secrets[i..];
    assert secrets == secrets[..i] + secrets[i..];
  }

  lemma BeforeTransitive(a: string, b: string, c: string)
    requires Before(a, b) && Before(b, c)
    ensures Before(a, c)
  {
    if LexBefore(a, b) && LexBefore(b, c) {
      LexTransitive(a, b, c);
    }
  }

  // ---------------------------------------------------------------- the redactor

  datatype Redactor = Redactor(secrets: seq<string>, replacement: string) {
    ghost predicate Valid() {
      NonEmpty(secrets) && replacement == ReplacementFor(secrets)
    }
  }

  method FromNamedValues(providerKey: string, values: seq<(string, string)>) returns (r: Redactor)
    ensures r.Valid() && Ordered(r.secrets) && Sorted(r.secrets) && NoneBreaksALater(r.secrets)
    ensures forall s :: s in r.secrets <==> Configured(s, providerKey, values)
  {
    hide IsSensitiveName, NamesASecret;
    var secrets: seq<string> := [];
    if providerKey != "" {
      secrets := [providerKey];
    }
    for k := 0 to |values|
      invariant Ordered(secrets)
      invariant forall s :: s in secrets <==> Configured(s, providerKey, values[..k])
    {
      var (name, value) := values[k];
      SensitiveExactly(name);
      if IsSensitiveName(name) && value != "" {
        secrets := Insert(secrets, value);
      }
      forall s ensures s in secrets <==> Configured(s, providerKey, values[..k + 1]) {
        ConfiguredStep(s, providerKey, values, k);
      }
    }
    assert values[..|values|] == values;
    forall i | 0 <= i < |secrets| ensures secrets[i] != "" {
      assert secrets[i] in secrets;
    }
    var marker := true;
    for k := 0 to |secrets|
      invariant marker <==> forall i :: 0 <= i < k ==> !Contains(REDACTED, secrets[i])
    {
      if Contains(REDACTED, secrets[k]) {
        marker := false;
      }
    }
    OrderedIsSorted(secrets);
    OrderedNoneBreaks(secrets);
    r := Redactor(secrets, if marker then REDACTED else "");
  }

  /** The order in which the program has them: by length in bytes, longest first, and then byte by byte. */
  ghost predicate Sorted(secrets: seq<string>) {
    forall i, j :: 0 <= i < j < |secrets| ==>
      var a, b := Bytes(secrets[i]), Bytes(secrets[j]);
      |a| > |b| || (|a| == |b| && BytesBefore(a, b))
  }

  lemma OrderedIsSorted(secrets: seq<string>)
    requires Ordered(secrets)
    ensures Sorted(secrets)
  {
    hide Bytes, BytesBefore, LexBefore, ByteLength;
    forall i, j | 0 <= i < j < |secrets|
      ensures var a, b := Bytes(secrets[i]), Bytes(secrets[j]); |a| > |b| || (|a| == |b| && BytesBefore(a, b))
    {
      ByteLengthIs(secrets[i]);
      ByteLengthIs(secrets[j]);
      ByteOrderIsCodePointOrder(secrets[i], secrets[j]);
      assert Before(secrets[i], secrets[j]);
    }
  }

  lemma OrderedNoneBreaks(secrets: seq<string>)
    requires Ordered(secrets)
    ensures NoneBreaksALater(secrets)
  {
    hide Before, Contains;
    forall i, j | 0 <= i < j < |secrets| ensures !Contains(secrets[j], secrets[i]) {
      BeforeIsNoPart(secrets[i], secrets[j]);
    }
  }

  lemma ConfiguredStep(s: string, providerKey: string, values: seq<(string, string)>, k: nat)
    requires k < |values|
    ensures Configured(s, providerKey, values[..k + 1]) <==>
            Configured(s, providerKey, values[..k]) || (s != "" && NamesASecret(values[k].0) && values[k].1 == s)
  {
    hide NamesASecret;
    var a, b := values[..k], values[..k + 1];
    assert b == a + [values[k]];
    assert forall i :: 0 <= i < k ==> a[i] == b[i];
    assert b[k] == values[k];
  }

  function RedactedText(r: Redactor, text: string): string
    requires r.Valid()
  {
    Redacted(text, r.secrets, r.replacement)
  }

  // ---------------------------------------------------------------- whole events

  function RedactEvent(r: Redactor, event: WorkerEvent): WorkerEvent
    requires r.Valid()
  {
    match event
    case TextDelta(text) => TextDelta(RedactedText(r, text))
    case AssistantMessage(text) => AssistantMessage(RedactedText(r, text))
    case ToolStart(id, name, arguments) => ToolStart(id, RedactedText(r, name), RedactedText(r, arguments))
    case ToolResult(id, name, content, isError) =>
      ToolResult(id, RedactedText(r, name), RedactedText(r, content), isError)
    case NeedsApproval(id, tool, arguments) => NeedsApproval(id, RedactedText(r, tool), RedactedText(r, arguments))
    case Crash(message) => Crash(RedactedText(r, message))
    case TurnFinished => event
    case Done(_) => event
  }

  /** The free text an event carries. */
  function Texts(event: WorkerEvent): seq<string> {
    match event
    case TextDelta(text) => [text]
    case AssistantMessage(text) => [text]
    case ToolStart(_, name, arguments) => [name, arguments]
    case ToolResult(_, name, content, _) => [name, content]
    case NeedsApproval(_, tool, arguments) => [tool, arguments]
    case Crash(message) => [message]
    case TurnFinished => []
    case Done(_) => []
  }

  /** All the rest of it: kind, call identity, flags and counts. */
  function Frame(event: WorkerEvent): WorkerEvent {
    match event
    case TextDelta(_) => TextDelta("")
    case AssistantMessage(_) => AssistantMessage("")
    case ToolStart(id, _, _) => ToolStart(id, "", "")
    case ToolResult(id, _, _, isError) => ToolResult(id, "", "", isError)
    case NeedsApproval(id, _, _) => NeedsApproval(id, "", "")
    case Crash(_) => Crash("")
    case TurnFinished => event
    case Done(_) => event
  }

  /** Redaction touches an event's free text and nothing else; kind and texts determine the event. */
  lemma RedactEventTouchesTextsOnly(r: Redactor, event: WorkerEvent)
    requires r.Valid()
    ensures Frame(RedactEvent(r, event)) == Frame(event)
    ensures |Texts(RedactEvent(r, event))| == |Texts(event)|
    ensures forall i :: 0 <= i < |Texts(event)| ==> Texts(RedactEvent(r, event))[i] == RedactedText(r, Texts(event)[i])
  {
    hide RedactedText;
  }

  lemma FrameAndTextsDetermine(a: WorkerEvent, b: WorkerEvent)
    requires Frame(a) == Frame(b) && Texts(a) == Texts(b)
    ensures a == b
  {
    var x, y := Texts(a), Texts(b);
    assert |x| > 0 ==> x[0] == y[0];
    assert |x| > 1 ==> x[1] == y[1];
  }

  /** What reaches the socket: no safe secret, no credential of a known kind, in any text of any event. */
  lemma EventRedacted(r: Redactor, event: WorkerEvent, i: nat)
    requires r.Valid() && i < |Texts(event)|
    ensures var out := Texts(RedactEvent(r, event))[i];
            && (forall k :: 0 <= k < |r.secrets| && Disjoint(r.secrets[k], r.replacement) ==> Absent(out, r.secrets[k]))
            && AllTokenFree(out)
            && (r.replacement == REDACTED ==> HeaderFree(out) && BearerHidden(out))
  {
    hide Redacted, Absent, Disjoint, HeaderFree, BearerHidden, TokenFree, TOKEN_PREFIXES;
    RedactEventTouchesTextsOnly(r, event);
    var text := Texts(event)[i];
    var out := Texts(RedactEvent(r, event))[i];
    forall k | 0 <= k < |r.secrets| && Disjoint(r.secrets[k], r.replacement) ensures Absent(out, r.secrets[k]) {
      SecretAbsent(text, r.secrets, r.replacement, k);
    }
    forall k | 0 <= k < |TOKEN_PREFIXES| ensures TokenFree(out, TOKEN_PREFIXES[k]) {
      RedactedTokenFree(text, r.secrets, r.replacement, k);
    }
    RedactedIsPatterns(text, r);
    PatternsHeaderFree(SecretStage(text, r.secrets, r.replacement));
    PatternsBearerHidden(SecretStage(text, r.secrets, r.replacement));
  }

  lemma RedactedIsPatterns(text: string, r: Redactor)
    requires r.Valid()
    ensures RedactedText(r, text) == Patterns(SecretStage(text, r.secrets, r.replacement), r.replacement)
  {
    hide Patterns, SecretStage;
  }

  /** Field by field: identities, flags and counts are the event's, and there is nothing to hide in any text. */
  ghost predicate NothingToHideIn(event: WorkerEvent, out: WorkerEvent, secrets: seq<string>) {
    match out
    case TextDelta(text) => event.TextDelta? && NothingToHide(text, secrets)
    case AssistantMessage(text) => event.AssistantMessage? && NothingToHide(text, secrets)
    case ToolStart(id, name, arguments) =>
      event.ToolStart? && id == event.callId && NothingToHide(name, secrets) && NothingToHide(arguments, secrets)
    case ToolResult(id, name, content, isError) =>
      && event.ToolResult? && id == event.callId && isError == event.isError
      && NothingToHide(name, secrets) && NothingToHide(content, secrets)
    case NeedsApproval(id, tool, arguments) =>
      event.NeedsApproval? && id == event.callId && NothingToHide(tool, secrets) && NothingToHide(arguments, secrets)
    case Crash(message) => event.Crash? && NothingToHide(message, secrets)
    case TurnFinished => event.TurnFinished?
    case Done(count) => event.Done? && count == event.finalMessageCount
  }

  lemma EventHidesNothing(r: Redactor, event: WorkerEvent)
    requires r.Valid() && r.replacement == REDACTED && AllDisjoint(r.secrets, REDACTED)
    ensures NothingToHideIn(event, RedactEvent(r, event), r.secrets)
  {
    hide Redacted, NothingToHide, Disjoint;
    var out := RedactEvent(r, event);
    RedactEventTouchesTextsOnly(r, event);
    forall i | 0 <= i < |Texts(event)| ensures NothingToHide(Texts(out)[i], r.secrets) {
      NothingToHideIsLeft(Texts(event)[i], r.secrets);
    }
    match out
    case TextDelta(text) => assert text == Texts(out)[0];
    case AssistantMessage(text) => assert text == Texts(out)[0];
    case ToolStart(_, name, arguments) => assert name == Texts(out)[0] && arguments == Texts(out)[1];
    case ToolResult(_, name, content, _) => assert name == Texts(out)[0] && content == Texts(out)[1];
    case NeedsApproval(_, tool, arguments) => assert tool == Texts(out)[0] && arguments == Texts(out)[1];
    case Crash(message) => assert message == Texts(out)[0];
    case _ =>
  }

  /** With the marker in use, redacting an event a second time changes nothing. */
  lemma RedactEventTwice(r: Redactor, event: WorkerEvent)
    requires r.Valid() && r.replacement == REDACTED && AllDisjoint(r.secrets, REDACTED)
    ensures RedactEvent(r, RedactEvent(r, event)) == RedactEvent(r, event)
  {
    hide Redacted, Disjoint;
    var once := RedactEvent(r, event);
    var twice := RedactEvent(r, once);
    RedactEventTouchesTextsOnly(r, event);
    RedactEventTouchesTextsOnly(r, once);
    forall i | 0 <= i < |Texts(event)| ensures Texts(twice)[i] == Texts(once)[i] {
      RedactedTwice(Texts(event)[i], r.secrets);
    }
    FrameAndTextsDetermine(twice, once);
  }
}
