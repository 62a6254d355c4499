/** The chat panel's own logic: the id generator that fills a version-4 UUID
    template, the Enter-to-send rule, the rule that disables the send button,
    and the filter that chooses which messages are drawn. */
module ChatPanel {
  import opened Messages

  // ---------------------------------------------------------------------------
  // Ids

  /** One random draw: the integer part of a random number times 16. */
  type Nibble = x: int | 0 <= x < 16

  const HexDigits: string := "0123456789abcdef"

  predicate IsLowerHex(c: char) {
    '0' <= c <= '9' || 'a' <= c <= 'f'
  }

  /** The value of a lower-case hexadecimal digit. */
  function HexValue(c: char): (v: Nibble)
    requires IsLowerHex(c)
  {
    if c <= '9' then c as int - '0' as int else c as int - 'a' as int + 10
  }

  /** `v.toString(16)` for a value below 16: one lower-case digit. */
  function HexDigit(v: Nibble): (c: char)
    ensures IsLowerHex(c) && HexValue(c) == v
  {
    HexDigits[v]
  }

  lemma DigitOfValue(c: char)
    requires IsLowerHex(c)
    ensures HexDigit(HexValue(c)) == c
  {
  }

  /** `(r & 0x3) | 0x8`: keeps the two low bits of the draw and sets the two high
      bits to 1 and 0, the variant field of section 4.1.1 of RFC 4122. */
  function VariantNibble(r: Nibble): (v: Nibble)
    ensures 8 <= v <= 11
    ensures v % 4 == r % 4
  {
    ((r as bv8 & 0x3) | 0x8) as int
  }

  const UuidTemplate: string := "xxxxxxxx-xxxx-4xxx-yxxx-xxxxxxxxxxxx"

  predicate IsPlaceholder(c: char) {
    c == 'x' || c == 'y'
  }

  /** The replacement for one placeholder given the draw `r` made for it. */
  function ReplacePlaceholder(c: char, r: Nibble): char
    requires IsPlaceholder(c)
  {
    HexDigit(if c == 'x' then r else VariantNibble(r))
  }

  /** Every placeholder of `template` replaced using the draw made at its
      position; other characters are kept. */
  function FillTemplate(template: string, draws: seq<Nibble>): string
    requires |draws| == |template|
  {
    seq(|template|, i requires 0 <= i < |template| =>
      if IsPlaceholder(template[i]) then ReplacePlaceholder(template[i], draws[i]) else template[i])
  }

  predicate IsDashPosition(i: int) {
    i == 8 || i == 13 || i == 18 || i == 23
  }

  /** The textual layout of a version-4 UUID (section 4.4 of RFC 4122), in
      lower case: 32 hexadecimal digits in groups of 8-4-4-4-12, the version
      digit (section 4.1.3) equal to 4 and the variant digit (section 4.1.1)
      one of 8, 9, a, b. */
  ghost predicate IsVersion4Uuid(s: string) {
    |s| == 36 &&
    forall i :: 0 <= i < |s| ==>
      if IsDashPosition(i) then s[i] == '-'
      else if i == 14 then s[i] == '4'
      else if i == 19 then s[i] in "89ab"
      else IsLowerHex(s[i])
  }

  /** Where the template has its dashes, its fixed version digit and its
      variant placeholder. */
  lemma TemplateLayout()
    ensures |UuidTemplate| == 36
    ensures forall i :: 0 <= i < 36 ==>
      UuidTemplate[i] == if IsDashPosition(i) then '-' else if i == 14 then '4' else if i == 19 then 'y' else 'x'
  {
  }

  /** A random version-4 UUID; `draws[i]` is the random digit drawn for
      position i (positions without a placeholder draw nothing). */
  function GenerateUUID(draws: seq<Nibble>): (uuid: string)
    requires |draws| == |UuidTemplate|
    ensures IsVersion4Uuid(uuid)
    ensures forall i :: 0 <= i < |uuid| && !IsDashPosition(i) && i != 14 && i != 19 ==>
      uuid[i] == HexDigit(draws[i])
    ensures uuid[19] == HexDigit(VariantNibble(draws[19]))
  {
    TemplateLayout();
    FillTemplate(UuidTemplate, draws)
  }

  /** The digits of a UUID read back, position by position. */
  function DrawsOf(s: string): (draws: seq<Nibble>)
    requires |s| == |UuidTemplate|
    ensures |draws| == |s|
  {
    seq(|s|, i requires 0 <= i < |s| => if IsLowerHex(s[i]) then HexValue(s[i]) else 0)
  }

  /** Every random digit can be read back from the id, and the variant digit
      keeps the two low bits of its draw. */
  lemma DrawsRecovered(draws: seq<Nibble>)
    requires |draws| == |UuidTemplate|
    ensures forall i :: 0 <= i < |draws| && !IsDashPosition(i) && i != 14 && i != 19 ==>
      DrawsOf(GenerateUUID(draws))[i] == draws[i]
    ensures DrawsOf(GenerateUUID(draws))[19] % 4 == draws[19] % 4
  {
  }

  /** Every string with the version-4 layout is produced by some draws: the
      generator yields exactly the version-4 layout. */
  lemma EveryVersion4UuidGenerated(s: string)
    requires IsVersion4Uuid(s)
    ensures GenerateUUID(DrawsOf(s)) == s
  {
  }

  // ---------------------------------------------------------------------------
  // Input rules

  /** Enter without Shift sends the input; Shift+Enter (a new line) and every
      other key do not. */
  function SubmitsOnKeyDown(key: string, shiftKey: bool): (submits: bool)
    ensures submits ==> key == "Enter"
    ensures key == "Enter" ==> (submits <==> !shiftKey)
  {
    key == "Enter" && !shiftKey
  }

  /** The characters `String.prototype.trim` removes: white space and line
      terminators of the ECMAScript grammar. */
  predicate IsWhiteSpace(c: char) {
    || c == '\t' || c == '\n' || c == '\U{000B}' || c == '\U{000C}' || c == '\r' || c == ' '
    || c == '\U{00A0}' || c == '\U{1680}' || '\U{2000}' <= c <= '\U{200A}'
    || c == '\U{2028}' || c == '\U{2029}' || c == '\U{202F}' || c == '\U{205F}' || c == '\U{3000}'
    || c == '\U{FEFF}'
  }

  /** `s` without its leading white space. */
  function TrimStart(s: string): (r: string)
    ensures |r| <= |s| && r == s[|s| - |r|..]
    ensures forall i :: 0 <= i < |s| - |r| ==> IsWhiteSpace(s[i])
    ensures r != [] ==> !IsWhiteSpace(r[0])
    decreases |s|
  {
    if s != [] && IsWhiteSpace(s[0]) then TrimStart(s[1..]) else s
  }

  /** `s` without its trailing white space. */
  function TrimEnd(s: string): (r: string)
    ensures |r| <= |s| && r == s[..|r|]
    ensures forall i :: |r| <= i < |s| ==> IsWhiteSpace(s[i])
    ensures r != [] ==> !IsWhiteSpace(r[|r| - 1])
    decreases |s|
  {
    if s != [] && IsWhiteSpace(s[|s| - 1]) then TrimEnd(s[..|s| - 1]) else s
  }

  /** Trimming the end and then the start of `s` leaves the slice of `s` that
      ends where its trailing white space begins, with only white space on
      either side of it. */
  lemma TrimBothEnds(s: string)
    ensures var u := TrimEnd(s); var r := TrimStart(u);
      && |r| <= |u| && r == s[|u| - |r|..|u|]
      && (forall i :: 0 <= i < |u| - |r| ==> IsWhiteSpace(s[i]))
      && (r != [] ==> !IsWhiteSpace(r[|r| - 1]))
  {
    var u := TrimEnd(s);
    var r := TrimStart(u);
    forall i | 0 <= i < |u| - |r| ensures IsWhiteSpace(s[i]) {
      assert s[i] == u[i];
    }
    if r != [] {
      assert r[|r| - 1] == u[|u| - 1];
    }
  }

  /** `String.prototype.trim`: the slice of `s` with only white space before
      and after it and none at either of its ends, so that it is empty exactly
      when `s` is all white space. */
  function Trim(s: string): (r: string)
    ensures r == [] <==> forall i :: 0 <= i < |s| ==> IsWhiteSpace(s[i])
    ensures r != [] ==> !IsWhiteSpace(r[0]) && !IsWhiteSpace(r[|r| - 1])
    ensures var end := |TrimEnd(s)|; |r| <= end && r == s[end - |r|..end]
    ensures forall i :: 0 <= i < |TrimEnd(s)| - |r| ==> IsWhiteSpace(s[i])
    ensures forall i :: |TrimEnd(s)| <= i < |s| ==> IsWhiteSpace(s[i])
  {
    TrimBothEnds(s);
    TrimStart(TrimEnd(s))
  }

  /** The send button is disabled while a reply is loading and while the input
      holds nothing but white space. */
  function SendDisabled(isLoading: bool, input: string): (disabled: bool)
    ensures disabled <==> isLoading || forall i :: 0 <= i < |input| ==> IsWhiteSpace(input[i])
  {
    isLoading || Trim(input) == ""
  }

  // ---------------------------------------------------------------------------
  // Display filter

  /** The messages drawn: those with non-empty content, in their order. */
  function VisibleMessages(messages: seq<UIMessage>): (shown: seq<UIMessage>)
    ensures |shown| <= |messages|
    ensures forall m <- shown :: m in messages && m.content != ""
    ensures forall m <- messages :: m.content != "" ==> m in shown
    decreases |messages|
  {
    if messages == [] then []
    else
      assert forall m <- messages[1..] :: m in messages;
      (if messages[0].content != "" then [messages[0]] else []) + VisibleMessages(messages[1..])
  }

  /** The filter works message by message, so it keeps the relative order. */
  lemma {:induction false} VisibleMessagesAppend(a: seq<UIMessage>, b: seq<UIMessage>)
    ensures VisibleMessages(a + b) == VisibleMessages(a) + VisibleMessages(b)
    decreases |a|
  {
    if a == [] {
      assert a + b == b;
    } else {
      assert (a + b)[1..] == a[1..] + b;
      VisibleMessagesAppend(a[1..], b);
    }
  }

  /** When every message has content, all are drawn. */
  lemma {:induction false} VisibleMessagesAllShown(messages: seq<UIMessage>)
    requires forall m <- messages :: m.content != ""
    ensures VisibleMessages(messages) == messages
    decreases |messages|
  {
    if messages != [] {
      assert messages[0] in messages;
      assert forall m <- messages[1..] :: m in messages;
      VisibleMessagesAllShown(messages[1..]);
    }
  }
}
