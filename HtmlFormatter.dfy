/**
 * The HTML pretty-printer of the console: a tokenizer that walks the input
 * with a position cursor and a printer that re-emits the tokens with an
 * indent level.  The class `HtmlFormatter` holds the options fixed by its
 * constructor; its loops are methods proved equal to the recursive
 * specification functions of this module, and the lemmas state what the
 * tokens and the printed text look like.
 */
module HtmlFormatter {
  import opened JsText

  // ----- options -----

  datatype SelfClosingStyle = Xhtml | Html

  datatype WrapMode =
    | Auto
    | Force
    | ForceAligned
    | ForceExpandMultiline
    | AlignedMultiple
    | Preserve
    | PreserveAligned

  /** A JavaScript number as an option holds it: finite, infinite, or `NaN`. */
  datatype Number = Finite(value: real) | Infinite(positive: bool) | NaN

  datatype Options = Options(
    indent: Number,
    maxLineLength: Number,
    selfClosingStyle: SelfClosingStyle,
    wrapAttributes: WrapMode)

  /** One entry of the options object a caller passes: left out, present as `undefined`, or given. */
  datatype Override<T> = Absent | Undefined | Given(value: T)

  /** The options a caller passes. */
  datatype PartialOptions = PartialOptions(
    indent: Override<Number>,
    maxLineLength: Override<Number>,
    selfClosingStyle: Override<SelfClosingStyle>,
    wrapAttributes: Override<WrapMode>)

  const Defaults: Options := Options(Finite(2.0), Finite(40.0), Xhtml, Auto)

  const NoOverrides: PartialOptions := PartialOptions(Absent, Absent, Absent, Absent)

  /** `{ ...defaultOptions, ...options }`: every entry present in `options` wins over the default,
      even one present as `undefined`. Arithmetic on an `undefined` number gives `NaN`; an
      `undefined` style fails every `=== "xhtml"` test, as the HTML style does; an `undefined`
      wrap mode reaches the `default` branch of the layout switch, as `auto` does. */
  function Merge(p: PartialOptions): (o: Options)
    ensures p.indent.Given? ==> o.indent == p.indent.value
    ensures p.maxLineLength.Given? ==> o.maxLineLength == p.maxLineLength.value
    ensures p.selfClosingStyle.Given? ==> o.selfClosingStyle == p.selfClosingStyle.value
    ensures p.wrapAttributes.Given? ==> o.wrapAttributes == p.wrapAttributes.value
    ensures p.indent.Undefined? ==> o.indent == NaN
    ensures p.maxLineLength.Undefined? ==> o.maxLineLength == NaN
    ensures p.selfClosingStyle.Undefined? ==> o.selfClosingStyle == Html
    ensures p.wrapAttributes.Undefined? ==> o.wrapAttributes == Auto
    ensures p.indent.Absent? ==> o.indent == Defaults.indent
    ensures p.maxLineLength.Absent? ==> o.maxLineLength == Defaults.maxLineLength
    ensures p.selfClosingStyle.Absent? ==> o.selfClosingStyle == Defaults.selfClosingStyle
    ensures p.wrapAttributes.Absent? ==> o.wrapAttributes == Defaults.wrapAttributes
    ensures p == NoOverrides ==> o == Defaults
  {
    Options(
      match p.indent case Absent => Defaults.indent case Undefined => NaN case Given(v) => v,
      match p.maxLineLength case Absent => Defaults.maxLineLength case Undefined => NaN case Given(v) => v,
      match p.selfClosingStyle case Absent => Defaults.selfClosingStyle case Undefined => Html case Given(v) => v,
      match p.wrapAttributes case Absent => Defaults.wrapAttributes case Undefined => Auto case Given(v) => v)
  }

  function Scale(level: nat, x: real): real {
    (level as real) * x
  }

  /** `level * n` in JavaScript: `0 * Infinity` is `NaN`, and `NaN` stays `NaN`. */
  function Times(level: nat, n: Number): (r: Number)
    ensures n.Finite? ==> r == Finite(Scale(level, n.value))
    ensures r.NaN? <==> n.NaN? || (n.Infinite? && level == 0)
  {
    match n
    case Finite(x) => Finite(Scale(level, x))
    case Infinite(positive) => if level == 0 then NaN else Infinite(positive)
    case NaN => NaN
  }

  /** The count `" ".repeat(n)` uses: `NaN` counts 0 and a finite count is truncated toward zero;
      a count that is then below zero, or infinite, throws a `RangeError`, given as `None`. */
  function RepeatCount(n: Number): (r: Option<nat>)
    ensures r.None? <==> n.Infinite? || (n.Finite? && n.value <= -1.0)
    ensures n.NaN? ==> r == Some(0)
    ensures n.Finite? && r.Some? ==>
      r.value as real <= Abs(n.value) < r.value as real + 1.0
  {
    match n
    case Finite(x) => if x <= -1.0 then None else if x < 1.0 then Some(0) else Some(x.Floor)
    case Infinite(_) => None
    case NaN => Some(0)
  }

  function Abs(x: real): real {
    if x < 0.0 then -x else x
  }

  /** Whether `indent(level)` throws. */
  predicate IndentThrows(opts: Options, level: nat) {
    RepeatCount(Times(level, opts.indent)).None?
  }

  /** The number of spaces `indent(level)` returns when it does not throw. */
  function IndentWidth(opts: Options, level: nat): nat {
    match RepeatCount(Times(level, opts.indent))
    case Some(n) => n
    case None => 0
  }

  // ----- tokens -----

  datatype TokenKind = TagOpen | TagClose | SelfClosing | Text | Comment | Doctype

  /** An attribute; `None` is a bare name without `=`. */
  datatype Attribute = Attribute(name: string, value: Option<string>)

  /** A token; `name` is "" for comments, doctypes and text, and the token is
      self-closing exactly when its kind is `SelfClosing`. */
  datatype Token = Token(kind: TokenKind, content: string, name: string, attributes: seq<Attribute>)

  /** The outcome of a scan: `Stuck(at, items)` stands where the source's loop
      stops advancing at position `at`, after producing `items`. */
  datatype Scan<T> = Done(items: seq<T>) | Stuck(at: nat, items: seq<T>)

  // ----- character classes and the scanners behind the source's patterns -----

  predicate IsAsciiLetter(c: char) {
    'a' <= c <= 'z' || 'A' <= c <= 'Z'
  }

  /** `[a-zA-Z0-9:-]` */
  predicate IsNameChar(c: char) {
    IsAsciiLetter(c) || IsDigit(c) || c == ':' || c == '-'
  }

  /** A name of the pattern `[a-zA-Z][a-zA-Z0-9:-]*`. */
  predicate IsName(s: string) {
    |s| >= 1 && IsAsciiLetter(s[0]) && forall k :: 1 <= k < |s| ==> IsNameChar(s[k])
  }

  /** Length of the longest run of name characters at `s[i..]`. */
  function NameRun(s: string, i: nat): (n: nat)
    requires i <= |s|
    ensures i + n <= |s|
    decreases |s| - i
  {
    if i < |s| && IsNameChar(s[i]) then 1 + NameRun(s, i + 1) else 0
  }

  /** The run is all name characters and ends at the first other character. */
  lemma {:induction false} NameRunSpec(s: string, i: nat)
    requires i <= |s|
    ensures var n := NameRun(s, i);
      (forall k :: i <= k < i + n ==> IsNameChar(s[k])) && (i + n == |s| || !IsNameChar(s[i + n]))
    decreases |s| - i
  {
    if i < |s| && IsNameChar(s[i]) {
      NameRunSpec(s, i + 1);
    }
  }

  /** Length of the (greedy) match of `[a-zA-Z][a-zA-Z0-9:-]*` at `s[i..]`, 0 when there is none. */
  function TagNameLength(s: string, i: nat): (n: nat)
    requires i <= |s|
    ensures i + n <= |s|
    ensures n > 0 <==> i < |s| && IsAsciiLetter(s[i])
  {
    if i < |s| && IsAsciiLetter(s[i]) then 1 + NameRun(s, i + 1) else 0
  }

  /** A tag name found is a name, and the longest one there. */
  lemma TagNameLengthSpec(s: string, i: nat)
    requires i <= |s|
    ensures var n := TagNameLength(s, i);
      n > 0 ==> IsName(s[i..i + n]) && (i + n == |s| || !IsNameChar(s[i + n]))
  {
    if i < |s| && IsAsciiLetter(s[i]) {
      NameRunSpec(s, i + 1);
      var n := TagNameLength(s, i);
      var name := s[i..i + n];
      assert forall k :: 1 <= k < n ==> name[k] == s[i + k];
    }
  }

  /** Where the match of `^\s+` at `s[i..]` ends, `i` when there is none. */
  function WhitespaceEnd(s: string, i: nat): (e: nat)
    requires i <= |s|
    ensures i <= e <= |s|
    decreases |s| - i
  {
    if i < |s| && IsWhitespace(s[i]) then WhitespaceEnd(s, i + 1) else i
  }

  /** The run is all white space and ends at the first other character. */
  lemma {:induction false} WhitespaceEndSpec(s: string, i: nat)
    requires i <= |s|
    ensures var e := WhitespaceEnd(s, i);
      (forall k :: i <= k < e ==> IsWhitespace(s[k])) && (e == |s| || !IsWhitespace(s[e]))
    decreases |s| - i
  {
    if i < |s| && IsWhitespace(s[i]) {
      WhitespaceEndSpec(s, i + 1);
    }
  }

  /** The element names that are self-closing by nature. */
  const VoidElements: seq<string> :=
    ["area", "base", "br", "col", "embed", "hr", "img", "input",
     "link", "meta", "param", "source", "track", "wbr"]

  /** `isSelfClosingTag`: the lowercased name is one of the void element names. */
  function IsSelfClosingTag(name: string): bool {
    Includes(VoidElements, ToLower(name))
  }

  /** The void names are compared without regard to ASCII case. */
  lemma {:induction false} SelfClosingIgnoresCase(name: string)
    ensures IsSelfClosingTag(ToUpper(name)) == IsSelfClosingTag(name)
    ensures IsSelfClosingTag(ToLower(name)) == IsSelfClosingTag(name)
  {
    assert ToLower(ToUpper(name)) == ToLower(name);
    assert ToLower(ToLower(name)) == ToLower(name);
  }

  /** The table has fourteen distinct names, all lower case. */
  lemma VoidElementTable()
    ensures |VoidElements| == 14 && NoDuplicates(VoidElements)
    ensures forall k :: 0 <= k < |VoidElements| ==> ToLower(VoidElements[k]) == VoidElements[k]
  {
  }

  /** `isSelfClosingTag` is membership of the lowercased name in the void table. */
  lemma SelfClosingIsMember(name: string)
    ensures IsSelfClosingTag(name) <==> ToLower(name) in VoidElements
  {
    IncludesIsIn(VoidElements, ToLower(name));
  }

  /** Void names match in any case. */
  lemma SelfClosingExamples()
    ensures IsSelfClosingTag("BR") && IsSelfClosingTag("Img")
  {
    assert ToLower("BR") == VoidElements[2];
    assert ToLower("Img") == VoidElements[6];
    SelfClosingIsMember("BR");
    SelfClosingIsMember("Img");
  }

  /** A name outside the table is not void, whatever its case. */
  lemma NotSelfClosingExample()
    ensures !IsSelfClosingTag("DIV")
  {
    assert ToLower("DIV") == "div";
    assert forall k :: 0 <= k < |VoidElements| ==> VoidElements[k] == [] || VoidElements[k][0] != 'd';
    SelfClosingIsMember("DIV");
  }

  // ----- the quote-aware end-of-tag scan -----

  /** One step of `findTagEnd`'s `inQuote` state on character `c`. */
  function QuoteStep(q: Option<char>, c: char): Option<char> {
    match q
    case Some(open) => if c == open then None else q
    case None => if c == '"' || c == '\'' then Some(c) else None
  }

  /** `findTagEnd` from index `k` in quote state `q`: the first `>` met outside quotes, or -1. */
  function TagEndFrom(s: string, k: nat, q: Option<char>): (r: int)
    requires k <= |s|
    ensures r == -1 || (k <= r < |s| && s[r] == '>')
    decreases |s| - k
  {
    if k == |s| then -1
    else if q == None && s[k] == '>' then k
    else TagEndFrom(s, k + 1, QuoteStep(q, s[k]))
  }

  function TagEnd(s: string, start: nat): (r: int)
    requires start <= |s|
    ensures r == -1 || (start <= r < |s| && s[r] == '>')
  {
    TagEndFrom(s, start, None)
  }

  /** The quote state on reaching index `k` when scanning from `start`. */
  function QuoteBefore(s: string, start: nat, k: nat): Option<char>
    requires start <= k <= |s|
    decreases k - start
  {
    if k == start then None else QuoteStep(QuoteBefore(s, start, k - 1), s[k - 1])
  }

  /** A `>` at `k` that is not inside a quoted run begun at or after `start`. */
  predicate UnquotedGt(s: string, start: nat, k: nat)
    requires start <= k < |s|
  {
    s[k] == '>' && QuoteBefore(s, start, k) == None
  }

  /** `findTagEnd` returns the first unquoted `>` at or after `start`, or -1 when there is none. */
  lemma TagEndIsFirstUnquotedGt(s: string, start: nat)
    requires start <= |s|
    ensures var r := TagEnd(s, start);
      if r == -1 then forall k :: start <= k < |s| ==> !UnquotedGt(s, start, k)
      else start <= r < |s| && UnquotedGt(s, start, r) &&
           forall k :: start <= k < r ==> !UnquotedGt(s, start, k)
  {
    TagEndFromSpec(s, start, start);
  }

  lemma {:induction false} TagEndFromSpec(s: string, start: nat, j: nat)
    requires start <= j <= |s|
    requires forall k :: start <= k < j ==> !UnquotedGt(s, start, k)
    ensures var r := TagEndFrom(s, j, QuoteBefore(s, start, j));
      if r == -1 then forall k :: start <= k < |s| ==> !UnquotedGt(s, start, k)
      else j <= r < |s| && UnquotedGt(s, start, r) &&
           forall k :: start <= k < r ==> !UnquotedGt(s, start, k)
    decreases |s| - j
  {
    if j < |s| {
      var q := QuoteBefore(s, start, j);
      if !(q == None && s[j] == '>') {
        assert QuoteBefore(s, start, j + 1) == QuoteStep(q, s[j]);
        TagEndFromSpec(s, start, j + 1);
      }
    }
  }

  // ----- the attribute scanner -----

  /** Length of the match of `[^\s>]+` at `s[i..]`, 0 when there is none. */
  function BareRun(s: string, i: nat): (n: nat)
    requires i <= |s|
    ensures i + n <= |s|
    ensures forall k :: i <= k < i + n ==> !IsWhitespace(s[k]) && s[k] != '>'
    decreases |s| - i
  {
    if i < |s| && !IsWhitespace(s[i]) && s[i] != '>' then 1 + BareRun(s, i + 1) else 0
  }

  /** What the value part `"…"`, `'…'` or bare run captured, and where the match ends. */
  datatype ValueCapture = NoValue | Captured(text: string, end: nat)

  /** The alternatives of the value part, tried in order at `s[i..]`. */
  function ValueAt(s: string, i: nat): (v: ValueCapture)
    requires i <= |s|
    ensures v.Captured? ==> i < v.end <= |s|
  {
    var dq := IndexOf(s, "\"", i + 1);
    var sq := IndexOf(s, "'", i + 1);
    var bare := BareRun(s, i);
    if i < |s| && s[i] == '"' && dq != -1 then Captured(s[i + 1..dq], dq + 1)
    else if i < |s| && s[i] == '\'' && sq != -1 then Captured(s[i + 1..sq], sq + 1)
    else if bare > 0 then Captured(s[i..i + bare], i + bare)
    else NoValue
  }

  /** `match[2] || match[3] || match[4] || null`: an empty capture reads as no value. */
  function CapturedValue(text: string): (r: Option<string>)
    ensures r == None <==> text == ""
  {
    if text == "" then None else Some(text)
  }

  /** One match of the attribute pattern at the start of `s`: the attribute and the match length. */
  function MatchAttribute(s: string): (r: (Attribute, nat))
    requires s != [] && IsAsciiLetter(s[0])
    ensures 0 < r.1 <= |s|
    ensures |r.0.name| <= |s| && IsName(r.0.name) && r.0.name == s[..|r.0.name|]
  {
    TagNameLengthSpec(s, 0);
    var n := TagNameLength(s, 0);
    var name := s[..n];
    var v := if n < |s| && s[n] == '=' then ValueAt(s, n + 1) else NoValue;
    match v
    case Captured(text, end) => (Attribute(name, CapturedValue(text)), end)
    case NoValue => (Attribute(name, None), n)
  }

  /** The rest of `s` from its first ASCII letter: where the next match of the pattern begins. */
  function SkipToLetter(s: string): (r: string)
    ensures |r| <= |s|
    ensures r == [] || IsAsciiLetter(r[0])

  {
    if s == [] || IsAsciiLetter(s[0]) then s else SkipToLetter(s[1..])
  }

  /** All matches of the global attribute pattern in `s`, in order. */
  function AttrsIn(s: string): (r: seq<Attribute>)
    decreases |s|
  {
    var t := SkipToLetter(s);
    if t == [] then []
    else
      var m := MatchAttribute(t);
      var rest := t[m.1..];
      assert |rest| < |s|;
      [m.0] + AttrsIn(rest)
  }

  lemma AttrsInStep(s: string)
    requires SkipToLetter(s) != []
    ensures var t := SkipToLetter(s);
      var m := MatchAttribute(t);
      AttrsIn(s) == [m.0] + AttrsIn(t[m.1..])
  {
  }

  /** One match of the attribute loop keeps its account of the matches still to come. */
  lemma Scanned(done: seq<Attribute>, rest: string, whole: string)
    requires done + AttrsIn(rest) == AttrsIn(whole) && SkipToLetter(rest) != []
    ensures var t := SkipToLetter(rest);
      var m := MatchAttribute(t);
      (done + [m.0]) + AttrsIn(t[m.1..]) == AttrsIn(whole) && |t[m.1..]| < |rest|
  {
    var t := SkipToLetter(rest);
    var m := MatchAttribute(t);
    AttrsInStep(rest);
    Regrouped(done, m.0, AttrsIn(t[m.1..]), AttrsIn(whole));
  }

  lemma Regrouped<T>(done: seq<T>, x: T, later: seq<T>, whole: seq<T>)
    requires done + ([x] + later) == whole
    ensures (done + [x]) + later == whole
  {
  }

  /** `parseAttributes(tagContent)` */
  function AttributesOf(content: string): seq<Attribute> {
    var n := if |content| > 0 && content[0] == '<' then TagNameLength(content, 1) else 0;
    if n == 0 then []
    else
      var attrString := Trim(Slice(content, 1 + n, if EndsWith(content, "/>") then -2 else -1));
      if attrString == [] then [] else AttrsIn(attrString)
  }

  // ----- the tokenizer -----

  /** What the tokenizer recognises at a position, before any token is built:
      the kind of construct and, for an open tag, the length of its name. */
  datatype SpanKind = CommentSpan | DoctypeSpan | CloseSpan | OpenSpan(nameLength: nat) | TextSpan

  /** A construct occupying `html[start..end]`. */
  datatype Span = Span(kind: SpanKind, start: nat, end: nat)

  /** What one iteration of the tokenizer's loop does at `pos`: skip white space,
      take one construct, take the final text, or make no progress. */
  datatype Step = Skip(next: nat) | Advance(span: Span, next: nat) | Finish(span: Span) | NoProgress

  /** `<!--` at `pos` with a `-->` found by searching from `pos` itself. */
  predicate CommentAt(html: string, pos: nat) {
    OccursAt(html, "<!--", pos) && IndexOf(html, "-->", pos) != -1
  }

  /** `<!DOCTYPE` or `<!doctype` at `pos` with a `>` after it. */
  predicate DoctypeAt(html: string, pos: nat) {
    (OccursAt(html, "<!DOCTYPE", pos) || OccursAt(html, "<!doctype", pos)) && IndexOf(html, ">", pos) != -1
  }

  /** `</` at `pos` with a `>` after it. */
  predicate CloseTagAt(html: string, pos: nat) {
    OccursAt(html, "</", pos) && IndexOf(html, ">", pos) != -1
  }

  /** `<` and a tag name at `pos`, with an unquoted `>` after it. */
  predicate OpenTagAt(html: string, pos: nat)
    requires pos < |html|
  {
    html[pos] == '<' && TagNameLength(html, pos + 1) > 0 && TagEnd(html, pos) != -1
  }

  /** A `<` at `pos` that begins none of the recognised constructs. */
  predicate Unrecognised(html: string, pos: nat)
    requires pos < |html|
  {
    html[pos] == '<' && !CommentAt(html, pos) && !DoctypeAt(html, pos) &&
    !CloseTagAt(html, pos) && !OpenTagAt(html, pos)
  }

  function CommentStep(html: string, pos: nat): (st: Step)
    requires CommentAt(html, pos)
    ensures st.Advance? && pos < st.next <= |html|
  {
    var e := IndexOf(html, "-->", pos);
    Advance(Span(CommentSpan, pos, e + 3), e + 3)
  }

  function DoctypeStep(html: string, pos: nat): (st: Step)
    requires DoctypeAt(html, pos)
    ensures st.Advance? && pos < st.next <= |html|
  {
    var e := IndexOf(html, ">", pos);
    Advance(Span(DoctypeSpan, pos, e + 1), e + 1)
  }

  function CloseTagStep(html: string, pos: nat): (st: Step)
    requires CloseTagAt(html, pos)
    ensures st.Advance? && pos < st.next <= |html|
  {
    var e := IndexOf(html, ">", pos);
    Advance(Span(CloseSpan, pos, e + 1), e + 1)
  }

  function OpenTagStep(html: string, pos: nat): (st: Step)
    requires pos < |html| && OpenTagAt(html, pos)
    ensures st.Advance? && pos < st.next <= |html|
  {
    var e := TagEnd(html, pos);
    Advance(Span(OpenSpan(TagNameLength(html, pos + 1)), pos, e + 1), e + 1)
  }

  /** The text branch: up to the next `<`, or to the end when there is none. */
  function TextStep(html: string, pos: nat): (st: Step)
    requires pos < |html|
    ensures st.Advance? ==> pos < st.next <= |html|
  {
    var nextLt := IndexOf(html, "<", pos);
    if nextLt == -1 then Finish(Span(TextSpan, pos, |html|))
    else if nextLt == pos then NoProgress
    else Advance(Span(TextSpan, pos, nextLt), nextLt)
  }

  /** One iteration of the tokenizer's loop at `pos`, its branches tried in the
      source's order; white space is skipped one character at a time, which
      `SkipWhitespaceRun` shows to agree with the source's skip of the whole run. */
  function StepAt(html: string, pos: nat): (st: Step)
    requires pos < |html|
    ensures (st.Skip? || st.Advance?) ==> pos < st.next <= |html|
  {
    if IsWhitespace(html[pos]) then Skip(pos + 1)
    else if CommentAt(html, pos) then CommentStep(html, pos)
    else if DoctypeAt(html, pos) then DoctypeStep(html, pos)
    else if CloseTagAt(html, pos) then CloseTagStep(html, pos)
    else if OpenTagAt(html, pos) then OpenTagStep(html, pos)
    else TextStep(html, pos)
  }

  /** The constructs the tokenizer's loop finds when it reaches `pos` having found `seen`. */
  function SpansFrom(html: string, pos: nat, seen: seq<Span>): Scan<Span>
    requires pos <= |html|
    decreases |html| - pos
  {
    if pos == |html| then Done(seen)
    else
      match StepAt(html, pos)
      case Skip(next) => SpansFrom(html, next, seen)
      case Advance(span, next) => SpansFrom(html, next, seen + [span])
      case Finish(span) => Done(seen + [span])
      case NoProgress => Stuck(pos, seen)
  }

  /** The text token for trimmed `text`, or nothing when it is empty. */
  function TextTokens(text: string): (r: seq<Token>)
    ensures |r| <= 1 && (r == [] <==> text == [])
    ensures forall t :: t in r ==> t == Token(Text, text, "", [])
  {
    if text == [] then [] else [Token(Text, text, "", [])]
  }

  /** The token of an open tag whose source text is `content`. */
  function OpenTagToken(content: string, name: string): Token {
    var selfClosing := EndsWith(content, "/>") || IsSelfClosingTag(name);
    Token(if selfClosing then SelfClosing else TagOpen, content, name, AttributesOf(content))
  }

  /** The token the source pushes for a construct, or nothing for white-space-only text. */
  function TokenOf(html: string, sp: Span): seq<Token> {
    match sp.kind
    case CommentSpan => [Token(Comment, Slice(html, sp.start, sp.end), "", [])]
    case DoctypeSpan => [Token(Doctype, Slice(html, sp.start, sp.end), "", [])]
    case CloseSpan => [CloseTagToken(html, sp.start, sp.end)]
    case OpenSpan(n) => [OpenToken(html, sp.start, sp.end, n)]
    case TextSpan => TextTokens(Trim(Slice(html, sp.start, sp.end)))
  }

  function CloseTagToken(html: string, start: nat, end: nat): Token {
    Token(TagClose, Slice(html, start, end), Trim(Slice(html, start + 2, end - 1)), [])
  }

  function OpenToken(html: string, start: nat, end: nat, n: nat): Token {
    OpenTagToken(Slice(html, start, end), Slice(html, start + 1, start + 1 + n))
  }

  /** A token the tokenizer's loop has taken, and the position after it. */
  datatype Taken = Taken(token: Token, next: nat)

  /** The tokens of a sequence of constructs. */
  function TokensOf(html: string, spans: seq<Span>): seq<Token>
    decreases |spans|
  {
    if spans == [] then []
    else TokensOf(html, spans[..|spans| - 1]) + TokenOf(html, spans[|spans| - 1])
  }

  /** One more construct adds its tokens at the end; used by Took and by Tokenize's loop. */
  lemma TokensOfSnoc(html: string, spans: seq<Span>, sp: Span)
    ensures TokensOf(html, spans + [sp]) == TokensOf(html, spans) + TokenOf(html, sp)
  {
    assert (spans + [sp])[..|spans|] == spans;
  }

  /** The token of each kind of construct, one lemma per kind so that the
      tokenizer's proof takes only the one it needs. */
  lemma TokenOfComment(html: string, start: nat, end: nat)
    ensures TokenOf(html, Span(CommentSpan, start, end)) == [Token(Comment, Slice(html, start, end), "", [])]
  {
  }

  lemma TokenOfDoctype(html: string, start: nat, end: nat)
    ensures TokenOf(html, Span(DoctypeSpan, start, end)) == [Token(Doctype, Slice(html, start, end), "", [])]
  {
  }

  lemma TokenOfClose(html: string, start: nat, gt: nat)
    ensures TokenOf(html, Span(CloseSpan, start, gt + 1)) == [CloseTagToken(html, start, gt + 1)]
  {
  }

  lemma TokenOfOpen(html: string, n: nat, start: nat, end: nat)
    ensures TokenOf(html, Span(OpenSpan(n), start, end)) == [OpenToken(html, start, end, n)]
  {
  }

  lemma OpenTagTokenIs(content: string, name: string, selfClosing: bool, attrs: seq<Attribute>)
    requires selfClosing == (EndsWith(content, "/>") || IsSelfClosingTag(name))
    requires attrs == AttributesOf(content)
    ensures OpenTagToken(content, name) == Token(if selfClosing then SelfClosing else TagOpen, content, name, attrs)
  {
  }

  lemma TokenOfText(html: string, start: nat, end: nat)
    ensures TokenOf(html, Span(TextSpan, start, end)) == TextTokens(Trim(Slice(html, start, end)))
  {
  }

  /** `tokenize(html)` */
  function Tokens(html: string): Scan<Token> {
    match SpansFrom(html, 0, [])
    case Done(spans) => Done(TokensOf(html, spans))
    case Stuck(at, spans) => Stuck(at, TokensOf(html, spans))
  }

  // Lemmas for the branches of the tokenizer's loop, so that the method's proof
  // does not have to unfold the specification itself.

  /** Skipping the whole run of white space, as the source does, leaves the constructs unchanged. */
  lemma {:induction false} SkipWhitespaceRun(html: string, pos: nat, seen: seq<Span>)
    requires pos <= |html|
    ensures SpansFrom(html, pos, seen) == SpansFrom(html, WhitespaceEnd(html, pos), seen)
    decreases |html| - pos
  {
    if pos < |html| && IsWhitespace(html[pos]) {
      assert StepAt(html, pos) == Skip(pos + 1);
      SkipWhitespaceRun(html, pos + 1, seen);
    }
  }

  lemma StepIsComment(html: string, pos: nat)
    requires pos < |html| && !IsWhitespace(html[pos]) && CommentAt(html, pos)
    ensures StepAt(html, pos) == CommentStep(html, pos)
  {
  }

  lemma StepIsDoctype(html: string, pos: nat)
    requires pos < |html| && !IsWhitespace(html[pos]) && !CommentAt(html, pos) && DoctypeAt(html, pos)
    ensures StepAt(html, pos) == DoctypeStep(html, pos)
  {
  }

  lemma StepIsCloseTag(html: string, pos: nat)
    requires pos < |html| && !IsWhitespace(html[pos]) && !CommentAt(html, pos) && !DoctypeAt(html, pos)
    requires CloseTagAt(html, pos)
    ensures StepAt(html, pos) == CloseTagStep(html, pos)
  {
  }

  lemma StepIsOpenTag(html: string, pos: nat)
    requires pos < |html| && !IsWhitespace(html[pos]) && !CommentAt(html, pos) && !DoctypeAt(html, pos)
    requires !CloseTagAt(html, pos) && OpenTagAt(html, pos)
    ensures StepAt(html, pos) == OpenTagStep(html, pos)
  {
  }

  lemma StepIsText(html: string, pos: nat)
    requires pos < |html| && !IsWhitespace(html[pos]) && !CommentAt(html, pos) && !DoctypeAt(html, pos)
    requires !CloseTagAt(html, pos) && !OpenTagAt(html, pos)
    ensures StepAt(html, pos) == TextStep(html, pos)
  {
  }

  /** Taking one construct keeps the loop's account of the constructs seen so far
      and of the tokens they give. */
  lemma Took(html: string, spans: seq<Span>, tokens: seq<Token>, pos: nat, emitted: seq<Token>)
    requires pos < |html| && StepAt(html, pos).Advance?
    requires SpansFrom(html, pos, spans) == SpansFrom(html, 0, [])
    requires tokens == TokensOf(html, spans)
    requires TokenOf(html, StepAt(html, pos).span) == emitted
    ensures var st := StepAt(html, pos);
      SpansFrom(html, st.next, spans + [st.span]) == SpansFrom(html, 0, []) &&
      tokens + emitted == TokensOf(html, spans + [st.span])
  {
    TokensOfSnoc(html, spans, StepAt(html, pos).span);
  }

  // ----- printing -----

  /** `indent(level)`: `" ".repeat(level * indent)`, when that does not throw. */
  function Indent(opts: Options, level: nat): (r: string)
    ensures |r| == IndentWidth(opts, level)
    ensures forall k :: 0 <= k < |r| ==> r[k] == ' '
  {
    Spaces(IndentWidth(opts, level))
  }

  /** `name="value"`, or the bare name; the value is written without escaping. */
  function RenderAttr(a: Attribute): string {
    match a.value
    case Some(v) => a.name + "=\"" + v + "\""
    case None => a.name
  }

  function RenderAttrs(attrs: seq<Attribute>): (r: seq<string>)
    ensures |r| == |attrs| && forall k :: 0 <= k < |attrs| ==> r[k] == RenderAttr(attrs[k])
  {
    seq(|attrs|, k requires 0 <= k < |attrs| => RenderAttr(attrs[k]))
  }

  /** The attributes one per line at `indent(level + 1)`, each line begun by a newline. */
  function WrappedAttrs(opts: Options, attrs: seq<Attribute>, level: nat): string {
    Join(seq(|attrs|, k requires 0 <= k < |attrs| => "\n" + Indent(opts, level + 1) + RenderAttr(attrs[k])), "")
  }

  /** `Math.max(...attrs.map(a => a.name.length))` for a non-empty list. */
  function MaxNameLength(attrs: seq<Attribute>): (r: nat)
    requires attrs != []
    ensures forall k :: 0 <= k < |attrs| ==> Utf16Length(attrs[k].name) <= r
    ensures exists k :: 0 <= k < |attrs| && Utf16Length(attrs[k].name) == r
  {
    if |attrs| == 1 then Utf16Length(attrs[0].name)
    else
      var m := MaxNameLength(attrs[1..]);
      assert forall k :: 1 <= k < |attrs| ==> attrs[k] == attrs[1..][k - 1];
      if Utf16Length(attrs[0].name) >= m then Utf16Length(attrs[0].name) else m
  }

  /** One aligned attribute line: the name padded to `width`, then ` = "value"`. */
  function AlignedLine(opts: Options, a: Attribute, width: nat, level: nat): string
    requires Utf16Length(a.name) <= width
  {
    "\n" + Indent(opts, level + 1) + a.name + Spaces(width - Utf16Length(a.name)) +
    (match a.value case Some(v) => " = \"" + v + "\"" case None => "")
  }

  function AlignedAttrs(opts: Options, attrs: seq<Attribute>, level: nat): string
    requires attrs != []
  {
    var width := MaxNameLength(attrs);
    Join(seq(|attrs|, k requires 0 <= k < |attrs| => AlignedLine(opts, attrs[k], width, level)), "")
  }

  /** The closing `/` of a wrapped tag: only for a self-closing tag in the XHTML style. */
  function Slash(opts: Options, t: Token): string {
    if t.kind == SelfClosing && opts.selfClosingStyle == Xhtml then "/" else ""
  }

  /** The attributes joined on one line. */
  function SingleLine(attrs: seq<Attribute>): string {
    Join(RenderAttrs(attrs), " ")
  }

  /** A tag fits on one line when its attributes on one line, its name and three more units
      take at most `maxLineLength` UTF-16 units. */
  predicate Fits(opts: Options, t: Token) {
    var width := Utf16Length(SingleLine(t.attributes)) + Utf16Length(t.name) + 3;
    match opts.maxLineLength
    case Finite(m) => width as real <= m
    case Infinite(positive) => positive
    case NaN => false
  }

  /** The `auto` layout, which `default`, the preserve modes and a single
      attribute in `aligned-multiple` also reach. */
  function AutoLayout(opts: Options, t: Token, level: nat): string {
    if Fits(opts, t) then
      if t.kind == SelfClosing && opts.selfClosingStyle == Xhtml then "<" + t.name + " " + SingleLine(t.attributes) + " />"
      else "<" + t.name + " " + SingleLine(t.attributes) + ">"
    else "<" + t.name + WrappedAttrs(opts, t.attributes, level) + "\n" + Indent(opts, level) + Slash(opts, t) + ">"
  }

  /** `formatTag(token, level)` */
  function FormatTag(opts: Options, t: Token, level: nat): string {
    if t.attributes == [] then
      if t.kind == SelfClosing then
        (if opts.selfClosingStyle == Xhtml then "<" + t.name + " />" else "<" + t.name + ">")
      else t.content
    else if opts.wrapAttributes == Force || opts.wrapAttributes == ForceExpandMultiline then
      "<" + t.name + WrappedAttrs(opts, t.attributes, level) + "\n" + Indent(opts, level) + Slash(opts, t) + ">"
    else if opts.wrapAttributes == ForceAligned || (opts.wrapAttributes == AlignedMultiple && |t.attributes| > 1) then
      "<" + t.name + AlignedAttrs(opts, t.attributes, level) + "\n" + Slash(opts, t) + ">"
    else AutoLayout(opts, t, level)
  }

  /** Whether `formatTag(t, level)` throws: it calls `indent` only where it wraps the attributes. */
  predicate TagThrows(opts: Options, t: Token, level: nat) {
    if t.attributes == [] then false
    else if opts.wrapAttributes == Force || opts.wrapAttributes == ForceExpandMultiline then
      IndentThrows(opts, level + 1) || IndentThrows(opts, level)
    else if opts.wrapAttributes == ForceAligned || (opts.wrapAttributes == AlignedMultiple && |t.attributes| > 1) then
      IndentThrows(opts, level + 1)
    else if Fits(opts, t) then false
    else IndentThrows(opts, level + 1) || IndentThrows(opts, level)
  }

  /** Text split on newlines, each line trimmed, blank lines dropped, the rest joined by one space. */
  function NormalizeText(s: string): string {
    Join(NonBlank(TrimEach(Split(s, '\n'))), " ")
  }

  function TrimEach(lines: seq<string>): (r: seq<string>)
    ensures |r| == |lines| && forall k :: 0 <= k < |lines| ==> r[k] == Trim(lines[k])
  {
    seq(|lines|, k requires 0 <= k < |lines| => Trim(lines[k]))
  }

  /** `filter(Boolean)` on strings: the non-empty ones, in order. */
  function NonBlank(lines: seq<string>): (r: seq<string>)
    ensures forall k :: 0 <= k < |r| ==> r[k] != [] && r[k] in lines
  {
    if lines == [] then []
    else if lines[0] == [] then NonBlank(lines[1..])
    else [lines[0]] + NonBlank(lines[1..])
  }

  /** `script` and `style` bodies are handled apart. */
  predicate IsRawTextElement(name: string) {
    ToLower(name) == "script" || ToLower(name) == "style"
  }

  /** The indent level after printing `t` at `level`. */
  function NextLevel(t: Token, level: nat): nat {
    if t.kind == TagOpen && !IsRawTextElement(t.name) then level + 1
    else if t.kind == TagClose then (if level == 0 then 0 else level - 1)
    else level
  }

  /** The level at which token `i` is printed. */
  function LevelBefore(tokens: seq<Token>, i: nat): nat
    requires i <= |tokens|
  {
    if i == 0 then 0 else NextLevel(tokens[i - 1], LevelBefore(tokens, i - 1))
  }

  /** A close tag that ends the raw-text element `name`. */
  predicate ClosesRawText(t: Token, name: string) {
    t.kind == TagClose && t.name != "" && ToLower(t.name) == ToLower(name)
  }

  /** `acc` followed by the text tokens from index `j` up to the close tag of `name`. */
  function RawBodyFrom(tokens: seq<Token>, j: nat, name: string, acc: string): string
    requires j <= |tokens|
    decreases |tokens| - j
  {
    if j == |tokens| || ClosesRawText(tokens[j], name) then acc
    else RawBodyFrom(tokens, j + 1, name, if tokens[j].kind == Text then acc + tokens[j].content else acc)
  }

  /** The text tokens from index `j` up to the close tag of `name`, concatenated. */
  function RawBody(tokens: seq<Token>, j: nat, name: string): string
    requires j <= |tokens|
  {
    RawBodyFrom(tokens, j, name, "")
  }

  /** The text printed for token `i` at `level`. */
  function Piece(opts: Options, tokens: seq<Token>, i: nat, level: nat): string
    requires i < |tokens|
  {
    var t := tokens[i];
    match t.kind
    case Doctype => t.content + "\n"
    case Comment => Indent(opts, level) + t.content + "\n"
    case TagOpen =>
      if IsRawTextElement(t.name) then
        var body := Trim(RawBody(tokens, i + 1, t.name));
        Indent(opts, level) + FormatTag(opts, t, 1) + "\n" +
        (if body != [] then Indent(opts, level + 1) + body + "\n" else "")
      else Indent(opts, level) + FormatTag(opts, t, level) + "\n"
    case TagClose => Indent(opts, NextLevel(t, level)) + t.content + "\n"
    case SelfClosing => Indent(opts, level) + FormatTag(opts, t, level) + "\n"
    case Text =>
      var text := NormalizeText(t.content);
      if text != [] then Indent(opts, level) + text + "\n" else ""
  }

  /** Whether printing token `i` at `level` throws: whether one of the `indent` calls it makes does. */
  predicate PieceThrows(opts: Options, tokens: seq<Token>, i: nat, level: nat)
    requires i < |tokens|
  {
    var t := tokens[i];
    match t.kind
    case Doctype => false
    case Comment => IndentThrows(opts, level)
    case TagOpen =>
      if IsRawTextElement(t.name) then
        IndentThrows(opts, level) || TagThrows(opts, t, 1) ||
        (Trim(RawBody(tokens, i + 1, t.name)) != [] && IndentThrows(opts, level + 1))
      else IndentThrows(opts, level) || TagThrows(opts, t, level)
    case TagClose => IndentThrows(opts, NextLevel(t, level))
    case SelfClosing => IndentThrows(opts, level) || TagThrows(opts, t, level)
    case Text => NormalizeText(t.content) != [] && IndentThrows(opts, level)
  }

  /** Whether the printing loop, at token `i` and `level`, throws before it ends. */
  predicate ThrowsFrom(opts: Options, tokens: seq<Token>, i: nat, level: nat)
    requires i <= |tokens|
    decreases |tokens| - i
  {
    i < |tokens| && (PieceThrows(opts, tokens, i, level) || ThrowsFrom(opts, tokens, i + 1, NextLevel(tokens[i], level)))
  }

  lemma Throwing(opts: Options, tokens: seq<Token>, i: nat, level: nat)
    requires i < |tokens|
    ensures ThrowsFrom(opts, tokens, i, level) ==
      (PieceThrows(opts, tokens, i, level) || ThrowsFrom(opts, tokens, i + 1, NextLevel(tokens[i], level)))
  {
  }

  /** What the printing loop has written, `done`, once it has printed tokens `i..`
      starting at `level`, before the final trim. */
  function Printed(opts: Options, tokens: seq<Token>, i: nat, level: nat, done: string): string
    requires i <= |tokens|
    decreases |tokens| - i
  {
    if i == |tokens| then done
    else Printed(opts, tokens, i + 1, NextLevel(tokens[i], level), done + Piece(opts, tokens, i, level))
  }

  /** Printing token `i` keeps the loop's account of the text printed so far. */
  lemma Printing(opts: Options, tokens: seq<Token>, i: nat, level: nat, before: string)
    requires i < |tokens|
    ensures Printed(opts, tokens, i, level, before) ==
      Printed(opts, tokens, i + 1, NextLevel(tokens[i], level), before + Piece(opts, tokens, i, level))
  {
  }

  /** The piece of each kind of token, one lemma per kind so that the printing
      loop's proof takes only the one it needs. */
  lemma PieceOfDoctype(opts: Options, tokens: seq<Token>, i: nat, level: nat)
    requires i < |tokens| && tokens[i].kind == Doctype
    ensures Piece(opts, tokens, i, level) == tokens[i].content + "\n"
  {
  }

  lemma PieceOfComment(opts: Options, tokens: seq<Token>, i: nat, level: nat)
    requires i < |tokens| && tokens[i].kind == Comment
    ensures Piece(opts, tokens, i, level) == Indent(opts, level) + tokens[i].content + "\n"
  {
  }

  lemma PieceOfRawText(opts: Options, tokens: seq<Token>, i: nat, level: nat)
    requires i < |tokens| && tokens[i].kind == TagOpen && IsRawTextElement(tokens[i].name)
    ensures var body := Trim(RawBody(tokens, i + 1, tokens[i].name));
      Piece(opts, tokens, i, level) ==
      Indent(opts, level) + FormatTag(opts, tokens[i], 1) + "\n" +
      (if body != [] then Indent(opts, level + 1) + body + "\n" else "")
  {
  }

  lemma PieceOfOpen(opts: Options, tokens: seq<Token>, i: nat, level: nat)
    requires i < |tokens| && tokens[i].kind == TagOpen && !IsRawTextElement(tokens[i].name)
    ensures Piece(opts, tokens, i, level) == Indent(opts, level) + FormatTag(opts, tokens[i], level) + "\n"
  {
  }

  lemma PieceOfClose(opts: Options, tokens: seq<Token>, i: nat, level: nat)
    requires i < |tokens| && tokens[i].kind == TagClose
    ensures Piece(opts, tokens, i, level) == Indent(opts, NextLevel(tokens[i], level)) + tokens[i].content + "\n"
  {
  }

  lemma PieceOfSelfClosing(opts: Options, tokens: seq<Token>, i: nat, level: nat)
    requires i < |tokens| && tokens[i].kind == SelfClosing
    ensures Piece(opts, tokens, i, level) == Indent(opts, level) + FormatTag(opts, tokens[i], level) + "\n"
  {
  }

  lemma PieceOfText(opts: Options, tokens: seq<Token>, i: nat, level: nat)
    requires i < |tokens| && tokens[i].kind == Text
    ensures var text := NormalizeText(tokens[i].content);
      Piece(opts, tokens, i, level) == if text != [] then Indent(opts, level) + text + "\n" else ""
  {
  }

  /** `formatTokens(tokens)` */
  function FormatTokensSpec(opts: Options, tokens: seq<Token>): string {
    Trim(Printed(opts, tokens, 0, 0, ""))
  }

  /** The result of `format`: `Diverges(at)` stands where the source never returns,
      `RangeError` where `" ".repeat` throws. */
  datatype Outcome = Formatted(text: string) | Diverges(at: nat) | RangeError

  /** `formatTokens(tokens)` with its errors: `" ".repeat(indent)` before the loop,
      then each `indent` call of the loop. */
  function FormatTokensOf(opts: Options, tokens: seq<Token>): Outcome {
    if RepeatCount(opts.indent).None? || ThrowsFrom(opts, tokens, 0, 0) then RangeError
    else Formatted(FormatTokensSpec(opts, tokens))
  }

  /** `format(html)` */
  function FormatOf(opts: Options, html: string): Outcome {
    match Tokens(html)
    case Done(tokens) => FormatTokensOf(opts, tokens)
    case Stuck(at, _) => Diverges(at)
  }

  // ----- the formatter object -----

  class Formatter {
    const options: Options

    /** `new HTMLFormatter(options)` */
    constructor(partial: PartialOptions)
      ensures options == Merge(partial)
    {
      options := Merge(partial);
    }

    /** `format(html)` */
    method Format(html: string) returns (r: Outcome)
      ensures r == FormatOf(options, html)
    {
      var scan := Tokenize(html);
      match scan {
        case Done(tokens) =>
          r := FormatTokens(tokens);
        case Stuck(at, _) =>
          r := Diverges(at);
      }
    }

    /** `tokenize(html)`: the cursor loop, which returns `Stuck` where the source would loop forever.
        The four branches that take a construct are the methods `ReadComment` to `ReadOpenTag`. */
    method Tokenize(html: string) returns (r: Scan<Token>)
      ensures r == Tokens(html)
    {
      var tokens: seq<Token> := [];
      var position: nat := 0;
      ghost var spans: seq<Span> := [];
      while position < |html|
        invariant position <= |html|
        invariant SpansFrom(html, position, spans) == SpansFrom(html, 0, [])
        invariant tokens == TokensOf(html, spans)
        decreases |html| - position
      {
        var afterWhitespace := WhitespaceEnd(html, position);
        if afterWhitespace > position {
          SkipWhitespaceRun(html, position, spans);
          position := afterWhitespace;
          continue;
        }
        var comment := ReadComment(html, position);
        if comment.Some? {
          StepIsComment(html, position);
          Took(html, spans, tokens, position, [comment.value.token]);
          tokens, spans := tokens + [comment.value.token], spans + [StepAt(html, position).span];
          position := comment.value.next;
          continue;
        }
        var doctype := ReadDoctype(html, position);
        if doctype.Some? {
          StepIsDoctype(html, position);
          Took(html, spans, tokens, position, [doctype.value.token]);
          tokens, spans := tokens + [doctype.value.token], spans + [StepAt(html, position).span];
          position := doctype.value.next;
          continue;
        }
        var closeTag := ReadCloseTag(html, position);
        if closeTag.Some? {
          StepIsCloseTag(html, position);
          Took(html, spans, tokens, position, [closeTag.value.token]);
          tokens, spans := tokens + [closeTag.value.token], spans + [StepAt(html, position).span];
          position := closeTag.value.next;
          continue;
        }
        var openTag := ReadOpenTag(html, position);
        if openTag.Some? {
          StepIsOpenTag(html, position);
          Took(html, spans, tokens, position, [openTag.value.token]);
          tokens, spans := tokens + [openTag.value.token], spans + [StepAt(html, position).span];
          position := openTag.value.next;
          continue;
        }
        var nextTagStart := IndexOf(html, "<", position);
        StepIsText(html, position);
        if nextTagStart == -1 {
          var text := Trim(Slice(html, position, |html|));
          TokenOfText(html, position, |html|);
          TokensOfSnoc(html, spans, StepAt(html, position).span);
          return Done(tokens + TextTokens(text));
        }
        if nextTagStart == position {
          // the source sets `position` to where it already is and goes round forever
          return Stuck(position, tokens);
        }
        var text := Trim(Slice(html, position, nextTagStart));
        TokenOfText(html, position, nextTagStart);
        Took(html, spans, tokens, position, TextTokens(text));
        tokens, spans := tokens + TextTokens(text), spans + [StepAt(html, position).span];
        position := nextTagStart;
      }
      return Done(tokens);
    }

    /** The comment branch: `<!--` up to and including the first `-->` from `position`. */
    method ReadComment(html: string, position: nat) returns (r: Option<Taken>)
      ensures r.Some? <==> CommentAt(html, position)
      ensures r.Some? ==> var st := CommentStep(html, position);
        r.value.next == st.next && TokenOf(html, st.span) == [r.value.token]
    {
      if OccursAt(html, "<!--", position) {
        var commentEnd := IndexOf(html, "-->", position);
        if commentEnd != -1 {
          var token := Token(Comment, Slice(html, position, commentEnd + 3), "", []);
          TokenOfComment(html, position, commentEnd + 3);
          return Some(Taken(token, commentEnd + 3));
        }
      }
      return None;
    }

    /** The doctype branch: `<!DOCTYPE` or `<!doctype` up to and including the next `>`. */
    method ReadDoctype(html: string, position: nat) returns (r: Option<Taken>)
      ensures r.Some? <==> DoctypeAt(html, position)
      ensures r.Some? ==> var st := DoctypeStep(html, position);
        r.value.next == st.next && TokenOf(html, st.span) == [r.value.token]
    {
      if OccursAt(html, "<!DOCTYPE", position) || OccursAt(html, "<!doctype", position) {
        var doctypeEnd := IndexOf(html, ">", position);
        if doctypeEnd != -1 {
          var token := Token(Doctype, Slice(html, position, doctypeEnd + 1), "", []);
          TokenOfDoctype(html, position, doctypeEnd + 1);
          return Some(Taken(token, doctypeEnd + 1));
        }
      }
      return None;
    }

    /** The closing-tag branch: `</` up to and including the next `>`, named by the trimmed text between. */
    method ReadCloseTag(html: string, position: nat) returns (r: Option<Taken>)
      ensures r.Some? <==> CloseTagAt(html, position)
      ensures r.Some? ==> var st := CloseTagStep(html, position);
        r.value.next == st.next && TokenOf(html, st.span) == [r.value.token]
    {
      if OccursAt(html, "</", position) {
        var closeTagEnd := IndexOf(html, ">", position);
        if closeTagEnd != -1 {
          var tagName := Trim(Slice(html, position + 2, closeTagEnd));
          var token := Token(TagClose, Slice(html, position, closeTagEnd + 1), tagName, []);
          TokenOfClose(html, position, closeTagEnd);
          assert CloseTagToken(html, position, closeTagEnd + 1) == token;
          return Some(Taken(token, closeTagEnd + 1));
        }
      }
      return None;
    }

    /** The opening-tag branch: `<` and a name, up to the first `>` outside quotes. */
    method ReadOpenTag(html: string, position: nat) returns (r: Option<Taken>)
      requires position < |html|
      ensures r.Some? <==> OpenTagAt(html, position)
      ensures r.Some? ==> var st := OpenTagStep(html, position);
        r.value.next == st.next && TokenOf(html, st.span) == [r.value.token]
    {
      if html[position] == '<' {
        var n := TagNameLength(html, position + 1);
        if n > 0 {
          var tagEnd := FindTagEnd(html, position);
          if tagEnd != -1 {
            var taken := TakeOpenTag(html, position, n, tagEnd);
            return Some(taken);
          }
        }
      }
      return None;
    }

    /** The opening tag at `position`, whose name has `n` letters and whose `>` is at `tagEnd`. */
    method TakeOpenTag(html: string, position: nat, n: nat, tagEnd: int) returns (taken: Taken)
      requires position < |html| && html[position] == '<'
      requires n == TagNameLength(html, position + 1) && n > 0
      requires tagEnd == TagEnd(html, position) && tagEnd != -1
      ensures var st := OpenTagStep(html, position);
        taken.next == st.next && TokenOf(html, st.span) == [taken.token]
    {
      var tagName := Slice(html, position + 1, position + 1 + n);
      var tagContent := Slice(html, position, tagEnd + 1);
      var token := OpenTag(tagContent, tagName);
      TokenOfOpen(html, n, position, tagEnd + 1);
      assert OpenToken(html, position, tagEnd + 1, n) == token;
      taken := Taken(token, tagEnd + 1);
    }

    /** The token of an opening tag whose text is `tagContent`. */
    method OpenTag(tagContent: string, tagName: string) returns (token: Token)
      ensures token == OpenTagToken(tagContent, tagName)
    {
      var isSelfClosing := EndsWith(tagContent, "/>") || IsSelfClosingTag(tagName);
      var attributes := ParseAttributes(tagContent);
      token := Token(if isSelfClosing then SelfClosing else TagOpen, tagContent, tagName, attributes);
      OpenTagTokenIs(tagContent, tagName, isSelfClosing, attributes);
    }

    /** `findTagEnd(html, startPos)` */
    method FindTagEnd(html: string, startPos: nat) returns (r: int)
      requires startPos <= |html|
      ensures r == TagEnd(html, startPos)
    {
      var pos := startPos;
      var inQuote: Option<char> := None;
      while pos < |html|
        invariant startPos <= pos <= |html|
        invariant TagEndFrom(html, pos, inQuote) == TagEnd(html, startPos)
        decreases |html| - pos
      {
        var c := html[pos];
        if inQuote.Some? {
          if c == inQuote.value {
            inQuote := None;
          }
        } else {
          if c == '"' || c == '\'' {
            inQuote := Some(c);
          } else if c == '>' {
            return pos;
          }
        }
        pos := pos + 1;
      }
      return -1;
    }

    /** `parseAttributes(tagContent)`: the global pattern run over the text between the name and `>`. */
    method ParseAttributes(tagContent: string) returns (attributes: seq<Attribute>)
      ensures attributes == AttributesOf(tagContent)
    {
      attributes := [];
      var n := if |tagContent| > 0 && tagContent[0] == '<' then TagNameLength(tagContent, 1) else 0;
      if n == 0 {
        return;
      }
      var attrString := Trim(Slice(tagContent, 1 + n, if EndsWith(tagContent, "/>") then -2 else -1));
      if attrString == [] {
        return;
      }
      attributes := ScanAttributes(attrString);
    }

    /** The `exec` loop of the global attribute pattern over `attrString`. */
    method ScanAttributes(attrString: string) returns (attributes: seq<Attribute>)
      ensures attributes == AttrsIn(attrString)
    {
      attributes := [];
      var rest := attrString;
      while true
        invariant attributes + AttrsIn(rest) == AttrsIn(attrString)
        decreases |rest|
      {
        var next := SkipToLetter(rest);
        if next == [] {
          break;
        }
        var m := MatchAttribute(next);
        Scanned(attributes, rest, attrString);
        attributes := attributes + [m.0];
        rest := next[m.1..];
      }
      assert attributes + [] == attributes;
    }

    /** `formatTokens(tokens)` */
    method FormatTokens(tokens: seq<Token>) returns (r: Outcome)
      ensures r == FormatTokensOf(options, tokens)
    {
      var indentString := RepeatCount(options.indent);
      if indentString.None? {
        return RangeError;
      }
      var result := "";
      var indentLevel: nat := 0;
      var i := 0;
      while i < |tokens|
        invariant i <= |tokens|
        invariant Printed(options, tokens, i, indentLevel, result) == Printed(options, tokens, 0, 0, "")
        invariant ThrowsFrom(options, tokens, i, indentLevel) == ThrowsFrom(options, tokens, 0, 0)
      {
        Printing(options, tokens, i, indentLevel, result);
        Throwing(options, tokens, i, indentLevel);
        var piece, nextLevel, threw := PrintToken(tokens, i, indentLevel);
        if threw {
          return RangeError;
        }
        result, indentLevel := result + piece, nextLevel;
        i := i + 1;
      }
      r := Formatted(Trim(result));
    }

    /** The body of the loop of `formatTokens(tokens)` for `tokens[i]` at `indentLevel`:
        what it adds to the result, and the level it leaves. */
    method PrintToken(tokens: seq<Token>, i: nat, indentLevel: nat) returns (piece: string, nextLevel: nat, threw: bool)
      requires i < |tokens|
      ensures piece == Piece(options, tokens, i, indentLevel)
      ensures nextLevel == NextLevel(tokens[i], indentLevel)
      ensures threw == PieceThrows(options, tokens, i, indentLevel)
    {
      var token := tokens[i];
      nextLevel := indentLevel;
      match token.kind {
        case Doctype =>
          PieceOfDoctype(options, tokens, i, indentLevel);
          piece := token.content + "\n";
          threw := false;
        case Comment =>
          PieceOfComment(options, tokens, i, indentLevel);
          piece := Indent(options, indentLevel) + token.content + "\n";
          threw := IndentThrows(options, indentLevel);
        case TagOpen =>
          if IsRawTextElement(token.name) {
            PieceOfRawText(options, tokens, i, indentLevel);
            piece := Indent(options, indentLevel) + FormatTag(options, token, 1) + "\n";
            threw := IndentThrows(options, indentLevel) || TagThrows(options, token, 1);
            var content := CollectRawBody(tokens, i, token.name);
            if Trim(content) != [] {
              piece := piece + (Indent(options, indentLevel + 1) + Trim(content) + "\n");
              threw := threw || IndentThrows(options, indentLevel + 1);
            } else {
              assert piece == piece + "";
            }
          } else {
            PieceOfOpen(options, tokens, i, indentLevel);
            piece := Indent(options, indentLevel) + FormatTag(options, token, indentLevel) + "\n";
            threw := IndentThrows(options, indentLevel) || TagThrows(options, token, indentLevel);
            nextLevel := indentLevel + 1;
          }
        case TagClose =>
          PieceOfClose(options, tokens, i, indentLevel);
          nextLevel := if indentLevel == 0 then 0 else indentLevel - 1;
          piece := Indent(options, nextLevel) + token.content + "\n";
          threw := IndentThrows(options, nextLevel);
        case SelfClosing =>
          PieceOfSelfClosing(options, tokens, i, indentLevel);
          piece := Indent(options, indentLevel) + FormatTag(options, token, indentLevel) + "\n";
          threw := IndentThrows(options, indentLevel) || TagThrows(options, token, indentLevel);
        case Text =>
          PieceOfText(options, tokens, i, indentLevel);
          var formattedText := NormalizeText(token.content);
          piece := if formattedText != [] then Indent(options, indentLevel) + formattedText + "\n" else "";
          threw := formattedText != [] && IndentThrows(options, indentLevel);
      }
    }

    /** The inner loop over the body of a `script` or `style` element opened at `tokens[i]`:
        the text tokens up to the matching close tag, concatenated. */
    method CollectRawBody(tokens: seq<Token>, i: nat, name: string) returns (content: string)
      requires i < |tokens|
      ensures content == RawBody(tokens, i + 1, name)
    {
      var j := i + 1;
      content := "";
      while j < |tokens|
        invariant i + 1 <= j <= |tokens|
        invariant RawBodyFrom(tokens, j, name, content) == RawBody(tokens, i + 1, name)
        decreases |tokens| - j
      {
        if ClosesRawText(tokens[j], name) {
          break;
        }
        if tokens[j].kind == Text {
          content := content + tokens[j].content;
        }
        j := j + 1;
      }
    }
  }

  /** `formatHTML(html, options)` */
  method FormatHtml(html: string, partial: PartialOptions) returns (r: Outcome)
    ensures r == FormatOf(Merge(partial), html)
  {
    var formatter := new Formatter(partial);
    r := formatter.Format(html);
  }
}
