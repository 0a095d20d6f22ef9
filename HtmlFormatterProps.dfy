/**
 * Properties of the HTML formatter model that relate several of its
 * operations: where the tokenizer gets stuck, the indent level at which each
 * token is printed, the shape of normalised text, the equivalences between
 * attribute-wrapping modes and the line structure of a formatted tag.
 */
module HtmlFormatterProps {
  import opened JsText
  import opened HtmlFormatter

  // ----- where the tokenizer cannot go on -----

  /** The loop makes no progress at `pos` exactly when a `<` there begins no recognised construct. */
  lemma NoProgressIffUnrecognised(html: string, pos: nat)
    requires pos < |html|
    ensures StepAt(html, pos) == NoProgress <==> Unrecognised(html, pos)
  {
    var lt := IndexOf(html, "<", pos);
    if StepAt(html, pos) == NoProgress {
      assert TextStep(html, pos) == NoProgress;
      assert lt == pos && OccursAt(html, "<", pos);
      assert html[pos + 0] == "<"[0];
    }
    if Unrecognised(html, pos) {
      assert !IsWhitespace(html[pos]);
      assert OccursAt(html, "<", pos) by {
        assert html[pos + 0] == "<"[0];
      }
      assert lt == pos;
    }
  }

  /** A scan that gets stuck does so at an unrecognised `<`. */
  lemma {:induction false} SpansStuckAtUnrecognised(html: string, pos: nat, seen: seq<Span>)
    requires pos <= |html|
    ensures var r := SpansFrom(html, pos, seen);
      r.Stuck? ==> r.at < |html| && Unrecognised(html, r.at)
    decreases |html| - pos
  {
    if pos < |html| {
      match StepAt(html, pos)
      case Skip(next) => SpansStuckAtUnrecognised(html, next, seen);
      case Advance(span, next) => SpansStuckAtUnrecognised(html, next, seen + [span]);
      case Finish(_) =>
      case NoProgress => NoProgressIffUnrecognised(html, pos);
    }
  }

  /** `tokenize` fails to return only at a `<` that begins no recognised construct. */
  lemma TokensStuckAtUnrecognised(html: string)
    ensures var r := Tokens(html);
      r.Stuck? ==> r.at < |html| && Unrecognised(html, r.at)
  {
    SpansStuckAtUnrecognised(html, 0, []);
  }

  /** `<div` with no `>` never finishes: the text branch stops at the `<` it started from. */
  lemma UnterminatedTagDiverges(opts: Options)
    ensures FormatOf(opts, "<div") == Diverges(0)
  {
    var html := "<div";
    assert !OccursAt(html, "<!--", 0) by {
      assert html[0 + 1] != "<!--"[1];
    }
    assert |"<!DOCTYPE"| > |html| && |"<!doctype"| > |html|;
    assert !OccursAt(html, "</", 0) by {
      assert html[0 + 1] != "</"[1];
    }
    assert TagEndFrom(html, 1, None) == -1;
    assert TagEnd(html, 0) == -1;
    NoProgressIffUnrecognised(html, 0);
  }

  // ----- the tokens the tokenizer produces -----

  /** What every token of `tokenize` satisfies: an open or self-closing tag has a tag name and
      is self-closing exactly when it ends with `/>` or names a void element; a text token is
      non-empty and trimmed. */
  predicate WellFormed(t: Token) {
    ((t.kind == TagOpen || t.kind == SelfClosing) ==>
      IsName(t.name) && (t.kind == SelfClosing <==> EndsWith(t.content, "/>") || IsSelfClosingTag(t.name))) &&
    (t.kind == Text ==> t.content != [] && !IsWhitespace(t.content[0]) && !IsWhitespace(t.content[|t.content| - 1]))
  }

  /** An open-tag construct records the length of the tag name that follows its `<`. */
  predicate SpanOk(html: string, sp: Span) {
    sp.kind.OpenSpan? ==>
      sp.start < |html| && sp.kind.nameLength > 0 && sp.kind.nameLength == TagNameLength(html, sp.start + 1)
  }

  predicate AllSpansOk(html: string, spans: seq<Span>) {
    forall k :: 0 <= k < |spans| ==> SpanOk(html, spans[k])
  }

  lemma StepSpanOk(html: string, pos: nat)
    requires pos < |html|
    ensures var st := StepAt(html, pos); (st.Advance? || st.Finish?) ==> SpanOk(html, st.span)
  {
  }

  lemma SnocOk(html: string, seen: seq<Span>, span: Span)
    requires AllSpansOk(html, seen) && SpanOk(html, span)
    ensures AllSpansOk(html, seen + [span])
  {
    var spans := seen + [span];
    forall k | 0 <= k < |spans| ensures SpanOk(html, spans[k]) {
      if k < |seen| {
        assert spans[k] == seen[k];
      }
    }
  }

  lemma {:induction false} SpansOk(html: string, pos: nat, seen: seq<Span>)
    requires pos <= |html|
    requires AllSpansOk(html, seen)
    ensures AllSpansOk(html, SpansFrom(html, pos, seen).items)
    decreases |html| - pos
  {
    if pos < |html| {
      StepSpanOk(html, pos);
      match StepAt(html, pos)
      case Skip(next) => SpansOk(html, next, seen);
      case Advance(span, next) =>
        SnocOk(html, seen, span);
        SpansOk(html, next, seen + [span]);
      case Finish(span) => SnocOk(html, seen, span);
      case NoProgress =>
    }
  }

  lemma OpenTagTokenWellFormed(content: string, name: string)
    requires IsName(name)
    ensures WellFormed(OpenTagToken(content, name))
  {
    var selfClosing := EndsWith(content, "/>") || IsSelfClosingTag(name);
    OpenTagTokenIs(content, name, selfClosing, AttributesOf(content));
  }

  lemma OpenTokenWellFormed(html: string, start: nat, end: nat, n: nat)
    requires start < |html| && n > 0 && n == TagNameLength(html, start + 1)
    ensures WellFormed(OpenToken(html, start, end, n))
  {
    var from := start + 1;
    var to := from + n;
    TagNameLengthSpec(html, from);
    assert to <= |html|;
    var name := html[from..to];
    assert IsName(name);
    SliceInRange(html, from, to);
    assert Slice(html, from, to) == name;
    OpenTagTokenWellFormed(Slice(html, start, end), name);
  }

  lemma TextTokensWellFormed(s: string)
    ensures forall t :: t in TextTokens(Trim(s)) ==> WellFormed(t)
  {
  }

  lemma TokenOfWellFormed(html: string, sp: Span)
    requires SpanOk(html, sp)
    ensures forall t :: t in TokenOf(html, sp) ==> WellFormed(t)
  {
    match sp.kind
    case OpenSpan(n) =>
      OpenTokenWellFormed(html, sp.start, sp.end, n);
      TokenOfOpen(html, n, sp.start, sp.end);
    case TextSpan =>
      TextTokensWellFormed(Slice(html, sp.start, sp.end));
      TokenOfText(html, sp.start, sp.end);
    case CommentSpan => TokenOfComment(html, sp.start, sp.end);
    case DoctypeSpan => TokenOfDoctype(html, sp.start, sp.end);
    case CloseSpan =>
  }

  lemma {:induction false} TokensOfWellFormed(html: string, spans: seq<Span>)
    requires AllSpansOk(html, spans)
    ensures forall t :: t in TokensOf(html, spans) ==> WellFormed(t)
    decreases |spans|
  {
    if spans != [] {
      var last := spans[|spans| - 1];
      TokensOfWellFormed(html, spans[..|spans| - 1]);
      TokenOfWellFormed(html, last);
    }
  }

  /** Every token `tokenize` produces, or has produced when it gets stuck, is well formed. */
  lemma TokensWellFormed(html: string)
    ensures forall t :: t in Tokens(html).items ==> WellFormed(t)
  {
    SpansOk(html, 0, []);
    TokensOfWellFormed(html, SpansFrom(html, 0, []).items);
  }

  // ----- the level each token is printed at -----

  /** The strings of `ps`, one after another. */
  function Concat(ps: seq<string>): string {
    if ps == [] then "" else ps[0] + Concat(ps[1..])
  }

  /** The piece of every token, each at the level the tokens before it give. */
  function PieceList(opts: Options, tokens: seq<Token>): (r: seq<string>)
    ensures |r| == |tokens|
  {
    seq(|tokens|, j requires 0 <= j < |tokens| => Piece(opts, tokens, j, LevelBefore(tokens, j)))
  }

  /** One turn of the printing loop, at the level the tokens before it give. */
  lemma PrintedStep(opts: Options, tokens: seq<Token>, i: nat, done: string)
    requires i < |tokens|
    ensures Printed(opts, tokens, i, LevelBefore(tokens, i), done) ==
      Printed(opts, tokens, i + 1, LevelBefore(tokens, i + 1), done + Piece(opts, tokens, i, LevelBefore(tokens, i)))
  {
  }

  /** Two equal printouts, the second the text so far, a piece and the rest: the first is the
      text so far and the whole. The regrouping step of PrintedFrom's induction. */
  lemma Chain(p0: string, p1: string, done: string, piece: string, rest: string, whole: string)
    requires p0 == p1 && p1 == done + piece + rest && whole == piece + rest
    ensures p0 == done + whole
  {
  }

  /** The loop's text is the pieces of tokens `i..`, after what it has printed before. */
  lemma {:induction false} PrintedFrom(opts: Options, tokens: seq<Token>, i: nat, done: string)
    requires i <= |tokens|
    ensures Printed(opts, tokens, i, LevelBefore(tokens, i), done) == done + Concat(PieceList(opts, tokens)[i..])
    decreases |tokens| - i
  {
    var ps := PieceList(opts, tokens);
    if i < |tokens| {
      assert ps[i..][1..] == ps[i + 1..];
      PrintedStep(opts, tokens, i, done);
      PrintedFrom(opts, tokens, i + 1, done + ps[i]);
      Chain(Printed(opts, tokens, i, LevelBefore(tokens, i), done),
            Printed(opts, tokens, i + 1, LevelBefore(tokens, i + 1), done + ps[i]),
            done, ps[i], Concat(ps[i + 1..]), Concat(ps[i..]));
    } else {
      assert ps[i..] == [];
    }
  }

  /** `formatTokens` prints every token at the level the tokens before it give, from level 0. */
  lemma FormatTokensAtLevels(opts: Options, tokens: seq<Token>)
    ensures FormatTokensSpec(opts, tokens) == Trim(Concat(PieceList(opts, tokens)))
  {
    var ps := PieceList(opts, tokens);
    PrintedFrom(opts, tokens, 0, "");
    assert ps[0..] == ps;
    assert "" + Concat(ps) == Concat(ps);
  }

  /** The number of tokens before `i` that raise the level: open tags other than `script`/`style`. */
  function Openings(tokens: seq<Token>, i: nat): nat
    requires i <= |tokens|
  {
    if i == 0 then 0
    else Openings(tokens, i - 1) + (if tokens[i - 1].kind == TagOpen && !IsRawTextElement(tokens[i - 1].name) then 1 else 0)
  }

  /** The number of close tags before `i`. */
  function Closings(tokens: seq<Token>, i: nat): nat
    requires i <= |tokens|
  {
    if i == 0 then 0 else Closings(tokens, i - 1) + (if tokens[i - 1].kind == TagClose then 1 else 0)
  }

  /** The level never exceeds the number of openings before it, and it falls short of
      openings minus closings only because it is floored at 0. */
  lemma {:induction false} LevelBounds(tokens: seq<Token>, i: nat)
    requires i <= |tokens|
    ensures LevelBefore(tokens, i) <= Openings(tokens, i)
    ensures LevelBefore(tokens, i) >= Openings(tokens, i) - Closings(tokens, i)
  {
    if i > 0 {
      LevelBounds(tokens, i - 1);
    }
  }

  /** A `script` or `style` body is printed twice: trimmed and one level deeper right after its
      open tag, whose own layout uses level 1, and then again by the main loop as an ordinary
      text token at the open tag's level, which the open tag does not raise. */
  lemma RawTextBodyPrintedTwice(opts: Options, tokens: seq<Token>, i: nat, level: nat)
    requires i + 2 < |tokens|
    requires tokens[i].kind == TagOpen && IsRawTextElement(tokens[i].name)
    requires tokens[i + 1].kind == Text && ClosesRawText(tokens[i + 2], tokens[i].name)
    requires Trim(tokens[i + 1].content) != []
    ensures NextLevel(tokens[i], level) == level
    ensures Piece(opts, tokens, i, level) ==
      Indent(opts, level) + FormatTag(opts, tokens[i], 1) + "\n" +
      (Indent(opts, level + 1) + Trim(tokens[i + 1].content) + "\n")
    ensures var text := NormalizeText(tokens[i + 1].content);
      text != [] ==> Piece(opts, tokens, i + 1, level) == Indent(opts, level) + text + "\n"
  {
    var body := tokens[i + 1].content;
    assert !ClosesRawText(tokens[i + 1], tokens[i].name);
    assert RawBodyFrom(tokens, i + 1, tokens[i].name, "") == RawBodyFrom(tokens, i + 2, tokens[i].name, "" + body);
    assert "" + body == body;
    PieceOfRawText(opts, tokens, i, level);
    PieceOfText(opts, tokens, i + 1, level);
  }

  // ----- normalised text -----

  /** Every character of a trimmed string comes from the string. */
  lemma TrimKeepsCharacters(s: string, c: char)
    requires c in Trim(s)
    ensures c in s
  {
    TrimStartIsSuffix(s);
    TrimEndIsPrefix(TrimStart(s));
  }

  /** Every character of a join comes from a part or from the separator. */
  lemma {:induction false} JoinCharacters(parts: seq<string>, sep: string, c: char)
    requires c in Join(parts, sep)
    ensures c in sep || exists k :: 0 <= k < |parts| && c in parts[k]
    decreases |parts|
  {
    if |parts| > 1 {
      var rest := Join(parts[1..], sep);
      assert Join(parts, sep) == parts[0] + sep + rest;
      if c !in parts[0] && c !in sep {
        assert c in rest;
        JoinCharacters(parts[1..], sep, c);
        var k :| 0 <= k < |parts[1..]| && c in parts[1..][k];
        assert parts[1..][k] == parts[k + 1];
      }
    }
  }

  /** Normalised text is a single line. */
  lemma NormalizedIsOneLine(s: string)
    ensures '\n' !in NormalizeText(s)
  {
    var lines := Split(s, '\n');
    var kept := NonBlank(TrimEach(lines));
    if '\n' in Join(kept, " ") {
      JoinCharacters(kept, " ", '\n');
      var k :| 0 <= k < |kept| && '\n' in kept[k];
      var j :| 0 <= j < |lines| && kept[k] == TrimEach(lines)[j];
      TrimKeepsCharacters(lines[j], '\n');
    }
  }

  /** Text on one line normalises to itself trimmed: runs of spaces inside the line are kept. */
  lemma SingleLineKeepsInnerSpaces(s: string)
    requires '\n' !in s
    ensures NormalizeText(s) == Trim(s)
  {
    SplitWithoutSeparator(s, '\n');
    assert TrimEach([s]) == [Trim(s)];
    var t := Trim(s);
    if t == [] {
      assert NonBlank([t]) == [];
    } else {
      assert NonBlank([t]) == [t] + NonBlank([]);
    }
  }

  /** For instance `Hello   world` keeps its three spaces. */
  lemma InnerSpacesExample()
    ensures NormalizeText("Hello   world") == "Hello   world"
  {
    assert '\n' !in "Hello   world";
    SingleLineKeepsInnerSpaces("Hello   world");
    TrimOfTrimmed("Hello   world");
  }

  // ----- wrapping modes that behave alike -----

  /** `preserve` and `preserve-aligned` format a tag exactly as `auto` does. */
  lemma PreserveModesAreAuto(opts: Options, t: Token, level: nat)
    requires opts.wrapAttributes == Preserve || opts.wrapAttributes == PreserveAligned
    ensures FormatTag(opts, t, level) == FormatTag(opts.(wrapAttributes := Auto), t, level)
  {
  }

  /** `force-expand-multiline` formats a tag exactly as `force` does. */
  lemma ForceExpandIsForce(opts: Options, t: Token, level: nat)
    requires opts.wrapAttributes == ForceExpandMultiline
    ensures FormatTag(opts, t, level) == FormatTag(opts.(wrapAttributes := Force), t, level)
  {
  }

  /** `aligned-multiple` with a single attribute falls through to `auto`. */
  lemma AlignedMultipleSingleIsAuto(opts: Options, t: Token, level: nat)
    requires opts.wrapAttributes == AlignedMultiple && |t.attributes| == 1
    ensures FormatTag(opts, t, level) == FormatTag(opts.(wrapAttributes := Auto), t, level)
  {
  }

  /** A tag without attributes ignores the wrap mode and the level: an open tag prints its
      source text, a self-closing one `<name />` in the XHTML style and `<name>` in the HTML one. */
  lemma NoAttributeTag(opts: Options, t: Token, level: nat, other: Options, otherLevel: nat)
    requires t.attributes == [] && other.selfClosingStyle == opts.selfClosingStyle
    ensures t.kind != SelfClosing ==> FormatTag(opts, t, level) == t.content
    ensures t.kind == SelfClosing && opts.selfClosingStyle == Xhtml ==> FormatTag(opts, t, level) == "<" + t.name + " />"
    ensures t.kind == SelfClosing && opts.selfClosingStyle == Html ==> FormatTag(opts, t, level) == "<" + t.name + ">"
    ensures FormatTag(opts, t, level) == FormatTag(other, t, otherLevel)
  {
  }

  // ----- attribute values -----

  /** The tag-name pattern matches a whole name and stops at the first character after it. */
  lemma NameMatched(name: string, rest: string)
    requires IsName(name) && (rest == [] || !IsNameChar(rest[0]))
    ensures TagNameLength(name + rest, 0) == |name|
  {
    var s := name + rest;
    TagNameLengthSpec(s, 0);
    var n := TagNameLength(s, 0);
    assert s[..|name|] == name;
  }

  /** An empty quoted value, `name=""`, becomes no value: the attribute is kept, and printed as a
      bare name. */
  lemma EmptyQuotedValueIsBare(name: string, rest: string)
    requires IsName(name)
    ensures var m := MatchAttribute(name + "=\"\"" + rest);
      m == (Attribute(name, None), |name| + 3) && RenderAttr(m.0) == name
  {
    var tail := "=\"\"" + rest;
    var s := name + tail;
    assert s == name + "=\"\"" + rest;
    NameMatched(name, tail);
    var i := |name| + 1;
    assert s[|name|] == '=' && s[i] == '"' && s[i + 1] == '"';
    assert OccursAt(s, "\"", i + 1);
    IndexOfFirst(s, "\"", i + 1);
    assert IndexOf(s, "\"", i + 1) == i + 1;
    assert s[..|name|] == name;
    assert s[i + 1..i + 1] == "";
  }

  // ----- the lines of a formatted tag -----

  /** An attribute whose name and value hold no newline. */
  predicate OneLineAttribute(a: Attribute) {
    '\n' !in a.name && (a.value.Some? ==> '\n' !in a.value.value)
  }

  predicate OneLineAttributes(attrs: seq<Attribute>) {
    forall k :: 0 <= k < |attrs| ==> OneLineAttribute(attrs[k])
  }

  lemma SpacesHaveNoNewline(n: nat)
    ensures Count(Spaces(n), '\n') == 0
  {
    CountAbsent(Spaces(n), '\n');
  }

  lemma RenderAttrNewlines(a: Attribute)
    requires OneLineAttribute(a)
    ensures Count(RenderAttr(a), '\n') == 0
  {
    match a.value
    case Some(v) =>
      CountAppend(a.name, "=\"", '\n');
      CountAppend(a.name + "=\"", v, '\n');
      CountAppend(a.name + "=\"" + v, "\"", '\n');
      CountAbsent(a.name, '\n');
      CountAbsent(v, '\n');
    case None =>
      CountAbsent(a.name, '\n');
  }

  /** Joining strings of one newline each, without a separator, gives one newline per string. */
  lemma {:induction false} JoinedNewlines(parts: seq<string>)
    requires forall k :: 0 <= k < |parts| ==> Count(parts[k], '\n') == 1
    ensures Count(Join(parts, ""), '\n') == |parts|
    decreases |parts|
  {
    if |parts| > 1 {
      JoinedNewlines(parts[1..]);
      assert Join(parts, "") == parts[0] + "" + Join(parts[1..], "");
      assert parts[0] + "" == parts[0];
      CountAppend(parts[0], Join(parts[1..], ""), '\n');
    }
  }

  /** Joining single lines with a separator of no newline gives a single line. */
  lemma {:induction false} JoinedOneLine(parts: seq<string>, sep: string)
    requires Count(sep, '\n') == 0
    requires forall k :: 0 <= k < |parts| ==> Count(parts[k], '\n') == 0
    ensures Count(Join(parts, sep), '\n') == 0
    decreases |parts|
  {
    if |parts| > 1 {
      JoinedOneLine(parts[1..], sep);
      assert Join(parts, sep) == parts[0] + sep + Join(parts[1..], sep);
      CountAppend(parts[0], sep, '\n');
      CountAppend(parts[0] + sep, Join(parts[1..], sep), '\n');
    }
  }

  /** A newline, an indent and text of no newline make one line. */
  lemma LineNewlines(opts: Options, level: nat, text: string)
    requires Count(text, '\n') == 0
    ensures Count("\n" + Indent(opts, level) + text, '\n') == 1
  {
    SpacesHaveNoNewline(IndentWidth(opts, level));
    CountAppend("\n", Indent(opts, level), '\n');
    CountAppend("\n" + Indent(opts, level), text, '\n');
  }

  /** Each wrapped attribute begins one line. */
  lemma WrappedAttrsNewlines(opts: Options, attrs: seq<Attribute>, level: nat)
    requires OneLineAttributes(attrs)
    ensures Count(WrappedAttrs(opts, attrs, level), '\n') == |attrs|
  {
    var lines := seq(|attrs|, k requires 0 <= k < |attrs| => "\n" + Indent(opts, level + 1) + RenderAttr(attrs[k]));
    forall k | 0 <= k < |attrs| ensures Count(lines[k], '\n') == 1 {
      RenderAttrNewlines(attrs[k]);
      LineNewlines(opts, level + 1, RenderAttr(attrs[k]));
    }
    JoinedNewlines(lines);
  }

  lemma AlignedLineNewlines(opts: Options, a: Attribute, width: nat, level: nat)
    requires OneLineAttribute(a) && Utf16Length(a.name) <= width
    ensures Count(AlignedLine(opts, a, width, level), '\n') == 1
  {
    var pad := Spaces(width - Utf16Length(a.name));
    var tail := match a.value case Some(v) => " = \"" + v + "\"" case None => "";
    var head := "\n" + Indent(opts, level + 1);
    SpacesHaveNoNewline(IndentWidth(opts, level + 1));
    CountAppend("\n", Indent(opts, level + 1), '\n');
    CountAbsent(a.name, '\n');
    CountAppend(head, a.name, '\n');
    SpacesHaveNoNewline(width - Utf16Length(a.name));
    CountAppend(head + a.name, pad, '\n');
    TailNewlines(a);
    CountAppend(head + a.name + pad, tail, '\n');
  }

  /** The ` = "value"` part of an aligned line holds no line break. */
  lemma TailNewlines(a: Attribute)
    requires OneLineAttribute(a)
    ensures Count(match a.value case Some(v) => " = \"" + v + "\"" case None => "", '\n') == 0
  {
    if a.value.Some? {
      var v := a.value.value;
      CountAbsent(v, '\n');
      CountAppend(" = \"", v, '\n');
      CountAppend(" = \"" + v, "\"", '\n');
    }
  }

  /** Each aligned attribute begins one line. */
  lemma AlignedAttrsNewlines(opts: Options, attrs: seq<Attribute>, level: nat)
    requires attrs != [] && OneLineAttributes(attrs)
    ensures Count(AlignedAttrs(opts, attrs, level), '\n') == |attrs|
  {
    var width := MaxNameLength(attrs);
    var lines := seq(|attrs|, k requires 0 <= k < |attrs| => AlignedLine(opts, attrs[k], width, level));
    forall k | 0 <= k < |attrs| ensures Count(lines[k], '\n') == 1 {
      AlignedLineNewlines(opts, attrs[k], width, level);
    }
    JoinedNewlines(lines);
  }

  /** The attributes on one line hold no newline. */
  lemma SingleLineNewlines(attrs: seq<Attribute>)
    requires OneLineAttributes(attrs)
    ensures Count(SingleLine(attrs), '\n') == 0
  {
    var parts := RenderAttrs(attrs);
    forall k | 0 <= k < |parts| ensures Count(parts[k], '\n') == 0 {
      RenderAttrNewlines(attrs[k]);
    }
    JoinedOneLine(parts, " ");
  }

  /** The closing line of a wrapped tag. */
  lemma ClosingNewlines(opts: Options, t: Token, level: nat, attrLines: string)
    requires '\n' !in t.name && Count(attrLines, '\n') == |t.attributes|
    ensures Count("<" + t.name + attrLines + "\n" + Indent(opts, level) + Slash(opts, t) + ">", '\n') == |t.attributes| + 1
  {
    CountAbsent(t.name, '\n');
    SpacesHaveNoNewline(IndentWidth(opts, level));
    CountAppend("<", t.name, '\n');
    CountAppend("<" + t.name, attrLines, '\n');
    CountAppend("<" + t.name + attrLines, "\n", '\n');
    CountAppend("<" + t.name + attrLines + "\n", Indent(opts, level), '\n');
    CountAppend("<" + t.name + attrLines + "\n" + Indent(opts, level), Slash(opts, t), '\n');
    CountAppend("<" + t.name + attrLines + "\n" + Indent(opts, level) + Slash(opts, t), ">", '\n');
  }

  /** In the forced modes a tag with attributes takes one line per attribute, then one for its bracket. */
  lemma ForcedTagLines(opts: Options, t: Token, level: nat)
    requires opts.wrapAttributes == Force || opts.wrapAttributes == ForceExpandMultiline
    requires t.attributes != [] && OneLineAttributes(t.attributes) && '\n' !in t.name
    ensures Count(FormatTag(opts, t, level), '\n') == |t.attributes| + 1
  {
    WrappedAttrsNewlines(opts, t.attributes, level);
    ClosingNewlines(opts, t, level, WrappedAttrs(opts, t.attributes, level));
  }

  // ----- the number options and the errors of `repeat` -----

  /** An indent that is `NaN` or not negative: every `indent(level)` returns. */
  predicate RepeatableIndent(opts: Options) {
    opts.indent.NaN? || (opts.indent.Finite? && opts.indent.value >= 0.0)
  }

  lemma IndentReturns(opts: Options)
    requires RepeatableIndent(opts)
    ensures forall level :: !IndentThrows(opts, level)
  {
    forall level: nat
      ensures !IndentThrows(opts, level)
    {
      if opts.indent.Finite? {
        assert Scale(level, opts.indent.value) >= 0.0;
      }
    }
  }

  lemma {:induction false} ReturnsFrom(opts: Options, tokens: seq<Token>, i: nat, level: nat)
    requires RepeatableIndent(opts) && i <= |tokens|
    ensures !ThrowsFrom(opts, tokens, i, level)
    decreases |tokens| - i
  {
    if i < |tokens| {
      IndentReturns(opts);
      assert !PieceThrows(opts, tokens, i, level);
      ReturnsFrom(opts, tokens, i + 1, NextLevel(tokens[i], level));
    }
  }

  /** An indent that is `NaN` (an `undefined` option) or not negative never makes formatting throw. */
  lemma RepeatableIndentFormats(opts: Options, tokens: seq<Token>)
    requires RepeatableIndent(opts)
    ensures FormatTokensOf(opts, tokens) == Formatted(FormatTokensSpec(opts, tokens))
  {
    ReturnsFrom(opts, tokens, 0, 0);
  }

  /** An infinite indent, or one at or below -1, makes `" ".repeat(indent)` before the loop throw,
      whatever the tokens. */
  lemma NegativeIndentThrows(opts: Options, html: string)
    requires opts.indent.Infinite? || (opts.indent.Finite? && opts.indent.value <= -1.0)
    ensures Tokens(html).Done? ==> FormatOf(opts, html) == RangeError
  {
  }

  /** A token that throws at its level makes the loop throw from any earlier token on. */
  lemma {:induction false} ThrowsFromPiece(opts: Options, tokens: seq<Token>, i: nat, j: nat)
    requires i <= j < |tokens| && PieceThrows(opts, tokens, j, LevelBefore(tokens, j))
    ensures ThrowsFrom(opts, tokens, i, LevelBefore(tokens, i))
    decreases j - i
  {
    var level := LevelBefore(tokens, i);
    Throwing(opts, tokens, i, level);
    if i < j {
      assert LevelBefore(tokens, i + 1) == NextLevel(tokens[i], level);
      ThrowsFromPiece(opts, tokens, i + 1, j);
    }
  }

  /** A loop that throws does so at a token that throws at its level. */
  lemma {:induction false} ThrowingPiece(opts: Options, tokens: seq<Token>, i: nat) returns (j: nat)
    requires i <= |tokens| && ThrowsFrom(opts, tokens, i, LevelBefore(tokens, i))
    ensures i <= j < |tokens| && PieceThrows(opts, tokens, j, LevelBefore(tokens, j))
    decreases |tokens| - i
  {
    var level := LevelBefore(tokens, i);
    Throwing(opts, tokens, i, level);
    if PieceThrows(opts, tokens, i, level) {
      j := i;
    } else {
      assert LevelBefore(tokens, i + 1) == NextLevel(tokens[i], level);
      j := ThrowingPiece(opts, tokens, i + 1);
    }
  }

  lemma SomePieceIfThrows(opts: Options, tokens: seq<Token>)
    requires ThrowsFrom(opts, tokens, 0, 0)
    ensures exists j :: 0 <= j < |tokens| && PieceThrows(opts, tokens, j, LevelBefore(tokens, j))
  {
    var j := ThrowingPiece(opts, tokens, 0);
  }

  lemma ThrowsIfSomePiece(opts: Options, tokens: seq<Token>, j: nat)
    requires j < |tokens| && PieceThrows(opts, tokens, j, LevelBefore(tokens, j))
    ensures ThrowsFrom(opts, tokens, 0, 0)
  {
    ThrowsFromPiece(opts, tokens, 0, j);
  }

  lemma ThrowsIffSomePiece(opts: Options, tokens: seq<Token>)
    ensures ThrowsFrom(opts, tokens, 0, 0) <==>
      exists j :: 0 <= j < |tokens| && PieceThrows(opts, tokens, j, LevelBefore(tokens, j))
  {
    if ThrowsFrom(opts, tokens, 0, 0) {
      SomePieceIfThrows(opts, tokens);
    }
    forall j | 0 <= j < |tokens| && PieceThrows(opts, tokens, j, LevelBefore(tokens, j))
      ensures ThrowsFrom(opts, tokens, 0, 0)
    {
      ThrowsIfSomePiece(opts, tokens, j);
    }
  }

  lemma RangeErrorFromLoop(opts: Options, tokens: seq<Token>)
    ensures FormatTokensOf(opts, tokens) == RangeError <==>
      RepeatCount(opts.indent).None? || ThrowsFrom(opts, tokens, 0, 0)
  {
  }

  /** Formatting throws exactly when `" ".repeat(indent)` does, or one of the `indent` calls
      for some token, at the level that token is printed at. */
  lemma RangeErrorExactly(opts: Options, tokens: seq<Token>)
    ensures FormatTokensOf(opts, tokens) == RangeError <==>
      RepeatCount(opts.indent).None? ||
      exists j :: 0 <= j < |tokens| && PieceThrows(opts, tokens, j, LevelBefore(tokens, j))
  {
    RangeErrorFromLoop(opts, tokens);
    ThrowsIffSomePiece(opts, tokens);
  }

  /** An indent between -1 and 0 passes the check before the loop and the first level, and
      throws from level 2 on, where `level * indent` reaches -1. */
  lemma SmallNegativeIndent(opts: Options)
    requires opts.indent == Finite(-0.5)
    ensures RepeatCount(opts.indent) == Some(0)
    ensures !IndentThrows(opts, 0) && !IndentThrows(opts, 1) && IndentWidth(opts, 1) == 0
    ensures IndentThrows(opts, 2)
  {
    assert Scale(1, -0.5) == -0.5;
    assert Scale(2, -0.5) == -1.0;
  }

  /** A comment two levels deep makes the small negative indent throw; one level deep it does not. */
  lemma SmallNegativeIndentDepth(opts: Options)
    requires opts.indent == Finite(-0.5)
    ensures var a := Token(TagOpen, "<a>", "a", []);
      var b := Token(TagOpen, "<b>", "b", []);
      var c := Token(Comment, "<!--c-->", "", []);
      FormatTokensOf(opts, [a, b, c]) == RangeError && FormatTokensOf(opts, [a, c]).Formatted?
  {
    var a := Token(TagOpen, "<a>", "a", []);
    var b := Token(TagOpen, "<b>", "b", []);
    var c := Token(Comment, "<!--c-->", "", []);
    SmallNegativeIndent(opts);
    assert !IsRawTextElement("a") && !IsRawTextElement("b") by {
      assert ToLower("a") == "a" && ToLower("b") == "b";
    }
    assert ThrowsFrom(opts, [a, b, c], 2, 2);
    assert !ThrowsFrom(opts, [a, c], 1, 1);
  }

  /** A fractional indent is truncated after it is multiplied by the level. */
  lemma FractionalIndent(opts: Options)
    requires opts.indent == Finite(1.5)
    ensures IndentWidth(opts, 1) == 1 && IndentWidth(opts, 2) == 3
  {
    assert Scale(1, 1.5) == 1.5;
    assert Scale(2, 1.5) == 3.0;
  }

  /** A whole indent `k` indents `level * k` spaces and never throws. */
  lemma WholeIndentWidth(opts: Options, k: nat, level: nat)
    requires opts.indent == Finite(k as real)
    ensures !IndentThrows(opts, level) && IndentWidth(opts, level) == level * k
  {
    assert Scale(level, k as real) == (level * k) as real;
  }

  /** An indent present as `undefined` indents nothing: `level * undefined` is `NaN`. */
  lemma UndefinedIndentIsFlat(p: PartialOptions, level: nat)
    requires p.indent.Undefined?
    ensures Indent(Merge(p), level) == "" && !IndentThrows(Merge(p), level)
  {
  }

  /** A line length present as `undefined` lets no tag fit: every comparison with `NaN` is false. */
  lemma UndefinedLengthNeverFits(p: PartialOptions, t: Token)
    requires p.maxLineLength.Undefined?
    ensures !Fits(Merge(p), t)
  {
  }

  /** The closing line of an aligned tag, whose bracket is at column 0. */
  lemma AlignedClosingNewlines(opts: Options, t: Token, attrLines: string)
    requires '\n' !in t.name && Count(attrLines, '\n') == |t.attributes|
    ensures Count("<" + t.name + attrLines + "\n" + Slash(opts, t) + ">", '\n') == |t.attributes| + 1
  {
    CountAbsent(t.name, '\n');
    CountAppend("<", t.name, '\n');
    CountAppend("<" + t.name, attrLines, '\n');
    CountAppend("<" + t.name + attrLines, "\n", '\n');
    CountAppend("<" + t.name + attrLines + "\n", Slash(opts, t), '\n');
    CountAppend("<" + t.name + attrLines + "\n" + Slash(opts, t), ">", '\n');
  }

  /** The aligned layout also takes one line per attribute and one for its bracket. */
  lemma AlignedTagLines(opts: Options, t: Token, level: nat)
    requires opts.wrapAttributes == ForceAligned || (opts.wrapAttributes == AlignedMultiple && |t.attributes| > 1)
    requires t.attributes != [] && OneLineAttributes(t.attributes) && '\n' !in t.name
    ensures Count(FormatTag(opts, t, level), '\n') == |t.attributes| + 1
  {
    AlignedAttrsNewlines(opts, t.attributes, level);
    AlignedClosingNewlines(opts, t, AlignedAttrs(opts, t.attributes, level));
  }

  /** In `auto` mode a tag with attributes is a single line exactly when it fits. */
  lemma AutoTagLines(opts: Options, t: Token, level: nat)
    requires opts.wrapAttributes == Auto
    requires t.attributes != [] && OneLineAttributes(t.attributes) && '\n' !in t.name
    ensures Count(FormatTag(opts, t, level), '\n') == if Fits(opts, t) then 0 else |t.attributes| + 1
  {
    var line := SingleLine(t.attributes);
    if Fits(opts, t) {
      SingleLineNewlines(t.attributes);
      CountAbsent(t.name, '\n');
      CountAppend("<", t.name, '\n');
      CountAppend("<" + t.name, " ", '\n');
      CountAppend("<" + t.name + " ", line, '\n');
      CountAppend("<" + t.name + " " + line, " />", '\n');
      CountAppend("<" + t.name + " " + line, ">", '\n');
    } else {
      WrappedAttrsNewlines(opts, t.attributes, level);
      ClosingNewlines(opts, t, level, WrappedAttrs(opts, t.attributes, level));
    }
  }

  /** A tag `auto` keeps on one line is that many UTF-16 units long: `<name attributes>` is at
      most a finite `maxLineLength` (no tag fits under a `NaN` one), and the XHTML ` />` of a self-closing tag adds two units beyond it. */
  lemma AutoLineWidth(opts: Options, t: Token, level: nat)
    requires t.attributes != [] && Fits(opts, t)
    ensures var line := AutoLayout(opts, t, level);
      var extra := if t.kind == SelfClosing && opts.selfClosingStyle == Xhtml then 2 else 0;
      Utf16Length(line) == Utf16Length(t.name) + Utf16Length(SingleLine(t.attributes)) + 3 + extra &&
      !opts.maxLineLength.NaN? &&
      (opts.maxLineLength.Finite? ==> ((Utf16Length(line) - extra) as real) <= opts.maxLineLength.value)
  {
    var single := SingleLine(t.attributes);
    var head := "<" + t.name + " " + single;
    assert Utf16Length("<") == 1 && Utf16Length(" ") == 1 && Utf16Length(">") == 1 && Utf16Length(" />") == 3;
    Utf16LengthAppend("<", t.name);
    Utf16LengthAppend("<" + t.name, " ");
    Utf16LengthAppend("<" + t.name + " ", single);
    Utf16LengthAppend(head, ">");
    Utf16LengthAppend(head, " />");
  }

  /** A string keeps its prefixes when more is appended; used by Closed and FormatTagBrackets. */
  lemma Extended(s: string, p: string, x: string)
    requires StartsWith(s, p)
    ensures StartsWith(s + x, p)
  {
    assert forall j :: 0 <= j < |p| ==> (s + x)[j] == s[j];
  }

  /** Appending `>` keeps the prefix and ends the text with `>`; each case of FormatTagBrackets. */
  lemma Closed(s: string, p: string)
    requires StartsWith(s, p)
    ensures StartsWith(s + ">", p) && (s + ">")[|s + ">"| - 1] == '>'
  {
    Extended(s, p, ">");
  }

  /** Every layout of a tag with attributes opens with `<` and the tag's name and closes with `>`. */
  lemma FormatTagBrackets(opts: Options, t: Token, level: nat)
    requires t.attributes != []
    ensures var r := FormatTag(opts, t, level);
      StartsWith(r, "<" + t.name) && r[|r| - 1] == '>'
  {
    var head := "<" + t.name;
    assert StartsWith(head, head);
    var r := FormatTag(opts, t, level);
    var slash := Slash(opts, t);
    if opts.wrapAttributes == Force || opts.wrapAttributes == ForceExpandMultiline || (!Fits(opts, t) &&
      !(opts.wrapAttributes == ForceAligned || (opts.wrapAttributes == AlignedMultiple && |t.attributes| > 1))) {
      var w := WrappedAttrs(opts, t.attributes, level);
      var ind := Indent(opts, level);
      Extended(head, head, w);
      Extended(head + w, head, "\n");
      Extended(head + w + "\n", head, ind);
      Extended(head + w + "\n" + ind, head, slash);
      Closed(head + w + "\n" + ind + slash, head);
      assert r == head + w + "\n" + ind + slash + ">";
    } else if opts.wrapAttributes == ForceAligned || (opts.wrapAttributes == AlignedMultiple && |t.attributes| > 1) {
      var w := AlignedAttrs(opts, t.attributes, level);
      Extended(head, head, w);
      Extended(head + w, head, "\n");
      Extended(head + w + "\n", head, slash);
      Closed(head + w + "\n" + slash, head);
      assert r == head + w + "\n" + slash + ">";
    } else {
      var single := SingleLine(t.attributes);
      Extended(head, head, " ");
      Extended(head + " ", head, single);
      if t.kind == SelfClosing && opts.selfClosingStyle == Xhtml {
        Extended(head + " " + single, head, " />");
        assert r == head + " " + single + " />";
      } else {
        Closed(head + " " + single, head);
        assert r == head + " " + single + ">";
      }
    }
  }
}
