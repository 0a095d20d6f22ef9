# A verified model of the zeal-admin-cms console core

zeal-admin-cms is the administration console of a news site. This project models its core
in Dafny and proves properties of the model. The core has three parts.

- **The HTML pretty-printer** (`src/lib/html-formatter.ts`). A tokenizer walks the input with a
  cursor and produces comment, doctype, open, close, self-closing and text tokens. A printer then
  re-emits the tokens with an indent level, choosing an attribute layout from a wrap mode.
- **The URL-state hook** (`src/hooks/useUrlState.tsx`). It keeps a record of values in one
  search parameter of the URL: the record is serialised to name/value pairs, then read back.
- **The rules behind the console's pages**:
  - the in-memory user store (`src/api/users.ts`);
  - permissions, the route table, the sidebar and the breadcrumbs;
  - the moderator editors;
  - the daily-article and article-list pages;
  - the article creation and detail forms and the freelance review page;
  - the profile and settings pages;
  - the flagged-content queue;
  - the writer-request panel;
  - the weekly referral figure.

Each source file has its own Dafny module, named after the file. `JsText` holds the JavaScript
string and array primitives the modules share: `trim` with the ECMAScript white-space set,
`indexOf`, `split`, `join`, `slice` with negative indices, `filter`, `includes` and ASCII case
mapping.

How the source's code is modelled:
- **Loops** become methods, proved equal to recursive specification functions. This covers the
  tokenizer, `findTagEnd`, the attribute scanner, the printing loop, the serialiser, the
  filtering of the user store and the `FormData`/`URLSearchParams` builders.
- **Objects whose fields change** become classes with `modifies` clauses. This covers the
  formatter's options, the user store, the hook with its history, the auth provider, and each
  page's React state.
- **Pure rules** become functions, and lemmas state what they promise.

Where the source loops forever, the model returns an explicit outcome instead. The tokenizer
stops advancing at a `<` that begins no recognised construct, and `Diverges(at)` records that
position.

## Model

| member | source | states |
|---|---|---|
| HtmlFormatter.Merge | src/lib/html-formatter.ts:28-67 | every option present wins over the default, even one present as `undefined`: such a number becomes `NaN`, such a style behaves as `html` and such a wrap mode as `auto`; with no option present the result is indent 2, line length 40, XHTML style, `auto` wrapping |
| HtmlFormatter.Formatter.constructor | src/lib/html-formatter.ts:65-67 | the formatter's options are the merge of the given ones over the defaults |
| HtmlFormatter.NameRunSpec | src/lib/html-formatter.ts:140 | the run of `[a-zA-Z0-9:-]` characters found is all name characters and ends at the first other character |
| HtmlFormatter.TagNameLength | src/lib/html-formatter.ts:138-141 | the match of the tag-name pattern is non-empty exactly when an ASCII letter is there |
| HtmlFormatter.TagNameLengthSpec | src/lib/html-formatter.ts:140-231 | a tag name found is a name of the pattern `[a-zA-Z][a-zA-Z0-9:-]*` and the longest one at that place |
| HtmlFormatter.WhitespaceEndSpec | src/lib/html-formatter.ts:86-90 | the skipped run is all white space and ends at the first other character |
| HtmlFormatter.SelfClosingIgnoresCase | src/lib/html-formatter.ts:257-275 | upper- or lower-casing a name does not change whether it is void |
| HtmlFormatter.VoidElementTable | src/lib/html-formatter.ts:258-273 | the void table has fourteen distinct lower-case names |
| HtmlFormatter.SelfClosingIsMember | src/lib/html-formatter.ts:274 | a tag is self-closing by nature exactly when its lower-cased name is in the void table |
| HtmlFormatter.SelfClosingExamples | src/lib/html-formatter.ts:257-275 | example: `BR` and `Img` are void |
| HtmlFormatter.NotSelfClosingExample | src/lib/html-formatter.ts:257-275 | example: `DIV` is not void |
| HtmlFormatter.TagEndFrom | src/lib/html-formatter.ts:197-220 | the result is -1 or the index of a `>` at or after the start |
| HtmlFormatter.TagEndIsFirstUnquotedGt | src/lib/html-formatter.ts:197-220 | `findTagEnd` gives the first `>` not inside a `'…'` or `"…"` run begun at or after the start, and -1 exactly when there is none |
| HtmlFormatter.TagEndFromSpec | src/lib/html-formatter.ts:201-217 | resumed at any index with the quote state reached there, the scan finds the same first unquoted `>` |
| HtmlFormatter.BareRun | src/lib/html-formatter.ts:242 | the bare value run holds no white space and no `>` |
| HtmlFormatter.ValueAt | src/lib/html-formatter.ts:242 | a value part found ends after it started and within the text |
| HtmlFormatter.CapturedValue | src/lib/html-formatter.ts:247 | a captured value is dropped (no value) exactly when it is empty |
| HtmlFormatter.MatchAttribute | src/lib/html-formatter.ts:241-248 | one match of the attribute pattern consumes at least one character, and its name is a name that starts the text |
| HtmlFormatter.SkipToLetter | src/lib/html-formatter.ts:245 | the next match of the global pattern begins at an ASCII letter, or there is none |
| HtmlFormatter.AttrsInStep | src/lib/html-formatter.ts:245-249 | the attributes are the first match followed by the matches in the rest of the text, in order |
| HtmlFormatter.CommentStep | src/lib/html-formatter.ts:93-103 | a comment step moves the cursor forward and stays within the input |
| HtmlFormatter.DoctypeStep | src/lib/html-formatter.ts:106-119 | a doctype step moves the cursor forward and stays within the input |
| HtmlFormatter.CloseTagStep | src/lib/html-formatter.ts:122-134 | a closing-tag step moves the cursor forward and stays within the input |
| HtmlFormatter.OpenTagStep | src/lib/html-formatter.ts:137-164 | an opening-tag step moves the cursor forward and stays within the input |
| HtmlFormatter.TextStep | src/lib/html-formatter.ts:167-188 | a text step that advances moves the cursor forward and stays within the input |
| HtmlFormatter.StepAt | src/lib/html-formatter.ts:84-189 | every iteration that skips or advances strictly increases the position |
| HtmlFormatter.TextTokens | src/lib/html-formatter.ts:170-186 | trimmed text gives one text token, and empty text none |
| HtmlFormatter.SkipWhitespaceRun | src/lib/html-formatter.ts:86-90 | skipping the whole run of white space at once finds the same constructs as skipping it character by character |
| HtmlFormatter.Took | src/lib/html-formatter.ts:84-189 | taking one construct keeps the loop's account of the constructs and tokens found so far |
| HtmlFormatter.Times | src/lib/html-formatter.ts:480 | `level * indent` is the product for a finite indent, and `NaN` exactly for a `NaN` indent or an infinite one at level 0 |
| HtmlFormatter.RepeatCount | src/lib/html-formatter.ts:283 | `" ".repeat(n)` throws exactly for an infinite `n` or one at or below -1; otherwise it repeats `n` truncated toward zero, and `NaN` counts 0 |
| HtmlFormatter.Indent | src/lib/html-formatter.ts:479-481 | the indent is as many spaces as `repeat` makes of `level * indent` |
| HtmlFormatter.RenderAttrs | src/lib/html-formatter.ts:435-441 | each attribute renders as `name="value"`, or its bare name, in order |
| HtmlFormatter.MaxNameLength | src/lib/html-formatter.ts:411-413 | the width is the UTF-16 length of the longest attribute name |
| HtmlFormatter.TrimEach | src/lib/html-formatter.ts:351 | every line is trimmed, in order |
| HtmlFormatter.NonBlank | src/lib/html-formatter.ts:352 | the kept lines are non-empty lines of the input |
| HtmlFormatter.Formatter.Format | src/lib/html-formatter.ts:72-75 | `format` is the printing of the tokens, with its `RangeError`, or diverges where the tokenizer does |
| HtmlFormatter.Formatter.Tokenize | src/lib/html-formatter.ts:80-192 | the cursor loop produces exactly the specified tokens, and stops as stuck where the source loops forever |
| HtmlFormatter.Formatter.ReadComment | src/lib/html-formatter.ts:93-103 | the comment branch succeeds exactly when a `<!--` is there with a `-->` found from that position, and takes the specified step |
| HtmlFormatter.Formatter.ReadDoctype | src/lib/html-formatter.ts:106-119 | the doctype branch succeeds exactly for `<!DOCTYPE` or `<!doctype` with a later `>` |
| HtmlFormatter.Formatter.ReadCloseTag | src/lib/html-formatter.ts:122-134 | the closing-tag branch succeeds exactly for `</` with a later `>` |
| HtmlFormatter.Formatter.ReadOpenTag | src/lib/html-formatter.ts:137-164 | the opening-tag branch succeeds exactly for `<` and a tag name with an unquoted `>` after it |
| HtmlFormatter.Formatter.TakeOpenTag | src/lib/html-formatter.ts:142-161 | the opening tag taken is the specified step and token |
| HtmlFormatter.Formatter.OpenTag | src/lib/html-formatter.ts:146-158 | the token built is the specified open or self-closing token |
| HtmlFormatter.Formatter.FindTagEnd | src/lib/html-formatter.ts:197-220 | the quote-tracking loop returns the specified first unquoted `>` |
| HtmlFormatter.Formatter.ParseAttributes | src/lib/html-formatter.ts:225-252 | the attributes are the matches in the text between the name and the closing `>` or `/>`, trimmed |
| HtmlFormatter.Formatter.ScanAttributes | src/lib/html-formatter.ts:241-249 | the `exec` loop collects every match of the global pattern, in order |
| HtmlFormatter.Formatter.FormatTokens | src/lib/html-formatter.ts:280-364 | the printing loop throws a `RangeError` where `" ".repeat(indent)` or one of its `indent` calls does, and otherwise returns the specified text, trimmed at both ends |
| HtmlFormatter.Formatter.PrintToken | src/lib/html-formatter.ts:288-360 | one turn of the loop prints the specified piece, leaves the specified level and reports whether one of its `indent` calls throws |
| HtmlFormatter.Formatter.CollectRawBody | src/lib/html-formatter.ts:306-320 | the inner loop concatenates the text tokens up to the close tag of the same name, compared case-insensitively |
| HtmlFormatter.FormatHtml | src/lib/html-formatter.ts:487-493 | `formatHTML` formats with the given options merged over the defaults, with the same errors |
| HtmlFormatterProps.NoProgressIffUnrecognised | src/lib/html-formatter.ts:84-189 | an iteration makes no progress exactly when a `<` there begins no recognised construct |
| HtmlFormatterProps.SpansStuckAtUnrecognised | src/lib/html-formatter.ts:84-189 | a scan that gets stuck does so at an unrecognised `<` |
| HtmlFormatterProps.TokensStuckAtUnrecognised | src/lib/html-formatter.ts:80-192 | `tokenize` fails to return only at a `<` that begins no recognised construct |
| HtmlFormatterProps.UnterminatedTagDiverges | src/lib/html-formatter.ts:137-188 | `<div` with no `>` never finishes formatting |
| HtmlFormatterProps.StepSpanOk | src/lib/html-formatter.ts:137-164 | a construct found records the length of the tag name after its `<` |
| HtmlFormatterProps.SpansOk | src/lib/html-formatter.ts:84-189 | every construct the loop finds has that property |
| HtmlFormatterProps.OpenTagTokenWellFormed | src/lib/html-formatter.ts:146-158 | an open-tag token built from a name is well formed |
| HtmlFormatterProps.OpenTokenWellFormed | src/lib/html-formatter.ts:140-158 | an opening tag's token has a tag name and attributes with names |
| HtmlFormatterProps.TextTokensWellFormed | src/lib/html-formatter.ts:170-186 | text tokens are well formed |
| HtmlFormatterProps.TokenOfWellFormed | src/lib/html-formatter.ts:96-186 | each construct's token is well formed |
| HtmlFormatterProps.TokensOfWellFormed | src/lib/html-formatter.ts:84-189 | the tokens of any list of constructs are well formed |
| HtmlFormatterProps.TokensWellFormed | src/lib/html-formatter.ts:80-192 | every token `tokenize` produces, or has produced when it gets stuck, is well formed |
| HtmlFormatterProps.PrintedStep | src/lib/html-formatter.ts:285-361 | one turn of the printing loop at the level the tokens before it give |
| HtmlFormatterProps.PrintedFrom | src/lib/html-formatter.ts:285-361 | the loop's text is the pieces of the tokens, each printed at the level the tokens before it give |
| HtmlFormatterProps.FormatTokensAtLevels | src/lib/html-formatter.ts:280-364 | `formatTokens` is the trimmed concatenation of those pieces, starting from level 0 |
| HtmlFormatterProps.LevelBounds | src/lib/html-formatter.ts:331-336 | the level never exceeds the number of raising open tags before it, and is at least that number less the close tags before it |
| HtmlFormatterProps.RawTextBodyPrintedTwice | src/lib/html-formatter.ts:298-358 | a `script`/`style` body is printed twice: trimmed one level deeper after its open tag, then again as text at the open tag's level |
| HtmlFormatterProps.NormalizedIsOneLine | src/lib/html-formatter.ts:347-358 | normalised text holds no newline |
| HtmlFormatterProps.SingleLineKeepsInnerSpaces | src/lib/html-formatter.ts:349-353 | text on one line normalises to itself trimmed, so runs of spaces inside it are kept |
| HtmlFormatterProps.InnerSpacesExample | src/lib/html-formatter.ts:349-353 | example: `Hello   world` keeps its three spaces |
| HtmlFormatterProps.NoAttributeTag | src/lib/html-formatter.ts:370-378 | a tag without attributes prints its source text when open, and `<name />` or `<name>` by style when self-closing, whatever the wrap mode and level |
| HtmlFormatterProps.EmptyQuotedValueIsBare | src/lib/html-formatter.ts:242-393 | `name=""` matches as an attribute with no value, which prints as the bare name |
| HtmlFormatterProps.PreserveModesAreAuto | src/lib/html-formatter.ts:432-433 | `preserve` and `preserve-aligned` format a tag exactly as `auto` does |
| HtmlFormatterProps.ForceExpandIsForce | src/lib/html-formatter.ts:386-387 | `force-expand-multiline` formats a tag exactly as `force` does |
| HtmlFormatterProps.AlignedMultipleSingleIsAuto | src/lib/html-formatter.ts:404-430 | `aligned-multiple` with a single attribute falls through to `auto` |
| HtmlFormatterProps.WrappedAttrsNewlines | src/lib/html-formatter.ts:389-463 | each wrapped attribute begins one line |
| HtmlFormatterProps.AlignedLineNewlines | src/lib/html-formatter.ts:416-419 | an aligned attribute, padded to the widest name, is one line |
| HtmlFormatterProps.AlignedAttrsNewlines | src/lib/html-formatter.ts:414-421 | each aligned attribute begins one line |
| HtmlFormatterProps.SingleLineNewlines | src/lib/html-formatter.ts:435-441 | the one-line layout holds no newline |
| HtmlFormatterProps.ForcedTagLines | src/lib/html-formatter.ts:386-402 | in the forced modes a tag with attributes takes one line per attribute, then one for its bracket |
| HtmlFormatterProps.AlignedTagLines | src/lib/html-formatter.ts:404-429 | the aligned layout takes one line per attribute, then one for its bracket |
| HtmlFormatterProps.AutoTagLines | src/lib/html-formatter.ts:432-471 | in `auto` mode a tag with attributes is a single line exactly when it fits (its attributes on one line, its name and 3 take at most `maxLineLength` UTF-16 units; never under a `NaN` limit, always under `+Infinity`), and one line per attribute plus one otherwise |
| HtmlFormatterProps.AutoLineWidth | src/lib/html-formatter.ts:443-455 | a tag kept on one line is `<name attributes>`, at most a finite `maxLineLength` UTF-16 units long, and no tag is kept on one line under a `NaN` limit; the XHTML ` />` of a self-closing tag makes it two units longer than the limit allows |
| HtmlFormatterProps.IndentReturns | src/lib/html-formatter.ts:479-481 | with an indent that is `NaN` or not negative, no `indent(level)` throws |
| HtmlFormatterProps.ReturnsFrom | src/lib/html-formatter.ts:285-361 | with such an indent the printing loop never throws |
| HtmlFormatterProps.RepeatableIndentFormats | src/lib/html-formatter.ts:280-364 | with such an indent, `undefined` included, `formatTokens` always returns the formatted text |
| HtmlFormatterProps.NegativeIndentThrows | src/lib/html-formatter.ts:283 | an infinite indent or one at or below -1 makes every tokenized input throw a `RangeError` |
| HtmlFormatterProps.ThrowsFromPiece | src/lib/html-formatter.ts:285-361 | a token whose `indent` calls throw at its level makes the loop throw from any earlier token on |
| HtmlFormatterProps.ThrowingPiece | src/lib/html-formatter.ts:285-361 | a loop that throws does so at a token whose `indent` calls throw at its level |
| HtmlFormatterProps.ThrowsIffSomePiece | src/lib/html-formatter.ts:285-361 | the loop throws exactly when some token's `indent` calls throw at its level |
| HtmlFormatterProps.RangeErrorFromLoop | src/lib/html-formatter.ts:280-364 | `formatTokens` throws exactly when the `repeat` before the loop or the loop throws |
| HtmlFormatterProps.RangeErrorExactly | src/lib/html-formatter.ts:280-364 | `formatTokens` throws a `RangeError` exactly when `" ".repeat(indent)` throws or some token's `indent` calls throw at the level it is printed at |
| HtmlFormatterProps.SmallNegativeIndent | src/lib/html-formatter.ts:283-481 | example: an indent of -0.5 passes the `repeat` before the loop and levels 0 and 1, and throws at level 2 |
| HtmlFormatterProps.SmallNegativeIndentDepth | src/lib/html-formatter.ts:280-364 | example: with that indent a comment inside two open tags throws, and one inside a single open tag formats |
| HtmlFormatterProps.FractionalIndent | src/lib/html-formatter.ts:479-481 | example: an indent of 1.5 gives 1 space at level 1 and 3 at level 2 |
| HtmlFormatterProps.WholeIndentWidth | src/lib/html-formatter.ts:479-481 | a whole indent `k` gives `level * k` spaces and never throws |
| HtmlFormatterProps.UndefinedIndentIsFlat | src/lib/html-formatter.ts:479-481 | an indent present as `undefined` indents nothing and never throws |
| HtmlFormatterProps.UndefinedLengthNeverFits | src/lib/html-formatter.ts:444-445 | a line length present as `undefined` keeps no tag on one line |
| HtmlFormatterProps.FormatTagBrackets | src/lib/html-formatter.ts:367-475 | every layout of a tag with attributes opens with `<` and the tag name and closes with `>` |
| UrlState.Get | src/hooks/useUrlState.tsx:40 | `params.get(name)` is absent exactly when no pair has that name |
| UrlState.Delete | src/hooks/useUrlState.tsx:69-70 | after `params.delete(key)` no pair has that name and every other name reads as before |
| UrlState.GetAfterSet | src/hooks/useUrlState.tsx:72 | after `params.set(key, v)` the name reads `v` and every other name reads as before |
| UrlState.SetParamAbsent | src/hooks/useUrlState.tsx:138 | setting a name not yet present appends one pair |
| UrlState.AssignAbsent | src/hooks/useUrlState.tsx:153-162 | assigning a name not yet in the result object appends one entry |
| UrlState.ParseValue | src/hooks/useUrlState.tsx:151-162 | one value of `defaultDeserialize` is never `null` or `undefined`; a string comes back only as itself; an integer read is what `parseInt` reads |
| UrlState.IntegerTextReadsAsInteger | src/hooks/useUrlState.tsx:151-155 | a decimal integer literal comes back as the integer it denotes |
| UrlState.ExponentReadsAsLeadingDigits | src/hooks/useUrlState.tsx:151-155 | `1e3` passes the `Number` test but `parseInt` reads it as 1 |
| UrlState.HexReadsAsZero | src/hooks/useUrlState.tsx:151-155 | `0x10` passes the `Number` test but `parseInt(_, 10)` reads it as 0 |
| UrlState.InfinityReadsAsNaN | src/hooks/useUrlState.tsx:151-155 | `Infinity` passes the `Number` test and comes back as `NaN` |
| UrlState.BlankReadsAsNaN | src/hooks/useUrlState.tsx:151-155 | white space alone passes the `Number` test and comes back as `NaN` |
| UrlState.ParseStringify | src/hooks/useUrlState.tsx:136-162 | safe integers, booleans, and strings `Number` does not read as a number (or empty) and that are not `true`/`false`, are read back as themselves after `String(v)` |
| UrlState.StringifiedKeys | src/hooks/useUrlState.tsx:136-140 | `defaultSerialize` sets only names of the state |
| UrlState.DeserializedKeys | src/hooks/useUrlState.tsx:150-164 | `defaultDeserialize` assigns only names of the parameters |
| UrlState.AssignKeys | src/hooks/useUrlState.tsx:153-162 | an assignment adds no name other than its own |
| UrlState.SerializedUnique | src/hooks/useUrlState.tsx:136-140 | with distinct names, serializing appends one pair per present entry, in order |
| UrlState.DeserializeStringified | src/hooks/useUrlState.tsx:145-167 | reading back those pairs gives the state without its `null`/`undefined` entries |
| UrlState.SerializeRoundTrip | src/hooks/useUrlState.tsx:131-167 | `defaultDeserialize(defaultSerialize(s))` is `s` without its `null`/`undefined` entries, for values that round-trip |
| UrlState.NumericStringComesBackAsNumber | src/hooks/useUrlState.tsx:151-155 | example: the string `"42"` comes back as the number 42 |
| UrlState.Serialize | src/hooks/useUrlState.tsx:131-143 | the loop builds exactly the pairs of the specification function |
| UrlState.Deserialize | src/hooks/useUrlState.tsx:145-167 | the loop builds exactly the record of the specification function |
| UrlState.ReadAfterWrite | src/hooks/useUrlState.tsx:36-84 | reading the URL after the write effect gives the state without its `null`/`undefined` entries, when the codec inverts itself |
| UrlState.EmptyStateReadsDefault | src/hooks/useUrlState.tsx:36-73 | a write of a state with no keys deletes the parameter, so the next read gives the default state |
| UrlState.WriteKeepsOtherParams | src/hooks/useUrlState.tsx:58-73 | the write leaves every other search parameter as it was |
| UrlState.WriteSettles | src/hooks/useUrlState.tsx:61-67 | once written, the same state needs no second write |
| UrlState.NoMergeWithDefaults | src/hooks/useUrlState.tsx:44-46 | a state read from the URL holds no name the URL lacks, whatever the default holds |
| UrlState.UrlStateHook.constructor | src/hooks/useUrlState.tsx:36-52 | the hook starts from the state read off the current URL |
| UrlState.UrlStateHook.WriteUrl | src/hooks/useUrlState.tsx:55-84 | no history change when the parameter already holds the state; otherwise a pushed entry that drops forward entries, or a replaced current entry |
| UrlState.UrlStateHook.PopState | src/hooks/useUrlState.tsx:90-106 | navigating to an entry re-reads the state from that entry's URL and changes no history |
| UrlState.UrlStateHook.SetUrlState | src/hooks/useUrlState.tsx:119-126 | a new state replaces the old one, a function is applied to it, and the history is untouched |
| Users.SeedFacts | src/api/users.ts:7-28 | the seed holds 21 users with ids 1..21; user 1 is an active `user`, and of the generated ones every third from the first is a moderator and every fifth from the first is inactive |
| Users.PageCount | src/api/users.ts:70 | the page count is undefined (`NaN`/`Infinity` in the source) exactly when `perPage` is 0 |
| Users.PageCountIsCeiling | src/api/users.ts:69-70 | for a positive page size the page count is the ceiling of `total / perPage` |
| Users.FilteredMembers | src/api/users.ts:44-66 | a user is kept by the filters exactly when it is in the store and matches the search (name or email, lower-cased), the role and the status |
| Users.Filtered | src/api/users.ts:44-66 | every kept user passes the criteria, and none is added |
| Users.NoCriteriaKeepsAll | src/api/users.ts:47-66 | an empty search, role and status keep the whole store in order |
| Users.ListedMatch | src/api/users.ts:44-82 | every listed user is a stored user matching the query |
| Users.PageBounds | src/api/users.ts:69-82 | a page holds at most `perPage` users, exactly the slice from `(page-1)*perPage`, and none past the last page |
| Users.PastLastPage | src/api/users.ts:70-75 | a page after the last starts at or after the end of the filtered list |
| Users.IndexOfId | src/api/users.ts:106 | `findIndex` gives -1 exactly when no user has the id, else the first index holding it |
| Users.MergeIdempotent | src/api/users.ts:109-112 | spreading the same patch twice changes nothing more |
| Users.UpdateReplacesFirst | src/api/users.ts:104-115 | an update keeps the length, changes only the first user with the id, and puts the merge there |
| Users.DeleteRemovesAll | src/api/users.ts:117-123 | after a delete no user has the id and every other user stays |
| Users.CreateAfterDeleteReusesId | src/api/users.ts:92-102 | with ids 1..n, deleting user 1 then creating a user without an id repeats the last stored id |
| Users.SeedReusesId | src/api/users.ts:7-28 | example: on the seed that repeated id is 21 |
| Users.FilterUsers | src/api/users.ts:44-66 | the three filter passes give exactly the filtered list |
| Users.UserStore.constructor | src/api/users.ts:7-28 | the store starts as the seed |
| Users.UserStore.GetUsers | src/api/users.ts:31-83 | the page of the filtered users with its pagination record |
| Users.UserStore.GetUser | src/api/users.ts:85-90 | the first user with the id, or the error `User not found` exactly when there is none |
| Users.UserStore.CreateUser | src/api/users.ts:92-102 | the new user gets id `length + 1` unless the data gives one and is appended |
| Users.UserStore.UpdateUser | src/api/users.ts:104-115 | `User not found` and no change for a missing id; otherwise the merged user is returned and put in place |
| Users.UserStore.DeleteUser | src/api/users.ts:117-123 | `User not found` and no change for a missing id; otherwise `true` and every user with the id removed |
| App.HasPermissionIff | src/App.tsx:78-83 | the permission test holds exactly when a user with a permission list is signed in and the list holds the permission or `admin:all` |
| App.HasPermissionMonotone | src/App.tsx:78-83 | a longer permission list never loses a permission |
| App.Guard | src/App.tsx:94-112 | `ProtectedRoute` redirects home exactly when a non-empty required permission is not held |
| App.AdminReachesEverything | src/App.tsx:132-250 | a holder of `admin:all` reaches every route of the dashboard |
| App.SignedOutReachesOnlyIndex | src/App.tsx:132-250 | without a signed-in user only the dashboard index is reached |
| App.RoutePermissions | src/App.tsx:143-240 | each route opens exactly for the holders of the permission its guard names |
| App.AuthProvider.constructor | src/App.tsx:41-43 | nobody is signed in and the token is the stored one |
| App.AuthProvider.CheckAuth | src/App.tsx:45-53 | a session object becomes the user and `null` signs the user out; a failed request keeps the user and the token in state, and removes the stored token exactly when it was the `ApiError` of a 401 |
| App.SessionReply | src/lib/apiClient.ts:37-63 | the session request removes the stored token exactly on a 401, and resolves to a user exactly on a success other than 204 with an object body |
| App.AuthProvider.Login | src/App.tsx:55-70 | the response's user becomes the user and its token both the token and the stored token |
| App.AuthProvider.Logout | src/App.tsx:72-76 | user, token and stored token are cleared, so no permission is held |
| DashboardLayout.SidebarMembers | src/layouts/DashboardLayout.tsx:39-98 | an entry is in the sidebar exactly when it is in the table and its permission is absent or held |
| DashboardLayout.SidebarEntries | src/layouts/DashboardLayout.tsx:39-98 | the Dashboard entry is always shown and the Articles entry exactly with `posts:read` |
| DashboardLayout.AtMostOneActive | src/layouts/DashboardLayout.tsx:100 | no two entries are highlighted for the same pathname |
| DashboardLayout.DeeperPathActivatesNothing | src/layouts/DashboardLayout.tsx:100 | the page of one article highlights no entry, the comparison being exact |
| DashboardLayout.ArticlesEntryRedirects | src/layouts/DashboardLayout.tsx:46-51 | a user holding only `posts:read` sees the Articles entry, whose route guard sends them home |
| DashboardLayout.Segments | src/layouts/DashboardLayout.tsx:140-142 | the segments of the pathname are non-empty and hold no `/` |
| DashboardLayout.Capitalized | src/layouts/DashboardLayout.tsx:144 | same length; the first character upper-cased and the rest kept |
| DashboardLayout.TrailFacts | src/layouts/DashboardLayout.tsx:143-147 | one crumb per segment, named by the capitalized segment, each href the previous one plus `/` and the segment, only the last current |
| DashboardLayout.BreadcrumbTrail | src/layouts/DashboardLayout.tsx:140-147 | the same facts for the crumbs of a pathname |
| DashboardLayout.HrefsNest | src/layouts/DashboardLayout.tsx:145 | each crumb's href is a prefix of the next one's |
| DashboardLayout.RootHasNoCrumbs | src/layouts/DashboardLayout.tsx:140-142 | the root path has no breadcrumbs |
| ModeratorManagement.Badges | src/pages/admin/ModeratorManagementPage.tsx:254-298 | each badge is shown exactly when some permission contains its keyword or `admin` |
| ModeratorManagement.BadgeRow | src/pages/admin/ModeratorManagementPage.tsx:254-298 | the row holds each of the five badges exactly when its own condition holds |
| ModeratorManagement.AdminShowsAll | src/pages/admin/ModeratorManagementPage.tsx:254-298 | a permission containing `admin` shows all five badges in order |
| ModeratorManagement.NoPermissionsNoBadges | src/pages/admin/ModeratorManagementPage.tsx:254-298 | no permission, no badge |
| ModeratorManagement.SubstringBadges | src/pages/admin/ModeratorManagementPage.tsx:263-280 | `freelance_post:read` shows Manage Posts and `moderators:write` shows Manage Moderators, by substring match |
| ModeratorManagement.BadgesMonotone | src/pages/admin/ModeratorManagementPage.tsx:254-298 | more permissions never hide a badge |
| AddModerator.CheckPrivilegeCounts | src/pages/admin/AddModeratorPage.tsx:226-230 | checking a privilege adds one more occurrence, unchecking removes every occurrence, and no other privilege's count changes |
| AddModerator.WithoutCount | src/pages/admin/AddModeratorPage.tsx:229 | the filter keeps every other privilege's count |
| AddModerator.BasicSubmitsDefaults | src/pages/admin/AddModeratorPage.tsx:78-94 | a form left on `basic` submits `posts:read` and `comments:read`, with the name sent as `display_name`, and shows no checkboxes |
| AddModerator.PrivilegesAreDialogTableWithoutFreelance | src/pages/admin/AddModeratorPage.tsx:54-68 | the form's 13 privileges are the edit dialog's table without its two `freelance_post:` entries, in order |
| EditModerator.Values | src/pages/admin/EditModerator.tsx:88 | the values of the table, one per row in order |
| EditModerator.TableFacts | src/pages/admin/EditModerator.tsx:36-52 | the table has 15 distinct values with `admin:all` last and only there |
| EditModerator.Toggle | src/pages/admin/EditModerator.tsx:83-114 | toggling a permission flips its membership, deselecting one drops `admin:all`, and toggling `admin:all` flips `admin:all` |
| EditModerator.ToggleAdmin | src/pages/admin/EditModerator.tsx:85-92 | toggling `admin:all` on selects the whole table in order, toggling it off clears the selection |
| EditModerator.WithoutBoth | src/pages/admin/EditModerator.tsx:96-98 | the two filters keep exactly the values other than the permission and `admin:all`, in order |
| EditModerator.DeselectPermission | src/pages/admin/EditModerator.tsx:95-99 | deselecting a permission removes it and `admin:all` and keeps the others in order |
| EditModerator.SelectPermission | src/pages/admin/EditModerator.tsx:101-112 | selecting appends the permission, then `admin:all` exactly when the fourteen others are all selected |
| EditModerator.AdminAppendedTwice | src/pages/admin/EditModerator.tsx:101-110 | completing a selection that already holds `admin:all` appends it a second time |
| EditModerator.ToggleKeepsConsistent | src/pages/admin/EditModerator.tsx:83-114 | toggling a table value keeps a selection free of duplicates and holding `admin:all` only with all others |
| EditModerator.ToggleTwice | src/pages/admin/EditModerator.tsx:94-112 | on such a selection, selecting then deselecting a permission gives the selection back |
| EditModerator.SaveUntouched | src/pages/admin/EditModerator.tsx:78-80 | saving without toggling submits the moderator's id and own permissions |
| EditModerator.SavedConsistent | src/pages/admin/EditModerator.tsx:116-132 | any run of toggles from a consistent selection submits a consistent one |
| DailyArticles.Ids | src/pages/articles/DailyArticlesPage.tsx:141 | the ids of the articles, one per article in order |
| DailyArticles.Visible | src/pages/articles/DailyArticlesPage.tsx:98-100 | no article removed today is visible, and none is added |
| DailyArticles.VisibleMembers | src/pages/articles/DailyArticlesPage.tsx:98-100 | an article is visible exactly when it was fetched and its id is not in today's removed list |
| DailyArticles.RemovedIsHidden | src/pages/articles/DailyArticlesPage.tsx:174-180 | once an id is appended to today's list, no article with that id is visible |
| DailyArticles.TargetMembers | src/pages/articles/DailyArticlesPage.tsx:193-196 | with a selection the export and bulk removal work on exactly the selected visible articles, otherwise on all visible ones |
| DailyArticles.RemoveAllHidesTarget | src/pages/articles/DailyArticlesPage.tsx:257-275 | after a bulk removal no targeted article is visible |
| DailyArticles.IdSetSize | src/pages/articles/DailyArticlesPage.tsx:141 | distinct ids give a set as large as the list |
| DailyArticles.SelectAllChecksHeader | src/pages/articles/DailyArticlesPage.tsx:138-146 | select-all on articles with distinct ids leaves the header checkbox checked |
| DailyArticles.EscapeQuotes | src/pages/articles/DailyArticlesPage.tsx:206 | escaping keeps every character other than the double quote |
| DailyArticles.UnescapeEscaped | src/pages/articles/DailyArticlesPage.tsx:206 | reading doubled quotes back as single ones inverts the escaping |
| DailyArticles.QuotedFieldRoundTrip | src/pages/articles/DailyArticlesPage.tsx:206 | a reader following section 2, rule 7 of RFC 4180 gets every title back from its quoted field |
| DailyArticles.CsvLayout | src/pages/articles/DailyArticlesPage.tsx:203-211 | when no title or slug holds a newline, the export's lines are `Title,URL` and then one line per targeted article in order |
| DailyArticles.CsvRowShape | src/pages/articles/DailyArticlesPage.tsx:205-210 | a row is the quoted title, a comma and the post URL |
| DailyArticles.RemoveLowersRemaining | src/pages/articles/DailyArticlesPage.tsx:352 | removing one more article lowers the remaining count by one |
| DailyArticles.DailyArticlesPage.constructor | src/pages/articles/DailyArticlesPage.tsx:75-87 | nothing selected, page 1, today's removed list read from storage or empty |
| DailyArticles.DailyArticlesPage.DateCheck | src/pages/articles/DailyArticlesPage.tsx:104-110 | a stored record without an entry for today is cleared, together with today's list |
| DailyArticles.DailyArticlesPage.SelectAll | src/pages/articles/DailyArticlesPage.tsx:138-146 | the selection becomes the visible ids or empty |
| DailyArticles.DailyArticlesPage.SelectArticle | src/pages/articles/DailyArticlesPage.tsx:148-156 | one id is added to or removed from the selection |
| DailyArticles.DailyArticlesPage.RemoveArticle | src/pages/articles/DailyArticlesPage.tsx:174-190 | the id is appended to today's list, stored under today, and deselected |
| DailyArticles.DailyArticlesPage.RemoveAll | src/pages/articles/DailyArticlesPage.tsx:257-281 | `No articles to remove` and no change without a target; otherwise the target's ids appended and stored and the selection cleared |
| DailyArticles.DailyArticlesPage.PreviousPage | src/pages/articles/DailyArticlesPage.tsx:480 | the page goes down by one and never below 1 |
| DailyArticles.DailyArticlesPage.NextPage | src/pages/articles/DailyArticlesPage.tsx:489 | the page goes up by one |
| ArticlesList.BuildQuery | src/pages/articles/ArticlesListPage.tsx:102-113 | the loop over the filter entries builds exactly the specified search parameters |
| ArticlesList.AppendEach | src/pages/articles/ArticlesListPage.tsx:108 | a list value appends one pair per item, in order |
| ArticlesList.QueryPairsAppend | src/pages/articles/ArticlesListPage.tsx:105-113 | the parameters of two runs of entries are those of each run, concatenated |
| ArticlesList.EntryPairsShape | src/pages/articles/ArticlesListPage.tsx:106-111 | an undefined value appends nothing, a list one pair per item under the key, any other value one pair under the key |
| ArticlesList.QueryKeys | src/pages/articles/ArticlesListPage.tsx:105-113 | every parameter sent is named by a defined entry of the filters |
| ArticlesList.DeleteRequest | src/pages/articles/ArticlesListPage.tsx:132-133 | no request exactly for an empty list, otherwise the ids as given |
| ArticlesList.DeleteGuard | src/pages/articles/ArticlesListPage.tsx:245-247 | a single id is sent as a one-element list and an empty list sends nothing |
| ArticlesList.SelectValue | src/pages/articles/ArticlesListPage.tsx:384-391 | `all` clears the filter and any other value sets it |
| ArticlesList.SummaryRange | src/pages/articles/ArticlesListPage.tsx:603-608 | on a page starting before the end the summary names at most `limit` rows from the page's first row; an empty result on page 1 reads `1 to 0` |
| ArticlesList.SearchOrEmpty | src/pages/articles/ArticlesListPage.tsx:197 | `filters.search \|\| ""` is the search itself or the empty string, and the only falsy result is the empty string |
| ArticlesList.ReloadedSearch | src/pages/articles/ArticlesListPage.tsx:183-197 | after a reload a search read back as text shows as itself, and the box holds a string exactly when the search came back as text or falsy |
| ArticlesList.YearSearchReadsAsNumber | src/pages/articles/ArticlesListPage.tsx:183-197 | a search for `2024` comes back from the URL as the number 2024 in the search box |
| ArticlesList.LeadingZerosLost | src/pages/articles/ArticlesListPage.tsx:183-197 | a search for `007` comes back as the number 7 |
| ArticlesList.ExponentSearchReadsAsOne | src/pages/articles/ArticlesListPage.tsx:183-197 | a search for `1e3` comes back as the number 1 |
| ArticlesList.FalsySearchesEmpty | src/pages/articles/ArticlesListPage.tsx:183-197 | searches for `0` and `Infinity` come back falsy and the box shows empty |
| ArticlesList.ArticlesListPage.constructor | src/pages/articles/ArticlesListPage.tsx:180-197 | nothing selected and the search box holding `filters.search \|\| ""`, which is a number or a boolean when the URL read the search as one |
| ArticlesList.ArticlesListPage.HandleInput | src/pages/articles/ArticlesListPage.tsx:259-261 | the search box holds the typed text |
| ArticlesList.ArticlesListPage.SelectAll | src/pages/articles/ArticlesListPage.tsx:227-233 | the selection becomes the listed ids or empty |
| ArticlesList.ArticlesListPage.SelectArticle | src/pages/articles/ArticlesListPage.tsx:235-243 | one id is added to or removed from the selection |
| ArticlesList.ArticlesListPage.DeleteSucceeded | src/pages/articles/ArticlesListPage.tsx:217-223 | a successful delete clears the selection |
| ArticlesList.ArticlesListPage.HandleSearch | src/pages/articles/ArticlesListPage.tsx:249-257 | a string input, trimmed, becomes the search and the page goes back to 1 except on the first render; an input that is not a string throws a `TypeError` and leaves the filters as they were |
| ArticlesList.ArticlesListPage.SetCategory | src/pages/articles/ArticlesListPage.tsx:384-391 | the category is set or cleared and the page goes back to 1 |
| ArticlesList.ArticlesListPage.SetGeneratedBy | src/pages/articles/ArticlesListPage.tsx:407-414 | the origin filter is set or cleared and the page goes back to 1 |
| ArticlesList.ArticlesListPage.Previous | src/pages/articles/ArticlesListPage.tsx:615-621 | nothing on page 1, otherwise one page back |
| ArticlesList.ArticlesListPage.Next | src/pages/articles/ArticlesListPage.tsx:641-647 | nothing unless the server reports more, otherwise one page on |
| ArticleCreation.Checks | src/pages/articles/ArticleCreationPage.tsx:222-254 | the nine checked fields, in checking order |
| ArticleCreation.ValidationOrder | src/pages/articles/ArticleCreationPage.tsx:222-254 | the form passes exactly when no checked field is missing, and otherwise reports the first missing field's message |
| ArticleCreation.AddKeywordKeepsNoDuplicates | src/pages/articles/ArticleCreationPage.tsx:135-143 | adding keeps the keyword list free of duplicates and lists any non-empty keyword added |
| ArticleCreation.RemoveKeywordMembers | src/pages/articles/ArticleCreationPage.tsx:145-150 | after removal a keyword is listed exactly when it was listed and is not the removed one |
| ArticleCreation.AddThenRemove | src/pages/articles/ArticleCreationPage.tsx:135-150 | removing a keyword just added gives the list back |
| ArticleCreation.ExtractDomain | src/pages/articles/ArticleCreationPage.tsx:25-36 | the domain holds no `.` |
| ArticleCreation.ExtractDomainOfLabels | src/pages/articles/ArticleCreationPage.tsx:28-34 | a hostname of labels gives its second-to-last label, or its only one |
| ArticleCreation.AutofillFacts | src/pages/articles/ArticleCreationPage.tsx:95-118 | autofill leaves the author empty exactly without a byline, names the source by site name or else domain, points it at the host over https, and keeps keywords, selects, image and feature flag |
| ArticleCreation.FetchArticleDataAsWritten | src/pages/articles/ArticleCreationPage.tsx:81-108 | as written, `fetchArticleData` always throws: a failed request rethrows and an answered one fails with a `TypeError` at `.json()` |
| ArticleCreation.FetchArticleData | src/pages/articles/ArticleCreationPage.tsx:81-108 | reading the parsed body, it returns exactly when an article object was returned, and then its fields |
| ArticleCreation.CreatedAsWritten | src/pages/articles/ArticleCreationPage.tsx:280-289 | as written, the create request never reaches `navigate` |
| ArticleCreation.Created | src/pages/articles/ArticleCreationPage.tsx:280-289 | reading the returned id, an answered request navigates under `/articles/` to that id |
| ArticleCreation.CreateRequest | src/pages/articles/ArticleCreationPage.tsx:256-279 | no request and the validator's message exactly when a field is missing, otherwise the form data |
| ArticleCreation.PayloadFields | src/pages/articles/ArticleCreationPage.tsx:262-279 | fourteen text fields and a file part exactly when an image was chosen; keywords travel comma-joined and split back when none holds a comma; the flag travels as `true` or `false` |
| ArticleCreation.ArticleCreationPage.constructor | src/pages/articles/ArticleCreationPage.tsx:48-79 | the form starts empty, with no error, no keyword or URL typed, not autofilled |
| ArticleCreation.ArticleCreationPage.AddKeyword | src/pages/articles/ArticleCreationPage.tsx:135-143 | the keyword is added when new and non-empty, and the input cleared only then |
| ArticleCreation.ArticleCreationPage.RemoveKeyword | src/pages/articles/ArticleCreationPage.tsx:145-150 | the keyword's every occurrence leaves the list and nothing else changes |
| ArticleCreation.ArticleCreationPage.CheckFormValues | src/pages/articles/ArticleCreationPage.tsx:222-254 | the error becomes the validator's message or clears, and the result says whether it cleared |
| ArticleCreation.ArticleCreationPage.HandleCreateArticle | src/pages/articles/ArticleCreationPage.tsx:256-279 | no request exactly when validation fails, otherwise the form data |
| ArticleCreation.ArticleCreationPage.HandleUrlSubmit | src/pages/articles/ArticleCreationPage.tsx:110-122 | reading the parsed body: a parsed article is spread over the form, the URL input is cleared and the form marked filled; any failure changes nothing |
| ArticleCreation.ArticleCreationPage.HandleUrlSubmitAsWritten | src/pages/articles/ArticleCreationPage.tsx:81-122 | as written, the form, the URL input and the filled flag never change, whatever the server answers |
| ArticleCreation.ArticleCreationPage.CreateSettledAsWritten | src/pages/articles/ArticleCreationPage.tsx:280-295 | as written, every settled create request ends with "Error creating article" and no navigation |
| ArticleCreation.ArticleCreationPage.CreateSettled | src/pages/articles/ArticleCreationPage.tsx:280-295 | reading the returned id: an answered request navigates to `/articles/<id>`, a failed one sets "Error creating article" |
| ArticleCreation.ArticleCreationPage.HandleImageChange | src/pages/articles/ArticleCreationPage.tsx:124-133 | a chosen file replaces the image and its preview, no file changes nothing |
| ArticleDetail.Keys | src/pages/articles/ArticleDetailPage.tsx:114 | the keys of the draft, one per property in order |
| ArticleDetail.SetFieldGet | src/pages/articles/ArticleDetailPage.tsx:197 | after `{...d, [key]: v}` the key reads `v` |
| ArticleDetail.SetFieldOther | src/pages/articles/ArticleDetailPage.tsx:197 | after the spread every other key reads as before |
| ArticleDetail.SetFieldKeys | src/pages/articles/ArticleDetailPage.tsx:197 | the spread keeps the key order and appends a new key at the end |
| ArticleDetail.SetFieldFacts | src/pages/articles/ArticleDetailPage.tsx:197 | the three facts of the spread together |
| ArticleDetail.NullDraftGuards | src/pages/articles/ArticleDetailPage.tsx:195-249 | without a draft the title, description, category, removal and tag handlers do nothing |
| ArticleDetail.FieldChangedOnly | src/pages/articles/ArticleDetailPage.tsx:195-205 | a text edit sets that property and leaves every other |
| ArticleDetail.CategoryToggleFlips | src/pages/articles/ArticleDetailPage.tsx:207-224 | toggling a category flips its membership, keeps every other category's, and touches no other property |
| ArticleDetail.ItemRemovedMembers | src/pages/articles/ArticleDetailPage.tsx:226-248 | after removal an item is listed exactly when it was listed and is not the removed one |
| ArticleDetail.TagAppended | src/pages/articles/ArticleDetailPage.tsx:234-241 | an accepted tag is appended trimmed, even when already listed |
| ArticleDetail.AppendProperties | src/pages/articles/ArticleDetailPage.tsx:114-131 | the property loop builds exactly the specified entries |
| ArticleDetail.AppendItems | src/pages/articles/ArticleDetailPage.tsx:123-126 | a list property appends one entry per item, in order |
| ArticleDetail.PropertiesEntriesKeys | src/pages/articles/ArticleDetailPage.tsx:114-131 | every entry of the loop is text, under a key that is not skipped and whose value is neither `null` nor `undefined` |
| ArticleDetail.UpdateBodyTail | src/pages/articles/ArticleDetailPage.tsx:133-144 | after the properties comes at most a content entry, the file last when one is chosen, and an empty `image_url` exactly when no file is chosen and the image is `null` |
| ArticleDetail.FetchPost | src/pages/articles/ArticleDetailPage.tsx:71-81 | reading the parsed body, it returns exactly when an object was returned, and then its `data` |
| ArticleDetail.QueryData | src/pages/articles/ArticleDetailPage.tsx:96-99 | the query has data only when the fetch returned, and then it is what the fetch returned |
| ArticleDetail.ArticleDetailPage.constructor | src/pages/articles/ArticleDetailPage.tsx:90-93 | no draft, no tag typed, no file chosen |
| ArticleDetail.ArticleDetailPage.ArticleLoaded | src/pages/articles/ArticleDetailPage.tsx:102-106 | a loaded article becomes the draft only when there is none yet |
| ArticleDetail.ArticleDetailPage.TitleChange | src/pages/articles/ArticleDetailPage.tsx:195-198 | the draft's title is set, nothing without a draft |
| ArticleDetail.ArticleDetailPage.DescriptionChange | src/pages/articles/ArticleDetailPage.tsx:200-205 | the draft's description is set, nothing without a draft |
| ArticleDetail.ArticleDetailPage.ContentChange | src/pages/articles/ArticleDetailPage.tsx:382-383 | the content is set, on an empty draft when there is none |
| ArticleDetail.ArticleDetailPage.CategoryChange | src/pages/articles/ArticleDetailPage.tsx:207-224 | the category is toggled |
| ArticleDetail.ArticleDetailPage.RemoveCategory | src/pages/articles/ArticleDetailPage.tsx:226-232 | every occurrence of the category is removed |
| ArticleDetail.ArticleDetailPage.AddTag | src/pages/articles/ArticleDetailPage.tsx:234-241 | on Enter with a non-blank input and a draft the trimmed tag is appended and the input cleared; otherwise nothing |
| ArticleDetail.ArticleDetailPage.RemoveTag | src/pages/articles/ArticleDetailPage.tsx:243-249 | every occurrence of the tag is removed |
| ArticleDetail.ArticleDetailPage.ImageFileSelect | src/pages/articles/ArticleDetailPage.tsx:251-263 | the file is kept; no file sets the draft's image to `null` |
| ArticleDetail.ArticleDetailPage.ImageReset | src/pages/articles/ArticleDetailPage.tsx:265-272 | the file is dropped and the image set back to the article's, or `null` when falsy |
| ArticleDetail.ArticleDetailPage.SaveChanges | src/pages/articles/ArticleDetailPage.tsx:173-177 | no request exactly without a draft, otherwise the specified form data |
| ArticleDetail.ArticleDetailPage.UpdateSucceeded | src/pages/articles/ArticleDetailPage.tsx:159-163 | a successful update drops the chosen file |
| ArticleDetail.ArticleDetailPage.ArticleQuerySettledAsWritten | src/pages/articles/ArticleDetailPage.tsx:71-106 | as written, the draft never changes when the article query settles |
| ArticleDetail.ArticleDetailPage.ArticleQuerySettled | src/pages/articles/ArticleDetailPage.tsx:71-106 | reading the parsed body, a loaded article becomes the draft when there is none yet |
| ArticleDetail.ArticleDetailPage.UpdateSettledAsWritten | src/pages/articles/ArticleDetailPage.tsx:147-167 | as written, the update always toasts a failure and keeps the chosen file |
| ArticleDetail.ArticleDetailPage.UpdateSettled | src/pages/articles/ArticleDetailPage.tsx:147-167 | when the mutation returns what `apiClient` returned, success clears the chosen file and toasts "Article updated successfully!", failure toasts the failure |
| FreelanceDetail.DropIndexShape | src/pages/freelance/FreelanceArticleDetailPage.tsx:82 | the index filter, scanned from any offset, drops exactly the note at that position or nothing |
| FreelanceDetail.NoteRemovedShape | src/pages/freelance/FreelanceArticleDetailPage.tsx:81-83 | removing index i drops exactly that note and keeps the others in order; an index outside the list changes nothing |
| FreelanceDetail.AddThenRemoveNote | src/pages/freelance/FreelanceArticleDetailPage.tsx:74-83 | adding a non-blank note and removing the last index gives the list back; a blank note adds nothing |
| FreelanceDetail.RejectCarriesNotes | src/pages/freelance/FreelanceArticleDetailPage.tsx:37-72 | a rejection is only sent with at least one note and carries the notes; an approval carries none and a different status |
| FreelanceDetail.FreelanceDetailPage.constructor | src/pages/freelance/FreelanceArticleDetailPage.tsx:21-22 | no notes and an empty input |
| FreelanceDetail.FreelanceDetailPage.Fetched | src/pages/freelance/FreelanceArticleDetailPage.tsx:24-30 | the fetch replaces the notes by the article's |
| FreelanceDetail.FreelanceDetailPage.AddNote | src/pages/freelance/FreelanceArticleDetailPage.tsx:74-79 | a non-blank note is appended trimmed and the input cleared; a blank one changes nothing |
| FreelanceDetail.FreelanceDetailPage.RemoveNote | src/pages/freelance/FreelanceArticleDetailPage.tsx:81-83 | the note at the index is removed |
| FreelanceDetail.FreelanceDetailPage.Reject | src/pages/freelance/FreelanceArticleDetailPage.tsx:165-171 | the rejection with the notes is sent exactly when not pending and there is a note |
| FreelanceDetail.FreelanceDetailPage.Approve | src/pages/freelance/FreelanceArticleDetailPage.tsx:157-161 | the approval is sent exactly when not pending |
| Profile.BlankNameRejected | src/pages/profile/ProfilePage.tsx:75-78 | a blank name is refused first |
| Profile.ClosedSectionIgnoresPasswords | src/pages/profile/ProfilePage.tsx:80-108 | with the section closed the password inputs change nothing, and a non-blank name sends a name-only body |
| Profile.OpenSectionSendsPasswords | src/pages/profile/ProfilePage.tsx:80-108 | with the section open a body is sent exactly when the name is not blank, the current password given, the new one at least 8 UTF-16 units long and confirmed; it carries both passwords |
| Profile.PasswordChecksInOrder | src/pages/profile/ProfilePage.tsx:80-95 | a missing current password is reported before a short new one, and that before a mismatch |
| Profile.SentNameTrimmed | src/pages/profile/ProfilePage.tsx:101-103 | the name sent is trimmed and not blank |
| Profile.ProfilePage.constructor | src/pages/profile/ProfilePage.tsx:30-35 | empty inputs and the password section closed |
| Profile.ProfilePage.HandleUpdateProfile | src/pages/profile/ProfilePage.tsx:72-111 | the step-by-step checks give exactly the specified outcome |
| Profile.ProfilePage.UpdateSucceeded | src/pages/profile/ProfilePage.tsx:58-66 | the password inputs are cleared and the section closed; the name stays |
| SystemSettings.ChangeWritesOneSetting | src/pages/settings/SystemSettingsPage.tsx:115-128 | a change sets one setting: the groups are those before plus the changed one, and every other setting and group reads as before |
| SystemSettings.Changed | src/pages/settings/SystemSettingsPage.tsx:115-128 | the groups are those of before plus the changed one, which holds the new value |
| SystemSettings.LastChangeWins | src/pages/settings/SystemSettingsPage.tsx:115-128 | a later change of the same setting overrides an earlier one |
| SystemSettings.SameGroupCommute | src/pages/settings/SystemSettingsPage.tsx:120-126 | changes of two settings of one group can be made in either order |
| SystemSettings.OtherGroupCommute | src/pages/settings/SystemSettingsPage.tsx:120-126 | changes in two different groups can be made in either order |
| SystemSettings.ChangesCommute | src/pages/settings/SystemSettingsPage.tsx:115-128 | changes of different settings can be made in either order |
| SystemSettings.DefaultValues | src/pages/settings/SystemSettingsPage.tsx:70-91 | the initial data: three groups, auto-flag threshold 3, timeout 30 minutes, daily digest at 09:00, 24-hour sessions, 5 login attempts, 90-day password expiry |
| SystemSettings.SystemSettingsPage.constructor | src/pages/settings/SystemSettingsPage.tsx:94-96 | the working copy starts as the initial data, with no changes |
| SystemSettings.SystemSettingsPage.SettingChange | src/pages/settings/SystemSettingsPage.tsx:115-128 | the setting is written and the unsaved-changes flag raised, which shows the alert and enables saving |
| SystemSettings.SystemSettingsPage.Save | src/pages/settings/SystemSettingsPage.tsx:130-132 | the working copy is the body sent |
| SystemSettings.SystemSettingsPage.SaveSucceeded | src/pages/settings/SystemSettingsPage.tsx:109-112 | a successful save lowers the flag, hiding the alert and disabling saving, and keeps the working copy |
| FlaggedContent.HeaderToggled | src/pages/moderation/FlaggedContentPage.tsx:388-394 | checking the header selects every row's `_id` in order; unchecking selects nothing |
| FlaggedContent.HeaderToggleShown | src/pages/moderation/FlaggedContentPage.tsx:386-394 | checking the header selects every row and shows it checked; unchecking shows it unchecked on a non-empty list |
| FlaggedContent.RowToggleMembers | src/pages/moderation/FlaggedContentPage.tsx:418-424 | checking a row adds its `_id` once more, unchecking removes every copy, and other ids stay |
| FlaggedContent.RowCheckedUsesId | src/pages/moderation/FlaggedContentPage.tsx:417 | a row's checkbox reads the `id` property: without one it never shows checked, and with `id` equal to `_id` it shows checked exactly when selected |
| FlaggedContent.RowToggled | src/pages/moderation/FlaggedContentPage.tsx:418-424 | checking appends the row's `_id` after the selection; unchecking leaves no copy of it |
| FlaggedContent.HeaderCountsDuplicates | src/pages/moderation/FlaggedContentPage.tsx:387 | checking one row twice in a list of two shows the header checked while the other row is unselected |
| FlaggedContent.ReasonPieces | src/pages/moderation/FlaggedContentPage.tsx:177-181 | one piece per report in order, `other` reports giving their description |
| FlaggedContent.ReasonsLineShape | src/pages/moderation/FlaggedContentPage.tsx:177-182 | the pieces are joined with `, `; no report gives an empty line |
| FlaggedContent.FlaggedContentPage.constructor | src/pages/moderation/FlaggedContentPage.tsx:54-60 | no dialog content, no selection, filters `PENDING`, `ALL` and no minimum |
| FlaggedContent.FlaggedContentPage.HeaderCheckbox | src/pages/moderation/FlaggedContentPage.tsx:388-394 | the selection becomes the header's result |
| FlaggedContent.FlaggedContentPage.RowCheckbox | src/pages/moderation/FlaggedContentPage.tsx:418-424 | the selection becomes the row's result |
| FlaggedContent.FlaggedContentPage.DialogOpenChange | src/pages/moderation/FlaggedContentPage.tsx:455-457 | opening the dialog selects its row, closing clears it |
| FlaggedContent.FlaggedContentPage.StatusFilter | src/pages/moderation/FlaggedContentPage.tsx:332-334 | only the status filter changes |
| FlaggedContent.FlaggedContentPage.ContentTypeFilter | src/pages/moderation/FlaggedContentPage.tsx:351-353 | only the content type filter changes |
| FlaggedContent.FlaggedContentPage.MinReportsFilter | src/pages/moderation/FlaggedContentPage.tsx:372-377 | only the minimum-reports filter changes |
| FlaggedContent.FlaggedContentPage.BulkRequest | src/pages/moderation/FlaggedContentPage.tsx:285-306 | the bulk buttons send the selection as it stands, duplicates included |
| FlaggedContent.FlaggedContentPage.UpdateSucceeded | src/pages/moderation/FlaggedContentPage.tsx:116-120 | a single update closes the dialog and clears the selection |
| FlaggedContent.FlaggedContentPage.BulkUpdateSucceeded | src/pages/moderation/FlaggedContentPage.tsx:136-139 | a bulk update clears the selection and leaves the dialog |
| FlaggedContent.UpdateRequest | src/pages/moderation/FlaggedContentPage.tsx:198-225 | the dialog's buttons send their status with the row's `id` property, absent when the row has none |
| WriterRequests.InProgressIsIn | src/components/custom/writer-requests.tsx:265-268 | `some` over the processing list holds exactly when the entry is in it |
| WriterRequests.Started | src/components/custom/writer-requests.tsx:94-109 | starting an action appends its entry after the existing ones |
| WriterRequests.Finished | src/components/custom/writer-requests.tsx:75-91 | after a success no entry for the request is left |
| WriterRequests.FetchRequestsAsWritten | src/components/custom/writer-requests.tsx:38-51 | as written, `fetchRequests` always throws; a body without a truthy `ok` gives "HTTP error! status: " followed by the body's own `status` property, "undefined" when it has none |
| WriterRequests.FetchRequests | src/components/custom/writer-requests.tsx:38-51 | returning the parsed body, it returns exactly when the request was answered, with the list unless the body was `null` |
| WriterRequests.PanelView | src/components/custom/writer-requests.tsx:111-128 | the panel shows "Error loading requests" exactly when the query failed |
| WriterRequests.StartApproval | src/components/custom/writer-requests.tsx:94-101 | starting an approval disables the request's reject button and captions its approve button `Approving...`, which stays enabled unless a rejection is in progress; other requests' buttons do not change |
| WriterRequests.StartRejection | src/components/custom/writer-requests.tsx:103-109 | starting a rejection disables the request's approve button and captions its reject button `Rejecting...` |
| WriterRequests.FinishReleases | src/components/custom/writer-requests.tsx:75-79 | after a success both buttons of the request are enabled with their plain captions, and other requests' entries stay |
| WriterRequests.Toggled | src/components/custom/writer-requests.tsx:134-136 | toggling expands the card exactly when it was not the expanded one, and expands no other |
| WriterRequests.ToggleTwice | src/components/custom/writer-requests.tsx:134-136 | toggling twice restores no card or that card expanded, and collapses every card when another was expanded |
| WriterRequests.WriterRequestsPanel.constructor | src/components/custom/writer-requests.tsx:55-58 | no card expanded and nothing in progress |
| WriterRequests.WriterRequestsPanel.HandleApprove | src/components/custom/writer-requests.tsx:94-101 | an approval entry is appended, even when one is there |
| WriterRequests.WriterRequestsPanel.HandleReject | src/components/custom/writer-requests.tsx:103-109 | a rejection entry is appended, even when one is there |
| WriterRequests.WriterRequestsPanel.MutationSucceeded | src/components/custom/writer-requests.tsx:75-91 | every entry for the request leaves the processing list |
| WriterRequests.WriterRequestsPanel.ToggleExpand | src/components/custom/writer-requests.tsx:134-136 | the expanded card is toggled |
| Referral.ReduceIsTotal | src/pages/referral/UserReferralAnalytics.tsx:51 | the fold adds the total of the counts to its start value |
| Referral.TotalAppend | src/pages/referral/UserReferralAnalytics.tsx:50-51 | the total of two runs of days is the sum of their totals |
| Referral.TotalNonNegative | src/pages/referral/UserReferralAnalytics.tsx:51 | non-negative counts give a non-negative total |
| Referral.WeeklyIsLastSeven | src/pages/referral/UserReferralAnalytics.tsx:47-52 | the weekly figure is the total of the last seven days, or of all days when there are fewer, i.e. the whole total less the days before the last week |
| Referral.WeeklyBounds | src/pages/referral/UserReferralAnalytics.tsx:47-52 | with non-negative counts the weekly figure lies between 0 and the total |
| Referral.Substring | src/pages/referral/UserReferralAnalytics.tsx:147 | `substring` is never longer than the string |
| Referral.Initials | src/pages/referral/UserReferralAnalytics.tsx:147 | the fallback has two characters, or as many as the name when shorter |
| Referral.InitialsShape | src/pages/referral/UserReferralAnalytics.tsx:147 | the fallback is the first two characters upper-cased, or the whole name when shorter |
| JsText.Trim | src/pages/articles/ArticlesListPage.tsx:256 | `trim()` never grows the string and leaves no white space at either end |
| JsText.TrimEmptyIff | src/pages/profile/ProfilePage.tsx:75 | a string trims to empty exactly when it is all white space, the test behind every blank-input guard |
| JsText.JoinSplit | src/layouts/DashboardLayout.tsx:140-145 | splitting on a separator and joining with it gives the string back |
| JsText.SplitJoin | src/pages/articles/ArticleCreationPage.tsx:268 | joining pieces free of the separator and splitting again gives the pieces back |
| JsText.Without | src/pages/articles/ArticleCreationPage.tsx:148 | `filter(k => k !== x)` removes every `x` and keeps every other element |
| JsText.FilterMembers | src/api/users.ts:49-65 | `filter(p)` keeps exactly the elements satisfying `p` |
| JsText.Slice | src/pages/referral/UserReferralAnalytics.tsx:50 | `slice` has as many elements as lie between its two bounds, each counted from the end when negative and clamped to the length, and none when they cross |
| JsText.SliceWindow | src/api/users.ts:71-75 | `slice(start, start + size)` has at most `size` elements, is cut at the end, and is empty from the end on |
| JsText.IntToStringRoundTrip | src/hooks/useUrlState.tsx:138-155 | `String(i)` of a safe integer is an integer literal with no `.`, that `Number` accepts and `parseInt` reads back as `i` |
| JsText.ParseIntOfLiteral | src/hooks/useUrlState.tsx:154 | `parseInt(s, 10)` of a decimal integer literal is the integer it denotes |
| JsText.DigitRun | src/hooks/useUrlState.tsx:154 | `parseInt` reads the longest run of decimal digits |
| JsText.NotNumericByFirstChar | src/hooks/useUrlState.tsx:151 | a trimmed string starting with no digit, sign, `.` or `I` is not a number to `Number` |
| JsText.Utf16Length | src/pages/profile/ProfilePage.tsx:86 | `.length` counts UTF-16 units: at least one and at most two per character |
| JsText.Utf16LengthCountsUnits | src/pages/profile/ProfilePage.tsx:86 | `.length` is the number of characters exactly when none lies above U+FFFF |
| Api.ApiClient | src/lib/apiClient.ts:37-64 | `apiClient` rejects with an `ApiError` of the status exactly when the status is outside 200-299; otherwise it resolves to `null` for 204 and to the parsed body |
| Api.JsonOfBody | src/lib/apiClient.ts:64 | calling `.json()` on what `apiClient` resolved to throws a `TypeError` |
| Api.OkGuard | src/lib/apiClient.ts:64 | testing `ok` on what `apiClient` resolved to passes only an object with a truthy `ok`, and throws the caller's error for any other object |
| Api.GuardedJson | src/pages/articles/ArticleDetailPage.tsx:74-78 | the `ok` test followed by `.json()` on the parsed body never returns: a failed request keeps its failure, an object without a truthy `ok` throws the caller's message, and any other body a `TypeError`; `fetchPost` (message "Network response was not ok") and the update mutation (src/pages/articles/ArticleDetailPage.tsx:153-157, "Failed to update article") both go through it |

## Left out

- The network and the auth client: `fetch`, the token header and the base URL in `src/lib/apiClient.ts`, and the react-query hooks are I/O. The module Api keeps only what a caller sees of `apiClient`: the status handling and the parsed body it resolves to. Api.DropsToken states when `apiClient` removes the stored token. App.AuthProvider keeps that entry as its `storedToken` field, and App.AuthProvider.CheckAuth removes it on a 401; the other callers of `apiClient` do not hold the entry, so for them the removal is not modelled. Elsewhere the model takes fetched data as parameters and treats a request as the payload it would send.
- `src/pages/moderation/api/mockApi.ts`: a set of delayed constants, not part of this model.
- Timers and asynchrony: the `sleep` in `src/api/users.ts`, the debounced search effects, the copied-flag timeout, the deferred listener removal in `useUrlState.tsx` and FileReader callbacks. A handler's effect is modelled as if it ran at once.
- Loading flags (`isLoading`) are not tracked. As written, the autofill flag of ArticleCreationPage is never reset, because the code that resets it is skipped when src/pages/articles/ArticleCreationPage.tsx:91 throws.
- Toasts (apart from the update toast of ArticleDetailPage), navigation calls (apart from the one after creating an article), the clipboard, `Blob` downloads and all markup and animation carry no state the model tracks.
- `JSON.stringify`/`JSON.parse` in `useUrlState.tsx` are function parameters (`encode`/`decode`). The hook's custom `serialize`/`deserialize` options are not modelled; only the default codecs are.
- UrlState.ParseValue: a value with a decimal point is kept as its literal text (`FloatValue`), since Dafny has no IEEE doubles. An integer beyond 2^53 is kept exact, whereas `parseInt` rounds it to the nearest double.
- JsText.IntToStringRoundTrip and the UrlState round trips (UrlState.ParseStringify, UrlState.DeserializeStringified, UrlState.SerializeRoundTrip, UrlState.ReadAfterWrite) are stated only for integers within ±(2^53 - 1). From 1e21 on, `String(i)` uses exponent form, which `parseInt` reads as its leading digit.
- `parseInt` of the settings form inputs: a non-numeric input gives `NaN`, but the digits-to-number conversion itself is not modelled; `SettingValue` carries whatever the input yields.
- Percentages and averages on the dashboards use floating point and are not part of this model.
- Case mapping (`toUpperCase`/`toLowerCase` in the user search, the breadcrumbs and Referral.Initials) covers ASCII letters only; other characters are left unchanged.
- Referral.Substring, Referral.Initials and Referral.InitialsShape count characters, not UTF-16 units. A display name that starts with a character above U+FFFF keeps only that character in the source, while the model keeps two characters. A lone surrogate cannot be written as a Dafny `char`. Elsewhere lengths that decide behaviour (the formatter's line width and alignment, the password rule) are counted in UTF-16 units with JsText.Utf16Length.
- `new URL(...)` in ArticleCreationPage is not parsed: the hostname is an input of ArticleCreation.ArticleCreationPage.HandleUrlSubmit.
- `parseHtmlAndExtractText` and `updateHtmlWithNewText` in ArticleCreationPage depend entirely on `DOMParser` and are not modelled.
- `URLSearchParams` and `FormData` are sequences of key/value pairs; `URLSearchParams`' percent-encoding is not modelled.
- ArticleDetail.Truthy: a value of kind `Other` (a number, boolean or object) always counts as truthy, so a `0` or `false` content is not told apart. A `category` that is not an array reads as the empty list, whereas the source would spread it.
- ArticleDetail.ArticleDetailPage.RemoveCategory: for a truthy `category` that is not an array, `(unsavedChanges.category || []).filter(...)` (src/pages/articles/ArticleDetailPage.tsx:228) throws a `TypeError` in the source; the model reads the category as the empty list, so the removal sets it to an empty list instead of throwing.
- The order of keys inside the settings objects is not modelled, because a Dafny `map` has none.
- SystemSettings.SystemSettingsPage.constructor: the working copy starts from the query's initial data. A later fetch never refreshes it in the source either, so fetched settings are not modelled.
- The unused local `requests` copy in writer-requests.tsx has no effect and is not modelled.
- `src/hooks/useLocalStorage.tsx` is a wrapper over `window.localStorage` and storage events. The DailyArticles page keeps the stored map as a field instead.
- DailyArticles.DailyArticlesPage.constructor: takes the stored record as a map, as the page writes it within one session. On a reload the source does not parse it: `localStorage.getItem` gives a string, which src/hooks/useLocalStorage.tsx:10-14 returns as it is, so `removedArticles` is that text, `removedArticles[today]` is `undefined`, today's removed list starts empty and the date-change effect clears the record. The model does not capture this loss.
- WriterRequests.FetchRequestsAsWritten: the `catch` of src/components/custom/writer-requests.tsx:46-49 rethrows every failure as a plain `Error` with the same message, or "Failed to fetch requests" for a thrown value that is not an `Error`; the model keeps the failure's own kind (an `ApiError`, a `TypeError` or the thrown message).
- ArticlesList.Filters: `page` and `limit` are integers, because the page writes only integers there; a URL edited by hand to hold other values is not modelled. A `FloatValue` search counts as truthy when a digit from 1 to 9 comes before its exponent, so an underflow to 0 such as `1.0e-400` is not told apart.
- DailyArticles.DailyArticlesPage.DateCheck: today's date is a parameter, not read from the clock.
- The second synchronising effect in DailyArticlesPage (src/pages/articles/DailyArticlesPage.tsx:113-136) is guarded by `articles.length > Infinity`, which never holds, so it is not modelled. The JSON export of the same page is not modelled either.
- Routes that are commented out in `src/App.tsx` are not in the route table.
- The FlaggedContent filters are kept in state, but they do not change what is fetched, so no query is modelled for them.
- The tokenizer in `src/lib/html-formatter.ts` loops forever at a `<` that begins no recognised construct. The model returns `Diverges(at)` there instead of modelling non-termination.
- The `ATTRIBUTE` token kind of the formatter is never produced, so it is not a case of the token datatype. The tag-name and attribute patterns are written as hand-made scanners.
- Render-only or fetch-driven components are not part of this model: Dashboard, ReferralDashboard, Unauthorized, LoadingScreen, LoginPage, the article view pages, UserDialog, ImageUploadPreview, PermissionGuard, UsersListPage and FreelanceArticlesListPage.
- Type-only files under `src/types` shape the datatypes and have no behaviour of their own.
- HtmlFormatter.Merge: an option of another type than the declared one (a string indent, an unknown style name) is not modelled. The numbers are exact reals, so the rounding of `level * indent` in doubles is not modelled.
- AddModerator.BasicSubmitsDefaults: `register(..., { required: true })` keeps the form from submitting while the name, email or password is empty. The model submits whatever was typed.
- App.AuthProvider.Login: a response without a `token` leaves `undefined` in state, and `useLocalStorage` then stores the string "undefined". The model keeps `None` for both.
- FreelanceDetail.FreelanceDetailPage.Fetched: assumes the fetched article has `moderationNotes`. An article without it would make the page read a property of `undefined`.
- UrlState.Serialize and ArticleDetail.PropertiesEntries: keep object keys in insertion order. JavaScript lists integer-like keys first, in ascending order, which the model does not do.
- Users.Merge: a patch field present as `undefined` is treated as absent. The spread in the source would overwrite the field with `undefined`.
- Api.ApiClient: assumes every reply other than a 204 or an error has a JSON body. A success with an empty or non-JSON body would make `response.json()` reject.

Three behaviours of the formatter's code that the model keeps:
- runs of spaces inside a line of text are kept, not collapsed (HtmlFormatterProps.SingleLineKeepsInnerSpaces);
- an unterminated `<` construct makes no progress (`Diverges`, HtmlFormatterProps.UnterminatedTagDiverges);
- the search for `-->` starts at the `<` itself, so `<!-->` is a complete comment.

Sidebar and routes also differ. The sidebar's Articles entry asks for `posts:read`, while the route asks for `articles:read`, and DashboardLayout.ArticlesEntryRedirects proves that the two can disagree.

## Findings

`apiClient` resolves to the parsed JSON body (src/lib/apiClient.ts:64), but five call sites in three files treat that value as a `Response`. They call `.json()` on it, and some first test its `ok`. A parsed body has no `json` method and `null` has no properties, so each of these calls throws whatever the server answered.

| source | as written | input that shows it | evidently intended | confidence | as-written member | corrected member |
|---|---|---|---|---|---|---|
| src/pages/articles/ArticleCreationPage.tsx:91 | `await response.json()` on the parsed article | a 200 answer with any article body | the parsed article fills the form, the URL input is cleared and the form is marked filled | not executed | ArticleCreation.FetchArticleDataAsWritten | ArticleCreation.FetchArticleData |
| src/pages/articles/ArticleCreationPage.tsx:288 | `await response.json()` on the returned id | a 201 answer with the new id | navigate to `/articles/<id>` | not executed | ArticleCreation.ArticleCreationPage.CreateSettledAsWritten | ArticleCreation.ArticleCreationPage.CreateSettled |
| src/pages/articles/ArticleDetailPage.tsx:74-78 | `!response.ok`, then `response.json()`, on the parsed body | a 200 answer whose body has `data` | the fetched article becomes the draft | not executed | Api.GuardedJson | ArticleDetail.FetchPost |
| src/pages/articles/ArticleDetailPage.tsx:153-157 | `!response.ok`, then `response.json()`, on the parsed body | a 200 answer to the update | the success toast, and the chosen file is dropped | not executed | ArticleDetail.ArticleDetailPage.UpdateSettledAsWritten | ArticleDetail.ArticleDetailPage.UpdateSettled |
| src/components/custom/writer-requests.tsx:41-44 | `!response.ok`, then `response.json()`, on the parsed body | a 200 answer with a list of requests | the list is shown, and the empty message for an empty list | not executed | WriterRequests.FetchRequestsAsWritten | WriterRequests.FetchRequests |

ArticleCreation.AutofillLost, ArticleCreation.CreatedArticleLost, ArticleDetail.LoadAndUpdateLost and WriterRequests.PanelAlwaysErrs put each pair side by side on the inputs in the table.
