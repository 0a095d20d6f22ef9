/**
 * The `useUrlState` hook: a state record kept in one search parameter of the
 * page's URL. The record is serialised to name-value pairs, the pairs are
 * written as JSON into the parameter named by the hook's key whenever the
 * state changes, and the state is read back from the URL on load and on
 * browser back/forward navigation.
 *
 * `JSON.stringify` of the pairs and `new URLSearchParams(JSON.parse(text))`
 * are the hook's `encode` and `decode` parameters; `decode` gives `None`
 * where `JSON.parse` throws.
 */
module UrlState {
  import opened JsText

  /** The values a state record may hold in this model. */
  datatype Value =
    | IntValue(i: int)
    | BoolValue(b: bool)
    | StringValue(s: string)
      /** The number `parseFloat(text)` reads, kept as the literal it was read from. */
    | FloatValue(text: string)
      /** The number `NaN`, which `parseInt` gives when no digit leads the text. */
    | NaNValue
    | NullValue
    | UndefinedValue

  /** A state object, as its entries in `Object.entries` order. */
  type Record = seq<(string, Value)>

  /** A `URLSearchParams`, as its name-value pairs in order. */
  type Params = seq<(string, string)>

  predicate HasKey<V>(entries: seq<(string, V)>, name: string) {
    exists i :: 0 <= i < |entries| && entries[i].0 == name
  }

  /** No two entries share a name, as in an object. */
  predicate UniqueKeys<V>(entries: seq<(string, V)>) {
    forall i, j :: 0 <= i < j < |entries| ==> entries[i].0 != entries[j].0
  }

  // ----- URLSearchParams -----

  /** `params.get(name)`: the value of the first pair of that name. */
  function Get(p: Params, name: string): (r: Option<string>)
    ensures r.None? <==> !HasKey(p, name)
  {
    if p == [] then None
    else if p[0].0 == name then Some(p[0].1)
    else
      var r := Get(p[1..], name);
      assert forall i :: 1 <= i < |p| ==> p[i] == p[1..][i - 1];
      r
  }

  /** `params.delete(name)`: every pair of that name goes. */
  function Delete(p: Params, name: string): (r: Params)
    ensures !HasKey(r, name)
    ensures forall other :: other != name ==> Get(r, other) == Get(p, other)
  {
    if p == [] then []
    else if p[0].0 == name then Delete(p[1..], name)
    else
      var rest := Delete(p[1..], name);
      assert forall i :: 1 <= i < |[p[0]] + rest| ==> ([p[0]] + rest)[i] == rest[i - 1];
      [p[0]] + rest
  }

  /** `params.set(name, value)`: the first pair of that name takes the value and the
      others of that name go; with no such pair the pair is appended. */
  function SetParam(p: Params, name: string, value: string): (r: Params)
  {
    if p == [] then [(name, value)]
    else if p[0].0 == name then [(name, value)] + Delete(p[1..], name)
    else [p[0]] + SetParam(p[1..], name, value)
  }

  /** After `set`, `get` of that name gives the value set, and of any other name what it gave before. */
  lemma {:induction false} GetAfterSet(p: Params, name: string, value: string, other: string)
    ensures Get(SetParam(p, name, value), name) == Some(value)
    ensures other != name ==> Get(SetParam(p, name, value), other) == Get(p, other)
  {
    if p != [] && p[0].0 != name {
      GetAfterSet(p[1..], name, value, other);
    }
  }

  /** Setting a name that is not there appends one pair. */
  lemma {:induction false} SetParamAbsent(p: Params, name: string, value: string)
    requires !HasKey(p, name)
    ensures SetParam(p, name, value) == p + [(name, value)]
  {
    if p != [] {
      assert p[0].0 != name;
      assert !HasKey(p[1..], name) by {
        forall i | 0 <= i < |p[1..]| ensures p[1..][i].0 != name {
          assert p[1..][i] == p[i + 1];
        }
      }
      SetParamAbsent(p[1..], name, value);
      assert p == [p[0]] + p[1..];
    }
  }

  // ----- objects -----

  /** `result[name] = value` on an object: an existing entry changes in place, a new one is appended. */
  function Assign(r: Record, name: string, value: Value): Record
  {
    if r == [] then [(name, value)]
    else if r[0].0 == name then [(name, value)] + r[1..]
    else [r[0]] + Assign(r[1..], name, value)
  }

  lemma {:induction false} AssignAbsent(r: Record, name: string, value: Value)
    requires !HasKey(r, name)
    ensures Assign(r, name, value) == r + [(name, value)]
  {
    if r != [] {
      assert r[0].0 != name;
      assert !HasKey(r[1..], name) by {
        forall i | 0 <= i < |r[1..]| ensures r[1..][i].0 != name {
          assert r[1..][i] == r[i + 1];
        }
      }
      AssignAbsent(r[1..], name, value);
      assert r == [r[0]] + r[1..];
    }
  }

  // ----- values as text -----

  /** `v !== null && v !== undefined` */
  predicate Present(v: Value) {
    !v.NullValue? && !v.UndefinedValue?
  }

  /** A digit from 1 to 9 comes before any exponent: the number `parseFloat` reads is not zero. */
  predicate NonZeroMantissa(text: string)
    decreases |text|
  {
    |text| > 0 && text[0] != 'e' && text[0] != 'E' && ('1' <= text[0] <= '9' || NonZeroMantissa(text[1..]))
  }

  /** JavaScript truthiness: `0`, `NaN`, `""`, `false`, `null` and `undefined` are falsy. */
  predicate Truthy(v: Value) {
    match v
    case IntValue(i) => i != 0
    case BoolValue(b) => b
    case StringValue(s) => s != ""
    case FloatValue(text) => NonZeroMantissa(text)
    case NaNValue => false
    case NullValue => false
    case UndefinedValue => false
  }

  /** `String(v)` */
  function Stringify(v: Value): string
    requires Present(v)
  {
    match v
    case IntValue(i) => IntToString(i)
    case BoolValue(b) => if b then "true" else "false"
    case StringValue(s) => s
    case FloatValue(text) => text
    case NaNValue => "NaN"
  }

  /** One value of `defaultDeserialize`: a text `Number` reads as a number goes through
      `parseFloat` when it holds a `.` and through `parseInt(_, 10)` otherwise; then come
      `true` and `false`; anything else stays the string itself. */
  function ParseValue(s: string): (v: Value)
    ensures Present(v)
    ensures v.StringValue? ==> v.s == s
    ensures v.IntValue? ==> ParseInt(s) == Some(v.i)
  {
    if IsNumericString(s) && s != "" then
      if '.' in s then FloatValue(s)
      else
        match ParseInt(s)
        case None => NaNValue
        case Some(n) => IntValue(n)
    else if s == "true" then BoolValue(true)
    else if s == "false" then BoolValue(false)
    else StringValue(s)
  }

  /** A decimal integer literal comes back as that integer. */
  lemma IntegerTextReadsAsInteger(s: string)
    requires IsIntegerLiteral(s)
    ensures ParseValue(s) == IntValue(ParseIntLiteral(s))
  {
    IntegerIsNumeric(s);
    ParseIntOfLiteral(s);
    assert '.' !in s by {
      var body := LiteralBody(s);
      forall k | 0 <= k < |s| ensures s[k] != '.' {
        if |s| > 0 && (s[0] == '-' || s[0] == '+') {
          if k > 0 {
            assert s[k] == body[k - 1];
          }
        } else {
          assert s[k] == body[k];
        }
      }
    }
  }

  /** `1e3` is a decimal literal with an exponent. */
  lemma ExponentIsNumeric()
    ensures IsNumericString("1e3")
  {
    var s := "1e3";
    assert !IsWhitespace(s[0]) && !IsWhitespace(s[|s| - 1]);
    TrimOfTrimmed(s);
    assert LiteralBody(s) == s;
    var m := s[..1];
    var x := s[1..];
    assert m == "1" && AllDigits(m);
    assert IsMantissa(m);
    assert x[1..] == "3" && IsIntegerLiteral(x[1..]);
    assert IsExponentPart(x);
    assert IsUnsignedDecimal(s);
  }

  /** `parseInt("1e3", 10)` reads the digit before the `e`. */
  lemma ExponentParsesAsOne()
    ensures ParseInt("1e3") == Some(1)
  {
    var s := "1e3";
    assert !IsWhitespace(s[0]);
    assert TrimStart(s) == s;
    assert LiteralBody(s) == s;
    assert DigitRun(s[1..]) == 0;
    assert DigitRun(s) == 1;
    assert s[..1] == "1";
    assert DigitsValue("1") == 1 by {
      assert "1"[..0] == [];
    }
  }

  /** `Number` accepts an exponent, but `parseInt` stops at the `e`: `1e3` comes back as 1. */
  lemma ExponentReadsAsLeadingDigits()
    ensures ParseValue("1e3") == IntValue(1)
  {
    ExponentIsNumeric();
    ExponentParsesAsOne();
    assert '.' !in "1e3";
  }

  /** `Number` reads `0x10` as sixteen, but `parseInt(_, 10)` stops at the `x`: it comes back as 0. */
  lemma HexReadsAsZero()
    ensures ParseValue("0x10") == IntValue(0)
  {
    assert IsNumericString("0x10") by {
      TrimOfTrimmed("0x10");
    }
    assert TrimStart("0x10") == "0x10";
    assert DigitRun("0x10") == 1;
    assert "0x10"[..1] == "0";
    assert DigitsValue("0") == 0 by {
      assert "0"[..0] == [];
    }
  }

  /** `Infinity` is a number to `Number` and `NaN` to `parseInt`. */
  lemma InfinityReadsAsNaN()
    ensures ParseValue("Infinity") == NaNValue
  {
    var s := "Infinity";
    assert s[0] == 'I' && !IsWhitespace(s[0]) && !IsWhitespace(s[|s| - 1]);
    TrimOfTrimmed(s);
    assert LiteralBody(s) == s;
    assert IsNumericString(s);
    assert TrimStart(s) == s;
    assert DigitRun(s) == 0;
    assert ParseInt(s) == None;
    assert '.' !in s;
  }

  /** White space alone is 0 to `Number` and `NaN` to `parseInt`. */
  lemma BlankReadsAsNaN()
    ensures ParseValue("  ") == NaNValue
  {
    assert Trim("  ") == [] by {
      TrimEmptyIff("  ");
    }
    assert TrimStart("  ") == [];
  }

  /** A value that comes back as itself through the URL: safe integers, booleans, and strings
      that `defaultDeserialize` reads neither as a number nor as a boolean. */
  predicate RoundTrips(v: Value) {
    (v.IntValue? && -MaxSafeInteger <= v.i <= MaxSafeInteger) || v.BoolValue? ||
    (v.StringValue? && (v.s == "" || !IsNumericString(v.s)) && v.s != "true" && v.s != "false")
  }

  lemma ParseStringify(v: Value)
    requires RoundTrips(v)
    ensures ParseValue(Stringify(v)) == v
  {
    match v
    case IntValue(i) =>
      IntToStringRoundTrip(i);
    case BoolValue(b) =>
      NotNumericByFirstChar(if b then "true" else "false");
    case StringValue(s) =>
  }

  // ----- defaultSerialize and defaultDeserialize -----

  /** The pairs `defaultSerialize` sets, entry by entry. */
  function Serialized(state: Record): Params
    decreases |state|
  {
    if state == [] then []
    else
      var (k, v) := state[|state| - 1];
      var p := Serialized(state[..|state| - 1]);
      if Present(v) then SetParam(p, k, Stringify(v)) else p
  }

  /** The record `defaultDeserialize` assigns, pair by pair. */
  function Deserialized(p: Params): Record
    decreases |p|
  {
    if p == [] then []
    else Assign(Deserialized(p[..|p| - 1]), p[|p| - 1].0, ParseValue(p[|p| - 1].1))
  }

  /** The entries whose value is neither `null` nor `undefined`, in order. */
  function Dropped(state: Record): (r: Record)
    decreases |state|
  {
    if state == [] then []
    else
      var rest := Dropped(state[..|state| - 1]);
      if Present(state[|state| - 1].1) then rest + [state[|state| - 1]] else rest
  }

  /** The present entries with their values as text. */
  function Stringified(state: Record): Params
    decreases |state|
  {
    if state == [] then []
    else
      var (k, v) := state[|state| - 1];
      var rest := Stringified(state[..|state| - 1]);
      if Present(v) then rest + [(k, Stringify(v))] else rest
  }

  lemma {:induction false} StringifiedKeys(state: Record, name: string)
    requires HasKey(Stringified(state), name)
    ensures HasKey(state, name)
    decreases |state|
  {
    if state != [] {
      var init := state[..|state| - 1];
      var rest := Stringified(init);
      if HasKey(rest, name) {
        StringifiedKeys(init, name);
        var i :| 0 <= i < |init| && init[i].0 == name;
        assert state[i] == init[i];
      } else {
        assert state[|state| - 1].0 == name;
      }
    }
  }

  lemma {:induction false} DeserializedKeys(p: Params, name: string)
    requires HasKey(Deserialized(p), name)
    ensures HasKey(p, name)
    decreases |p|
  {
    if p != [] {
      var init := p[..|p| - 1];
      var (k, s) := p[|p| - 1];
      if k != name {
        AssignKeys(Deserialized(init), k, ParseValue(s), name);
        DeserializedKeys(init, name);
        var i :| 0 <= i < |init| && init[i].0 == name;
        assert p[i] == init[i];
      }
    }
  }

  lemma {:induction false} AssignKeys(r: Record, k: string, v: Value, name: string)
    requires HasKey(Assign(r, k, v), name) && name != k
    ensures HasKey(r, name)
  {
    if r != [] && r[0].0 != k {
      var rest := Assign(r[1..], k, v);
      var i :| 0 <= i < |[r[0]] + rest| && ([r[0]] + rest)[i].0 == name;
      if i > 0 {
        assert rest[i - 1].0 == name;
        AssignKeys(r[1..], k, v, name);
        var j :| 0 <= j < |r[1..]| && r[1..][j].0 == name;
        assert r[j + 1] == r[1..][j];
      }
    } else if r != [] {
      var i :| 0 <= i < |Assign(r, k, v)| && Assign(r, k, v)[i].0 == name;
      assert i > 0 && r[i].0 == name;
    }
  }

  lemma PrefixUnique<V>(entries: seq<(string, V)>)
    requires UniqueKeys(entries) && entries != []
    ensures UniqueKeys(entries[..|entries| - 1])
    ensures !HasKey(entries[..|entries| - 1], entries[|entries| - 1].0)
  {
    var init := entries[..|entries| - 1];
    forall i | 0 <= i < |init| ensures init[i].0 != entries[|entries| - 1].0 {
      assert init[i] == entries[i];
    }
  }

  /** With distinct names, `defaultSerialize` appends one pair per present entry. */
  lemma {:induction false} SerializedUnique(state: Record)
    requires UniqueKeys(state)
    ensures Serialized(state) == Stringified(state)
    decreases |state|
  {
    if state != [] {
      var init := state[..|state| - 1];
      var (k, v) := state[|state| - 1];
      PrefixUnique(state);
      SerializedUnique(init);
      if Present(v) {
        if HasKey(Stringified(init), k) {
          StringifiedKeys(init, k);
        }
        SetParamAbsent(Stringified(init), k, Stringify(v));
      }
    }
  }

  /** Reading back the pairs of a record whose present values all round-trip gives
      the record without its `null`/`undefined` entries. */
  lemma {:induction false} DeserializeStringified(state: Record)
    requires UniqueKeys(state)
    requires forall i :: 0 <= i < |state| && Present(state[i].1) ==> RoundTrips(state[i].1)
    ensures Deserialized(Stringified(state)) == Dropped(state)
    decreases |state|
  {
    if state != [] {
      var init := state[..|state| - 1];
      var (k, v) := state[|state| - 1];
      PrefixUnique(state);
      assert forall i :: 0 <= i < |init| ==> init[i] == state[i];
      DeserializeStringified(init);
      if Present(v) {
        var p := Stringified(init);
        var q := p + [(k, Stringify(v))];
        assert q[..|q| - 1] == p;
        ParseStringify(v);
        if HasKey(Deserialized(p), k) {
          DeserializedKeys(p, k);
          StringifiedKeys(init, k);
        }
        AssignAbsent(Deserialized(p), k, v);
      }
    }
  }

  /** `defaultDeserialize(defaultSerialize(state))` is the state without its `null`/`undefined`
      entries, when its present values are integers, booleans, or strings not read as those. */
  lemma SerializeRoundTrip(state: Record)
    requires UniqueKeys(state)
    requires forall i :: 0 <= i < |state| && Present(state[i].1) ==> RoundTrips(state[i].1)
    ensures Deserialized(Serialized(state)) == Dropped(state)
  {
    SerializedUnique(state);
    DeserializeStringified(state);
  }

  /** A numeric-looking string does not come back as a string. */
  lemma NumericStringComesBackAsNumber()
    ensures Deserialized(Serialized([("page", StringValue("42"))])) == [("page", IntValue(42))]
  {
    var state := [("page", StringValue("42"))];
    assert state[..0] == [];
    assert Serialized(state) == [("page", "42")];
    var p := [("page", "42")];
    assert p[..0] == [];
    assert IsIntegerLiteral("42") && LiteralBody("42") == "42";
    assert "42"[..1] == "4";
    assert DigitsValue("42") == 42;
    IntegerTextReadsAsInteger("42");
  }

  /** `defaultSerialize(state)` */
  method Serialize(state: Record) returns (params: Params)
    ensures params == Serialized(state)
  {
    params := [];
    var i := 0;
    while i < |state|
      invariant i <= |state|
      invariant params == Serialized(state[..i])
    {
      var (k, v) := state[i];
      assert state[..i + 1][..i] == state[..i];
      if Present(v) {
        params := SetParam(params, k, Stringify(v));
      }
      i := i + 1;
    }
    assert state[..|state|] == state;
  }

  /** `defaultDeserialize(params)` */
  method Deserialize(params: Params) returns (result: Record)
    ensures result == Deserialized(params)
  {
    result := [];
    var i := 0;
    while i < |params|
      invariant i <= |params|
      invariant result == Deserialized(params[..i])
    {
      var (key, value) := params[i];
      assert params[..i + 1][..i] == params[..i];
      result := Assign(result, key, ParseValue(value));
      i := i + 1;
    }
    assert params[..|params|] == params;
  }

  // ----- the hook -----

  /** The state read from a URL whose search parameters are `search`, as `getInitialState`
      and the popstate handler compute it: the default when the parameter is absent, empty
      or does not decode, and otherwise the decoded pairs deserialised, with no merge. */
  function FromUrl(search: Params, key: string, defaultState: Record, decode: string -> Option<Params>): Record
  {
    match Get(search, key)
    case None => defaultState
    case Some(text) =>
      if text == "" then defaultState
      else
        match decode(text)
        case None => defaultState
        case Some(p) => Deserialized(p)
  }

  /** The search parameters the URL-write effect leaves: unchanged when the parameter already
      holds the encoded pairs, without the parameter for a state with no keys, and with the
      parameter set to the encoded pairs otherwise. */
  function Written(search: Params, key: string, state: Record, encode: Params -> string): Params
  {
    var newParam := encode(Serialized(state));
    if Get(search, key) == Some(newParam) then search
    else if |state| == 0 then Delete(search, key)
    else SetParam(search, key, newParam)
  }

  /** Whether the URL-write effect changes the URL at all. */
  predicate WriteNeeded(search: Params, key: string, state: Record, encode: Params -> string) {
    Get(search, key) != Some(encode(Serialized(state)))
  }

  /** After the URL has been written, reading it back gives the state without its
      `null`/`undefined` entries, provided its values round-trip and `decode` inverts `encode`. */
  lemma ReadAfterWrite(search: Params, key: string, state: Record, defaultState: Record,
                       encode: Params -> string, decode: string -> Option<Params>)
    requires UniqueKeys(state) && |state| > 0
    requires forall i :: 0 <= i < |state| && Present(state[i].1) ==> RoundTrips(state[i].1)
    requires var p := Serialized(state); encode(p) != "" && decode(encode(p)) == Some(p)
    ensures FromUrl(Written(search, key, state, encode), key, defaultState, decode) == Dropped(state)
  {
    var newParam := encode(Serialized(state));
    GetAfterSet(search, key, newParam, key);
    SerializeRoundTrip(state);
  }

  /** A state with no keys removes the parameter, so reading back gives the default,
      unless the parameter already held the encoding of no pairs. */
  lemma EmptyStateReadsDefault(search: Params, key: string, defaultState: Record,
                               encode: Params -> string, decode: string -> Option<Params>)
    requires WriteNeeded(search, key, [], encode)
    ensures FromUrl(Written(search, key, [], encode), key, defaultState, decode) == defaultState
  {
  }

  /** The write touches no other parameter. */
  lemma WriteKeepsOtherParams(search: Params, key: string, state: Record, encode: Params -> string, other: string)
    requires other != key
    ensures Get(Written(search, key, state, encode), other) == Get(search, other)
  {
    GetAfterSet(search, key, encode(Serialized(state)), other);
  }

  /** A second write of the same state is not needed. */
  lemma WriteSettles(search: Params, key: string, state: Record, encode: Params -> string)
    requires |state| > 0
    ensures !WriteNeeded(Written(search, key, state, encode), key, state, encode)
  {
    GetAfterSet(search, key, encode(Serialized(state)), key);
  }

  /** The URL never adds to the defaults: a name of the default state that the URL's pairs lack
      is missing from the state read. */
  lemma NoMergeWithDefaults(search: Params, key: string, defaultState: Record,
                            decode: string -> Option<Params>, text: string, p: Params, name: string)
    requires Get(search, key) == Some(text) && text != "" && decode(text) == Some(p)
    requires !HasKey(p, name)
    ensures !HasKey(FromUrl(search, key, defaultState, decode), name)
  {
    if HasKey(Deserialized(p), name) {
      DeserializedKeys(p, name);
    }
  }

  /** `setUrlState`'s argument: a new state, or a function of the previous one. */
  datatype Update = Replace(next: Record) | Apply(f: Record -> Record)

  /** The state after `setUrlState(u)`. */
  function Updated(prev: Record, u: Update): Record {
    match u
    case Replace(next) => next
    case Apply(f) => f(prev)
  }

  /** The hook's state and the browser's session history it writes to; each history entry
      is reduced to its search parameters. */
  class UrlStateHook {
    const key: string
    const defaultState: Record
    const pushToHistory: bool
    const encode: Params -> string
    const decode: string -> Option<Params>
    var state: Record
    var entries: seq<Params>
    var current: nat

    ghost predicate Valid()
      reads this
    {
      current < |entries|
    }

    /** The search parameters of the current history entry. */
    function Search(): Params
      reads this
      requires Valid()
    {
      entries[current]
    }

    /** The hook mounted on the history entry `current`: the state starts from the URL. */
    constructor(key: string, defaultState: Record, pushToHistory: bool,
                encode: Params -> string, decode: string -> Option<Params>,
                entries: seq<Params>, current: nat)
      requires current < |entries|
      ensures Valid()
      ensures this.key == key && this.defaultState == defaultState && this.pushToHistory == pushToHistory
      ensures this.encode == encode && this.decode == decode
      ensures this.entries == entries && this.current == current
      ensures state == FromUrl(entries[current], key, defaultState, decode)
    {
      this.key := key;
      this.defaultState := defaultState;
      this.pushToHistory := pushToHistory;
      this.encode := encode;
      this.decode := decode;
      this.entries := entries;
      this.current := current;
      state := FromUrl(entries[current], key, defaultState, decode);
    }

    /** The URL-write effect: nothing when the parameter already holds the state, otherwise
        the written parameters as a new history entry (`pushState`, dropping any forward
        entries) or in place of the current one (`replaceState`). */
    method WriteUrl()
      requires Valid()
      modifies this
      ensures Valid() && state == old(state)
      ensures var w := Written(old(Search()), key, state, encode);
        if !WriteNeeded(old(Search()), key, state, encode) then
          entries == old(entries) && current == old(current)
        else if pushToHistory then
          entries == old(entries[..current + 1]) + [w] && current == old(current) + 1
        else
          entries == old(entries)[old(current) := w] && current == old(current)
    {
      var search := entries[current];
      var serialized := Serialize(state);
      var currentParam := Get(search, key);
      var newParam := encode(serialized);
      if currentParam == Some(newParam) {
        return;
      }
      if |state| == 0 {
        search := Delete(search, key);
      } else {
        search := SetParam(search, key, newParam);
      }
      if pushToHistory {
        entries := entries[..current + 1] + [search];
        current := current + 1;
      } else {
        entries := entries[current := search];
      }
    }

    /** Back/forward navigation to history entry `to`: the popstate handler reads the state
        from that entry's URL. */
    method PopState(to: nat)
      requires Valid() && to < |entries|
      modifies this
      ensures Valid() && entries == old(entries) && current == to
      ensures state == FromUrl(entries[to], key, defaultState, decode)
    {
      current := to;
      var search := entries[current];
      var stateParam := Get(search, key);
      if stateParam.None? || stateParam.value == "" {
        state := defaultState;
        return;
      }
      var parsed := decode(stateParam.value);
      if parsed.None? {
        state := defaultState;
      } else {
        state := Deserialize(parsed.value);
      }
    }

    /** `setUrlState(u)` */
    method SetUrlState(u: Update)
      modifies this
      ensures state == Updated(old(state), u)
      ensures entries == old(entries) && current == old(current)
    {
      match u
      case Replace(next) => state := next;
      case Apply(f) => state := f(state);
    }
  }
}
