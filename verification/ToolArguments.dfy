/**
 The hand-written reader of tool-call arguments, used when the JSON library gives up: one
 pass over the characters of a flat object, and exactly what it makes of a printed one.
 */
module ToolArguments {
  import opened Wrappers

  /** Numbers keep their spelling; which spellings are numbers is a parameter. */
  datatype Value = Text(text: string) | Flag(on: bool) | Null | Number(spelling: string)

  // ----- Strings -----

  /** The characters that stripping removes. */
  predicate Space(c: char) {
    var n := c as int;
    9 <= n <= 13 || 28 <= n <= 32 || n == 133 || n == 160 || n == 5760 || 8192 <= n <= 8202
    || n == 8232 || n == 8233 || n == 8239 || n == 8287 || n == 12288
  }

  predicate Quote(c: char) {
    c == '"'
  }

  function TrimLeft(s: string, p: char -> bool): string {
    if s != "" && p(s[0]) then TrimLeft(s[1..], p) else s
  }

  function TrimRight(s: string, p: char -> bool): string {
    if s != "" && p(s[|s| - 1]) then TrimRight(s[..|s| - 1], p) else s
  }

  function Trim(s: string, p: char -> bool): string {
    TrimRight(TrimLeft(s, p), p)
  }

  predicate All(s: string, p: char -> bool) {
    forall i | 0 <= i < |s| :: p(s[i])
  }

  /** Neither end of `s` would be trimmed. */
  predicate Trimmed(s: string, p: char -> bool) {
    s != "" ==> !p(s[0]) && !p(s[|s| - 1])
  }

  lemma {:induction false} TrimLeftSkips(a: string, b: string, p: char -> bool)
    requires All(a, p) && (b != "" ==> !p(b[0]))
    ensures TrimLeft(a + b, p) == b
  {
    if a == "" {
      assert a + b == b;
    } else {
      assert (a + b)[1..] == a[1..] + b;
      TrimLeftSkips(a[1..], b, p);
    }
  }

  lemma {:induction false} TrimRightSkips(a: string, b: string, p: char -> bool)
    requires All(b, p) && (a != "" ==> !p(a[|a| - 1]))
    ensures TrimRight(a + b, p) == a
    decreases |b|
  {
    if b == "" {
      assert a + b == a;
    } else {
      assert (a + b)[..|a + b| - 1] == a + b[..|b| - 1];
      TrimRightSkips(a, b[..|b| - 1], p);
    }
  }

  lemma TrimFinds(a: string, b: string, c: string, p: char -> bool)
    requires All(a, p) && All(c, p) && b != "" && Trimmed(b, p)
    ensures Trim(a + b + c, p) == b
  {
    assert a + b + c == a + (b + c);
    TrimLeftSkips(a, b + c, p);
    TrimRightSkips(b, c, p);
  }

  /** A quote is written as backslash and quote. */
  function EscapeChar(c: char): string {
    if c == '"' then ['\\', '"'] else [c]
  }

  function Escape(s: string): string {
    if s == "" then "" else EscapeChar(s[0]) + Escape(s[1..])
  }

  /** Every backslash before a quote dropped, from the left. */
  function Unescape(s: string): string {
    if |s| < 2 then s
    else if s[0] == '\\' && s[1] == '"' then "\"" + Unescape(s[2..])
    else [s[0]] + Unescape(s[1..])
  }

  lemma {:induction false} UnescapeInvertsEscape(s: string)
    requires '\\' !in s
    ensures Unescape(Escape(s)) == s
  {
    if s != "" {
      UnescapeInvertsEscape(s[1..]);
      var rest := Escape(s[1..]);
      if s[0] == '"' {
        assert Escape(s)[2..] == rest;
      } else {
        assert Escape(s)[1..] == rest;
      }
    }
  }

  // ----- The reader -----

  /** The variables of the loop. */
  datatype Scan = Scan(
    key: Option<string>, value: string, inString: bool, escapeNext: bool, depth: int, result: map<string, Value>)

  const Start := Scan(None, "", false, false, 0, map[])

  predicate Quoted(s: string) {
    s != "" && s[0] == '"' && s[|s| - 1] == '"'
  }

  function Unquote(s: string): string
    requires Quoted(s)
  {
    Unescape(if |s| == 1 then "" else s[1..|s| - 1])
  }

  /** A value followed by a comma. */
  function Convert(numeric: string -> bool, value: string): Value {
    var s := Trim(value, Space);
    if Quoted(s) then Text(Unquote(s)) else ConvertWord(numeric, s)
  }

  function ConvertWord(numeric: string -> bool, s: string): Value {
    if s == "true" then Flag(true)
    else if s == "false" then Flag(false)
    else if s == "null" then Null
    else if numeric(s) then Number(s)
    else Text(s)
  }

  /** The value the text ends with. */
  function ConvertLast(value: string): Value {
    var s := Trim(value, Space);
    Text(if Quoted(s) then Unquote(s) else s)
  }

  /** One character. An unquoted brace is appended twice. */
  function Feed(numeric: string -> bool, st: Scan, c: char): Scan {
    if st.escapeNext then st.(value := st.value + [c], escapeNext := false)
    else if c == '\\' then st.(value := st.value + [c], escapeNext := true)
    else if c == '"' then st.(value := st.value + [c], inString := !st.inString)
    else if st.inString then st.(value := st.value + [c])
    else if c == '{' then st.(value := st.value + [c, c], depth := st.depth + 1)
    else if c == '}' then st.(value := st.value + [c, c], depth := st.depth - 1)
    else if c == ':' && st.depth == 0 && st.key.None? then
      st.(key := Some(Trim(Trim(st.value, Space), Quote)), value := "")
    else if c == ',' && st.depth == 0 && st.key.Some? then
      st.(result := st.result[st.key.value := Convert(numeric, st.value)], key := None, value := "")
    else st.(value := st.value + [c])
  }

  function FeedAll(numeric: string -> bool, st: Scan, s: string): Scan
    decreases |s|
  {
    if s == "" then st else FeedAll(numeric, Feed(numeric, st, s[0]), s[1..])
  }

  function Content(arguments: string): string {
    var s := Trim(arguments, Space);
    if |s| >= 2 && s[0] == '{' && s[|s| - 1] == '}' then Trim(s[1..|s| - 1], Space) else s
  }

  function Finish(st: Scan): map<string, Value> {
    if st.key.Some? then st.result[st.key.value := ConvertLast(st.value)] else st.result
  }

  /** None when nothing was found, which the caller raises as an error. */
  function Parse(numeric: string -> bool, arguments: string): Option<map<string, Value>> {
    var result := Finish(FeedAll(numeric, Start, Content(arguments)));
    if result == map[] then None else Some(result)
  }

  method ParseToolArguments(numeric: string -> bool, arguments: string) returns (r: Option<map<string, Value>>)
    ensures r == Parse(numeric, arguments)
  {
    var content := Trim(arguments, Space);
    if |content| >= 2 && content[0] == '{' && content[|content| - 1] == '}' {
      content := Trim(content[1..|content| - 1], Space);
    }
    var result: map<string, Value> := map[];
    var currentKey: Option<string> := None;
    var currentValue, inString, escapeNext, depth := "", false, false, 0;
    var i := 0;
    while i < |content|
      invariant 0 <= i <= |content|
      invariant FeedAll(numeric, Scan(currentKey, currentValue, inString, escapeNext, depth, result), content[i..])
                == FeedAll(numeric, Start, content)
    {
      var c := content[i];
      ghost var st := Scan(currentKey, currentValue, inString, escapeNext, depth, result);
      assert content[i..][0] == c && content[i..][1..] == content[i + 1..];
      i := i + 1;
      if escapeNext {
        currentValue, escapeNext := currentValue + [c], false;
        continue;
      }
      if c == '\\' {
        currentValue, escapeNext := currentValue + [c], true;
        continue;
      }
      if c == '"' {
        currentValue, inString := currentValue + [c], !inString;
        continue;
      }
      if !inString {
        if c == '{' {
          depth, currentValue := depth + 1, currentValue + [c];
        } else if c == '}' {
          depth, currentValue := depth - 1, currentValue + [c];
        } else if c == ':' && depth == 0 && currentKey.None? {
          currentKey, currentValue := Some(Trim(Trim(currentValue, Space), Quote)), "";
          continue;
        } else if c == ',' && depth == 0 && currentKey.Some? {
          result := result[currentKey.value := Convert(numeric, currentValue)];
          currentKey, currentValue := None, "";
          continue;
        }
      }
      currentValue := currentValue + [c];
      assert currentValue == Feed(numeric, st, c).value;
    }
    if currentKey.Some? {
      result := result[currentKey.value := ConvertLast(currentValue)];
    }
    r := if result == map[] then None else Some(result);
  }

  // ----- The printer -----

  datatype Literal = Str(text: string) | Bare(word: string)

  /** A key and a value, with the spaces around them. */
  datatype Pair = Pair(key: string, literal: Literal, beforeKey: string, afterKey: string, beforeValue: string, afterValue: string)

  function PrintLiteral(x: Literal): string {
    match x
    case Str(text) => ['"'] + Escape(text) + ['"']
    case Bare(word) => word
  }

  function PrintKey(p: Pair): string {
    p.beforeKey + (['"'] + p.key + ['"']) + p.afterKey
  }

  function PrintPair(p: Pair): string {
    PrintKey(p) + [':'] + (p.beforeValue + PrintLiteral(p.literal) + p.afterValue)
  }

  function PrintPairs(ps: seq<Pair>): string
    requires ps != []
  {
    if |ps| == 1 then PrintPair(ps[0]) else PrintPair(ps[0]) + [','] + PrintPairs(ps[1..])
  }

  function PrintObject(ps: seq<Pair>, left: string, right: string): string
    requires ps != []
  {
    left + ("{" + PrintPairs(ps) + "}") + right
  }

  /**
   Keys without quotes or backslashes, strings without backslashes, and words: anything else,
   nested objects with keys and strings of their own included, that the reader does not split.
   */
  predicate WellFormed(p: Pair) {
    && '"' !in p.key && '\\' !in p.key
    && All(p.beforeKey, Space) && All(p.afterKey, Space) && All(p.beforeValue, Space) && All(p.afterValue, Space)
    && match p.literal
       case Str(text) => '\\' !in text
       case Bare(word) => PlainWord(word)
  }

  predicate PlainWord(word: string) {
    word != "" && Trimmed(word, Space) && word[0] != '"' && Unsplit(word, Outside) && After(word, Outside) == Outside
  }

  /** Where the reader is in a word: in a string, after a backslash, and how deep in braces. */
  datatype Place = Place(inString: bool, escapeNext: bool, depth: int)

  const Outside := Place(false, false, 0)

  function Step(c: char, m: Place): Place {
    if m.escapeNext then m.(escapeNext := false)
    else if c == '\\' then m.(escapeNext := true)
    else if c == '"' then m.(inString := !m.inString)
    else if m.inString then m
    else if c == '{' then m.(depth := m.depth + 1)
    else if c == '}' then m.(depth := m.depth - 1)
    else m
  }

  function After(s: string, m: Place): Place
    decreases |s|
  {
    if s == "" then m else After(s[1..], Step(s[0], m))
  }

  predicate Bracing(c: char, m: Place) {
    (c == '{' || c == '}') && !m.inString && !m.escapeNext
  }

  /** Every comma is in a string, after a backslash or inside braces. */
  predicate Unsplit(s: string, m: Place)
    decreases |s|
  {
    s == "" || (!(s[0] == ',' && !m.inString && !m.escapeNext && m.depth == 0) && Unsplit(s[1..], Step(s[0], m)))
  }

  /** No brace outside strings. */
  predicate Unbraced(s: string, m: Place)
    decreases |s|
  {
    s == "" || (!Bracing(s[0], m) && Unbraced(s[1..], Step(s[0], m)))
  }

  /** Every brace outside strings twice. */
  function Echo(s: string, m: Place): string
    decreases |s|
  {
    if s == "" then ""
    else (if Bracing(s[0], m) then [s[0], s[0]] else [s[0]]) + Echo(s[1..], Step(s[0], m))
  }

  function Doubled(word: string): string {
    Echo(word, Outside)
  }

  lemma {:induction false} EchoIsIdentity(s: string, m: Place)
    ensures |Echo(s, m)| >= |s|
    ensures Echo(s, m) == s <==> Unbraced(s, m)
    decreases |s|
  {
    if s != "" {
      EchoIsIdentity(s[1..], Step(s[0], m));
      assert s == [s[0]] + s[1..];
      if Bracing(s[0], m) {
        assert |Echo(s, m)| > |s|;
      } else {
        assert Echo(s, m)[1..] == Echo(s[1..], Step(s[0], m));
      }
    }
  }

  predicate HasBrace(s: string) {
    '{' in s || '}' in s
  }

  lemma {:induction false} EchoHasBrace(s: string, m: Place)
    requires !Unbraced(s, m)
    ensures HasBrace(s) && HasBrace(Echo(s, m))
    decreases |s|
  {
    var head, tail := if Bracing(s[0], m) then [s[0], s[0]] else [s[0]], Echo(s[1..], Step(s[0], m));
    assert Echo(s, m) == head + tail && s[0] in s;
    if Bracing(s[0], m) {
      assert Echo(s, m)[0] == s[0] && Echo(s, m)[0] in Echo(s, m);
    } else {
      EchoHasBrace(s[1..], Step(s[0], m));
      assert forall c | c in tail :: c in head + tail;
      assert forall c | c in s[1..] :: c in s;
    }
  }

  // ----- What the reader makes of a printed object -----

  function Read(numeric: string -> bool, x: Literal): Value {
    match x
    case Str(text) => Text(text)
    case Bare(word) => ConvertWord(numeric, Doubled(word))
  }

  function ReadLast(x: Literal): Value {
    match x
    case Str(text) => Text(text)
    case Bare(word) => Text(Doubled(word))
  }

  function ReadInit(numeric: string -> bool, ps: seq<Pair>, result: map<string, Value>): map<string, Value> {
    if ps == [] then result else ReadInit(numeric, ps[1..], result[ps[0].key := Read(numeric, ps[0].literal)])
  }

  function ReadFrom(numeric: string -> bool, ps: seq<Pair>, result: map<string, Value>): map<string, Value>
    requires ps != []
  {
    var last := ps[|ps| - 1];
    ReadInit(numeric, ps[..|ps| - 1], result)[last.key := ReadLast(last.literal)]
  }

  function ReadAll(numeric: string -> bool, ps: seq<Pair>): map<string, Value>
    requires ps != []
  {
    ReadFrom(numeric, ps, map[])
  }

  lemma ReadOn(numeric: string -> bool, ps: seq<Pair>, result: map<string, Value>)
    requires |ps| > 1
    ensures ReadFrom(numeric, ps, result) == ReadFrom(numeric, ps[1..], result[ps[0].key := Read(numeric, ps[0].literal)])
  {
    assert ps[..|ps| - 1][0] == ps[0] && ps[..|ps| - 1][1..] == ps[1..][..|ps[1..]| - 1];
  }

  lemma {:induction false} FeedConcat(numeric: string -> bool, st: Scan, a: string, b: string)
    ensures FeedAll(numeric, st, a + b) == FeedAll(numeric, FeedAll(numeric, st, a), b)
    decreases |a|
  {
    if a == "" {
      assert a + b == b;
    } else {
      assert (a + b)[1..] == a[1..] + b;
      FeedConcat(numeric, Feed(numeric, st, a[0]), a[1..], b);
    }
  }

  lemma FeedOne(numeric: string -> bool, st: Scan, c: char)
    ensures FeedAll(numeric, st, [c]) == Feed(numeric, st, c)
  {
    assert [c][1..] == "";
  }

  /** The scan with `text` appended to the current value. */
  function Put(st: Scan, text: string): Scan {
    st.(value := st.value + text)
  }

  lemma PutNothing(st: Scan)
    ensures Put(st, "") == st
  {
    assert st.value + "" == st.value;
  }

  lemma FeedBoth(numeric: string -> bool, st: Scan, a: string, b: string)
    requires FeedAll(numeric, st, a) == Put(st, a) && FeedAll(numeric, Put(st, a), b) == Put(Put(st, a), b)
    ensures FeedAll(numeric, st, a + b) == Put(st, a + b)
  {
    FeedConcat(numeric, st, a, b);
    Regroup(st.value, a, b);
  }

  lemma Regroup(a: string, b: string, c: string)
    ensures (a + b) + c == a + (b + c)
  {
  }

  lemma {:induction false} FeedSpaces(numeric: string -> bool, st: Scan, s: string)
    requires All(s, Space) && !st.inString && !st.escapeNext
    ensures FeedAll(numeric, st, s) == Put(st, s)
    decreases |s|
  {
    if s == "" {
      PutNothing(st);
    } else {
      FeedOne(numeric, st, s[0]);
      FeedSpaces(numeric, Put(st, [s[0]]), s[1..]);
      FeedBoth(numeric, st, [s[0]], s[1..]);
      assert [s[0]] + s[1..] == s;
    }
  }

  lemma {:induction false} FeedInside(numeric: string -> bool, st: Scan, s: string)
    requires '\\' !in s && st.inString && !st.escapeNext
    ensures FeedAll(numeric, st, Escape(s)) == Put(st, Escape(s))
    decreases |s|
  {
    if s == "" {
      PutNothing(st);
    } else {
      FeedInsideOne(numeric, st, s[0]);
      FeedInside(numeric, Put(st, EscapeChar(s[0])), s[1..]);
      FeedBoth(numeric, st, EscapeChar(s[0]), Escape(s[1..]));
    }
  }

  lemma FeedInsideOne(numeric: string -> bool, st: Scan, c: char)
    requires c != '\\' && st.inString && !st.escapeNext
    ensures FeedAll(numeric, st, EscapeChar(c)) == Put(st, EscapeChar(c))
  {
    if c == '"' {
      var st1 := Feed(numeric, st, '\\');
      FeedConcat(numeric, st, ['\\'], ['"']);
      FeedOne(numeric, st, '\\');
      FeedOne(numeric, st1, '"');
      assert ['\\'] + ['"'] == EscapeChar(c);
      assert st.value + ['\\'] + ['"'] == st.value + EscapeChar(c);
    } else {
      FeedOne(numeric, st, c);
    }
  }

  lemma FeedOpen(numeric: string -> bool, st: Scan, text: string)
    requires !st.inString && !st.escapeNext
    requires var inside := Put(st, ['"']).(inString := true); FeedAll(numeric, inside, text) == Put(inside, text)
    ensures FeedAll(numeric, st, ['"'] + text) == Put(st, ['"'] + text).(inString := true)
  {
    FeedConcat(numeric, st, ['"'], text);
    FeedOne(numeric, st, '"');
    assert st.value + ['"'] + text == st.value + (['"'] + text);
  }

  lemma FeedClose(numeric: string -> bool, st: Scan, text: string)
    requires !st.inString && !st.escapeNext
    requires FeedAll(numeric, st, text) == Put(st, text).(inString := true)
    ensures FeedAll(numeric, st, text + ['"']) == Put(st, text + ['"'])
  {
    FeedConcat(numeric, st, text, ['"']);
    FeedOne(numeric, Put(st, text).(inString := true), '"');
    assert st.value + text + ['"'] == st.value + (text + ['"']);
  }

  lemma {:induction false} FeedQuoted(numeric: string -> bool, st: Scan, s: string)
    requires '\\' !in s && !st.inString && !st.escapeNext
    ensures FeedAll(numeric, st, ['"'] + Escape(s) + ['"']) == Put(st, ['"'] + Escape(s) + ['"'])
  {
    FeedInside(numeric, Put(st, ['"']).(inString := true), s);
    FeedOpen(numeric, st, Escape(s));
    FeedClose(numeric, st, ['"'] + Escape(s));
  }

  lemma {:induction false} EscapePlain(s: string)
    requires '"' !in s
    ensures Escape(s) == s
  {
    if s != "" {
      EscapePlain(s[1..]);
    }
  }

  lemma {:induction false} FeedWord(numeric: string -> bool, st: Scan, s: string)
    requires st.key.Some? && Unsplit(s, PlaceOf(st))
    ensures FeedAll(numeric, st, s) == PutAt(st, st.value + Echo(s, PlaceOf(st)), After(s, PlaceOf(st)))
    decreases |s|
  {
    if s == "" {
      assert st.value + "" == st.value;
    } else {
      var m := PlaceOf(st);
      var head, tail := if Bracing(s[0], m) then [s[0], s[0]] else [s[0]], Echo(s[1..], Step(s[0], m));
      FeedWordOne(numeric, st, s[0]);
      FeedWord(numeric, PutAt(st, st.value + head, Step(s[0], m)), s[1..]);
      assert st.value + head + tail == st.value + (head + tail);
    }
  }

  function PlaceOf(st: Scan): Place {
    Place(st.inString, st.escapeNext, st.depth)
  }

  function PutAt(st: Scan, value: string, m: Place): Scan {
    st.(value := value, inString := m.inString, escapeNext := m.escapeNext, depth := m.depth)
  }

  lemma FeedWordOne(numeric: string -> bool, st: Scan, c: char)
    requires st.key.Some? && !(c == ',' && PlaceOf(st) == Outside)
    ensures Feed(numeric, st, c)
         == PutAt(st, st.value + (if Bracing(c, PlaceOf(st)) then [c, c] else [c]), Step(c, PlaceOf(st)))
  {
  }

  /** What `current_value` holds of a literal. */
  function Held(x: Literal): string {
    match x
    case Str(text) => PrintLiteral(x)
    case Bare(word) => Doubled(word)
  }

  predicate Clean(st: Scan) {
    st.key.None? && st.value == "" && !st.inString && !st.escapeNext && st.depth == 0
  }

  lemma {:induction false} FeedKeyText(numeric: string -> bool, st: Scan, p: Pair)
    requires Clean(st) && WellFormed(p)
    ensures FeedAll(numeric, st, PrintKey(p)) == Put(st, PrintKey(p))
  {
    var quoted := ['"'] + p.key + ['"'];
    EscapePlain(p.key);
    FeedSpaces(numeric, st, p.beforeKey);
    FeedQuoted(numeric, Put(st, p.beforeKey), p.key);
    FeedBoth(numeric, st, p.beforeKey, quoted);
    FeedSpaces(numeric, Put(st, p.beforeKey + quoted), p.afterKey);
    FeedBoth(numeric, st, p.beforeKey + quoted, p.afterKey);
  }

  lemma KeyIsFound(p: Pair)
    requires WellFormed(p)
    ensures Trim(Trim("" + PrintKey(p), Space), Quote) == p.key
  {
    var quoted := ['"'] + p.key + ['"'];
    assert Trimmed(quoted, Space);
    assert "" + PrintKey(p) == p.beforeKey + quoted + p.afterKey;
    TrimFinds(p.beforeKey, quoted, p.afterKey, Space);
    TrimQuotes(p.key);
  }

  lemma {:induction false} FeedKey(numeric: string -> bool, st: Scan, p: Pair)
    requires Clean(st) && WellFormed(p)
    ensures FeedAll(numeric, st, PrintKey(p) + [':']) == st.(key := Some(p.key))
  {
    FeedKeyText(numeric, st, p);
    FeedConcat(numeric, st, PrintKey(p), [':']);
    FeedOne(numeric, Put(st, PrintKey(p)), ':');
    KeyIsFound(p);
  }

  lemma TrimQuotes(key: string)
    requires '"' !in key
    ensures Trim(['"'] + key + ['"'], Quote) == key
  {
    if key == "" {
      assert ['"'] + key + ['"'] == ['"', '"'] + "";
      TrimLeftSkips(['"', '"'], "", Quote);
    } else {
      assert key[0] in key && key[|key| - 1] in key;
      TrimFinds(['"'], key, ['"'], Quote);
    }
  }

  lemma FeedLiteral(numeric: string -> bool, st: Scan, x: Literal)
    requires st.key.Some? && !st.inString && !st.escapeNext && st.depth == 0
    requires match x case Str(text) => '\\' !in text case Bare(word) => PlainWord(word)
    ensures FeedAll(numeric, st, PrintLiteral(x)) == st.(value := st.value + Held(x))
  {
    match x
    case Str(text) => FeedQuoted(numeric, st, text);
    case Bare(word) => FeedWord(numeric, st, word);
  }

  lemma FeedPair(numeric: string -> bool, st: Scan, p: Pair)
    requires Clean(st) && WellFormed(p)
    ensures FeedAll(numeric, st, PrintPair(p)) == st.(key := Some(p.key), value := p.beforeValue + Held(p.literal) + p.afterValue)
  {
    FeedKey(numeric, st, p);
    FeedConcat(numeric, st, PrintKey(p) + [':'], p.beforeValue + PrintLiteral(p.literal) + p.afterValue);
    FeedValue(numeric, st.(key := Some(p.key)), p);
  }

  lemma {:induction false} FeedValue(numeric: string -> bool, st: Scan, p: Pair)
    requires st.key.Some? && st.value == "" && !st.inString && !st.escapeNext && st.depth == 0 && WellFormed(p)
    ensures FeedAll(numeric, st, p.beforeValue + PrintLiteral(p.literal) + p.afterValue)
            == st.(value := p.beforeValue + Held(p.literal) + p.afterValue)
  {
    var printed := PrintLiteral(p.literal);
    FeedConcat(numeric, st, p.beforeValue + printed, p.afterValue);
    FeedConcat(numeric, st, p.beforeValue, printed);
    FeedSpaces(numeric, st, p.beforeValue);
    assert st.value + p.beforeValue == p.beforeValue;
    FeedLiteral(numeric, st.(value := p.beforeValue), p.literal);
    FeedSpaces(numeric, st.(value := p.beforeValue + Held(p.literal)), p.afterValue);
  }

  lemma {:induction false} EchoEnds(s: string, m: Place)
    requires s != ""
    ensures Echo(s, m) != "" && Echo(s, m)[0] == s[0] && Echo(s, m)[|Echo(s, m)| - 1] == s[|s| - 1]
    decreases |s|
  {
    if |s| > 1 {
      EchoEnds(s[1..], Step(s[0], m));
    } else {
      assert s[1..] == "";
    }
  }

  lemma HeldIsRead(numeric: string -> bool, p: Pair)
    requires WellFormed(p)
    ensures Convert(numeric, p.beforeValue + Held(p.literal) + p.afterValue) == Read(numeric, p.literal)
    ensures ConvertLast(p.beforeValue + Held(p.literal) + p.afterValue) == ReadLast(p.literal)
  {
    var held := Held(p.literal);
    match p.literal {
      case Str(text) =>
        TrimFinds(p.beforeValue, held, p.afterValue, Space);
        UnescapeInvertsEscape(text);
        assert held[1..|held| - 1] == Escape(text);
      case Bare(word) =>
        EchoEnds(word, Outside);
        TrimFinds(p.beforeValue, held, p.afterValue, Space);
    }
  }

  predicate AllWellFormed(ps: seq<Pair>) {
    forall i | 0 <= i < |ps| :: WellFormed(ps[i])
  }

  lemma {:induction false} FeedLastPair(numeric: string -> bool, st: Scan, p: Pair)
    requires WellFormed(p) && Clean(st)
    ensures Finish(FeedAll(numeric, st, PrintPair(p))) == st.result[p.key := ReadLast(p.literal)]
  {
    FeedPair(numeric, st, p);
    HeldIsRead(numeric, p);
  }

  lemma {:induction false} FeedPairs(numeric: string -> bool, st: Scan, ps: seq<Pair>)
    requires ps != [] && AllWellFormed(ps) && Clean(st)
    ensures Finish(FeedAll(numeric, st, PrintPairs(ps))) == ReadFrom(numeric, ps, st.result)
    decreases |ps|
  {
    var p := ps[0];
    if |ps| == 1 {
      FeedLastPair(numeric, st, p);
      assert ps[..|ps| - 1] == [];
    } else {
      var rest := ps[1..];
      var st1 := st.(result := st.result[p.key := Read(numeric, p.literal)]);
      FeedConcat(numeric, st, PrintPair(p) + [','], PrintPairs(rest));
      FeedPairAndComma(numeric, st, p);
      FeedPairs(numeric, st1, rest);
      ReadOn(numeric, ps, st.result);
    }
  }

  lemma FeedComma(numeric: string -> bool, st: Scan)
    requires st.key.Some? && !st.inString && !st.escapeNext && st.depth == 0
    ensures FeedAll(numeric, st, [',']) == st.(result := st.result[st.key.value := Convert(numeric, st.value)], key := None, value := "")
  {
    FeedOne(numeric, st, ',');
  }

  lemma FeedPairAndComma(numeric: string -> bool, st: Scan, p: Pair)
    requires Clean(st) && WellFormed(p)
    ensures FeedAll(numeric, st, PrintPair(p) + [',']) == st.(result := st.result[p.key := Read(numeric, p.literal)])
  {
    FeedPair(numeric, st, p);
    HeldIsRead(numeric, p);
    FeedConcat(numeric, st, PrintPair(p), [',']);
    FeedComma(numeric, st.(key := Some(p.key), value := p.beforeValue + Held(p.literal) + p.afterValue));
  }

  // ----- The spaces at the two ends -----

  /** The same pairs without the spaces before the first and after the last. */
  function Tight(ps: seq<Pair>): (r: seq<Pair>)
    requires ps != []
    ensures |r| == |ps|
  {
    TightEnd(ps[0 := ps[0].(beforeKey := "")])
  }

  function TightEnd(ps: seq<Pair>): (r: seq<Pair>)
    requires ps != []
    ensures |r| == |ps|
  {
    ps[|ps| - 1 := ps[|ps| - 1].(afterValue := "")]
  }

  lemma {:induction false} TightEndPrints(ps: seq<Pair>)
    requires ps != [] && AllWellFormed(ps)
    ensures var r := PrintPairs(TightEnd(ps));
            PrintPairs(ps) == r + ps[|ps| - 1].afterValue && r != "" && !Space(r[|r| - 1])
    decreases |ps|
  {
    if |ps| == 1 {
      TightPairPrints(ps[0]);
    } else {
      var rest := ps[1..];
      TightEndPrints(rest);
      TightEndOn(ps);
      TailEnds(PrintPair(ps[0]) + [','], PrintPairs(TightEnd(rest)), rest[|rest| - 1].afterValue);
    }
  }

  lemma {:induction false} TightEndOn(ps: seq<Pair>)
    requires |ps| > 1
    ensures PrintPairs(TightEnd(ps)) == (PrintPair(ps[0]) + [',']) + PrintPairs(TightEnd(ps[1..]))
  {
    assert TightEnd(ps)[0] == ps[0] && TightEnd(ps)[1..] == TightEnd(ps[1..]);
  }

  lemma TailEnds(head: string, tight: string, after: string)
    requires tight != ""
    ensures head + (tight + after) == (head + tight) + after && head + tight != ""
    ensures (head + tight)[|head + tight| - 1] == tight[|tight| - 1]
  {
  }

  lemma TightPairPrints(p: Pair)
    requires WellFormed(p)
    ensures var r := PrintPair(p.(afterValue := ""));
            PrintPair(p) == r + p.afterValue && r != "" && !Space(r[|r| - 1])
  {
    var printed := PrintLiteral(p.literal);
    var r := PrintPair(p.(afterValue := ""));
    assert r == PrintKey(p) + [':'] + p.beforeValue + printed;
    assert printed != "" && r[|r| - 1] == printed[|printed| - 1];
  }

  lemma TightStartPrints(ps: seq<Pair>)
    requires ps != []
    ensures var r := PrintPairs(ps[0 := ps[0].(beforeKey := "")]);
            PrintPairs(ps) == ps[0].beforeKey + r && r != "" && r[0] == '"'
  {
    var p := ps[0].(beforeKey := "");
    assert PrintKey(ps[0]) == ps[0].beforeKey + PrintKey(p);
    assert PrintKey(p)[0] == '"';
    assert PrintPair(ps[0]) == ps[0].beforeKey + PrintPair(p) && PrintPair(p)[0] == '"';
    if |ps| > 1 {
      assert ps[0 := p][1..] == ps[1..];
      assert PrintPairs(ps) == ps[0].beforeKey + (PrintPair(p) + [','] + PrintPairs(ps[1..]));
    }
  }

  lemma {:induction false} TightEnds(ps: seq<Pair>)
    requires ps != [] && AllWellFormed(ps)
    ensures var r := PrintPairs(Tight(ps));
            && PrintPairs(ps) == ps[0].beforeKey + r + ps[|ps| - 1].afterValue
            && r != "" && Trimmed(r, Space)
  {
    var qs := ps[0 := ps[0].(beforeKey := "")];
    TightStartPrints(ps);
    TightEndPrints(qs);
    Assemble(PrintPairs(ps), ps[0].beforeKey, PrintPairs(qs), PrintPairs(Tight(ps)), qs[|qs| - 1].afterValue);
    assert qs[|qs| - 1].afterValue == ps[|ps| - 1].afterValue;
  }

  lemma Assemble(whole: string, before: string, middle: string, r: string, after: string)
    requires whole == before + middle && middle == r + after && r != "" && middle[0] == '"'
    ensures whole == before + r + after && r[0] == '"' && !Space(r[0])
  {
    assert middle[0] == r[0];
    assert before + (r + after) == before + r + after;
  }

  lemma ContentIsTight(ps: seq<Pair>, left: string, right: string)
    requires ps != [] && AllWellFormed(ps) && All(left, Space) && All(right, Space)
    ensures Content(PrintObject(ps, left, right)) == PrintPairs(Tight(ps))
  {
    var braced := "{" + PrintPairs(ps) + "}";
    TrimFinds(left, braced, right, Space);
    assert braced[1..|braced| - 1] == PrintPairs(ps);
    TightEnds(ps);
    TrimFinds(ps[0].beforeKey, PrintPairs(Tight(ps)), ps[|ps| - 1].afterValue, Space);
  }

  lemma {:induction false} ReadInitIgnoresSpaces(numeric: string -> bool, a: seq<Pair>, b: seq<Pair>, result: map<string, Value>)
    requires |a| == |b| && forall i | 0 <= i < |a| :: a[i].key == b[i].key && a[i].literal == b[i].literal
    ensures ReadInit(numeric, a, result) == ReadInit(numeric, b, result)
    decreases |a|
  {
    if a != [] {
      ReadInitIgnoresSpaces(numeric, a[1..], b[1..], result[a[0].key := Read(numeric, a[0].literal)]);
    }
  }

  // ----- Main results -----

  /**
   Reading a printed flat object gives back every string under its key, whatever the spacing;
   a bare word comes back converted with its braces doubled, and unconverted in the last pair.
   */
  lemma PrintedObjectIsRead(numeric: string -> bool, ps: seq<Pair>, left: string, right: string)
    requires ps != [] && AllWellFormed(ps) && All(left, Space) && All(right, Space)
    ensures Parse(numeric, PrintObject(ps, left, right)) == Some(ReadAll(numeric, ps))
  {
    var qs := Tight(ps);
    ContentIsTight(ps, left, right);
    assert AllWellFormed(qs);
    FeedPairs(numeric, Start, qs);
    ReadInitIgnoresSpaces(numeric, ps[..|ps| - 1], qs[..|qs| - 1], map[]);
    assert ps[|ps| - 1].key in ReadAll(numeric, ps);
  }

  ghost predicate DistinctKeys(ps: seq<Pair>) {
    forall i, j | 0 <= i < j < |ps| :: ps[i].key != ps[j].key
  }

  lemma {:induction false} ReadInitKeys(numeric: string -> bool, ps: seq<Pair>, result: map<string, Value>, k: string)
    ensures k in ReadInit(numeric, ps, result) <==> k in result || HasKey(ps, k)
    ensures !HasKey(ps, k) && k in result ==> ReadInit(numeric, ps, result)[k] == result[k]
    decreases |ps|
  {
    if ps != [] {
      ReadInitKeys(numeric, ps[1..], result[ps[0].key := Read(numeric, ps[0].literal)], k);
      HasKeyOn(ps, k);
    }
  }

  ghost predicate HasKey(ps: seq<Pair>, k: string) {
    exists i :: 0 <= i < |ps| && ps[i].key == k
  }

  lemma HasKeyOn(ps: seq<Pair>, k: string)
    requires ps != []
    ensures HasKey(ps, k) <==> ps[0].key == k || HasKey(ps[1..], k)
  {
    if HasKey(ps, k) && ps[0].key != k {
      var i :| 0 <= i < |ps| && ps[i].key == k;
      assert ps[1..][i - 1].key == k;
    }
    if HasKey(ps[1..], k) {
      var i :| 0 <= i < |ps[1..]| && ps[1..][i].key == k;
      assert ps[i + 1].key == k;
    }
  }

  lemma FirstKeyIsFresh(ps: seq<Pair>)
    requires DistinctKeys(ps) && ps != []
    ensures !HasKey(ps[1..], ps[0].key)
  {
    forall j | 0 <= j < |ps[1..]|
      ensures ps[1..][j].key != ps[0].key
    {
      assert ps[1..][j] == ps[j + 1];
    }
  }

  lemma {:induction false} ReadInitAt(numeric: string -> bool, ps: seq<Pair>, result: map<string, Value>, i: nat)
    requires DistinctKeys(ps) && i < |ps|
    ensures ps[i].key in ReadInit(numeric, ps, result) && ReadInit(numeric, ps, result)[ps[i].key] == Read(numeric, ps[i].literal)
    decreases |ps|
  {
    var result1 := result[ps[0].key := Read(numeric, ps[0].literal)];
    if i == 0 {
      FirstKeyIsFresh(ps);
      ReadInitKeys(numeric, ps[1..], result1, ps[0].key);
    } else {
      assert ps[1..][i - 1] == ps[i];
      ReadInitAt(numeric, ps[1..], result1, i - 1);
    }
  }

  /** What a value means: a string is its text, a word is converted. */
  function Meant(numeric: string -> bool, x: Literal): Value {
    match x
    case Str(text) => Text(text)
    case Bare(word) => ConvertWord(numeric, word)
  }

  /** The object was read as meant. */
  ghost predicate ReadAsMeant(numeric: string -> bool, ps: seq<Pair>, r: Option<map<string, Value>>) {
    && r.Some?
    && (forall i | 0 <= i < |ps| :: ps[i].key in r.value && r.value[ps[i].key] == Meant(numeric, ps[i].literal))
    && (forall k | k in r.value :: HasKey(ps, k))
  }

  /** The value found under the key of each pair. */
  function Found(numeric: string -> bool, ps: seq<Pair>, i: nat): Value
    requires i < |ps|
  {
    if i == |ps| - 1 then ReadLast(ps[i].literal) else Read(numeric, ps[i].literal)
  }

  lemma {:induction false} ThisIsFound(numeric: string -> bool, ps: seq<Pair>, i: nat)
    requires DistinctKeys(ps) && i < |ps|
    ensures ps[i].key in ReadAll(numeric, ps) && ReadAll(numeric, ps)[ps[i].key] == Found(numeric, ps, i)
  {
    var init, last := ps[..|ps| - 1], ps[|ps| - 1];
    if i < |ps| - 1 {
      assert init[i] == ps[i] && ps[i].key != last.key;
      ReadInitAt(numeric, init, map[], i);
    }
  }

  lemma {:induction false} OnlyKeysAreFound(numeric: string -> bool, ps: seq<Pair>, k: string)
    requires ps != [] && k in ReadAll(numeric, ps)
    ensures HasKey(ps, k)
  {
    var init, last := ps[..|ps| - 1], ps[|ps| - 1];
    if k != last.key {
      ReadInitKeys(numeric, init, map[], k);
      var i :| 0 <= i < |init| && init[i].key == k;
      assert ps[i].key == k;
    }
  }

  lemma {:induction false} EachIsFound(numeric: string -> bool, ps: seq<Pair>)
    requires ps != [] && DistinctKeys(ps)
    ensures var r := ReadAll(numeric, ps);
            && (forall i | 0 <= i < |ps| :: ps[i].key in r && r[ps[i].key] == Found(numeric, ps, i))
            && (forall k | k in r :: HasKey(ps, k))
  {
    forall i | 0 <= i < |ps|
      ensures ps[i].key in ReadAll(numeric, ps) && ReadAll(numeric, ps)[ps[i].key] == Found(numeric, ps, i)
    {
      ThisIsFound(numeric, ps, i);
    }
    forall k | k in ReadAll(numeric, ps)
      ensures HasKey(ps, k)
    {
      OnlyKeysAreFound(numeric, ps, k);
    }
  }

  predicate BraceFree(p: Pair) {
    p.literal.Bare? ==> Unbraced(p.literal.word, Outside)
  }

  /** A word with a brace is never read as itself. */
  lemma BracedIsMisread(numeric: string -> bool, word: string)
    requires !Unbraced(word, Outside)
    ensures Doubled(word) != word
    ensures ConvertWord(numeric, Doubled(word)) != ConvertWord(numeric, word) && Text(Doubled(word)) != ConvertWord(numeric, word)
  {
    EchoIsIdentity(word, Outside);
    EchoHasBrace(word, Outside);
  }

  /** The value at `i` needs no brace, and no conversion if it is the last. */
  predicate Faithful(numeric: string -> bool, ps: seq<Pair>, i: nat)
    requires i < |ps|
  {
    BraceFree(ps[i]) && (i == |ps| - 1 && ps[i].literal.Bare? ==> ConvertWord(numeric, ps[i].literal.word) == Text(ps[i].literal.word))
  }

  lemma FoundAsMeant(numeric: string -> bool, ps: seq<Pair>, i: nat)
    requires i < |ps|
    ensures Found(numeric, ps, i) == Meant(numeric, ps[i].literal) <==> Faithful(numeric, ps, i)
  {
    if ps[i].literal.Bare? {
      var word := ps[i].literal.word;
      if Unbraced(word, Outside) {
        EchoIsIdentity(word, Outside);
      } else {
        BracedIsMisread(numeric, word);
      }
    }
  }

  lemma {:induction false} ReadAsMeantExactly(numeric: string -> bool, ps: seq<Pair>)
    requires ps != [] && DistinctKeys(ps)
    ensures ReadAsMeant(numeric, ps, Some(ReadAll(numeric, ps))) <==> forall i: nat | i < |ps| :: Faithful(numeric, ps, i)
  {
    EachIsFound(numeric, ps);
    var r := ReadAll(numeric, ps);
    forall i: nat | i < |ps|
      ensures r[ps[i].key] == Meant(numeric, ps[i].literal) <==> Faithful(numeric, ps, i)
    {
      FoundAsMeant(numeric, ps, i);
    }
  }

  /**
   An object with distinct keys is read as meant if and only if none of its words has a brace
   outside strings and its last value is a string or a word that converts to itself.
   */
  lemma RoundTripIsExact(numeric: string -> bool, ps: seq<Pair>, left: string, right: string)
    requires ps != [] && AllWellFormed(ps) && All(left, Space) && All(right, Space) && DistinctKeys(ps)
    ensures var last := ps[|ps| - 1].literal;
            ReadAsMeant(numeric, ps, Parse(numeric, PrintObject(ps, left, right))) <==>
            (forall i | 0 <= i < |ps| :: BraceFree(ps[i])) && (last.Str? || ConvertWord(numeric, last.word) == Text(last.word))
  {
    PrintedObjectIsRead(numeric, ps, left, right);
    ReadAsMeantExactly(numeric, ps);
    LastIsFaithful(numeric, ps);
  }

  lemma LastIsFaithful(numeric: string -> bool, ps: seq<Pair>)
    requires ps != []
    ensures var last := ps[|ps| - 1].literal;
            (forall i: nat | i < |ps| :: Faithful(numeric, ps, i)) <==>
            (forall i | 0 <= i < |ps| :: BraceFree(ps[i])) && (last.Str? || ConvertWord(numeric, last.word) == Text(last.word))
  {
    if forall i: nat | i < |ps| :: Faithful(numeric, ps, i) {
      assert Faithful(numeric, ps, |ps| - 1);
      assert forall i: nat | i < |ps| :: Faithful(numeric, ps, i) ==> BraceFree(ps[i]);
    }
  }

  /** Wherever it stands in an object, a word with a brace, a nested object for one, comes back with its braces doubled. */
  lemma BracesAreDoubled(numeric: string -> bool, ps: seq<Pair>, left: string, right: string, i: nat)
    requires ps != [] && AllWellFormed(ps) && All(left, Space) && All(right, Space) && DistinctKeys(ps)
    requires i < |ps| && !BraceFree(ps[i])
    ensures var r, word := Parse(numeric, PrintObject(ps, left, right)), ps[i].literal.word;
            && r.Some? && ps[i].key in r.value
            && (r.value[ps[i].key] == Text(Doubled(word)) || r.value[ps[i].key] == Number(Doubled(word)))
            && Doubled(word) != word
  {
    PrintedObjectIsRead(numeric, ps, left, right);
    BracedIsFoundDoubled(numeric, ps, i);
  }

  lemma {:induction false} BracedIsFoundDoubled(numeric: string -> bool, ps: seq<Pair>, i: nat)
    requires DistinctKeys(ps) && i < |ps| && !BraceFree(ps[i])
    ensures var r, word := ReadAll(numeric, ps), ps[i].literal.word;
            && ps[i].key in r && (r[ps[i].key] == Text(Doubled(word)) || r[ps[i].key] == Number(Doubled(word)))
            && Doubled(word) != word
  {
    EachIsFound(numeric, ps);
    BracedIsMisread(numeric, ps[i].literal.word);
    BracedIsNoConstant(numeric, ps[i].literal.word);
  }

  lemma BracedIsNoConstant(numeric: string -> bool, word: string)
    requires !Unbraced(word, Outside)
    ensures ConvertWord(numeric, Doubled(word)) == Text(Doubled(word)) || ConvertWord(numeric, Doubled(word)) == Number(Doubled(word))
  {
    EchoHasBrace(word, Outside);
  }

  lemma {:induction false} ScanConcat(a: string, b: string, m: Place)
    ensures After(a + b, m) == After(b, After(a, m))
    ensures Unsplit(a + b, m) <==> Unsplit(a, m) && Unsplit(b, After(a, m))
    decreases |a|
  {
    if a == "" {
      assert a + b == b;
    } else {
      assert (a + b)[0] == a[0] && (a + b)[1..] == a[1..] + b;
      ScanConcat(a[1..], b, Step(a[0], m));
    }
  }

  lemma {:induction false} EscapedStaysInString(s: string, m: Place)
    requires '\\' !in s && m.inString && !m.escapeNext
    ensures Unsplit(Escape(s), m) && After(Escape(s), m) == m
    decreases |s|
  {
    if s != "" {
      EscapedCharStays(s[0], m);
      EscapedStaysInString(s[1..], m);
      ScanConcat(EscapeChar(s[0]), Escape(s[1..]), m);
    }
  }

  lemma EscapedCharStays(c: char, m: Place)
    requires c != '\\' && m.inString && !m.escapeNext
    ensures Unsplit(EscapeChar(c), m) && After(EscapeChar(c), m) == m
  {
    if c == '"' {
      ScanOne('\\', m);
      ScanOne('"', m.(escapeNext := true));
      ScanConcat(['\\'], ['"'], m);
      assert EscapeChar(c) == ['\\'] + ['"'];
    } else {
      ScanOne(c, m);
      assert EscapeChar(c) == [c];
    }
  }

  function InQuotes(s: string): string {
    ['"'] + Escape(s) + ['"']
  }

  lemma QuotedStays(s: string, m: Place)
    requires '\\' !in s && !m.inString && !m.escapeNext
    ensures Unsplit(InQuotes(s), m) && After(InQuotes(s), m) == m
  {
    var inside := m.(inString := true);
    ScanOne('"', m);
    ScanOne('"', inside);
    EscapedStaysInString(s, inside);
    ScanConcat(['"'], Escape(s), m);
    ScanConcat(['"'] + Escape(s), ['"'], m);
  }

  lemma ScanOne(c: char, m: Place)
    ensures After([c], m) == Step(c, m)
    ensures Unsplit([c], m) <==> !(c == ',' && !m.inString && !m.escapeNext && m.depth == 0)
  {
    assert [c][1..] == "" && Unsplit("", Step(c, m));
  }

  /** An object with a key and a string of its own: any text in that string, commas, quotes and braces included. */
  function Nested(key: string, text: string): string {
    ['{'] + InQuotes(key) + [':'] + InQuotes(text) + ['}']
  }

  /** From outside to inside the braces and back, with no comma to split at. */
  lemma NestedScans(key: string, text: string)
    requires '\\' !in key && '\\' !in text
    ensures Unsplit(Nested(key, text), Outside) && After(Nested(key, text), Outside) == Outside
  {
    var deep := Outside.(depth := 1);
    var a := ['{'] + InQuotes(key);
    ScanOne('{', Outside);
    QuotedStays(key, deep);
    ScanConcat(['{'], InQuotes(key), Outside);
    ScanOne(':', deep);
    ScanConcat(a, [':'], Outside);
    NestedTail(text, deep);
    ScanConcat(a + [':'], InQuotes(text) + ['}'], Outside);
    assert Nested(key, text) == a + [':'] + (InQuotes(text) + ['}']);
  }

  lemma NestedTail(text: string, deep: Place)
    requires '\\' !in text && deep == Outside.(depth := 1)
    ensures Unsplit(InQuotes(text) + ['}'], deep) && After(InQuotes(text) + ['}'], deep) == Outside
  {
    QuotedStays(text, deep);
    ScanOne('}', deep);
    ScanConcat(InQuotes(text), ['}'], deep);
  }

  /** Nested objects are among the words, and have a brace outside strings. */
  lemma NestedObjectsAreWords(key: string, text: string)
    requires '\\' !in key && '\\' !in text
    ensures PlainWord(Nested(key, text)) && !Unbraced(Nested(key, text), Outside)
  {
    NestedScans(key, text);
    var word := Nested(key, text);
    assert word[0] == '{' && word[|word| - 1] == '}';
  }
}
