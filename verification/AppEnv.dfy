/** The application `.env` file: strict parser, snapshot printer and line-preserving rewriter, over text
    that is already decoded. */
module AppEnv {

  import opened Wrappers

  // ---------------------------------------------------------------- characters

  predicate IsControl(c: char) {
    c as int < 0x20 || c as int == 0x7f
  }

  predicate IsBlank(c: char) {
    c == ' ' || c == '\t'
  }

  /** The white space of the value grammar. */
  predicate IsSpace(c: char) {
    var n := c as int;
    || 0x09 <= n <= 0x0d || 0x1c <= n <= 0x20 || n == 0x85 || n == 0xa0 || n == 0x1680 || 0x2000 <= n <= 0x200a
    || n == 0x2028 || n == 0x2029 || n == 0x202f || n == 0x205f || n == 0x3000
  }

  predicate HasControl(s: string) {
    exists c <- s :: IsControl(c)
  }

  predicate IsLetter(c: char) {
    'A' <= c <= 'Z' || 'a' <= c <= 'z' || c == '_'
  }

  predicate IsKey(s: string) {
    s != "" && IsLetter(s[0]) && forall c <- s :: IsLetter(c) || '0' <= c <= '9'
  }

  /** A value that may stand without quotes: not empty, no white space, quote or '#'. */
  predicate IsUnquoted(s: string) {
    s != "" && forall c <- s :: !IsSpace(c) && c != '\'' && c != '"' && c != '#'
  }

  // ---------------------------------------------------------------- text helpers

  function StripLeft(s: string): string {
    if s != "" && IsBlank(s[0]) then StripLeft(s[1..]) else s
  }

  function StripRight(s: string): string {
    if s != "" && IsBlank(s[|s| - 1]) then StripRight(s[..|s| - 1]) else s
  }

  function Strip(s: string): string {
    StripRight(StripLeft(s))
  }

  /** The first index of `c` at or after `from`. */
  function Find(s: string, c: char, from: nat): (r: Option<nat>)
    ensures r.Some? ==> from <= r.value < |s| && s[r.value] == c && forall i :: from <= i < r.value ==> s[i] != c
    ensures r.None? ==> forall i :: from <= i < |s| ==> s[i] != c
    decreases |s| - from
  {
    if from >= |s| then None
    else if s[from] == c then Some(from)
    else Find(s, c, from + 1)
  }

  predicate Starts(s: string, c: char) {
    s != "" && s[0] == c
  }

  predicate Ends(s: string, c: char) {
    s != "" && s[|s| - 1] == c
  }

  function WithoutCr(piece: string): string {
    if Ends(piece, '\r') then piece[..|piece| - 1] else piece
  }

  function Split(s: string): (lines: seq<string>)
    ensures lines != [] && forall line <- lines :: '\n' !in line
    decreases |s|
  {
    match Find(s, '\n', 0)
    case None => [s]
    case Some(i) => [s[..i]] + Split(s[i + 1..])
  }

  function Join(lines: seq<string>): string {
    if lines == [] then ""
    else if |lines| == 1 then lines[0]
    else lines[0] + "\n" + Join(lines[1..])
  }

  // ---------------------------------------------------------------- the closing double quote

  /** Backslashes directly before index `i`, the opening quote at index 0 excluded. */
  function BackslashesBefore(s: string, i: nat): nat
    requires i <= |s|
  {
    if i > 1 && s[i - 1] == '\\' then 1 + BackslashesBefore(s, i - 1) else 0
  }

  /** The escape automaton: reads left to right, a backslash takes the next character with it. */
  function ClosingQuote(s: string, i: nat): (r: Option<nat>)
    ensures r.Some? ==> i <= r.value < |s| && s[r.value] == '"'
    decreases |s| - i
  {
    if i >= |s| then None
    else if s[i] == '\\' then ClosingQuote(s, i + 2)
    else if s[i] == '"' then Some(i)
    else ClosingQuote(s, i + 1)
  }

  /** The first quote from `i` on with an even number of backslashes before it. */
  function EvenQuote(s: string, i: nat): Option<nat>
    decreases |s| - i
  {
    match Find(s, '"', i)
    case None => None
    case Some(q) => if BackslashesBefore(s, q) % 2 == 0 then Some(q) else EvenQuote(s, q + 1)
  }

  /** Counting backslashes backwards finds the quote that the automaton stops at. */
  lemma {:induction false} ParityIsEscape(s: string, i: nat)
    requires 1 <= i <= |s| && BackslashesBefore(s, i) % 2 == 0
    ensures EvenQuote(s, i) == ClosingQuote(s, i)
    decreases |s| - i
  {
    if i < |s| {
      if s[i] == '\\' {
        assert BackslashesBefore(s, i + 1) == 1 + BackslashesBefore(s, i);
        if i + 1 < |s| {
          if s[i + 1] == '\\' {
            assert BackslashesBefore(s, i + 2) == 2 + BackslashesBefore(s, i);
          }
          ParityIsEscape(s, i + 2);
          SkipToQuote(s, i);
          SkipToQuote(s, i + 1);
        } else {
          SkipToQuote(s, i);
        }
      } else if s[i] != '"' {
        ParityIsEscape(s, i + 1);
        SkipToQuote(s, i);
      }
    }
  }

  lemma SkipToQuote(s: string, i: nat)
    requires i < |s|
    ensures s[i] != '"' ==> Find(s, '"', i) == Find(s, '"', i + 1) && EvenQuote(s, i) == EvenQuote(s, i + 1)
    ensures s[i] == '"' && BackslashesBefore(s, i) % 2 == 1 ==> EvenQuote(s, i) == EvenQuote(s, i + 1)
  {
  }

  /** The search of the parser: forward to a quote, backwards over its backslashes, on while they are odd. */
  method FindClosingQuote(rest: string) returns (r: Option<nat>)
    requires Starts(rest, '"')
    ensures r == ClosingQuote(rest, 1)
  {
    ParityIsEscape(rest, 1);
    var end := 1;
    while true
      invariant 1 <= end <= |rest|
      invariant EvenQuote(rest, 1) == EvenQuote(rest, end)
      decreases |rest| - end
    {
      var found := Find(rest, '"', end);
      if found.None? {
        return None;
      }
      end := found.value;
      var backslashes := 0;
      var probe := end - 1;
      while probe > 0 && rest[probe] == '\\'
        invariant 0 <= probe < end
        invariant backslashes + BackslashesBefore(rest, probe + 1) == BackslashesBefore(rest, end)
      {
        backslashes := backslashes + 1;
        probe := probe - 1;
      }
      if backslashes % 2 == 0 {
        return Some(end);
      }
      end := end + 1;
    }
  }

  // ---------------------------------------------------------------- escapes

  function Prepend(front: string, r: Result<string>): Result<string> {
    match r
    case Ok(text) => Ok(front + text)
    case Error => Error
  }

  lemma PrependNothing(r: Result<string>)
    ensures Prepend("", r) == r
  {
    assert r.Ok? ==> "" + r.value == r.value;
  }

  lemma PrependTwice(front: string, c: char, r: Result<string>)
    ensures Prepend(front, Prepend([c], r)) == Prepend(front + [c], r)
  {
    assert r.Ok? ==> front + ([c] + r.value) == (front + [c]) + r.value;
  }

  /** Only `\\` and `\"` are escapes. */
  function Unescape(body: string): Result<string> {
    if body == "" then Ok("")
    else if body[0] != '\\' then Prepend([body[0]], Unescape(body[1..]))
    else if |body| == 1 || (body[1] != '\\' && body[1] != '"') then Error
    else Prepend([body[1]], Unescape(body[2..]))
  }

  function Escape(value: string): string {
    if value == "" then ""
    else (if value[0] == '\\' || value[0] == '"' then ['\\', value[0]] else [value[0]]) + Escape(value[1..])
  }

  method ParseDoubleQuoted(body: string) returns (r: Result<string>)
    ensures r == Unescape(body)
  {
    var result := "";
    var index := 0;
    PrependNothing(Unescape(body));
    assert body[0..] == body;
    while index < |body|
      invariant 0 <= index <= |body|
      invariant Unescape(body) == Prepend(result, Unescape(body[index..]))
    {
      var c := body[index];
      if c == '\\' {
        if index + 1 >= |body| || (body[index + 1] != '\\' && body[index + 1] != '"') {
          return Error;
        }
        assert body[index..][2..] == body[index + 2..];
        PrependTwice(result, body[index + 1], Unescape(body[index + 2..]));
        result := result + [body[index + 1]];
        index := index + 2;
      } else {
        assert body[index..][1..] == body[index + 1..];
        PrependTwice(result, c, Unescape(body[index + 1..]));
        result := result + [c];
        index := index + 1;
      }
    }
    assert result + "" == result;
    r := Ok(result);
  }

  // ---------------------------------------------------------------- one line

  /** Text after a quoted value: blank or a comment. */
  predicate IsTail(tail: string) {
    Strip(tail) == "" || Starts(Strip(tail), '#')
  }

  function ParseQuoted(rest: string, end: nat, value: Result<string>): Result<string>
    requires end < |rest|
  {
    if value.Ok? && IsTail(rest[end + 1..]) then value else Error
  }

  function ParseValue(rest: string): Result<string> {
    var parsed :=
      if Starts(rest, '\'') then
        match Find(rest, '\'', 1)
        case None => Error
        case Some(end) => ParseQuoted(rest, end, Ok(rest[1..end]))
      else if Starts(rest, '"') then
        match ClosingQuote(rest, 1)
        case None => Error
        case Some(end) => ParseQuoted(rest, end, Unescape(rest[1..end]))
      else
        var value := StripRight(rest);
        if value == "" || IsUnquoted(value) then Ok(value) else Error;
    if parsed.Ok? && HasControl(parsed.value) then Error else parsed
  }

  datatype Line = Blank | Assign(key: string, value: string) | Bad

  function ParseLine(piece: string): Line {
    var raw := WithoutCr(piece);
    if exists c <- raw :: IsControl(c) && c != '\t' then Bad
    else
      var line := Strip(raw);
      if line == "" || line[0] == '#' then Blank
      else match Find(raw, '=', 0)
        case None => Bad
        case Some(eq) =>
          if !IsKey(raw[..eq]) then Bad
          else match ParseValue(raw[eq + 1..])
            case Ok(value) => Assign(raw[..eq], value)
            case Error => Bad
  }

  // ---------------------------------------------------------------- the file

  /** What the lines assign, in order; a key assigned twice or not declared is an error. */
  function ParseLines(lines: seq<string>, keys: seq<string>, values: map<string, string>): Result<map<string, string>> {
    if lines == [] then Ok(values)
    else match ParseLine(lines[0])
      case Blank => ParseLines(lines[1..], keys, values)
      case Bad => Error
      case Assign(key, value) =>
        if key !in keys || key in values then Error
        else ParseLines(lines[1..], keys, values[key := value])
  }

  predicate Complete(values: map<string, string>, keys: seq<string>) {
    forall key <- keys :: key in values
  }

  function ParseEnv(text: string, keys: seq<string>, requireAll: bool): Result<map<string, string>> {
    match ParseLines(Split(text), keys, map[])
    case Error => Error
    case Ok(values) => if requireAll && !Complete(values, keys) then Error else Ok(values)
  }

  method ParseAppEnv(text: string, keys: seq<string>, requireAll: bool) returns (r: Result<map<string, string>>)
    ensures r == ParseEnv(text, keys, requireAll)
  {
    var values: map<string, string> := map[];
    var lines := Split(text);
    assert lines[0..] == lines;
    for k := 0 to |lines|
      invariant ParseLines(lines, keys, map[]) == ParseLines(lines[k..], keys, values)
    {
      var piece := lines[k];
      assert lines[k..][1..] == lines[k + 1..];
      var raw := WithoutCr(piece);
      if exists c <- raw :: IsControl(c) && c != '\t' {
        return Error;
      }
      var line := Strip(raw);
      if line == "" || line[0] == '#' {
        continue;
      }
      var eq := Find(raw, '=', 0);
      if eq.None? {
        return Error;
      }
      var key, rest := raw[..eq.value], raw[eq.value + 1..];
      if !IsKey(key) || key !in keys || key in values {
        return Error;
      }
      var value := ReadValue(rest);
      if value.Error? {
        return Error;
      }
      values := values[key := value.value];
    }
    if requireAll {
      if exists key <- keys :: key !in values {
        return Error;
      }
    }
    r := Ok(values);
  }

  method ReadValue(rest: string) returns (r: Result<string>)
    ensures r == ParseValue(rest)
  {
    var value, tail := "", "";
    if Starts(rest, '\'') {
      var end := Find(rest, '\'', 1);
      if end.None? {
        return Error;
      }
      value, tail := rest[1..end.value], rest[end.value + 1..];
    } else if Starts(rest, '"') {
      var end := FindClosingQuote(rest);
      if end.None? {
        return Error;
      }
      var body := ParseDoubleQuoted(rest[1..end.value]);
      if body.Error? {
        return Error;
      }
      value, tail := body.value, rest[end.value + 1..];
    } else {
      value := StripRight(rest);
      if value != "" && !IsUnquoted(value) {
        return Error;
      }
    }
    if !IsTail(tail) || HasControl(value) {
      return Error;
    }
    r := Ok(value);
  }

  // ---------------------------------------------------------------- printing

  /** A literal that stands unambiguously between single quotes. */
  predicate Renderable(value: string) {
    !HasControl(value) && '\'' !in value && !Ends(value, '\\')
  }

  function RenderValue(value: string): Result<string> {
    if IsUnquoted(value) then Ok(value)
    else if Renderable(value) then Ok("'" + value + "'")
    else Error
  }

  /** A value the wizard can write and the parser will read back. */
  predicate Writable(value: string) {
    !HasControl(value) && (IsUnquoted(value) || Renderable(value))
  }

  /** In pieces, which the verifier reads character by character. */
  const HEADER := "# Deployment Admin frozen " + "application configuration. " + "Generated; do not edit."

  function SnapshotLines(values: map<string, string>, keys: seq<string>): Result<seq<string>> {
    if keys == [] then Ok([])
    else if keys[0] !in values || !Renderable(values[keys[0]]) then Error
    else match SnapshotLines(values, keys[1..])
      case Ok(lines) => Ok([keys[0] + "='" + values[keys[0]] + "'"] + lines)
      case Error => Error
  }

  function RenderEnv(values: map<string, string>, keys: seq<string>): Result<string> {
    match SnapshotLines(values, keys)
    case Ok(lines) => Ok(Join([HEADER] + lines) + "\n")
    case Error => Error
  }

  /** The keys of an allowlist: well-formed and each once. */
  ghost predicate Declared(keys: seq<string>) {
    && (forall i :: 0 <= i < |keys| ==> IsKey(keys[i]))
    && (forall i, j :: 0 <= i < j < |keys| ==> keys[i] != keys[j])
  }

  // ---------------------------------------------------------------- lines and text

  lemma {:induction false} JoinOfSplit(s: string)
    ensures Join(Split(s)) == s
    decreases |s|
  {
    var i := Find(s, '\n', 0);
    if i.Some? {
      JoinOfSplit(s[i.value + 1..]);
      assert ([s[..i.value]] + Split(s[i.value + 1..]))[1..] == Split(s[i.value + 1..]);
      assert s == s[..i.value] + "\n" + s[i.value + 1..];
    }
  }

  lemma FindFirst(a: string, c: char, b: string)
    requires c !in a
    ensures Find(a + [c] + b, c, 0) == Some(|a|)
  {
    var s := a + [c] + b;
    assert s[|a|] == c;
    assert forall i :: 0 <= i < |a| ==> s[i] == a[i] && a[i] in a;
  }

  lemma {:induction false} SplitOfJoin(lines: seq<string>)
    requires lines != [] && forall line <- lines :: '\n' !in line
    ensures Split(Join(lines)) == lines
  {
    var first := lines[0];
    assert first in lines;
    if |lines| == 1 {
      assert Find(first, '\n', 0).None?;
    } else {
      forall line | line in lines[1..] ensures '\n' !in line {
        assert line in lines;
      }
      SplitOfJoin(lines[1..]);
      var s := first + "\n" + Join(lines[1..]);
      FindFirst(first, '\n', Join(lines[1..]));
      assert s[..|first|] == first && s[|first| + 1..] == Join(lines[1..]);
      assert lines == [first] + lines[1..];
    }
  }

  lemma JoinOne(line: string)
    ensures Join([line]) == line
  {
  }

  lemma {:induction false} JoinAppend(a: seq<string>, b: seq<string>)
    requires a != [] && b != []
    ensures Join(a + b) == Join(a) + "\n" + Join(b)
  {
    if |a| == 1 {
      assert (a + b)[1..] == b;
    } else {
      assert (a + b)[1..] == a[1..] + b;
      JoinAppend(a[1..], b);
      assert Join(a + b) == a[0] + "\n" + (Join(a[1..]) + "\n" + Join(b));
    }
  }

  // ---------------------------------------------------------------- a written line is read back

  lemma StripStart(s: string)
    requires s != "" && !IsBlank(s[0])
    ensures Strip(s) != "" && Strip(s)[0] == s[0]
  {
    StripRightKeepsStart(s);
  }

  lemma {:induction false} StripRightKeepsStart(s: string)
    requires s != "" && !IsBlank(s[0])
    ensures StripRight(s) != "" && StripRight(s)[0] == s[0]
  {
    if IsBlank(s[|s| - 1]) {
      StripRightKeepsStart(s[..|s| - 1]);
    }
  }

  lemma QuotedValue(value: string)
    requires Renderable(value)
    ensures ParseValue("'" + value + "'") == Ok(value)
    ensures !HasControl("'" + value + "'")
  {
    var rest := "'" + value + "'";
    assert rest[1..] == value + "'";
    assert forall i :: 1 <= i < |rest| - 1 ==> rest[i] == value[i - 1] && value[i - 1] in value;
    assert rest[|rest| - 1] == '\'' && |rest| == |value| + 2;
    assert rest[1..|rest| - 1] == value && rest[|rest|..] == "";
    forall c | c in rest ensures !IsControl(c) {
      assert c == '\'' || c in value;
    }
  }

  lemma UnquotedValue(value: string)
    requires IsUnquoted(value) && !HasControl(value)
    ensures ParseValue(value) == Ok(value)
  {
    assert value[0] in value && value[|value| - 1] in value;
    assert StripRight(value) == value;
  }

  lemma RenderedValue(value: string)
    requires Writable(value)
    ensures RenderValue(value).Ok?
    ensures ParseValue(RenderValue(value).value) == Ok(value)
    ensures !HasControl(RenderValue(value).value) && RenderValue(value).value != ""
  {
    if IsUnquoted(value) {
      UnquotedValue(value);
    } else {
      QuotedValue(value);
    }
  }

  lemma NotRendered(value: string)
    requires RenderValue(value).Error?
    ensures !Writable(value)
  {
  }

  /** `KEY=` and a control-free rest, with or without a carriage return, parses as the rest does. */
  lemma AssignmentLine(key: string, rest: string, cr: string)
    requires IsKey(key) && !HasControl(rest) && cr in {"", "\r"}
    ensures ParseLine(key + "=" + rest + cr)
         == match ParseValue(rest) case Ok(value) => Assign(key, value) case Error => Bad
    ensures '\n' !in key + "=" + rest + cr
  {
    var raw := key + "=" + rest;
    forall c | c in raw ensures !IsControl(c) {
      assert c in key || c == '=' || c in rest;
    }
    assert raw[|raw| - 1] in raw;
    assert WithoutCr(raw + cr) == raw by {
      assert cr == "\r" ==> (raw + cr)[..|raw + cr| - 1] == raw;
      assert cr == "" ==> raw + cr == raw;
    }
    assert key[0] in key && raw[0] == key[0];
    StripStart(raw);
    assert '=' !in key;
    FindFirst(key, '=', rest);
    assert raw == key + ['='] + rest && raw[..|key|] == key && raw[|key| + 1..] == rest;
    assert '\n' !in raw by {
      assert '\n' in raw ==> IsControl('\n');
    }
  }

  lemma ControlLine(key: string, rest: string, cr: string)
    requires IsKey(key) && cr in {"", "\r"} && exists c <- rest :: IsControl(c) && !IsSpace(c)
    ensures ParseLine(key + "=" + rest + cr) == Bad
  {
    var raw := key + "=" + rest;
    var c :| c in rest && IsControl(c) && !IsSpace(c);
    var line := raw + cr;
    assert c in raw;
    assert WithoutCr(line) == raw || WithoutCr(line) == raw[..|raw| - 1] by {
      assert cr == "\r" ==> line[..|line| - 1] == raw;
      assert cr == "" ==> line == raw;
    }
    assert c in WithoutCr(line) by {
      var i :| 0 <= i < |raw| && raw[i] == c;
      assert c != '\r';
      if WithoutCr(line) != raw {
        assert Ends(raw, '\r');
        assert raw[..|raw| - 1][i] == c;
      }
    }
  }

  /** A rendered value on its line: read back exactly when it is writable, refused otherwise. */
  lemma WrittenLine(key: string, value: string, cr: string)
    requires IsKey(key) && RenderValue(value).Ok? && cr in {"", "\r"}
    ensures ParseLine(key + "=" + RenderValue(value).value + cr) == if Writable(value) then Assign(key, value) else Bad
    ensures '\n' !in key + "=" + RenderValue(value).value + cr
  {
    if Writable(value) {
      RenderedValue(value);
      AssignmentLine(key, RenderValue(value).value, cr);
    } else {
      ControlLine(key, value, cr);
      var line := key + "=" + value + cr;
      if '\n' in line {
        assert false;
      }
    }
  }

  // ---------------------------------------------------------------- escaping is undone

  lemma {:induction false} UnescapeEscape(value: string)
    ensures Unescape(Escape(value)) == Ok(value)
  {
    if value != "" {
      UnescapeEscape(value[1..]);
      var c, rest := value[0], Escape(value[1..]);
      assert Escape(value) == (if c == '\\' || c == '"' then ['\\', c] else [c]) + rest;
      assert c == '\\' || c == '"' ==> Escape(value)[2..] == rest;
      assert c != '\\' && c != '"' ==> Escape(value)[1..] == rest;
      assert value == [c] + value[1..];
    }
  }

  lemma {:induction false} EscapeThenClose(front: string, value: string, tail: string)
    ensures ClosingQuote(front + Escape(value) + "\"" + tail, |front|) == Some(|front| + |Escape(value)|)
    decreases |value|
  {
    var s := front + Escape(value) + "\"" + tail;
    if value == "" {
      assert s[|front|] == '"';
    } else {
      var c, rest := value[0], Escape(value[1..]);
      var code := if c == '\\' || c == '"' then ['\\', c] else [c];
      assert Escape(value) == code + rest;
      assert s == (front + code) + rest + "\"" + tail;
      EscapeThenClose(front + code, value[1..], tail);
      assert s[|front|] == code[0];
    }
  }

  /** Escaping backslash and quote and parsing is the identity, whatever comment follows. */
  lemma EscapedValue(value: string, tail: string)
    requires IsTail(tail)
    ensures ParseValue("\"" + Escape(value) + "\"" + tail) == if HasControl(value) then Error else Ok(value)
  {
    hide ClosingQuote, Escape, Unescape, StripLeft, StripRight, Find;
    var rest := "\"" + Escape(value) + "\"" + tail;
    EscapeThenClose("\"", value, tail);
    UnescapeEscape(value);
    var end := 1 + |Escape(value)|;
    assert rest[1..end] == Escape(value) && rest[end + 1..] == tail;
  }

  // ---------------------------------------------------------------- parsing line by line

  lemma {:induction false} ParseAppend(a: seq<string>, b: seq<string>, keys: seq<string>, values: map<string, string>)
    ensures ParseLines(a + b, keys, values)
         == match ParseLines(a, keys, values) case Ok(sofar) => ParseLines(b, keys, sofar) case Error => Error
  {
    if a == [] {
      assert a + b == b;
    } else {
      assert (a + b)[1..] == a[1..] + b;
      match ParseLine(a[0]) {
        case Blank => ParseAppend(a[1..], b, keys, values);
        case Bad =>
        case Assign(key, value) =>
          if key in keys && key !in values {
            ParseAppend(a[1..], b, keys, values[key := value]);
          }
      }
    }
  }

  /** The last line decides on top of what the lines before it gave. */
  lemma ParseLast(lines: seq<string>, keys: seq<string>, values: map<string, string>)
    requires lines != []
    ensures ParseLines(lines, keys, values)
         == match ParseLines(lines[..|lines| - 1], keys, values)
            case Ok(sofar) => ParseLines([lines[|lines| - 1]], keys, sofar)
            case Error => Error
  {
    assert lines == lines[..|lines| - 1] + [lines[|lines| - 1]];
    ParseAppend(lines[..|lines| - 1], [lines[|lines| - 1]], keys, values);
  }

  lemma NoLine(keys: seq<string>, values: map<string, string>)
    ensures ParseLines([], keys, values) == Ok(values)
  {
  }

  lemma OneLine(line: string, keys: seq<string>, values: map<string, string>)
    ensures ParseLines([line], keys, values)
         == match ParseLine(line)
            case Blank => Ok(values)
            case Bad => Error
            case Assign(key, value) => if key !in keys || key in values then Error else Ok(values[key := value])
  {
    assert [line][1..] == [];
  }

  // ---------------------------------------------------------------- snapshot round trip

  function Only(values: map<string, string>, keys: seq<string>): map<string, string> {
    map key | key in values && key in keys :: values[key]
  }

  lemma OnlyFirst(values: map<string, string>, keys: seq<string>, before: map<string, string>)
    requires keys != [] && keys[0] in values
    ensures before[keys[0] := values[keys[0]]] + Only(values, keys[1..]) == before + Only(values, keys)
    ensures before + Only(values, []) == before
  {
  }

  /** One line of the snapshot, read back. */
  lemma SnapshotLine(key: string, value: string, keys: seq<string>, before: map<string, string>)
    requires IsKey(key) && Renderable(value) && key in keys && key !in before
    ensures ParseLines([key + "='" + value + "'"], keys, before) == Ok(before[key := value])
    ensures '\n' !in key + "='" + value + "'"
  {
    hide ParseLine, ParseLines, ParseValue, HasControl, IsKey, Renderable;
    var quoted := "'" + value + "'";
    QuotedValue(value);
    AssignmentLine(key, quoted, "");
    assert key + "='" + value + "'" == key + "=" + quoted + "";
    OneLine(key + "='" + value + "'", keys, before);
  }

  lemma {:induction false} SnapshotParses(values: map<string, string>, rest: seq<string>, keys: seq<string>,
                                          before: map<string, string>)
    requires Declared(rest) && SnapshotLines(values, rest).Ok?
    requires forall i :: 0 <= i < |rest| ==> rest[i] in keys && rest[i] !in before
    ensures ParseLines(SnapshotLines(values, rest).value, keys, before) == Ok(before + Only(values, rest))
    ensures forall line <- SnapshotLines(values, rest).value :: '\n' !in line
  {
    hide ParseLine, ParseLines, IsKey, Renderable, Only;
    if rest == [] {
      NoLine(keys, before);
      assert before + Only(values, []) == before by {
        NothingAdded(values, before);
      }
    } else {
      var key := rest[0];
      var value := values[key];
      SnapshotLine(key, value, keys, before);
      SnapshotParses(values, rest[1..], keys, before[key := value]);
      OnlyFirst(values, rest, before);
      ParseAppend([key + "='" + value + "'"], SnapshotLines(values, rest[1..]).value, keys, before);
    }
  }

  lemma {:induction false} SnapshotExists(values: map<string, string>, keys: seq<string>)
    ensures SnapshotLines(values, keys).Ok? <==>
            forall i :: 0 <= i < |keys| ==> keys[i] in values && Renderable(values[keys[i]])
  {
    if keys != [] {
      SnapshotExists(values, keys[1..]);
      assert forall i :: 1 <= i < |keys| ==> keys[i] == keys[1..][i - 1];
    }
  }

  /** The frozen snapshot exists exactly for complete renderable values, and parses back to them. */
  lemma SnapshotRoundTrip(values: map<string, string>, keys: seq<string>)
    requires Declared(keys)
    ensures RenderEnv(values, keys).Ok? <==>
            forall i :: 0 <= i < |keys| ==> keys[i] in values && Renderable(values[keys[i]])
    ensures RenderEnv(values, keys).Ok? ==>
              ParseEnv(RenderEnv(values, keys).value, keys, true) == Ok(Only(values, keys))
  {
    hide ParseLine, Join, Split, IsKey, ParseLines, SnapshotLines;
    SnapshotExists(values, keys);
    if RenderEnv(values, keys).Ok? {
      var lines := SnapshotLines(values, keys).value;
      SnapshotParses(values, keys, keys, map[]);
      var text, all := RenderEnv(values, keys).value, [HEADER] + lines + [""];
      JoinOne("");
      JoinAppend([HEADER] + lines, [""]);
      assert text == Join(all);
      assert '\n' !in HEADER && ParseLine(HEADER) == Blank by {
        HeaderIsComment();
      }
      SplitOfJoin(all);
      ParseAppend([HEADER] + lines, [""], keys, map[]);
      ParseAppend([HEADER], lines, keys, map[]);
      OneLine(HEADER, keys, map[]);
      OneLine("", keys, Only(values, keys));
      assert ParseLines([HEADER] + lines, keys, map[]) == Ok(Only(values, keys)) by {
        assert map[] + Only(values, keys) == Only(values, keys);
      }
      assert ParseLine("") == Blank by {
        BlankLine();
      }
      assert ParseLines(all, keys, map[]) == Ok(Only(values, keys));
      assert map[] + Only(values, keys) == Only(values, keys);
      assert Complete(Only(values, keys), keys);
    }
  }

  lemma BlankLine()
    ensures ParseLine("") == Blank
  {
  }

  lemma HeaderIsComment()
    ensures '\n' !in HEADER && ParseLine(HEADER) == Blank
  {
    forall c | c in HEADER ensures !IsControl(c) {
    }
    hide Find, ParseValue, IsKey, StripLeft, StripRight;
    assert HEADER[0] == '#';
    assert WithoutCr(HEADER) == HEADER;
    StripStart(HEADER);
  }

  // ---------------------------------------------------------------- rewriting in place

  /** The key that the rewriter sees on a line. */
  function RewriterKey(piece: string): Option<string> {
    var body := WithoutCr(piece);
    var stripped := Strip(body);
    if stripped == "" || stripped[0] == '#' then None
    else match Find(body, '=', 0)
      case None => None
      case Some(eq) => Some(body[..eq])
  }

  /** On every line that parses, parser and rewriter see the same key. */
  lemma SameKey(piece: string)
    requires !ParseLine(piece).Bad?
    ensures RewriterKey(piece) == match ParseLine(piece) case Assign(key, _) => Some(key) case _ => None
    ensures ParseLine(piece).Assign? ==> IsKey(ParseLine(piece).key)
  {
  }

  function Ending(piece: string): string {
    if Ends(piece, '\r') then "\r" else ""
  }

  /** A line of an overridden key is written anew with its own line ending; any other line is kept as it is. */
  function Rewritten(piece: string, overrides: map<string, string>): Result<string> {
    match ParseLine(piece)
    case Assign(key, _) =>
      if key !in overrides then Ok(piece)
      else (match RenderValue(overrides[key])
            case Ok(text) => Ok(key + "=" + text + Ending(piece))
            case Error => Error)
    case _ => Ok(piece)
  }

  ghost predicate Rewrites(before: seq<string>, after: seq<string>, overrides: map<string, string>) {
    && |before| == |after|
    && forall i :: 0 <= i < |before| ==> Rewritten(before[i], overrides) == Ok(after[i])
  }

  function Override(values: map<string, string>, overrides: map<string, string>): map<string, string> {
    map key | key in values :: if key in overrides then overrides[key] else values[key]
  }

  predicate AllWritable(values: map<string, string>, overrides: map<string, string>) {
    forall key :: key in values && key in overrides ==> Writable(overrides[key])
  }

  function Occurrences(lines: seq<string>, key: string): nat {
    if lines == [] then 0
    else Occurrences(lines[..|lines| - 1], key) + if RewriterKey(lines[|lines| - 1]) == Some(key) then 1 else 0
  }

  /** A file that parses has one line for every key it assigns and none for any other. */
  lemma {:induction false} OneLineEach(lines: seq<string>, keys: seq<string>, key: string)
    requires ParseLines(lines, keys, map[]).Ok?
    ensures Occurrences(lines, key) == if key in ParseLines(lines, keys, map[]).value then 1 else 0
  {
    if lines != [] {
      var front, last := lines[..|lines| - 1], lines[|lines| - 1];
      ParseLast(lines, keys, map[]);
      OneLineEach(front, keys, key);
      OneLine(last, keys, ParseLines(front, keys, map[]).value);
      SameKey(last);
    }
  }

  lemma {:induction false} ParsedLine(lines: seq<string>, keys: seq<string>, values: map<string, string>, i: nat)
    requires ParseLines(lines, keys, values).Ok? && i < |lines|
    ensures !ParseLine(lines[i]).Bad?
    ensures ParseLine(lines[i]).Assign? ==> ParseLine(lines[i]).key in ParseLines(lines, keys, values).value
    decreases |lines|
  {
    ParseLast(lines, keys, values);
    var front, last := lines[..|lines| - 1], lines[|lines| - 1];
    OneLine(last, keys, ParseLines(front, keys, values).value);
    if i < |lines| - 1 {
      ParsedLine(front, keys, values, i);
      assert front[i] == lines[i];
    }
  }

  /** Rewriting overrides the values, and succeeds exactly when every override used is writable. */
  lemma {:induction false} RewrittenParses(before: seq<string>, after: seq<string>, keys: seq<string>,
                                           overrides: map<string, string>)
    requires ParseLines(before, keys, map[]).Ok? && Rewrites(before, after, overrides)
    ensures ParseLines(after, keys, map[])
         == if AllWritable(ParseLines(before, keys, map[]).value, overrides)
            then Ok(Override(ParseLines(before, keys, map[]).value, overrides)) else Error
  {
    hide ParseLine, ParseLines, Writable, RenderValue, RewriterKey, IsKey;
    if before == [] {
      NoLine(keys, map[]);
      assert after == [] && Override(map[], overrides) == map[];
    } else {
      var n := |before| - 1;
      ParseLast(before, keys, map[]);
      ParseLast(after, keys, map[]);
      RewrittenParses(before[..n], after[..n], keys, overrides);
      var values := ParseLines(before[..n], keys, map[]).value;
      OneLine(before[n], keys, values);
      OneLine(after[n], keys, Override(values, overrides));
      match ParseLine(before[n]) {
        case Bad =>
        case Blank =>
        case Assign(key, value) =>
          SameKey(before[n]);
          var next := values[key := value];
          if key in overrides {
            WrittenLine(key, overrides[key], Ending(before[n]));
            assert Override(values, overrides)[key := overrides[key]] == Override(next, overrides);
          } else {
            assert Override(values, overrides)[key := value] == Override(next, overrides);
          }
      }
    }
  }

  lemma {:induction false} NoNewLines(before: seq<string>, after: seq<string>, overrides: map<string, string>)
    requires Rewrites(before, after, overrides) && forall line <- before :: '\n' !in line
    ensures forall line <- after :: '\n' !in line
  {
    forall line | line in after ensures '\n' !in line {
      var i :| 0 <= i < |after| && after[i] == line;
      assert before[i] in before && Rewritten(before[i], overrides) == Ok(after[i]);
      if line != before[i] {
        SameKey(before[i]);
        WrittenLine(ParseLine(before[i]).key, overrides[ParseLine(before[i]).key], Ending(before[i]));
      }
    }
  }

  // ---------------------------------------------------------------- appending

  /** The keys to append, in declaration order. */
  function Extra(keys: seq<string>, append: map<string, string>): seq<string> {
    if keys == [] then []
    else Extra(keys[..|keys| - 1], append) + if keys[|keys| - 1] in append then [keys[|keys| - 1]] else []
  }

  lemma {:induction false} ExtraKeys(keys: seq<string>, append: map<string, string>)
    requires Declared(keys)
    ensures Declared(Extra(keys, append))
    ensures forall key :: key in Extra(keys, append) <==> key in keys && key in append
  {
    if keys != [] {
      var front := keys[..|keys| - 1];
      ExtraKeys(front, append);
      assert keys == front + [keys[|keys| - 1]];
      assert forall i :: 0 <= i < |front| ==> front[i] == keys[i];
    }
  }

  function AppendLines(extra: seq<string>, append: map<string, string>): Result<seq<string>>
    requires forall key <- extra :: key in append
  {
    if extra == [] then Ok([])
    else
      var key := extra[|extra| - 1];
      match AppendLines(extra[..|extra| - 1], append)
      case Error => Error
      case Ok(lines) =>
        match RenderValue(append[key])
        case Ok(text) => Ok(lines + [key + "=" + text])
        case Error => Error
  }

  function Unlines(lines: seq<string>): string {
    if lines == [] then "" else Unlines(lines[..|lines| - 1]) + lines[|lines| - 1] + "\n"
  }

  lemma {:induction false} UnlinesJoins(lines: seq<string>)
    ensures Unlines(lines) == Join(lines + [""])
  {
    hide Join;
    JoinOne("");
    if lines == [] {
      assert lines + [""] == [""];
    } else {
      var front, last := lines[..|lines| - 1], lines[|lines| - 1];
      UnlinesJoins(front);
      JoinAppend(lines, [""]);
      assert lines == front + [last];
      if front == [] {
        assert lines == [last];
        JoinOne(last);
      } else {
        JoinAppend(front, [last]);
        JoinAppend(front, [""]);
        JoinOne(last);
      }
    }
  }

  predicate Addable(extra: seq<string>, append: map<string, string>, values: map<string, string>)
    requires forall key <- extra :: key in append
  {
    forall key <- extra :: key !in values && Writable(append[key])
  }

  lemma AddableLast(front: seq<string>, key: string, append: map<string, string>, values: map<string, string>)
    requires key in append && key !in front && forall other <- front :: other in append
    ensures Addable(front + [key], append, values)
       <==> Addable(front, append, values) && key !in values + Only(append, front) && Writable(append[key])
    ensures (values + Only(append, front))[key := append[key]] == values + Only(append, front + [key])
  {
    hide Writable;
    assert key in front + [key];
    forall other | other in front + [key] ensures other in front || other == key {
    }
    if Addable(front + [key], append, values) {
      forall other | other in front ensures other !in values && Writable(append[other]) {
        assert other in front + [key];
      }
    }
  }

  /** The appended lines add their values, and parse exactly when all are writable and none repeats a key. */
  lemma {:induction false} AppendParses(extra: seq<string>, append: map<string, string>, keys: seq<string>,
                                        values: map<string, string>)
    requires Declared(extra) && forall key <- extra :: key in append && key in keys
    requires AppendLines(extra, append).Ok?
    ensures ParseLines(AppendLines(extra, append).value, keys, values)
         == if Addable(extra, append, values) then Ok(values + Only(append, extra)) else Error
  {
    hide ParseLine, ParseLines, Writable, RenderValue, IsKey, Addable, Only;
    var lines := AppendLines(extra, append).value;
    if extra == [] {
      NoLine(keys, values);
      NothingAdded(append, values);
    } else {
      var n := |extra| - 1;
      var front, key := extra[..n], extra[n];
      assert extra == front + [key];
      assert key !in front by {
        assert forall i :: 0 <= i < n ==> front[i] == extra[i];
      }
      AppendParses(front, append, keys, values);
      AddableLast(front, key, append, values);
      AppendedLineEnds(extra, append);
      AppendedLineEnds(front, append);
      assert lines[..n] == AppendLines(front, append).value;
      ParseLast(lines, keys, values);
      WrittenLine(key, append[key], "");
      assert lines[n] + "" == lines[n];
      OneLine(lines[n], keys, values + Only(append, front));
    }
  }

  lemma NothingAdded(append: map<string, string>, values: map<string, string>)
    ensures Addable([], append, values) && values + Only(append, []) == values
  {
  }

  lemma {:induction false} AppendedLineEnds(extra: seq<string>, append: map<string, string>)
    requires Declared(extra) && forall key <- extra :: key in append
    requires AppendLines(extra, append).Ok?
    ensures forall line <- AppendLines(extra, append).value :: '\n' !in line
    ensures |AppendLines(extra, append).value| == |extra|
  {
    hide ParseLine, RenderValue, IsKey, Writable;
    if extra != [] {
      var n := |extra| - 1;
      AppendedLineEnds(extra[..n], append);
      WrittenLine(extra[n], append[extra[n]], "");
      var text := RenderValue(append[extra[n]]).value;
      assert extra[n] + "=" + text + "" == extra[n] + "=" + text;
    }
  }

  /** The text with the appended lines: on a new line when the file does not end with one. */
  function WithAppended(text: string, lines: seq<string>): string {
    if lines == [] then text
    else (if text != "" && !Ends(text, '\n') then text + "\n" else text) + Unlines(lines)
  }

  /** The lines up to the empty one after a final newline. */
  function Front(lines: seq<string>): seq<string>
    requires lines != []
  {
    if lines[|lines| - 1] == "" then lines[..|lines| - 1] else lines
  }

  lemma {:induction false} JoinEnd(lines: seq<string>)
    requires lines != [] && forall line <- lines :: '\n' !in line
    ensures lines[|lines| - 1] == "" <==> Join(lines) == "" || Ends(Join(lines), '\n')
  {
    var n := |lines| - 1;
    if n == 0 {
      assert lines[0] in lines;
    } else {
      JoinAppend(lines[..n], [lines[n]]);
      assert lines == lines[..n] + [lines[n]] && lines[n] in lines;
    }
  }

  lemma AppendedJoin(lines: seq<string>, more: seq<string>)
    requires lines != [] && more != [] && forall line <- lines :: '\n' !in line
    ensures WithAppended(Join(lines), more) == Join(Front(lines) + more + [""])
  {
    hide Join, Unlines;
    var front := Front(lines);
    JoinEnd(lines);
    UnlinesJoins(more);
    if front == [] {
      assert lines == [""] && front + more + [""] == more + [""];
      JoinOne("");
    } else {
      JoinAppend(front, more + [""]);
      assert front + more + [""] == front + (more + [""]);
      if lines[|lines| - 1] == "" {
        JoinAppend(front, [""]);
        JoinOne("");
        assert lines == front + [""];
      }
    }
  }

  lemma AppendedSplit(lines: seq<string>, more: seq<string>)
    requires lines != [] && (forall line <- lines :: '\n' !in line) && (forall line <- more :: '\n' !in line)
    ensures Split(WithAppended(Join(lines), more)) == if more == [] then lines else Front(lines) + more + [""]
  {
    hide Join, Split, Unlines;
    if more == [] {
      SplitOfJoin(lines);
    } else {
      AppendedJoin(lines, more);
      SplitOfJoin(Front(lines) + more + [""]);
    }
  }

  lemma FrontParses(lines: seq<string>, keys: seq<string>)
    requires lines != []
    ensures ParseLines(Front(lines), keys, map[]) == ParseLines(lines, keys, map[])
  {
    ParseLast(lines, keys, map[]);
    if lines[|lines| - 1] == "" && ParseLines(Front(lines), keys, map[]).Ok? {
      OneLine("", keys, ParseLines(Front(lines), keys, map[]).value);
    }
  }

  // ---------------------------------------------------------------- the rewriter

  /** What a caller can check before the call. */
  ghost predicate Acceptable(base: string, keys: seq<string>, overrides: map<string, string>,
                             append: map<string, string>)
  {
    && ParseEnv(base, keys, false).Ok?
    && var values := ParseEnv(base, keys, false).value;
    && overrides.Keys <= values.Keys
    && append.Keys !! values.Keys
    && (forall key :: key in append ==> key in keys && Writable(append[key]))
    && (forall key :: key in overrides ==> Writable(overrides[key]))
    && (forall key :: key in keys ==> key in values || key in append)
  }

  /** Line by line the same text, but for the overridden lines and what is appended at the end. */
  ghost predicate LinePreserving(base: string, text: string, keys: seq<string>, overrides: map<string, string>,
                                 append: map<string, string>)
    requires Declared(keys)
  {
    ExtraKeys(keys, append);
    exists lines :: Rewrites(Split(base), lines, overrides) && AppendsTo(text, lines, Extra(keys, append), append)
  }

  ghost predicate AppendsTo(text: string, lines: seq<string>, extra: seq<string>, append: map<string, string>)
    requires forall key <- extra :: key in append
  {
    AppendLines(extra, append).Ok? && text == WithAppended(Join(lines), AppendLines(extra, append).value)
  }

  lemma {:induction false} OnlyDeclared(lines: seq<string>, keys: seq<string>)
    requires ParseLines(lines, keys, map[]).Ok?
    ensures forall key :: key in ParseLines(lines, keys, map[]).value ==> key in keys
  {
    if lines != [] {
      var front, last := lines[..|lines| - 1], lines[|lines| - 1];
      ParseLast(lines, keys, map[]);
      OnlyDeclared(front, keys);
      OneLine(last, keys, ParseLines(front, keys, map[]).value);
    }
  }

  /** The self-check of the rewriter succeeds exactly for acceptable requests, with the intended values. */
  lemma SelfCheck(base: string, text: string, lines: seq<string>, keys: seq<string>, overrides: map<string, string>,
                  append: map<string, string>)
    requires Declared(keys) && ParseEnv(base, keys, false).Ok?
    requires overrides.Keys <= ParseEnv(base, keys, false).value.Keys
    requires forall key :: key in append ==> key in keys
    requires Rewrites(Split(base), lines, overrides)
    requires forall key <- Extra(keys, append) :: key in append
    requires AppendsTo(text, lines, Extra(keys, append), append)
    ensures ParseEnv(text, keys, true).Ok? <==> Acceptable(base, keys, overrides, append)
    ensures ParseEnv(text, keys, true).Ok? ==>
              ParseEnv(text, keys, true).value == ParseEnv(base, keys, false).value + overrides + append
  {
    hide ParseLine, ParseLines, Writable, RenderValue, IsKey, Join, Split, Rewritten, WithAppended, Extra,
         AppendLines, Front;
    var values := ParseEnv(base, keys, false).value;
    var extra := Extra(keys, append);
    var more := AppendLines(extra, append).value;
    ExtraKeys(keys, append);
    RewrittenParses(Split(base), lines, keys, overrides);
    NoNewLines(Split(base), lines, overrides);
    AppendParses(extra, append, keys, Override(values, overrides));
    AppendedLineEnds(extra, append);
    AppendedSplit(lines, more);
    assert Override(values, overrides) == values + overrides;
    assert Only(append, extra) == append;
    if more == [] {
      assert append == map[];
      assert values + overrides + append == values + overrides;
    } else {
      FrontParses(lines, keys);
      ParseAppend(Front(lines) + more, [""], keys, map[]);
      ParseAppend(Front(lines), more, keys, map[]);
      OneLine("", keys, values + overrides + append);
      BlankLine();
    }
    assert ParseLines(Split(text), keys, map[])
        == if AllWritable(values, overrides) && Addable(extra, append, values + overrides)
           then Ok(values + overrides + append) else Error;
  }

  /** The line loop: overridden lines are replaced and counted; None when a value cannot be rendered. */
  method OverrideLines(before: seq<string>, keys: seq<string>, overrides: map<string, string>)
    returns (r: Option<seq<string>>, seen: map<string, nat>)
    requires ParseLines(before, keys, map[]).Ok?
    ensures r.Some? ==> Rewrites(before, r.value, overrides)
    ensures r.Some? ==>
              forall key <- overrides ::
                (key in seen && seen[key] == 1) <==> key in ParseLines(before, keys, map[]).value
    ensures r.None? ==> exists key <- overrides :: RenderValue(overrides[key]).Error?
  {
    hide ParseLine, ParseLines, RenderValue, Find, Strip, WithoutCr, IsKey;
    var pieces := before;
    seen := map[];
    for index := 0 to |pieces|
      invariant |pieces| == |before|
      invariant forall i :: index <= i < |before| ==> pieces[i] == before[i]
      invariant forall i :: 0 <= i < index ==> Rewritten(before[i], overrides) == Ok(pieces[i])
      invariant forall key <- overrides ::
                  (if key in seen then seen[key] else 0) == Occurrences(before[..index], key)
    {
      ParsedLine(before, keys, map[], index);
      SameKey(before[index]);
      assert before[..index + 1][..index] == before[..index];
      var key := RewriterKey(pieces[index]);
      if key.Some? && key.value in overrides {
        seen := seen[key.value := 1 + if key.value in seen then seen[key.value] else 0];
        var text := RenderValue(overrides[key.value]);
        if text.Error? {
          return None, seen;
        }
        pieces := pieces[index := key.value + "=" + text.value + Ending(pieces[index])];
      }
    }
    assert before[..|before|] == before;
    forall key | key in overrides
      ensures (key in seen && seen[key] == 1) <==> key in ParseLines(before, keys, map[]).value
    {
      OneLineEach(before, keys, key);
    }
    r := Some(pieces);
  }

  lemma NothingAppended(append: map<string, string>)
    ensures AppendLines([], append) == Ok([]) && Unlines([]) == ""
  {
  }

  lemma OneMore(extra: seq<string>, k: nat, append: map<string, string>, lines: seq<string>)
    requires k < |extra| && forall key <- extra :: key in append
    requires AppendLines(extra[..k], append) == Ok(lines) && RenderValue(append[extra[k]]).Ok?
    ensures AppendLines(extra[..k + 1], append) == Ok(lines + [extra[k] + "=" + RenderValue(append[extra[k]]).value])
    ensures forall line: string :: Unlines(lines + [line]) == Unlines(lines) + line + "\n"
  {
    hide RenderValue;
    assert extra[..k + 1][..k] == extra[..k];
    forall line: string ensures Unlines(lines + [line]) == Unlines(lines) + line + "\n" {
      assert (lines + [line])[..|lines|] == lines;
    }
  }

  /** The appended lines, after a final newline is ensured; None when a value cannot be rendered. */
  method AppendExtra(text: string, extra: seq<string>, append: map<string, string>) returns (r: Option<string>)
    requires forall key <- extra :: key in append
    ensures r.Some? ==>
              AppendLines(extra, append).Ok? && r.value == WithAppended(text, AppendLines(extra, append).value)
    ensures r.None? ==> exists key <- extra :: RenderValue(append[key]).Error?
  {
    NothingAppended(append);
    hide RenderValue, AppendLines, Unlines;
    if extra == [] {
      return Some(text);
    }
    var all := text;
    if all != "" && !Ends(all, '\n') {
      all := all + "\n";
    }
    ghost var start, lines := all, [];
    for k := 0 to |extra|
      invariant AppendLines(extra[..k], append) == Ok(lines) && all == start + Unlines(lines) && |lines| == k
    {
      var rendered := RenderValue(append[extra[k]]);
      if rendered.Error? {
        return None;
      }
      OneMore(extra, k, append, lines);
      var line := extra[k] + "=" + rendered.value;
      assert start + Unlines(lines + [line]) == all + line + "\n";
      all := all + line + "\n";
      lines := lines + [line];
    }
    assert extra[..|extra|] == extra;
    r := Some(all);
  }

  method RewriteAppEnv(base: string, keys: seq<string>, overrides: map<string, string>, append: map<string, string>)
    returns (r: Result<string>)
    requires Declared(keys)
    ensures r.Ok? <==> Acceptable(base, keys, overrides, append)
    ensures r.Ok? ==> ParseEnv(r.value, keys, true) == Ok(ParseEnv(base, keys, false).value + overrides + append)
    ensures r.Ok? ==> LinePreserving(base, r.value, keys, overrides, append)
  {
    hide ParseLine, ParseLines, Complete, Writable, RenderValue, IsKey, Join, Split, Rewrites, Extra;
    var parsed := ParseAppEnv(base, keys, false);
    if parsed.Error? {
      return Error;
    }
    var intended := parsed.value;
    OnlyDeclared(Split(base), keys);
    if exists key :: key in overrides.Keys + append.Keys && key !in keys {
      return Error;
    }
    var pieces, seen := OverrideLines(Split(base), keys, overrides);
    if pieces.None? {
      ghost var key :| key in overrides && RenderValue(overrides[key]).Error?;
      NotRendered(overrides[key]);
      return Error;
    }
    if exists key :: key in overrides.Keys && (key !in seen || seen[key] != 1) {
      return Error;
    }
    var extra := Extra(keys, append);
    ExtraKeys(keys, append);
    var text := AppendExtra(Join(pieces.value), extra, append);
    if text.None? {
      ghost var key :| key in extra && RenderValue(append[key]).Error?;
      NotRendered(append[key]);
      return Error;
    }
    SelfCheck(base, text.value, pieces.value, keys, overrides, append);
    parsed := ParseAppEnv(text.value, keys, true);
    if parsed.Error? || parsed.value != intended + overrides + append {
      return Error;
    }
    r := Ok(text.value);
  }
}
