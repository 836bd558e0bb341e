/**
 Recovering a JSON object from the text of a model's answer: fence stripping, then a scan that balances braces
 outside strings. The objects are those of RFC 8259; their concrete syntax is a tree that prints itself.
 */
module JsonText {
  import opened Domain

  // ---------------------------------------------------------------- text functions of Go's library

  /** `unicode.IsSpace`. */
  predicate IsSpace(c: char) {
    || c == ' ' || c == '\t' || c == '\n' || c == '\r'
    || c == '\U{000B}' || c == '\U{000C}' || c == '\U{0085}' || c == '\U{00A0}' || c == '\U{1680}'
    || '\U{2000}' <= c <= '\U{200A}' || c == '\U{2028}' || c == '\U{2029}' || c == '\U{202F}'
    || c == '\U{205F}' || c == '\U{3000}'
  }

  function TrimLeft(s: string): string {
    if |s| > 0 && IsSpace(s[0]) then TrimLeft(s[1..]) else s
  }

  function TrimRight(s: string): string {
    if |s| > 0 && IsSpace(s[|s| - 1]) then TrimRight(s[..|s| - 1]) else s
  }

  function TrimSpace(s: string): string { TrimRight(TrimLeft(s)) }

  /** First index of a character, -1 if it does not occur. */
  function IndexOf(s: string, c: char): (i: int)
    ensures -1 <= i < |s|
    ensures i >= 0 ==> s[i] == c && forall j | 0 <= j < i :: s[j] != c
    ensures i == -1 ==> c !in s
  {
    if |s| == 0 then -1
    else if s[0] == c then 0
    else var i := IndexOf(s[1..], c); if i < 0 then -1 else i + 1
  }

  predicate FenceAt(s: string, i: int) { 0 <= i <= |s| - 3 && s[i] == '`' && s[i + 1] == '`' && s[i + 2] == '`' }

  ghost predicate HasFence(s: string) { exists i :: FenceAt(s, i) }

  function LastFenceBelow(s: string, n: nat): (i: int)
    ensures i >= 0 ==> FenceAt(s, i) && i < n
    ensures forall j | i < j < n :: !FenceAt(s, j)
    ensures i >= -1
  {
    if n == 0 then -1 else if FenceAt(s, n - 1) then n - 1 else LastFenceBelow(s, n - 1)
  }

  /** `strings.LastIndex` of a fence, -1 if there is none. */
  function LastFence(s: string): (i: int)
    ensures -1 <= i < |s| || i == -1
    ensures i >= 0 ==> FenceAt(s, i)
    ensures forall j | i < j :: !FenceAt(s, j)
  {
    LastFenceBelow(s, |s|)
  }

  // ---------------------------------------------------------------- the scanner

  datatype ScanState = ScanState(depth: int, inString: bool, escaped: bool)

  /** Still scanning, or done after so many characters. */
  datatype Progress = Scanning(st: ScanState) | Found(length: nat)

  function Step(st: ScanState, c: char): Progress {
    if c == '\\' then Scanning(if st.inString then st.(escaped := !st.escaped) else st)
    else if c == '"' then Scanning(ScanState(st.depth, if st.escaped then st.inString else !st.inString, false))
    else if c == '{' && !st.inString then Scanning(st.(depth := st.depth + 1, escaped := false))
    else if c == '}' && !st.inString then
      if st.depth == 1 then Found(1) else Scanning(st.(depth := st.depth - 1, escaped := false))
    else Scanning(st.(escaped := false))
  }

  function Run(st: ScanState, s: string): (p: Progress)
    ensures p.Found? ==> 1 <= p.length <= |s|
    decreases |s|
  {
    if |s| == 0 then Scanning(st)
    else
      match Step(st, s[0])
      case Found(_) => Found(1)
      case Scanning(next) =>
        match Run(next, s[1..])
        case Scanning(last) => Scanning(last)
        case Found(n) => Found(n + 1)
  }

  const START: ScanState := ScanState(0, false, false)

  /** The object that begins at the first brace. */
  function FirstObject(s: string): Result<string> {
    var start := IndexOf(s, '{');
    if start < 0 then Err
    else
      match Run(START, s[start..])
      case Scanning(_) => Err
      case Found(n) => Ok(s[start..start + n])
  }

  predicate OpensFence(s: string) { FenceAt(s, 0) }

  function CutFence(s: string): string {
    var end := LastFence(s);
    if end >= 0 then TrimSpace(s[..end]) else s
  }

  /** What is left to scan: nothing if a fence is opened on the only line. */
  function Unfenced(raw: string): Option<string> {
    var trimmed := TrimSpace(raw);
    if !OpensFence(trimmed) then Some(trimmed)
    else
      var line := IndexOf(trimmed, '\n');
      if line < 0 then None else Some(CutFence(TrimSpace(trimmed[line + 1..])))
  }

  function Extract(raw: string): Result<string> {
    match Unfenced(raw)
    case None => Err
    case Some(text) => FirstObject(text)
  }

  /** `extractJSONObject`, up to the scan. */
  method ExtractJSONObject(raw: string) returns (result: Result<string>)
    ensures result == Extract(raw)
  {
    hide TrimSpace, LastFence, FirstObject, FenceAt;
    var trimmed := TrimSpace(raw);
    if trimmed == "" {
      NothingToFind();
      return Err;
    }
    if OpensFence(trimmed) {
      var firstLineEnd := IndexOf(trimmed, '\n');
      if firstLineEnd == -1 { return Err; }
      trimmed := TrimSpace(trimmed[firstLineEnd + 1..]);
      var end := LastFence(trimmed);
      if end >= 0 { trimmed := TrimSpace(trimmed[..end]); }
    }
    result := ScanObject(trimmed);
  }

  lemma NothingToFind()
    ensures FirstObject("") == Err && !OpensFence("")
  {
  }

  /** The scan: depth, string and escape flags as running variables. */
  method ScanObject(text: string) returns (result: Result<string>)
    ensures result == FirstObject(text)
  {
    hide Run;
    var start := IndexOf(text, '{');
    if start < 0 { return Err; }
    var depth, inString, escaped := 0, false, false;
    ghost var rest := text[start..];
    for i := start to |text|
      invariant Run(START, rest) == Ahead(Run(ScanState(depth, inString, escaped), text[i..]), i - start)
    {
      var c := text[i];
      RunStep(ScanState(depth, inString, escaped), text[i..]);
      assert text[i..][0] == c && text[i..][1..] == text[i + 1..];
      if c == '\\' {
        if inString { escaped := !escaped; }
      } else if c == '"' {
        if !escaped { inString := !inString; }
        escaped := false;
      } else if c == '{' {
        if !inString { depth := depth + 1; }
        escaped := false;
      } else if c == '}' {
        if !inString {
          depth := depth - 1;
          if depth == 0 { return Ok(text[start..i + 1]); }
        }
        escaped := false;
      } else {
        escaped := false;
      }
    }
    NothingRuns(ScanState(depth, inString, escaped));
    assert text[|text|..] == [];
    return Err;
  }

  lemma RunStep(st: ScanState, s: string)
    requires |s| > 0
    ensures Run(st, s) == if Step(st, s[0]).Found? then Found(1) else Ahead(Run(Step(st, s[0]).st, s[1..]), 1)
  {
  }

  function Ahead(p: Progress, steps: nat): Progress {
    match p
    case Scanning(_) => p
    case Found(n) => Found(n + steps)
  }

  // ---------------------------------------------------------------- concrete syntax of RFC 8259

  /** A character of a string, section 7: unescaped, a two-character escape, or a code point in hexadecimal. */
  datatype StrChar = Plain(c: char) | Escape(e: char) | CodePoint(hex: string)

  predicate HexDigit(c: char) { '0' <= c <= '9' || 'a' <= c <= 'f' || 'A' <= c <= 'F' }

  predicate ValidChar(x: StrChar) {
    match x
    case Plain(c) => c != '"' && c != '\\' && c >= ' '
    case Escape(e) => e in "\"\\/bfnrt"
    case CodePoint(hex) => |hex| == 4 && forall c | c in hex :: HexDigit(c)
  }

  /** White space of section 2. */
  predicate Blank(s: string) { forall c | c in s :: c == ' ' || c == '\t' || c == '\n' || c == '\r' }

  /** Numbers and literal names: no quote, no brace, no backslash. */
  predicate ValidWord(s: string) { forall c | c in s :: c != '"' && c != '\\' && c != '{' && c != '}' }

  datatype Value =
    | Word(text: string)
    | Text(chars: seq<StrChar>)
    | EmptyArray(gap: string)
    | Array(elements: Elements)
    | EmptyObject(space: string)
    | Object(members: Members)

  datatype Elements =
    | LastElement(lead: string, value: Value, trail: string)
    | MoreElements(lead: string, value: Value, trail: string, rest: Elements)

  datatype Members =
    | LastMember(lead: string, key: seq<StrChar>, gap: string, before: string, value: Value, trail: string)
    | MoreMembers(lead: string, key: seq<StrChar>, gap: string, before: string, value: Value, trail: string, rest: Members)

  predicate ValidChars(chars: seq<StrChar>) { forall x | x in chars :: ValidChar(x) }

  predicate ValidValue(v: Value) {
    match v
    case Word(text) => ValidWord(text)
    case Text(chars) => ValidChars(chars)
    case EmptyArray(gap) => Blank(gap)
    case Array(elements) => ValidElements(elements)
    case EmptyObject(space) => Blank(space)
    case Object(members) => ValidMembers(members)
  }

  predicate ValidElements(e: Elements) {
    Blank(e.lead) && ValidValue(e.value) && Blank(e.trail) && (e.MoreElements? ==> ValidElements(e.rest))
  }

  predicate ValidMembers(m: Members) {
    && Blank(m.lead) && ValidChars(m.key) && Blank(m.gap) && Blank(m.before) && ValidValue(m.value) && Blank(m.trail)
    && (m.MoreMembers? ==> ValidMembers(m.rest))
  }

  function PrintChar(x: StrChar): string {
    match x
    case Plain(c) => [c]
    case Escape(e) => ['\\', e]
    case CodePoint(hex) => ['\\', 'u'] + hex
  }

  function PrintChars(chars: seq<StrChar>): string {
    if |chars| == 0 then [] else PrintChar(chars[0]) + PrintChars(chars[1..])
  }

  function PrintString(chars: seq<StrChar>): string { ['"'] + PrintChars(chars) + ['"'] }

  function Print(v: Value): string {
    match v
    case Word(text) => text
    case Text(chars) => PrintString(chars)
    case EmptyArray(gap) => ['['] + gap + [']']
    case Array(elements) => ['['] + PrintElements(elements) + [']']
    case EmptyObject(space) => ['{'] + space + ['}']
    case Object(members) => ['{'] + PrintMembers(members) + ['}']
  }

  function PrintElements(e: Elements): string {
    var own := e.lead + Print(e.value) + e.trail;
    if e.LastElement? then own else own + [','] + PrintElements(e.rest)
  }

  function PrintMembers(m: Members): string {
    var own := m.lead + PrintString(m.key) + (m.gap + [':'] + m.before) + Print(m.value) + m.trail;
    if m.LastMember? then own else own + [','] + PrintMembers(m.rest)
  }

  // ---------------------------------------------------------------- the scanner over concatenations

  /** Scanning a text after another goes on from the state the first one left. */
  lemma {:induction false} RunConcat(st: ScanState, a: string, b: string)
    ensures Run(st, a + b) == if Run(st, a).Found? then Run(st, a) else Ahead(Run(Run(st, a).st, b), |a|)
    decreases |a|
  {
    if |a| == 0 {
      assert a + b == b;
    } else {
      assert (a + b)[0] == a[0] && (a + b)[1..] == a[1..] + b;
      if Step(st, a[0]).Scanning? {
        RunConcat(Step(st, a[0]).st, a[1..], b);
      }
    }
  }

  function Outside(depth: int): ScanState { ScanState(depth, false, false) }

  function Inside(depth: int): ScanState { ScanState(depth, true, false) }

  /** Inside any object the text leaves the scanner as it found it. */
  ghost predicate Neutral(s: string) { forall depth | depth >= 1 :: Run(Outside(depth), s) == Scanning(Outside(depth)) }

  lemma NeutralConcat(a: string, b: string)
    requires Neutral(a) && Neutral(b)
    ensures Neutral(a + b)
  {
    forall depth | depth >= 1 ensures Run(Outside(depth), a + b) == Scanning(Outside(depth)) {
      RunConcat(Outside(depth), a, b);
      assert Run(Outside(depth), a) == Scanning(Outside(depth)) && Run(Outside(depth), b) == Scanning(Outside(depth));
    }
  }

  lemma {:induction false} WordNeutral(s: string)
    requires ValidWord(s)
    ensures Neutral(s)
  {
    forall depth | depth >= 1 ensures Run(Outside(depth), s) == Scanning(Outside(depth)) {
      WordRuns(depth, s);
    }
  }

  lemma {:induction false} WordRuns(depth: int, s: string)
    requires ValidWord(s)
    ensures Run(Outside(depth), s) == Scanning(Outside(depth))
  {
    if |s| > 0 {
      assert s[0] in s;
      assert forall c | c in s[1..] :: c in s;
      WordRuns(depth, s[1..]);
    }
  }

  lemma {:induction false} HexRuns(depth: int, s: string)
    requires forall c | c in s :: HexDigit(c)
    ensures Run(Inside(depth), s) == Scanning(Inside(depth))
  {
    if |s| > 0 {
      assert s[0] in s;
      HexRuns(depth, s[1..]);
    }
  }

  /** Within a string every character of section 7 leaves the scanner within the string, unescaped. */
  lemma CharRuns(depth: int, x: StrChar)
    requires ValidChar(x)
    ensures Run(Inside(depth), PrintChar(x)) == Scanning(Inside(depth))
  {
    hide Run;
    var escaping := ScanState(depth, true, true);
    match x
    case Plain(c) => OneRuns(Inside(depth), c);
    case Escape(e) =>
      OneRuns(Inside(depth), '\\');
      OneRuns(escaping, e);
      RunConcat(Inside(depth), ['\\'], [e]);
      assert ['\\'] + [e] == ['\\', e];
    case CodePoint(hex) =>
      OneRuns(Inside(depth), '\\');
      OneRuns(escaping, 'u');
      RunConcat(Inside(depth), ['\\'], ['u']);
      assert ['\\'] + ['u'] == ['\\', 'u'];
      HexRuns(depth, hex);
      RunConcat(Inside(depth), ['\\', 'u'], hex);
  }

  lemma {:induction false} CharsRun(depth: int, chars: seq<StrChar>)
    requires ValidChars(chars)
    ensures Run(Inside(depth), PrintChars(chars)) == Scanning(Inside(depth))
  {
    hide Run, ValidChar, PrintChar;
    if |chars| == 0 {
      NothingRuns(Inside(depth));
    } else {
      CharRuns(depth, chars[0]);
      CharsRun(depth, chars[1..]);
      RunConcat(Inside(depth), PrintChar(chars[0]), PrintChars(chars[1..]));
    }
  }

  lemma NothingRuns(st: ScanState)
    ensures Run(st, []) == Scanning(st)
  {
  }

  lemma OneRuns(st: ScanState, c: char)
    ensures Run(st, [c]) == Step(st, c)
  {
    assert [c][1..] == [];
  }

  lemma StringNeutral(chars: seq<StrChar>)
    requires ValidChars(chars)
    ensures Neutral(PrintString(chars))
  {
    hide Run, ValidChars, PrintChars;
    forall depth | depth >= 1 ensures Run(Outside(depth), PrintString(chars)) == Scanning(Outside(depth)) {
      OneRuns(Outside(depth), '"');
      OneRuns(Inside(depth), '"');
      CharsRun(depth, chars);
      RunConcat(Inside(depth), PrintChars(chars), ['"']);
      RunConcat(Outside(depth), ['"'], PrintChars(chars) + ['"']);
      assert ['"'] + (PrintChars(chars) + ['"']) == PrintString(chars);
    }
  }

  /** Between its braces an object leaves the scanner one level down; the closing brace brings it back. */
  lemma BracesRun(depth: int, body: string)
    requires depth >= 0 && Neutral(body)
    ensures Run(Outside(depth), ['{'] + body + ['}']) ==
            if depth == 0 then Found(|body| + 2) else Scanning(Outside(depth))
  {
    hide Run;
    assert Run(Outside(depth + 1), body) == Scanning(Outside(depth + 1));
    OneRuns(Outside(depth), '{');
    OneRuns(Outside(depth + 1), '}');
    RunConcat(Outside(depth + 1), body, ['}']);
    RunConcat(Outside(depth), ['{'], body + ['}']);
    assert ['{'] + (body + ['}']) == ['{'] + body + ['}'];
  }

  lemma BlankIsWord(s: string)
    requires Blank(s)
    ensures ValidWord(s)
  {
  }

  lemma {:induction false} ValueNeutral(v: Value)
    requires ValidValue(v)
    ensures Neutral(Print(v))
    decreases v
  {
    hide Neutral, ValidChars, Blank, ValidWord;
    match v
    case Word(text) => WordNeutral(text);
    case Text(chars) => StringNeutral(chars);
    case EmptyArray(gap) => BlankIsWord(gap); WordNeutral(gap); Bracketed(gap);
    case Array(elements) => ElementsNeutral(elements); Bracketed(PrintElements(elements));
    case EmptyObject(space) => BlankIsWord(space); WordNeutral(space); Braced(space);
    case Object(members) => MembersNeutral(members); Braced(PrintMembers(members));
  }

  lemma Bracketed(body: string)
    requires Neutral(body)
    ensures Neutral(['['] + body + [']'])
  {
    hide Run;
    WordNeutral(['[']);
    WordNeutral([']']);
    NeutralConcat(['['], body);
    NeutralConcat(['['] + body, [']']);
  }

  lemma Braced(body: string)
    requires Neutral(body)
    ensures Neutral(['{'] + body + ['}'])
  {
    hide Run;
    forall depth | depth >= 1 ensures Run(Outside(depth), ['{'] + body + ['}']) == Scanning(Outside(depth)) {
      BracesRun(depth, body);
    }
  }

  lemma BlankNeutral(s: string)
    requires Blank(s)
    ensures Neutral(s)
  {
    BlankIsWord(s);
    WordNeutral(s);
  }

  lemma {:induction false} ElementsNeutral(e: Elements)
    requires ValidElements(e)
    ensures Neutral(PrintElements(e))
    decreases e
  {
    hide Neutral, Blank, ValidValue, Print;
    BlankNeutral(e.lead);
    BlankNeutral(e.trail);
    ValueNeutral(e.value);
    NeutralConcat(e.lead, Print(e.value));
    NeutralConcat(e.lead + Print(e.value), e.trail);
    if e.MoreElements? {
      WordNeutral([',']);
      ElementsNeutral(e.rest);
      NeutralConcat(e.lead + Print(e.value) + e.trail, [',']);
      NeutralConcat(e.lead + Print(e.value) + e.trail + [','], PrintElements(e.rest));
    }
  }

  lemma {:induction false} MembersNeutral(m: Members)
    requires ValidMembers(m)
    ensures Neutral(PrintMembers(m))
    decreases m
  {
    hide Neutral, Blank, ValidValue, Print, ValidChars, PrintString;
    var name, colon := m.lead + PrintString(m.key), m.gap + [':'] + m.before;
    BlankNeutral(m.lead);
    BlankNeutral(m.gap);
    BlankNeutral(m.before);
    BlankNeutral(m.trail);
    WordNeutral([':']);
    StringNeutral(m.key);
    ValueNeutral(m.value);
    NeutralConcat(m.lead, PrintString(m.key));
    NeutralConcat(m.gap, [':']);
    NeutralConcat(m.gap + [':'], m.before);
    NeutralConcat(name, colon);
    NeutralConcat(name + colon, Print(m.value));
    NeutralConcat(name + colon + Print(m.value), m.trail);
    if m.MoreMembers? {
      WordNeutral([',']);
      MembersNeutral(m.rest);
      NeutralConcat(name + colon + Print(m.value) + m.trail, [',']);
      NeutralConcat(name + colon + Print(m.value) + m.trail + [','], PrintMembers(m.rest));
    }
  }

  // ---------------------------------------------------------------- recovery

  predicate IsObject(v: Value) { (v.EmptyObject? || v.Object?) && ValidValue(v) }

  lemma ObjectShape(v: Value)
    requires IsObject(v)
    ensures |Print(v)| >= 2 && Print(v)[0] == '{' && Print(v)[|Print(v)| - 1] == '}'
  {
  }

  /** From the start of an object the scan ends with its last character, not earlier. */
  lemma ObjectFound(v: Value, rest: string)
    requires IsObject(v)
    ensures Run(START, Print(v) + rest) == Found(|Print(v)|)
  {
    hide Run, Neutral;
    if v.EmptyObject? {
      BlankNeutral(v.space);
      BracesRun(0, v.space);
    } else {
      MembersNeutral(v.members);
      BracesRun(0, PrintMembers(v.members));
    }
    RunConcat(START, Print(v), rest);
  }

  lemma FirstBrace(pre: string, rest: string)
    requires '{' !in pre && |rest| > 0 && rest[0] == '{'
    ensures IndexOf(pre + rest, '{') == |pre|
  {
    var i := IndexOf(pre + rest, '{');
    assert (pre + rest)[|pre|] == '{';
    forall j | 0 <= j < |pre| ensures (pre + rest)[j] != '{' {
      assert pre[j] in pre;
    }
  }

  lemma ObjectExtracted(pre: string, v: Value, rest: string)
    requires IsObject(v) && '{' !in pre
    ensures FirstObject(pre + Print(v) + rest) == Ok(Print(v))
  {
    hide Run, Print, IsObject;
    ObjectShape(v);
    ObjectFound(v, rest);
    FirstBrace(pre, Print(v) + rest);
    var s := pre + Print(v) + rest;
    assert s == pre + (Print(v) + rest);
    assert s[|pre|..] == Print(v) + rest;
    assert s[|pre|..|pre| + |Print(v)|] == Print(v);
  }

  lemma {:induction false} TrimLeftOf(pre: string, core: string)
    requires |core| > 0 && !IsSpace(core[0])
    ensures TrimLeft(pre + core) == TrimLeft(pre) + core
  {
    hide IsSpace;
    if |pre| == 0 {
      assert pre + core == core;
    } else if IsSpace(pre[0]) {
      assert (pre + core)[1..] == pre[1..] + core;
      TrimLeftOf(pre[1..], core);
    } else {
      assert (pre + core)[0] == pre[0];
    }
  }

  lemma {:induction false} TrimLeftMembers(s: string)
    ensures forall c | c in TrimLeft(s) :: c in s
  {
    hide IsSpace;
    if |s| > 0 && IsSpace(s[0]) {
      TrimLeftMembers(s[1..]);
    }
  }

  lemma {:induction false} TrimRightOf(core: string, post: string)
    requires |core| > 0 && !IsSpace(core[|core| - 1])
    ensures TrimRight(core + post) == core + TrimRight(post)
    decreases |post|
  {
    hide IsSpace;
    if |post| == 0 {
      assert core + post == core;
    } else if IsSpace(post[|post| - 1]) {
      assert (core + post)[..|core + post| - 1] == core + post[..|post| - 1];
      TrimRightOf(core, post[..|post| - 1]);
    }
  }

  lemma BracesAreNotSpace()
    ensures !IsSpace('{') && !IsSpace('}')
  {
  }

  /** Trimming around an object touches only what surrounds it. */
  lemma TrimAround(pre: string, v: Value, post: string)
    requires IsObject(v)
    ensures TrimSpace(pre + Print(v) + post) == TrimLeft(pre) + Print(v) + TrimRight(post)
  {
    hide Print, IsObject, TrimLeft, TrimRight, IsSpace;
    ObjectShape(v);
    BracesAreNotSpace();
    var core := Print(v);
    TrimLeftOf(pre, core + post);
    assert pre + core + post == pre + (core + post);
    var left := TrimLeft(pre);
    TrimRightOf(left + core, post);
    assert left + (core + post) == left + core + post;
  }

  /**
   Recovery without a fence: for every object of RFC 8259, every preamble without an opening brace that does not
   begin a fence, and any suffix, the object itself is returned, character for character.
   */
  lemma PlainObjectRecovered(pre: string, v: Value, post: string)
    requires IsObject(v) && '{' !in pre && !OpensFence(TrimLeft(pre))
    ensures Extract(pre + Print(v) + post) == Ok(Print(v))
  {
    hide Print, IsObject, FirstObject, IsSpace;
    TrimAround(pre, v, post);
    TrimLeftMembers(pre);
    ObjectShape(v);
    var left := TrimLeft(pre);
    var trimmed := left + Print(v) + TrimRight(post);
    assert |left| < 3 ==> trimmed[|left|] == '{';
    assert |left| >= 3 ==> trimmed[..3] == left[..3];
    ObjectExtracted(left, v, TrimRight(post));
  }

  // ---------------------------------------------------------------- recovery from a fence

  /** A proper prefix of an object, and what trimming leaves of it, holds no complete object. */
  lemma CutObjectLost(v: Value, n: nat)
    requires IsObject(v) && n < |Print(v)|
    ensures Run(START, Print(v)[..n]).Scanning?
  {
    hide Run, Print, IsObject;
    ObjectFound(v, []);
    var text := Print(v);
    assert text + [] == text[..n] + text[n..];
    RunConcat(START, text[..n], text[n..]);
  }

  lemma {:induction false} TrimRightIsPrefix(s: string)
    ensures TrimRight(s) <= s
    decreases |s|
  {
    hide IsSpace;
    if |s| > 0 && IsSpace(s[|s| - 1]) {
      TrimRightIsPrefix(s[..|s| - 1]);
    }
  }

  lemma {:induction false} TrimLeftIsSuffix(s: string)
    ensures |TrimLeft(s)| <= |s| && TrimLeft(s) == s[|s| - |TrimLeft(s)|..]
    decreases |s|
  {
    hide IsSpace;
    if |s| > 0 && IsSpace(s[0]) {
      TrimLeftIsSuffix(s[1..]);
    }
  }

  lemma NoObject(s: string)
    requires '{' !in s
    ensures FirstObject(s).Err?
  {
    hide Run;
  }

  /** Without an opening brace before the cut there is nothing to find. */
  lemma CutBeforeObject(s: string)
    requires '{' !in s
    ensures FirstObject(TrimSpace(s)).Err?
  {
    hide TrimLeft, TrimRight, FirstObject;
    TrimLeftIsSuffix(s);
    TrimRightIsPrefix(TrimLeft(s));
    NoObject(TrimSpace(s));
  }

  /** A cut inside the object leaves no complete object. */
  lemma CutInsideObject(pre: string, v: Value, n: nat)
    requires IsObject(v) && '{' !in pre && 0 < n < |Print(v)|
    ensures FirstObject(TrimSpace(pre + Print(v)[..n])).Err?
  {
    hide Run, Print, IsObject, IsSpace, TrimLeft, TrimRight;
    ObjectShape(v);
    BracesAreNotSpace();
    var part := Print(v)[..n];
    TrimLeftOf(pre, part);
    TrimLeftMembers(pre);
    var left := TrimLeft(pre);
    CutTail(left, part);
    var m :| 1 <= m <= n && TrimRight(left + part) == left + part[..m];
    FirstBrace(left, part[..m]);
    assert part[..m] == Print(v)[..m];
    CutObjectLost(v, m);
    assert (left + part[..m])[|left|..] == part[..m];
  }

  /** Trimming on the right stops at the brace at the latest. */
  lemma {:induction false} CutTail(left: string, part: string)
    requires |part| > 0 && part[0] == '{'
    ensures exists m :: 1 <= m <= |part| && TrimRight(left + part) == left + part[..m]
    decreases |part|
  {
    hide IsSpace;
    BracesAreNotSpace();
    var s := left + part;
    if IsSpace(s[|s| - 1]) {
      assert |part| > 1;
      assert s[..|s| - 1] == left + part[..|part| - 1];
      CutTail(left, part[..|part| - 1]);
      var m :| 1 <= m <= |part| - 1 && TrimRight(left + part[..|part| - 1]) == left + part[..|part| - 1][..m];
      assert part[..|part| - 1][..m] == part[..m];
    } else {
      assert part[..|part|] == part;
    }
  }

  /** A fence lies before the object, in it, or after it: it cannot run across a brace. */
  lemma FencePlaces(pre: string, v: Value, post: string, i: int)
    requires IsObject(v)
    ensures FenceAt(pre + Print(v) + post, i) <==>
              || FenceAt(pre, i)
              || (i >= |pre| && FenceAt(Print(v), i - |pre|))
              || (i >= |pre| + |Print(v)| && FenceAt(post, i - |pre| - |Print(v)|))
  {
    hide Print, IsObject;
    ObjectShape(v);
    var core := Print(v);
    var s := pre + core + post;
    assert s[|pre|] == '{' && s[|pre| + |core| - 1] == '}';
    assert forall j | 0 <= j < |core| :: s[|pre| + j] == core[j];
    assert forall j | 0 <= j < |post| :: s[|pre| + |core| + j] == post[j];
  }

  /** What the last closing fence cuts off decides: after it, or with no fence at all, the object is whole. */
  lemma FenceCut(pre: string, v: Value, post: string)
    requires IsObject(v) && '{' !in pre
    ensures FirstObject(CutFence(pre + Print(v) + post)) ==
            if HasFence(post) || (!HasFence(pre) && !HasFence(Print(v))) then Ok(Print(v)) else Err
  {
    hide Print, IsObject, FirstObject, TrimSpace, FenceAt;
    var core := Print(v);
    var s := pre + core + post;
    var end := LastFence(s);
    ObjectShape(v);
    FencePlaces(pre, v, post, end);
    if HasFence(post) {
      var i :| FenceAt(post, i);
      InFence(post, i);
      var k := |pre| + |core| + i;
      FencePlaces(pre, v, post, k);
      assert k - |pre| - |core| == i && FenceAt(s, k);
      assert end >= |pre| + |core|;
      var rest := s[|pre| + |core|..end];
      assert s[..end] == pre + core + rest;
      TrimAround(pre, v, rest);
      TrimLeftMembers(pre);
      ObjectExtracted(TrimLeft(pre), v, TrimRight(rest));
    } else if end < 0 {
      NoFenceIn(pre, v, post);
      ObjectExtracted(pre, v, post);
    } else if end < |pre| {
      assert FenceAt(pre, end);
      assert s[..end] == pre[..end];
      CutBeforeObject(s[..end]);
    } else {
      NoFenceBeyond(pre, end);
      assert FenceAt(core, end - |pre|);
      InFence(core, end - |pre|);
      StartsWithBrace(core);
      assert s[..end] == pre + core[..end - |pre|];
      CutInsideObject(pre, v, end - |pre|);
    }
  }

  lemma InFence(s: string, i: int)
    requires FenceAt(s, i)
    ensures 0 <= i < |s| - 2
  {
  }

  lemma StartsWithBrace(s: string)
    requires |s| > 0 && s[0] == '{'
    ensures !FenceAt(s, 0)
  {
  }

  lemma NoFenceIn(pre: string, v: Value, post: string)
    requires IsObject(v) && LastFence(pre + Print(v) + post) < 0
    ensures !HasFence(pre) && !HasFence(Print(v))
  {
    hide Print, IsObject, FenceAt;
    var s := pre + Print(v) + post;
    forall i ensures !FenceAt(pre, i) {
      if i >= 0 { FencePlaces(pre, v, post, i); } else { NoFenceBeyond(pre, i); }
    }
    forall i ensures !FenceAt(Print(v), i) {
      if i >= 0 { FencePlaces(pre, v, post, |pre| + i); } else { NoFenceBeyond(Print(v), i); }
    }
  }

  lemma NoFenceBeyond(s: string, i: int)
    requires i < 0 || i >= |s|
    ensures !FenceAt(s, i)
  {
  }

  lemma FencedTrim(before: string, line: string, body: string)
    requires forall c | c in before :: IsSpace(c)
    requires |line| > 0 && !IsSpace(line[0]) && exists i :: 0 <= i < |body| && !IsSpace(body[i])
    ensures TrimSpace(before + (line + body)) == line + TrimRight(body)
  {
    hide IsSpace, TrimLeft, TrimRight;
    TrimLeftOf(before, line + body);
    AllTrimmed(before);
    assert [] + (line + body) == line + body;
    SolidEnd(line, body);
  }

  lemma FirstLine(info: string, rest: string)
    requires '\n' !in info
    ensures IndexOf("```" + info + "\n" + rest, '\n') == 3 + |info|
    ensures ("```" + info + "\n" + rest)[3 + |info| + 1..] == rest
    ensures OpensFence("```" + info + "\n" + rest)
  {
    FirstIndex("```" + info, '\n', rest);
  }

  /** The text after the first line of a fenced answer: trimmed, then cut at the last fence. */
  lemma FencedText(before: string, info: string, body: string)
    requires (forall c | c in before :: IsSpace(c)) && '\n' !in info
    requires exists i :: 0 <= i < |body| && !IsSpace(body[i])
    ensures Unfenced(before + "```" + info + "\n" + body) == Some(CutFence(TrimSpace(body)))
  {
    hide IsSpace, CutFence, TrimSpace, TrimRight, FenceAt;
    FenceNotSpace();
    var line := "```" + info + "\n";
    assert before + "```" + info + "\n" + body == before + (line + body);
    FencedTrim(before, line, body);
    FirstLine(info, TrimRight(body));
    TrimBothWays(body);
  }

  lemma FenceNotSpace()
    ensures !IsSpace('`')
  {
  }

  lemma {:induction false} AllTrimmed(s: string)
    requires forall c | c in s :: IsSpace(c)
    ensures TrimLeft(s) == []
  {
    hide IsSpace;
    if |s| > 0 {
      assert s[0] in s;
      AllTrimmed(s[1..]);
    }
  }

  lemma FirstIndex(pre: string, c: char, rest: string)
    requires c !in pre
    ensures IndexOf(pre + [c] + rest, c) == |pre|
  {
    var s := pre + [c] + rest;
    assert s[|pre|] == c;
    forall j | 0 <= j < |pre| ensures s[j] != c {
      assert pre[j] in pre;
    }
  }

  /** Trimming on the right does not reach past a text that is not all space. */
  lemma {:induction false} SolidEnd(a: string, b: string)
    requires exists i :: 0 <= i < |b| && !IsSpace(b[i])
    ensures TrimRight(a + b) == a + TrimRight(b)
    decreases |b|
  {
    hide IsSpace;
    var i :| 0 <= i < |b| && !IsSpace(b[i]);
    if IsSpace(b[|b| - 1]) {
      assert (a + b)[..|a + b| - 1] == a + b[..|b| - 1];
      assert !IsSpace(b[..|b| - 1][i]);
      SolidEnd(a, b[..|b| - 1]);
    }
  }

  /** Left and right trimming commute, and trimming twice changes nothing. */
  lemma {:induction false} TrimBothWays(s: string)
    requires exists i :: 0 <= i < |s| && !IsSpace(s[i])
    ensures TrimSpace(TrimRight(s)) == TrimSpace(s)
    decreases |s|
  {
    hide IsSpace;
    var i :| 0 <= i < |s| && !IsSpace(s[i]);
    if IsSpace(s[0]) {
      assert s == [s[0]] + s[1..];
      assert !IsSpace(s[1..][i - 1]);
      SolidEnd([s[0]], s[1..]);
      assert ([s[0]] + TrimRight(s[1..]))[1..] == TrimRight(s[1..]);
      TrimBothWays(s[1..]);
    } else {
      assert s == [s[0]] + s[1..];
      RightTwice(s);
      KeepsFirst(s);
    }
  }

  lemma {:induction false} RightTwice(s: string)
    ensures TrimRight(TrimRight(s)) == TrimRight(s)
    decreases |s|
  {
    hide IsSpace;
    if |s| > 0 && IsSpace(s[|s| - 1]) {
      RightTwice(s[..|s| - 1]);
    }
  }

  lemma {:induction false} KeepsFirst(s: string)
    requires |s| > 0 && !IsSpace(s[0])
    ensures |TrimRight(s)| > 0 && TrimRight(s)[0] == s[0]
    decreases |s|
  {
    hide IsSpace;
    if IsSpace(s[|s| - 1]) {
      KeepsFirst(s[..|s| - 1]);
    }
  }

  lemma {:induction false} TrimKeepsFences(s: string)
    ensures HasFence(TrimLeft(s)) == HasFence(s) && HasFence(TrimRight(s)) == HasFence(s)
  {
    hide IsSpace;
    FenceNotSpace();
    TrimLeftIsSuffix(s);
    TrimRightIsPrefix(s);
    LeftFences(s);
    RightFences(s);
  }

  lemma {:induction false} LeftFences(s: string)
    ensures HasFence(TrimLeft(s)) == HasFence(s)
    decreases |s|
  {
    hide IsSpace;
    FenceNotSpace();
    if |s| > 0 && IsSpace(s[0]) {
      LeftFences(s[1..]);
      forall i ensures FenceAt(s, i) == FenceAt(s[1..], i - 1) {
      }
      if HasFence(s) {
        var i :| FenceAt(s, i);
        assert FenceAt(s[1..], i - 1);
      }
      if HasFence(s[1..]) {
        var i :| FenceAt(s[1..], i);
        assert FenceAt(s, i + 1);
      }
    }
  }

  lemma {:induction false} RightFences(s: string)
    ensures HasFence(TrimRight(s)) == HasFence(s)
    decreases |s|
  {
    hide IsSpace;
    FenceNotSpace();
    if |s| > 0 && IsSpace(s[|s| - 1]) {
      var cut := s[..|s| - 1];
      RightFences(cut);
      if HasFence(s) {
        var i :| FenceAt(s, i);
        assert FenceAt(cut, i);
      }
      if HasFence(cut) {
        var i :| FenceAt(cut, i);
        assert FenceAt(s, i);
      }
    }
  }

  /**
   Recovery from a fence: an opening fence line, a preamble without an opening brace, the object, and any rest.
   The object is returned if and only if a fence follows it, or no fence occurs before it or within it; otherwise
   the answer is refused.
   */
  lemma FencedObjectRecovered(before: string, info: string, pre: string, v: Value, post: string)
    requires IsObject(v) && '{' !in pre && '\n' !in info && forall c | c in before :: IsSpace(c)
    ensures Extract(before + "```" + info + "\n" + (pre + Print(v) + post)) ==
            if HasFence(post) || (!HasFence(pre) && !HasFence(Print(v))) then Ok(Print(v)) else Err
  {
    hide IsSpace, IsObject, Print, FirstObject, CutFence, TrimSpace, HasFence;
    var body := pre + Print(v) + post;
    ObjectShape(v);
    BracesAreNotSpace();
    assert body[|pre|] == '{';
    FencedText(before, info, body);
    TrimAround(pre, v, post);
    TrimLeftMembers(pre);
    FenceCut(TrimLeft(pre), v, TrimRight(post));
    TrimKeepsFences(pre);
    TrimKeepsFences(post);
  }

  // ---------------------------------------------------------------- the fence line

  /** What is scanned after an opening fence: the text after the fence line, trimmed and cut at the last fence. */
  function FencedBody(body: string): Result<string> { FirstObject(CutFence(TrimSpace(body))) }

  ghost predicate AllSpace(s: string) { forall c | c in s :: IsSpace(c) }

  lemma NotAllSpace(s: string)
    ensures AllSpace(s) || exists i :: 0 <= i < |s| && !IsSpace(s[i])
  {
    hide IsSpace;
  }

  lemma NothingInBlanks(body: string)
    requires AllSpace(body)
    ensures FencedBody(body).Err?
  {
    hide IsSpace;
    AllTrimmed(body);
  }

  lemma {:induction false} TrimRightMembers(s: string)
    ensures forall c | c in TrimRight(s) :: c in s
  {
    hide IsSpace;
    TrimRightIsPrefix(s);
  }

  /** Blanks around a text that begins with something solid. */
  lemma SolidStart(before: string, solid: char, rest: string)
    requires AllSpace(before) && !IsSpace(solid)
    ensures TrimSpace(before + ([solid] + rest)) == TrimRight([solid] + rest)
  {
    hide IsSpace, TrimRight;
    TrimLeftOf(before, [solid] + rest);
    AllTrimmed(before);
    assert [] + ([solid] + rest) == [solid] + rest;
  }

  lemma {:induction false} BlankTail(a: string, b: string)
    requires AllSpace(b)
    ensures TrimRight(a + b) == TrimRight(a)
    decreases |b|
  {
    hide IsSpace;
    if |b| == 0 {
      assert a + b == a;
    } else {
      var cut := b[..|b| - 1];
      assert b[|b| - 1] in b && forall c | c in cut :: c in b;
      assert (a + b)[..|a + b| - 1] == a + cut;
      BlankTail(a, cut);
    }
  }

  /** A fence with nothing solid after its first line is refused. */
  lemma FenceLineAlone(before: string, line: string, body: string)
    requires AllSpace(before) && '\n' !in line && AllSpace(body)
    ensures Extract(before + ("```" + line + body)).Err?
  {
    hide IsSpace, TrimRight, TrimLeft, FirstObject, CutFence;
    FenceNotSpace();
    var raw := before + ("```" + line + body);
    assert "```" + line + body == ['`'] + ("``" + line + body);
    SolidStart(before, '`', "``" + line + body);
    BlankTail("```" + line, body);
    TrimRightMembers("```" + line);
    assert '\n' !in TrimSpace(raw);
    if OpensFence(TrimSpace(raw)) {
      FenceWithoutBody(raw);
    } else {
      FenceStays(line);
    }
  }

  lemma FenceStays(line: string)
    ensures OpensFence(TrimRight("```" + line))
  {
    hide IsSpace;
    NotAllSpace(line);
    if AllSpace(line) {
      BlankTail("```", line);
      FenceNotSpace();
      assert TrimRight("```") == "```";
    } else {
      SolidEnd("```", line);
    }
  }

  lemma FencedLines(before: string, line: string, body: string)
    requires AllSpace(before) && '\n' !in line
    ensures Extract(before + ("```" + line + "\n" + body)) == FencedBody(body)
  {
    hide IsSpace, TrimSpace, CutFence, FirstObject, Unfenced;
    NotAllSpace(body);
    if AllSpace(body) {
      NothingInBlanks(body);
      NewlineIsSpace();
      FenceLineAlone(before, line, "\n" + body);
      assert "```" + line + ("\n" + body) == "```" + line + "\n" + body;
    } else {
      FencedText(before, line, body);
      assert before + ("```" + line + "\n" + body) == before + "```" + line + "\n" + body;
    }
  }

  lemma NewlineIsSpace()
    ensures IsSpace('\n')
  {
  }

  /**
   Nothing on the line of an opening fence is ever looked at: whatever the text after the fence is, what is returned is
   what the text after its first line break gives, and without a line break the answer is refused.
   */
  lemma FenceLineIsIgnored(before: string, text: string)
    requires AllSpace(before)
    ensures var line := IndexOf(text, '\n');
            Extract(before + ("```" + text)) == if line < 0 then Err else FencedBody(text[line + 1..])
  {
    hide IsSpace, Extract, FencedBody;
    var line := IndexOf(text, '\n');
    if line < 0 {
      FenceLineAlone(before, text, "");
      assert "```" + text + "" == "```" + text;
    } else {
      var rest := text[line + 1..];
      assert text == text[..line] + "\n" + rest;
      assert forall c | c in text[..line] :: exists j :: 0 <= j < line && text[j] == c;
      FencedLines(before, text[..line], rest);
      assert "```" + (text[..line] + "\n" + rest) == "```" + text[..line] + "\n" + rest;
    }
  }

  // ---------------------------------------------------------------- an object on the fence line

  function Braces(s: string): nat { multiset(s)['{'] }

  lemma BracesConcat(a: string, b: string)
    ensures Braces(a + b) == Braces(a) + Braces(b)
  {
  }

  lemma BracesOfPart(s: string, i: nat, j: nat)
    requires i <= j <= |s|
    ensures Braces(s[i..j]) <= Braces(s)
  {
    assert s == s[..i] + s[i..j] + s[j..];
    BracesConcat(s[..i] + s[i..j], s[j..]);
    BracesConcat(s[..i], s[i..j]);
  }

  lemma TrimmedBraces(s: string)
    ensures Braces(TrimSpace(s)) <= Braces(s)
  {
    hide TrimLeft, TrimRight, Braces;
    TrimLeftIsSuffix(s);
    var left := TrimLeft(s);
    TrimRightIsPrefix(left);
    BracesOfPart(s, |s| - |left|, |s|);
    assert s[|s| - |left|..|s|] == left;
    BracesOfPart(left, 0, |TrimRight(left)|);
    assert left[0..|TrimRight(left)|] == TrimRight(left);
  }

  /** Nothing is returned that has more opening braces than the text after the fence line. */
  lemma FencedBraces(body: string)
    ensures FencedBody(body).Ok? ==> Braces(FencedBody(body).value) <= Braces(body)
  {
    hide TrimSpace, FirstObject, LastFence, Braces;
    var trimmed := TrimSpace(body);
    TrimmedBraces(body);
    var end := LastFence(trimmed);
    if end >= 0 {
      BracesOfPart(trimmed, 0, end);
      TrimmedBraces(trimmed[..end]);
    }
    var cut := CutFence(trimmed);
    OnlyBalancedText(cut);
    if FirstObject(cut).Ok? {
      var start := IndexOf(cut, '{');
      BracesOfPart(cut, start, start + |FirstObject(cut).value|);
    }
  }

  /**
   An object that begins on the fence line loses its opening brace with that line, so no such object is returned, unless
   the text after it holds opening braces of its own.
   */
  lemma FenceLineObjectLost(before: string, info: string, v: Value, post: string)
    requires IsObject(v) && AllSpace(before) && '\n' !in info && '{' !in post
    ensures Extract(before + ("```" + (info + Print(v) + post))) != Ok(Print(v))
  {
    hide IsSpace, IsObject, Print, Extract, FencedBody, Braces;
    ObjectShape(v);
    var text := info + Print(v) + post;
    FenceLineIsIgnored(before, text);
    var line := IndexOf(text, '\n');
    if line >= 0 {
      assert text[|info|] == '{';
      assert forall j | 0 <= j < |info| :: text[j] == info[j] && info[j] in info;
      assert line > |info|;
      var inner := Print(v)[1..] + post;
      assert text == info + ['{'] + inner;
      assert text[line + 1..] == inner[line - |info|..|inner|];
      BracesOfPart(inner, line - |info|, |inner|);
      FencedBraces(text[line + 1..]);
      BracesOfObject(Print(v), post);
    }
  }

  lemma BracesOfObject(text: string, post: string)
    requires |text| > 0 && text[0] == '{' && '{' !in post
    ensures Braces(text[1..] + post) < Braces(text)
  {
    assert text == [text[0]] + text[1..];
  }

  /** The condition on what follows is needed: here the text after the fence line repeats the object. */
  lemma RepeatedObjectReturned()
    ensures IsObject(EmptyObject("")) && Print(EmptyObject("")) == "{}"
    ensures Extract("```{}\n{}") == Ok("{}")
  {
    hide Extract, FencedBody, IsSpace;
    var text := "{}\n{}";
    FenceLineIsIgnored("", text);
    assert "" + ("```" + text) == "```{}\n{}";
    assert IndexOf(text, '\n') == 2 by { FirstIndex("{}", '\n', "{}"); }
    assert text[3..] == "{}";
    PlainBody();
  }

  lemma PlainBody()
    ensures FencedBody("{}") == Ok("{}")
  {
    hide IsSpace, FirstObject;
    BracesAreNotSpace();
    assert TrimSpace("{}") == "{}";
    assert CutFence("{}") == "{}";
    ObjectExtracted("", EmptyObject(""), "");
    assert Print(EmptyObject("")) == "{}";
    assert "" + "{}" + "" == "{}";
  }

  // ---------------------------------------------------------------- an inner object

  /** The text of the first member up to its value, from inside its leading blanks on. */
  function UpToValue(m: Members, lead: string): string { lead + PrintString(m.key) + (m.gap + [':'] + m.before) }

  /** The text of the members after the first value. */
  function AfterValue(m: Members): string { if m.LastMember? then m.trail else m.trail + [','] + PrintMembers(m.rest) }

  lemma MembersAround(m: Members, a: string, b: string)
    requires m.lead == a + "\n" + b
    ensures PrintMembers(m) == a + "\n" + (UpToValue(m, b) + Print(m.value) + AfterValue(m))
  {
    hide Print, PrintString, PrintMembers;
    var key, colon, value := PrintString(m.key), m.gap + [':'] + m.before, Print(m.value);
    OwnText(m);
    var tail := AfterValue(m);
    assert a + "\n" + b + key + colon + value + tail == a + "\n" + ((b + key + colon) + value + tail);
  }

  lemma OwnText(m: Members)
    ensures PrintMembers(m) == m.lead + PrintString(m.key) + (m.gap + [':'] + m.before) + Print(m.value) + AfterValue(m)
  {
    hide Print, PrintString;
    var own := m.lead + PrintString(m.key) + (m.gap + [':'] + m.before) + Print(m.value);
    if m.MoreMembers? {
      assert own + m.trail + [','] + PrintMembers(m.rest) == own + (m.trail + [','] + PrintMembers(m.rest));
    }
  }

  lemma NoBraceBefore(m: Members, lead: string)
    requires Blank(lead) && Blank(m.gap) && Blank(m.before) && '{' !in PrintString(m.key)
    ensures '{' !in UpToValue(m, lead)
  {
    hide PrintString;
  }

  lemma FenceLineText(opening: string, m: Members, a: string, b: string, post: string)
    requires m.lead == a + "\n" + b
    ensures opening + Print(Object(m)) + post ==
            (opening + ['{'] + a) + "\n" + (UpToValue(m, b) + Print(m.value) + (AfterValue(m) + ['}'] + post))
  {
    hide PrintMembers, UpToValue, AfterValue;
    MembersAround(m, a, b);
    var pre, value, tail := UpToValue(m, b), Print(m.value), AfterValue(m);
    assert Print(Object(m)) == ['{'] + (a + "\n" + (pre + value + tail)) + ['}'];
    assert opening + (['{'] + (a + "\n" + (pre + value + tail)) + ['}']) + post ==
           (opening + ['{'] + a) + "\n" + (pre + value + (tail + ['}'] + post));
  }

  /**
   If the first member of an object that begins on the fence line is on a later line, is itself an object and has a key
   without an opening brace, that inner object is what is returned, or nothing; the whole object is not.
   */
  lemma FenceLineInnerObject(before: string, info: string, m: Members, a: string, b: string, post: string)
    requires ValidMembers(m) && IsObject(m.value) && m.lead == a + "\n" + b && '{' !in PrintString(m.key)
    requires '\n' !in info && '\n' !in a && forall c | c in before :: IsSpace(c)
    ensures var rest := AfterValue(m) + ['}'] + post;
            Extract(before + "```" + info + Print(Object(m)) + post) ==
            if HasFence(rest) || (!HasFence(UpToValue(m, b)) && !HasFence(Print(m.value))) then Ok(Print(m.value)) else Err
    ensures Extract(before + "```" + info + Print(Object(m)) + post) != Ok(Print(Object(m)))
  {
    hide IsSpace, IsObject, Extract, HasFence, Print, PrintMembers, PrintString, UpToValue, AfterValue;
    LongerThanValue(m);
    assert Blank(b) && Blank(m.gap) && Blank(m.before) by { LeadIsBlank(m, a, b); }
    NoBraceBefore(m, b);
    FenceLineText(before + "```" + info, m, a, b, post);
    assert before + "```" + info + ['{'] + a == before + "```" + (info + ['{'] + a);
    FencedObjectRecovered(before, info + ['{'] + a, UpToValue(m, b), m.value, AfterValue(m) + ['}'] + post);
  }

  lemma LongerThanValue(m: Members)
    ensures |Print(Object(m))| > |Print(m.value)|
  {
    hide PrintMembers, PrintString, AfterValue;
    OwnText(m);
  }

  lemma LeadIsBlank(m: Members, a: string, b: string)
    requires ValidMembers(m) && m.lead == a + "\n" + b
    ensures Blank(b) && Blank(m.gap) && Blank(m.before)
  {
    hide ValidValue;
    assert forall c | c in b :: c in m.lead;
  }

  /** A fence with no line after it is refused. */
  lemma FenceWithoutBody(raw: string)
    requires OpensFence(TrimSpace(raw)) && '\n' !in TrimSpace(raw)
    ensures Extract(raw).Err?
  {
  }

  /** Whatever is returned was in the text: it begins at the first brace and ends at the one that balances it. */
  lemma OnlyBalancedText(s: string)
    ensures FirstObject(s).Ok? ==>
              var start, t := IndexOf(s, '{'), FirstObject(s).value;
              && 0 <= start && start + |t| <= |s| && t == s[start..start + |t|]
              && t[0] == '{' && t[|t| - 1] == '}' && Run(START, t) == Found(|t|)
  {
    hide Run;
    var start := IndexOf(s, '{');
    if start >= 0 && Run(START, s[start..]).Found? {
      var n := Run(START, s[start..]).length;
      assert s[start..][..n] + s[start..][n..] == s[start..];
      RunConcat(START, s[start..][..n], s[start..][n..]);
      EndsWithBrace(START, s[start..], n);
      assert s[start..][..n] == s[start..start + n];
    }
  }

  lemma {:induction false} EndsWithBrace(st: ScanState, s: string, n: nat)
    requires Run(st, s) == Found(n)
    ensures 1 <= n <= |s| && s[n - 1] == '}'
    ensures Run(st, s[..n]) == Found(n)
    decreases |s|
  {
    if Step(st, s[0]).Scanning? {
      EndsWithBrace(Step(st, s[0]).st, s[1..], n - 1);
      assert s[..n][1..] == s[1..][..n - 1];
    }
  }
}
