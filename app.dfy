/**
 * Pulling the report's JSON object out of a chat message: markdown fences
 * are removed, the object starts at the first `{"`, and a brace counter that
 * ignores braces inside string literals finds where it ends.
 */
module ReportExtract {
  import opened Wrappers
  import opened Strings

  /** `s.find(sub, i)` restricted to indices from `i`: the first occurrence, or none. */
  function FindFrom(s: string, sub: string, i: nat): (r: Option<nat>)
    ensures r.Some? ==> i <= r.value && OccursAt(s, sub, r.value)
    decreases |s| - i
  {
    if i + |sub| > |s| then None
    else if OccursAt(s, sub, i) then Some(i)
    else FindFrom(s, sub, i + 1)
  }

  /** `find` returns the first occurrence, and none exactly when there is no occurrence from `i` on. */
  lemma {:induction false} FindFromSpec(s: string, sub: string, i: nat)
    ensures match FindFrom(s, sub, i)
      case Some(k) => i <= k && OccursAt(s, sub, k) && forall j | i <= j < k :: !OccursAt(s, sub, j)
      case None => forall j | i <= j :: !OccursAt(s, sub, j)
    decreases |s| - i
  {
    if i + |sub| <= |s| && !OccursAt(s, sub, i) {
      FindFromSpec(s, sub, i + 1);
    }
  }

  /** The fence handling: a leading ```` ```json ```` or ```` ``` ```` is dropped, and then a trailing ```` ``` ````. */
  function StripFences(s: string): string {
    if IsPrefix("```json", s) then
      var t := s[7..];
      if IsSuffix("```", t) then t[..|t| - 3] else t
    else if IsPrefix("```", s) then
      var t := s[3..];
      if IsSuffix("```", t) then t[..|t| - 3] else t
    else s
  }

  /** A text that opens with a brace has no fence to remove. */
  lemma NoFence(s: string)
    requires s != [] && s[0] == '{'
    ensures StripFences(s) == s
  {
    assert !IsPrefix("```json", s) by {
      if |s| >= 7 {
        assert s[..7][0] == '{';
      }
    }
    assert !IsPrefix("```", s) by {
      if |s| >= 3 {
        assert s[..3][0] == '{';
      }
    }
  }

  /** Fence removal keeps a middle slice of the text. */
  lemma StripFencesSlice(s: string)
    ensures var t := StripFences(s); exists i | 0 <= i <= |s| - |t| :: OccursAt(s, t, i)
  {
    var t := StripFences(s);
    if IsPrefix("```json", s) {
      assert OccursAt(s, t, 7);
    } else if IsPrefix("```", s) {
      assert OccursAt(s, t, 3);
    } else {
      assert OccursAt(s, t, 0);
    }
  }

  // ---------------------------------------------------------------- the brace scan as written

  /** The loop's state after one character: how far to move on, the brace count, the string flag, and whether the object closed. */
  datatype Move = Move(advance: nat, depth: int, inString: bool, closed: bool)

  /**
   * One character of the loop as written: every `"` toggles the string
   * flag, so an escaped quote inside a string ends it. (The guard
   * `char == '\\"'` compares one character with a two-character string and
   * never holds.)
   */
  function StepAsWritten(ch: char, depth: int, inString: bool): Move {
    var inString' := if ch == '"' then !inString else inString;
    if ch == '{' && !inString' then Move(1, depth + 1, inString', false)
    else if ch == '}' && !inString' then Move(1, depth - 1, inString', depth - 1 == 0)
    else Move(1, depth, inString', false)
  }

  /** The loop as written from index `i`: the index of the brace that brings the count back to zero. */
  function ScanAsWritten(c: string, i: nat, depth: int, inString: bool): (r: Option<nat>)
    ensures r.Some? ==> i <= r.value < |c|
    decreases |c| - i
  {
    if i >= |c| then None
    else
      var m := StepAsWritten(c[i], depth, inString);
      if m.closed then Some(i) else ScanAsWritten(c, i + m.advance, m.depth, m.inString)
  }

  /** `extract_json_from_content` as written, on the unfenced text. */
  function ObjectAsWritten(c: string): string {
    match FindFrom(c, "{\"", 0)
    case None => Strip(c)
    case Some(start) =>
      match ScanAsWritten(c, start, 0, false)
      case Some(e) => c[start..e + 1]
      case None => Strip(c)
  }

  /** `extract_json_from_content` as written. */
  function ExtractAsWritten(content: string): string {
    ObjectAsWritten(StripFences(Strip(content)))
  }

  /** The text `{"a": "\"}"}`: `json.dumps` of the object with key `a` and value `"}`. */
  const EscapedQuoteObject: string := "{\"a\": \"\\\"}\"}"

  /** Scanned as written, the escaped quote closes the string and the brace after it closes the object. */
  lemma AsWrittenScanStopsEarly()
    ensures ScanAsWritten(EscapedQuoteObject, 0, 0, false) == Some(9)
  {
    var c := EscapedQuoteObject;
    assert c[9] == '}' && c[8] == '"' && c[7] == '\\' && c[6] == '"' && c[5] == ' ' && c[4] == ':' && c[3] == '"' && c[2] == 'a';
    assert ScanAsWritten(c, 9, 1, false) == Some(9);
    assert ScanAsWritten(c, 8, 1, true) == Some(9);
    assert ScanAsWritten(c, 7, 1, true) == Some(9);
    assert ScanAsWritten(c, 6, 1, false) == Some(9);
    assert ScanAsWritten(c, 5, 1, false) == Some(9);
    assert ScanAsWritten(c, 4, 1, false) == Some(9);
    assert ScanAsWritten(c, 3, 1, true) == Some(9);
    assert ScanAsWritten(c, 2, 1, true) == Some(9);
    assert ScanAsWritten(c, 1, 1, false) == Some(9);
  }

  /** A stripped text that opens with a brace is searched as it stands, with no fence to remove. */
  lemma ExtractOfBracedText(c: string)
    requires c != [] && c[0] == '{' && !IsSpace(c[|c| - 1])
    ensures ExtractAsWritten(c) == ObjectAsWritten(c)
    ensures ExtractJson(c) == Object(c)
  {
    StripOfNonSpaceEnds(c);
    NoFence(c);
  }

  /**
   * As written, `{"a": "\"}"}`, which is what `json.dumps` writes for that
   * object, comes back cut after the escaped quote's brace, as `{"a": "\"}`,
   * which is not JSON.
   */
  lemma AsWrittenCutsEscapedQuote()
    ensures ExtractAsWritten(EscapedQuoteObject) == EscapedQuoteObject[..10]
    ensures ExtractAsWritten(OneFieldObject("a", "\"}")) != OneFieldObject("a", "\"}")
  {
    ExtractOfBracedText(EscapedQuoteObject);
    AsWrittenObject();
    EscapedQuoteIsDumped();
  }

  /** The counterexample is `json.dumps` of the object with key `a` and value `"}`. */
  lemma EscapedQuoteIsDumped()
    ensures OneFieldObject("a", "\"}") == EscapedQuoteObject
  {
    assert Escape("a") == "a";
    assert Escape("}") == "}";
    assert Escape("\"}") == "\\\"}";
  }

  /** As written, the search returns the first 10 characters of the text, up to the brace after the escaped quote. */
  lemma AsWrittenObject()
    ensures ObjectAsWritten(EscapedQuoteObject) == EscapedQuoteObject[..10]
  {
    assert OccursAt(EscapedQuoteObject, "{\"", 0);
    AsWrittenScanStopsEarly();
  }

  // ---------------------------------------------------------------- the brace scan as intended

  /**
   * One character of the evidently intended loop: inside a string literal
   * a backslash escapes the character after it, so `\"` neither ends the
   * string nor starts one.
   */
  function Step(ch: char, depth: int, inString: bool): Move {
    if inString && ch == '\\' then Move(2, depth, inString, false)
    else StepAsWritten(ch, depth, inString)
  }

  /** The intended loop from index `i`: the index of the brace that brings the count back to zero. */
  function Scan(c: string, i: nat, depth: int, inString: bool): (r: Option<nat>)
    ensures r.Some? ==> i <= r.value < |c|
    decreases |c| - i
  {
    if i >= |c| then None
    else
      var m := Step(c[i], depth, inString);
      if m.closed then Some(i) else Scan(c, i + m.advance, m.depth, m.inString)
  }

  /** The object in the unfenced text, or the stripped text when there is no `{"` or its braces never balance. */
  function Object(c: string): string {
    match FindFrom(c, "{\"", 0)
    case None => Strip(c)
    case Some(start) =>
      match Scan(c, start, 0, false)
      case Some(e) => c[start..e + 1]
      case None => Strip(c)
  }

  /** `extract_json_from_content`, with escapes honoured. */
  function ExtractJson(content: string): string {
    Object(StripFences(Strip(content)))
  }

  /** The scan only ever stops at a closing brace at or after where it started. */
  lemma {:induction false} ScanStopsAtBrace(c: string, i: nat, depth: int, inString: bool)
    ensures match Scan(c, i, depth, inString)
      case Some(e) => i <= e < |c| && c[e] == '}'
      case None => true
    decreases |c| - i
  {
    if i < |c| {
      var m := Step(c[i], depth, inString);
      if !m.closed {
        ScanStopsAtBrace(c, i + m.advance, m.depth, m.inString);
      }
    }
  }

  /**
   * When an object is found, the answer is the slice of the unfenced text
   * from the first `{"` to the brace that balances it.
   */
  lemma ObjectFound(c: string)
    requires FindFrom(c, "{\"", 0).Some?
    requires Scan(c, FindFrom(c, "{\"", 0).value, 0, false).Some?
    ensures var out := Object(c);
      && OccursAt(c, out, FindFrom(c, "{\"", 0).value) && |out| >= 2
      && out[..2] == "{\"" && out[|out| - 1] == '}'
  {
    var start := FindFrom(c, "{\"", 0).value;
    ObjectAt(c, start, Scan(c, start, 0, false).value);
  }

  /** The slice from an opening `{"` to where its scan stops is at least `{"` and ends on a brace. */
  lemma ObjectAt(c: string, start: nat, e: nat)
    requires OccursAt(c, "{\"", start) && Scan(c, start, 0, false) == Some(e)
    ensures start + 2 <= e + 1 <= |c| && c[start..e + 1][..2] == "{\"" && c[e] == '}'
  {
    ScanStopsAtBrace(c, start, 0, false);
    assert c[start] == c[start..start + 2][0] == '{';
    assert Scan(c, start, 0, false) == Scan(c, start + 1, 1, false);
    assert c[start..e + 1][..2] == c[start..start + 2];
  }

  // ---------------------------------------------------------------- brace depth, character by character

  /** What a reader of the text knows after a prefix: the brace depth outside strings, whether a string is open, and whether the next character is escaped. */
  datatype LexState = LexState(depth: int, inString: bool, escaped: bool)

  /**
   * One more character. An escaped character is passed over. A backslash
   * inside a string escapes the next character when `honour` holds (the
   * intended reading) and is an ordinary character otherwise (the code as
   * written). A `"` opens or closes a string, and `{` and `}` outside a
   * string count one level up or down.
   */
  function LexStep(st: LexState, ch: char, honour: bool): LexState {
    if st.escaped then LexState(st.depth, st.inString, false)
    else if honour && st.inString && ch == '\\' then LexState(st.depth, true, true)
    else
      var inString := if ch == '"' then !st.inString else st.inString;
      var depth := if inString then st.depth
                   else if ch == '{' then st.depth + 1
                   else if ch == '}' then st.depth - 1
                   else st.depth;
      LexState(depth, inString, false)
  }

  /** The state after reading `c[start..k]` from the left, starting outside any string at depth 0. */
  function Lex(c: string, start: nat, k: nat, honour: bool): LexState
    requires start <= k <= |c|
    decreases k - start
  {
    if k == start then LexState(0, false, false)
    else LexStep(Lex(c, start, k - 1, honour), c[k - 1], honour)
  }

  /** Every non-empty prefix of `c[start..k]` leaves the reader inside the object, at a positive depth. */
  predicate Inside(c: string, start: nat, k: nat, honour: bool)
    requires start <= k <= |c|
  {
    forall j | start < j <= k :: Lex(c, start, j, honour).depth > 0
  }

  /** One more character read at a positive depth keeps the reader inside. */
  lemma InsideSnoc(c: string, start: nat, k: nat, honour: bool)
    requires start <= k < |c| && Inside(c, start, k, honour) && Lex(c, start, k + 1, honour).depth > 0
    ensures Inside(c, start, k + 1, honour)
  {
  }

  /** Where the object closes: depth 0, outside a string, and inside the object on every shorter non-empty prefix. */
  predicate Closes(c: string, start: nat, e: nat, honour: bool)
    requires start <= e < |c|
  {
    && Lex(c, start, e + 1, honour).depth == 0 && !Lex(c, start, e + 1, honour).inString
    && Inside(c, start, e, honour)
  }

  /** One step of the intended scan and one character of the reader agree, at a positive depth. */
  lemma StepAgrees(ch: char, depth: int, inString: bool)
    requires depth > 0
    ensures var m, st := Step(ch, depth, inString), LexStep(LexState(depth, inString, false), ch, true);
      && (m.advance == 1 || m.advance == 2)
      && (m.advance == 2 ==> !m.closed && st == LexState(depth, inString, true))
      && (m.advance == 1 ==> st == LexState(m.depth, m.inString, false))
      && (m.closed <==> st.depth == 0)
      && (m.closed ==> !st.inString)
  {
  }

  /** One step of the scan as written and one character of the reader that ignores escapes agree, at a positive depth. */
  lemma StepAsWrittenAgrees(ch: char, depth: int, inString: bool)
    requires depth > 0
    ensures var m, st := StepAsWritten(ch, depth, inString), LexStep(LexState(depth, inString, false), ch, false);
      && m.advance == 1 && st == LexState(m.depth, m.inString, false)
      && (m.closed <==> st.depth == 0)
      && (m.closed ==> !st.inString)
  {
  }

  /** What a scan from the `{"` at `start` should answer: where the object closes, or nothing when it never does. */
  predicate Found(c: string, start: nat, r: Option<nat>, honour: bool)
    requires start <= |c|
  {
    match r
    case Some(e) => start <= e < |c| && Closes(c, start, e, honour)
    case None => Inside(c, start, |c|, honour)
  }

  /** A backslash inside a string and the character it escapes leave the reader where it was, still inside. */
  lemma LexEscape(c: string, start: nat, i: nat, depth: int, inString: bool)
    requires start < i < |c| && depth > 0
    requires Lex(c, start, i, true) == LexState(depth, inString, false) && Inside(c, start, i, true)
    requires Lex(c, start, i + 1, true) == LexState(depth, inString, true)
    ensures Inside(c, start, i + 1, true)
    ensures i + 1 < |c| ==> Lex(c, start, i + 2, true) == LexState(depth, inString, false) && Inside(c, start, i + 2, true)
  {
    InsideSnoc(c, start, i, true);
    if i + 1 < |c| {
      InsideSnoc(c, start, i + 1, true);
    }
  }

  /**
   * From index `i`, with every non-empty prefix from `start` read so far
   * still inside the object, the intended scan stops at the first `}`
   * that brings the depth to 0 outside a string, and finds nothing only
   * when no prefix does.
   */
  lemma {:induction false} ScanLex(c: string, start: nat, i: nat, depth: int, inString: bool)
    requires start < i <= |c|
    requires Lex(c, start, i, true) == LexState(depth, inString, false) && Inside(c, start, i, true)
    ensures Found(c, start, Scan(c, i, depth, inString), true)
    decreases |c| - i
  {
    if i < |c| {
      var m := Step(c[i], depth, inString);
      StepAgrees(c[i], depth, inString);
      assert Lex(c, start, i + 1, true) == LexStep(LexState(depth, inString, false), c[i], true);
      if m.advance == 2 {
        assert Scan(c, i, depth, inString) == Scan(c, i + 2, depth, inString);
        LexEscape(c, start, i, depth, inString);
        if i + 1 < |c| {
          ScanLex(c, start, i + 2, depth, inString);
        }
      } else if m.closed {
        assert Scan(c, i, depth, inString) == Some(i);
      } else {
        assert Scan(c, i, depth, inString) == Scan(c, i + 1, m.depth, m.inString);
        InsideSnoc(c, start, i, true);
        ScanLex(c, start, i + 1, m.depth, m.inString);
      }
    }
  }

  /** The same for the scan as written, where a backslash is an ordinary character. */
  lemma {:induction false} ScanAsWrittenLex(c: string, start: nat, i: nat, depth: int, inString: bool)
    requires start < i <= |c|
    requires Lex(c, start, i, false) == LexState(depth, inString, false) && Inside(c, start, i, false)
    ensures Found(c, start, ScanAsWritten(c, i, depth, inString), false)
    decreases |c| - i
  {
    if i < |c| {
      var m := StepAsWritten(c[i], depth, inString);
      StepAsWrittenAgrees(c[i], depth, inString);
      assert Lex(c, start, i + 1, false) == LexStep(LexState(depth, inString, false), c[i], false);
      if m.closed {
        assert ScanAsWritten(c, i, depth, inString) == Some(i);
      } else {
        assert ScanAsWritten(c, i, depth, inString) == ScanAsWritten(c, i + 1, m.depth, m.inString);
        InsideSnoc(c, start, i, false);
        ScanAsWrittenLex(c, start, i + 1, m.depth, m.inString);
      }
    }
  }

  /** The opening brace of `{"` puts the reader one level deep, outside a string. */
  lemma LexOpening(c: string, start: nat, honour: bool)
    requires OccursAt(c, "{\"", start)
    ensures start < |c| && Lex(c, start, start + 1, honour) == LexState(1, false, false)
    ensures Inside(c, start, start + 1, honour)
    ensures Scan(c, start, 0, false) == Scan(c, start + 1, 1, false)
    ensures ScanAsWritten(c, start, 0, false) == ScanAsWritten(c, start + 1, 1, false)
  {
    assert c[start] == c[start..start + 2][0] == '{';
  }

  /** An object closing at `e` is the only place where the depth is 0 after the opening brace: no prefix reaches 0 iff none closes. */
  lemma ClosesFirst(c: string, start: nat, e: nat, honour: bool)
    requires start <= e < |c| && Closes(c, start, e, honour)
    ensures !Inside(c, start, |c|, honour)
  {
    assert Lex(c, start, e + 1, honour).depth == 0;
  }

  /** From a `{"`, the intended scan stops exactly where the object closes, and finds nothing iff it never closes. */
  lemma ScanCloses(c: string, start: nat)
    requires OccursAt(c, "{\"", start)
    ensures Scan(c, start, 0, false).None? <==> Inside(c, start, |c|, true)
    ensures Scan(c, start, 0, false).Some? ==> Closes(c, start, Scan(c, start, 0, false).value, true)
  {
    LexOpening(c, start, true);
    ScanLex(c, start, start + 1, 1, false);
    if Scan(c, start, 0, false).Some? {
      ClosesFirst(c, start, Scan(c, start, 0, false).value, true);
    }
  }

  /** The same for the scan as written. */
  lemma ScanAsWrittenCloses(c: string, start: nat)
    requires OccursAt(c, "{\"", start)
    ensures ScanAsWritten(c, start, 0, false).None? <==> Inside(c, start, |c|, false)
    ensures ScanAsWritten(c, start, 0, false).Some? ==> Closes(c, start, ScanAsWritten(c, start, 0, false).value, false)
  {
    LexOpening(c, start, false);
    ScanAsWrittenLex(c, start, start + 1, 1, false);
    if ScanAsWritten(c, start, 0, false).Some? {
      ClosesFirst(c, start, ScanAsWritten(c, start, 0, false).value, false);
    }
  }

  /**
   * With escapes honoured, the object runs from the first `{"` to the first
   * point where the depth outside strings returns to 0, and the scan finds
   * no object exactly when no prefix from the `{"` gets back to 0.
   */
  lemma ObjectBalanced(c: string, start: nat)
    requires FindFrom(c, "{\"", 0) == Some(start)
    ensures Scan(c, start, 0, false).None? <==> Inside(c, start, |c|, true)
    ensures match Scan(c, start, 0, false)
      case Some(e) => Object(c) == c[start..e + 1] && Closes(c, start, e, true)
      case None => Object(c) == Strip(c)
  {
    ScanCloses(c, start);
    match Scan(c, start, 0, false)
    case Some(e) =>
      assert Object(c) == c[start..e + 1];
    case None =>
      assert Object(c) == Strip(c);
  }

  /** As written, the object likewise ends where the depth first returns to 0, but every `"` counts as a quote. */
  lemma ObjectAsWrittenBalanced(c: string, start: nat)
    requires FindFrom(c, "{\"", 0) == Some(start)
    ensures ScanAsWritten(c, start, 0, false).None? <==> Inside(c, start, |c|, false)
    ensures match ScanAsWritten(c, start, 0, false)
      case Some(e) => ObjectAsWritten(c) == c[start..e + 1] && Closes(c, start, e, false)
      case None => ObjectAsWritten(c) == Strip(c)
  {
    ScanAsWrittenCloses(c, start);
    match ScanAsWritten(c, start, 0, false)
    case Some(e) =>
      assert ObjectAsWritten(c) == c[start..e + 1];
    case None =>
      assert ObjectAsWritten(c) == Strip(c);
  }

  /** Whatever it finds, the search returns a piece of the unfenced text. */
  lemma ObjectWithin(c: string)
    ensures Contains(c, Object(c))
  {
    match FindFrom(c, "{\"", 0)
    case None => StripContained(c);
    case Some(start) =>
      match Scan(c, start, 0, false)
      case Some(e) => SliceContained(c, start, e + 1);
      case None => StripContained(c);
  }

  /** The same holds for the search as written. */
  lemma ObjectAsWrittenWithin(c: string)
    ensures Contains(c, ObjectAsWritten(c))
  {
    match FindFrom(c, "{\"", 0)
    case None => StripContained(c);
    case Some(start) =>
      match ScanAsWritten(c, start, 0, false)
      case Some(e) => SliceContained(c, start, e + 1);
      case None => StripContained(c);
  }

  /** A piece of the unfenced text is a piece of the stripped content. */
  lemma UnfencedWithin(content: string, x: string)
    requires Contains(StripFences(Strip(content)), x)
    ensures Contains(Strip(content), x)
  {
    var s := Strip(content);
    var t := StripFences(s);
    StripFencesSlice(s);
    var i :| 0 <= i <= |s| - |t| && OccursAt(s, t, i);
    ContainsInSlice(s, i, i + |t|, x);
  }

  /** The extracted text is always a substring of the stripped content, with escapes honoured or not. */
  lemma ExtractWithin(content: string)
    ensures Contains(Strip(content), ExtractJson(content))
    ensures Contains(Strip(content), ExtractAsWritten(content))
  {
    var c := StripFences(Strip(content));
    ObjectWithin(c);
    UnfencedWithin(content, Object(c));
    ObjectAsWrittenWithin(c);
    UnfencedWithin(content, ObjectAsWritten(c));
  }

  // ---------------------------------------------------------------- escaped strings

  /** A lower-case hexadecimal digit. */
  function HexDigit(d: nat): (r: char)
    requires d < 16
    ensures '0' <= r <= '9' || 'a' <= r <= 'f'
  {
    if d < 10 then ('0' as int + d) as char else ('a' as int + d - 10) as char
  }

  /** Four hexadecimal digits, as `'{0:04x}'.format(n)` writes them. */
  function Hex4(n: nat): (r: string)
    requires n < 0x1_0000
    ensures |r| == 4
  {
    [HexDigit(n / 0x1000), HexDigit(n / 0x100 % 0x10), HexDigit(n / 0x10 % 0x10), HexDigit(n % 0x10)]
  }

  /** `\uXXXX`: the escape of one UTF-16 code unit. */
  function UnicodeEscape(n: nat): string
    requires n < 0x1_0000
  {
    "\\u" + Hex4(n)
  }

  /** The two escaped UTF-16 code units, high then low surrogate, of a character above U+FFFF. */
  function SurrogatePair(n: nat): string
    requires 0x1_0000 <= n < 0x11_0000
  {
    var m := n - 0x1_0000;
    UnicodeEscape(0xD800 + m / 0x400) + UnicodeEscape(0xDC00 + m % 0x400)
  }

  /**
   * How `json.dumps`, with its default `ensure_ascii`, writes one character
   * inside a string literal: `"` and `\` and the five named control
   * characters get a two-character escape, printable ASCII stands for
   * itself, and everything else is `\uXXXX`, as a surrogate pair above
   * U+FFFF.
   */
  function EscapeChar(ch: char): string {
    var n := ch as int;
    if ch == '"' then "\\\""
    else if ch == '\\' then "\\\\"
    else if ch == '\n' then "\\n"
    else if ch == '\r' then "\\r"
    else if ch == '\t' then "\\t"
    else if n == 8 then "\\b"
    else if n == 12 then "\\f"
    else if 0x20 <= n <= 0x7E then [ch]
    else if n < 0x1_0000 then UnicodeEscape(n)
    else SurrogatePair(n)
  }

  /** `json.dumps` of a string's characters inside the quotes. */
  function Escape(s: string): string {
    if s == [] then [] else EscapeChar(s[0]) + Escape(s[1..])
  }

  /** A string literal's body: every `"` and `\\` comes after a backslash that escapes it. */
  predicate Escaped(t: string)
    decreases |t|
  {
    t == [] ||
    (t[0] == '\\' && |t| >= 2 && Escaped(t[2..])) ||
    (t[0] != '"' && t[0] != '\\' && Escaped(t[1..]))
  }

  /** Text with no quote and no backslash. */
  predicate Plain(h: string) {
    forall i | 0 <= i < |h| :: h[i] != '"' && h[i] != '\\'
  }

  /** Plain text in front of a literal's body is still a literal's body. */
  lemma {:induction false} PlainEscaped(h: string, rest: string)
    requires Plain(h) && Escaped(rest)
    ensures Escaped(h + rest)
    decreases |h|
  {
    if h == [] {
      assert h + rest == rest;
    } else {
      PlainEscaped(h[1..], rest);
      var t := h + rest;
      assert t[0] == h[0] && t[1..] == h[1..] + rest;
      assert t[0] != '"' && t[0] != '\\' && Escaped(t[1..]);
    }
  }

  /** A `\uXXXX` escape in front of a literal's body is still a literal's body. */
  lemma UnicodeEscaped(n: nat, rest: string)
    requires n < 0x1_0000 && Escaped(rest)
    ensures Escaped(UnicodeEscape(n) + rest)
  {
    var h := Hex4(n);
    assert Plain(h);
    PlainEscaped(h, rest);
    assert (UnicodeEscape(n) + rest)[2..] == h + rest;
  }

  /** A surrogate pair in front of a literal's body is still a literal's body. */
  lemma SurrogatePairEscaped(n: nat, rest: string)
    requires 0x1_0000 <= n < 0x11_0000 && Escaped(rest)
    ensures Escaped(SurrogatePair(n) + rest)
  {
    var m := n - 0x1_0000;
    var hi, lo := 0xD800 + m / 0x400, 0xDC00 + m % 0x400;
    UnicodeEscaped(lo, rest);
    UnicodeEscaped(hi, UnicodeEscape(lo) + rest);
    assert SurrogatePair(n) + rest == UnicodeEscape(hi) + (UnicodeEscape(lo) + rest);
  }

  /** A backslash and any character in front of a literal's body is still a literal's body. */
  lemma TwoCharEscaped(e: string, rest: string)
    requires |e| == 2 && e[0] == '\\' && Escaped(rest)
    ensures Escaped(e + rest)
  {
    assert (e + rest)[2..] == rest;
  }

  /** One escaped character in front of a literal's body is still a literal's body. */
  lemma EscapeCharEscaped(ch: char, rest: string)
    requires Escaped(rest)
    ensures Escaped(EscapeChar(ch) + rest)
  {
    var n := ch as int;
    if ch == '"' || ch == '\\' || ch == '\n' || ch == '\r' || ch == '\t' || n == 8 || n == 12 {
      TwoCharEscaped(EscapeChar(ch), rest);
    } else if 0x20 <= n <= 0x7E {
      assert (EscapeChar(ch) + rest)[1..] == rest;
    } else if n < 0x1_0000 {
      UnicodeEscaped(n, rest);
    } else {
      SurrogatePairEscaped(n, rest);
    }
  }

  /** Whatever it escapes, `Escape` writes a string literal's body. */
  lemma {:induction false} EscapeIsEscaped(s: string)
    ensures Escaped(Escape(s))
  {
    if s != [] {
      EscapeIsEscaped(s[1..]);
      EscapeCharEscaped(s[0], Escape(s[1..]));
    }
  }

  /** Inside a string, the scan passes over a literal's body with its state unchanged. */
  lemma {:induction false} ScanOverEscaped(c: string, i: nat, t: string, depth: int)
    requires Escaped(t) && i + |t| <= |c| && c[i..i + |t|] == t
    ensures Scan(c, i, depth, true) == Scan(c, i + |t|, depth, true)
    decreases |t|
  {
    if t != [] {
      assert c[i] == t[0];
      var n := if t[0] == '\\' then 2 else 1;
      assert Scan(c, i, depth, true) == Scan(c, i + n, depth, true);
      assert c[i + n..i + |t|] == t[n..];
      ScanOverEscaped(c, i + n, t[n..], depth);
    }
  }

  /** `{"k": "v"}` around the literal bodies `k` and `v`, with `json.dumps`'s default `": "` separator. */
  function ObjectText(k: string, v: string): string {
    "{\"" + k + "\": \"" + v + "\"}"
  }

  /** `json.dumps` of a one-field object whose key and value are strings, with its default settings. */
  function OneFieldObject(key: string, value: string): string {
    ObjectText(Escape(key), Escape(value))
  }

  /** `{"` and then the key's literal body `k`. */
  predicate KeyText(c: string, k: string) {
    2 + |k| <= |c| && c[0] == '{' && c[1] == '"' && c[2..2 + |k|] == k
  }

  /** From index `p` to the end: `": "`, the value's literal body `v`, and `"}`. */
  predicate ValueText(c: string, p: nat, v: string) {
    && |c| == p + 6 + |v|
    && c[p] == '"' && c[p + 1] == ':' && c[p + 2] == ' ' && c[p + 3] == '"' && c[p + 4..p + 4 + |v|] == v
    && c[p + 4 + |v|] == '"' && c[p + 5 + |v|] == '}'
  }

  /** A one-field object, character by character, with `k` and `v` the literal bodies of its key and value. */
  predicate OneFieldText(c: string, k: string, v: string) {
    KeyText(c, k) && ValueText(c, 2 + |k|, v)
  }

  /** The object text around two literal bodies has the one-field layout. */
  lemma OneFieldLayout(k: string, v: string)
    ensures OneFieldText(ObjectText(k, v), k, v)
  {
    var head := "{\"" + k;
    var tail := "\": \"" + v + "\"}";
    assert ObjectText(k, v) == head + tail;
    KeyTextOf(k, tail);
    ValueTextOf(head, v);
  }

  /** `{"`, a key's body, and anything after it. */
  lemma KeyTextOf(k: string, rest: string)
    ensures KeyText("{\"" + k + rest, k)
  {
    var c := "{\"" + k + rest;
    assert c[2..2 + |k|] == k;
  }

  /** Anything, then `": "`, a value's body and `"}`. */
  lemma ValueTextOf(head: string, v: string)
    ensures ValueText(head + ("\": \"" + v + "\"}"), |head|, v)
  {
    var tail := "\": \"" + v + "\"}";
    var c := head + tail;
    var p := |head|;
    assert c[p..] == tail;
    assert tail[4..4 + |v|] == v;
    assert c[p + 4..p + 4 + |v|] == tail[4..4 + |v|];
  }

  /** `{"` opens the object and a string. */
  lemma ScanOpening(c: string)
    requires |c| >= 2 && c[0] == '{' && c[1] == '"'
    ensures Scan(c, 0, 0, false) == Scan(c, 2, 1, true)
  {
    assert Scan(c, 1, 1, false) == Scan(c, 2, 1, true);
  }

  /** `": "` closes the key and opens the value; the colon and the space outside the strings change nothing. */
  lemma ScanColon(c: string, p: nat)
    requires p + 4 <= |c| && c[p] == '"' && c[p + 1] == ':' && c[p + 2] == ' ' && c[p + 3] == '"'
    ensures Scan(c, p, 1, true) == Scan(c, p + 4, 1, true)
  {
    assert Scan(c, p + 3, 1, false) == Scan(c, p + 4, 1, true);
    assert Scan(c, p + 2, 1, false) == Scan(c, p + 3, 1, false);
    assert Scan(c, p + 1, 1, false) == Scan(c, p + 2, 1, false);
  }

  /** `"}` closes the value and the object. */
  lemma ScanClosing(c: string, q: nat)
    requires |c| == q + 2 && c[q] == '"' && c[q + 1] == '}'
    ensures Scan(c, q, 1, true) == Some(q + 1)
  {
    assert Scan(c, q + 1, 1, false) == Some(q + 1);
  }

  /** The opening `{"` and the key's literal body leave the scan inside the object, at the key's closing quote. */
  lemma ScanKey(c: string, k: string)
    requires Escaped(k) && KeyText(c, k)
    ensures Scan(c, 0, 0, false) == Scan(c, 2 + |k|, 1, true)
  {
    ScanOpening(c);
    ScanOverEscaped(c, 2, k, 1);
  }

  /** From the key's closing quote, `": "`, the value's literal body and `"}` close the object on the last character. */
  lemma ScanValue(c: string, p: nat, v: string)
    requires Escaped(v) && ValueText(c, p, v)
    ensures Scan(c, p, 1, true) == Some(|c| - 1)
  {
    ScanColon(c, p);
    ScanOverEscaped(c, p + 4, v, 1);
    ScanClosing(c, p + 4 + |v|);
  }

  /** With escapes honoured, the scan of a one-field object ends on its last brace. */
  lemma ScanOneField(c: string, k: string, v: string)
    requires Escaped(k) && Escaped(v) && OneFieldText(c, k, v)
    ensures Scan(c, 0, 0, false) == Some(|c| - 1)
  {
    ScanKey(c, k);
    ScanValue(c, 2 + |k|, v);
  }

  /** An object that opens at the first character and balances on the last is the whole text. */
  lemma ObjectWhole(c: string)
    requires OccursAt(c, "{\"", 0) && Scan(c, 0, 0, false) == Some(|c| - 1)
    ensures Object(c) == c
  {
    assert FindFrom(c, "{\"", 0) == Some(0);
    assert c[0..|c|] == c;
  }

  /** A key text opens with `{"`. */
  lemma KeyTextOpens(c: string, k: string)
    requires KeyText(c, k)
    ensures OccursAt(c, "{\"", 0)
  {
    assert c[0..2] == "{\"";
  }

  /**
   * With escapes honoured, `json.dumps` of a one-field object with string
   * key and value is found whole, whatever quotes, braces, control or
   * non-ASCII characters its key and value hold — the case the code as
   * written gets wrong.
   */
  lemma ExtractJsonOneField(key: string, value: string)
    ensures ExtractJson(OneFieldObject(key, value)) == OneFieldObject(key, value)
  {
    OneFieldLayout(Escape(key), Escape(value));
    EscapeIsEscaped(key);
    EscapeIsEscaped(value);
    ExtractOneFieldText(OneFieldObject(key, value), Escape(key), Escape(value));
  }

  /** A one-field object text, with escaped key and value, is extracted whole. */
  lemma ExtractOneFieldText(c: string, k: string, v: string)
    requires Escaped(k) && Escaped(v) && OneFieldText(c, k, v)
    ensures ExtractJson(c) == c
  {
    ExtractOfBracedText(c);
    ScanOneField(c, k, v);
    KeyTextOpens(c, k);
    ObjectWhole(c);
  }

  /** A text with non-space first and last characters is its own strip. */
  lemma StripOfNonSpaceEnds(s: string)
    requires s != [] && !IsSpace(s[0]) && !IsSpace(s[|s| - 1])
    ensures Strip(s) == s
  {
  }

  // ---------------------------------------------------------------- the loop

  /** The brace-matching loop of `extract_json_from_content` over the unfenced text, with escapes honoured. */
  method FindObject(c: string) returns (out: string)
    ensures out == Object(c)
  {
    var found := FindFrom(c, "{\"", 0);
    if found.None? {
      return Strip(c);
    }
    var start := found.value;
    var braceCount := 0;
    var inString := false;
    var i := start;
    while i < |c|
      invariant start <= i
      invariant Scan(c, start, 0, false) == Scan(c, i, braceCount, inString)
      decreases |c| - i
    {
      var ch := c[i];
      ghost var m := Step(ch, braceCount, inString);
      if inString && ch == '\\' {
        i := i + 2;
        continue;
      }
      if ch == '"' && !inString {
        inString := true;
      } else if ch == '"' && inString {
        inString := false;
      }
      if ch == '{' && !inString {
        braceCount := braceCount + 1;
      } else if ch == '}' && !inString {
        braceCount := braceCount - 1;
        if braceCount == 0 {
          return c[start..i + 1];
        }
      }
      assert m == Move(1, braceCount, inString, false);
      i := i + 1;
    }
    return Strip(c);
  }

  /** `extract_json_from_content`: strip, remove the fences, then find the object. */
  method ExtractJsonFromContent(content: string) returns (out: string)
    ensures out == ExtractJson(content)
  {
    var c := Strip(content);
    c := StripFences(c);
    out := FindObject(c);
  }
}
