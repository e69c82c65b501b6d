/** The auto-indent step of `code_editor_with_autoindent` (src/app.rs):
    after the editor has inserted a newline, copy the leading spaces and
    tabs of the line the cursor came from to the cursor position.

    Text is a sequence of characters and the cursor a character index.
    (The source slices its `String` at the cursor's character index as if
    it were a byte offset; on ASCII text the two agree.) */
module Editor {
  import opened Wrappers

  /** egui's `CCursor`: a character index, and which of two rows the cursor
      belongs to when it stands at a line wrap. */
  datatype CCursor = CCursor(index: nat, preferNextRow: bool)

  /** Rust's `char::is_whitespace`: the Unicode `White_Space` property. */
  predicate IsWhitespace(c: char) {
    ('\t' <= c <= '\r') || c == ' ' || c == '\U{85}' || c == '\U{A0}' ||
    c == '\U{1680}' || ('\U{2000}' <= c <= '\U{200A}') || c == '\U{2028}' ||
    c == '\U{2029}' || c == '\U{202F}' || c == '\U{205F}' || c == '\U{3000}'
  }

  /** The characters the indent keeps. */
  predicate IsIndentChar(c: char) {
    c == ' ' || c == '\t'
  }

  /** `str::rfind` for one character: the index of its last occurrence. */
  function RFind(s: string, c: char): (r: Option<nat>)
    ensures r.Some? ==> r.value < |s| && s[r.value] == c
    ensures r.Some? ==> forall j :: r.value < j < |s| ==> s[j] != c
    ensures r.None? ==> forall j :: 0 <= j < |s| ==> s[j] != c
  {
    if s == [] then None
    else if s[|s| - 1] == c then Some(|s| - 1)
    else RFind(s[..|s| - 1], c)
  }

  /** `take_while(|c| c.is_whitespace())`: the longest prefix made of
      whitespace only. */
  function TakeWhitespace(s: string): (r: string)
    ensures |r| <= |s| && r == s[..|r|]
    ensures forall i :: 0 <= i < |r| ==> IsWhitespace(r[i])
    ensures |r| < |s| ==> !IsWhitespace(s[|r|])
  {
    if s == [] || !IsWhitespace(s[0]) then [] else [s[0]] + TakeWhitespace(s[1..])
  }

  /** `filter(|c| *c == ' ' || *c == '\t')`: the spaces and tabs, in order. */
  function KeepIndentChars(s: string): (r: string)
    ensures forall i :: 0 <= i < |r| ==> IsIndentChar(r[i])
    ensures |r| <= |s|
  {
    if s == [] then []
    else (if IsIndentChar(s[0]) then [s[0]] else []) + KeepIndentChars(s[1..])
  }

  /** The filter drops nothing it should keep: every space and every tab
      of the input is in the output, and nothing else is. */
  lemma {:induction false} KeepIndentCharsCounts(s: string)
    ensures multiset(KeepIndentChars(s))[' '] == multiset(s)[' ']
    ensures multiset(KeepIndentChars(s))['\t'] == multiset(s)['\t']
    ensures |KeepIndentChars(s)| == multiset(s)[' '] + multiset(s)['\t']
  {
    if s != [] {
      KeepIndentCharsCounts(s[1..]);
      assert s == [s[0]] + s[1..];
      assert multiset(s) == multiset([s[0]]) + multiset(s[1..]);
    }
  }

  /** The indent the source collects from `code[prev..cursor.index]`: the
      spaces and tabs of its leading whitespace run. */
  function Indent(s: string): string {
    KeepIndentChars(TakeWhitespace(s))
  }

  /** Filtering one more character appends it exactly when it is kept. */
  lemma {:induction false} KeepIndentCharsAppend(s: string, c: char)
    ensures KeepIndentChars(s + [c]) ==
      KeepIndentChars(s) + (if IsIndentChar(c) then [c] else [])
  {
    if s != [] {
      var t := s + [c];
      assert t[0] == s[0] && t[1..] == s[1..] + [c];
      KeepIndentCharsAppend(s[1..], c);
    }
  }

  /** A whitespace prefix that cannot be extended is the one `take_while`
      yields (it follows from the contract of `TakeWhitespace`). */
  lemma TakeWhitespaceIsMaximalRun(s: string, n: nat)
    requires n <= |s|
    requires forall j :: 0 <= j < n ==> IsWhitespace(s[j])
    requires n < |s| ==> !IsWhitespace(s[n])
    ensures TakeWhitespace(s) == s[..n]
  {
  }

  /** The carried indent is exactly the previous line's: when the slice
      starts at the newline before a line that begins with the spaces and
      tabs `lead` followed by a non-blank character, the indent is `lead`. */
  lemma {:induction false} IndentCopiesLeadingBlanks(lead: string, rest: string)
    requires forall i :: 0 <= i < |lead| ==> IsIndentChar(lead[i])
    requires rest != [] && !IsWhitespace(rest[0])
    ensures Indent(['\n'] + lead + rest) == lead
  {
    var s := ['\n'] + lead + rest;
    TakeWhitespaceIsMaximalRun(s, |lead| + 1);
    assert s[..|lead| + 1] == ['\n'] + lead;
    KeepBlanksOnly(lead);
    assert (['\n'] + lead)[1..] == lead;
  }

  /** Filtering a run of spaces and tabs changes nothing. */
  lemma {:induction false} KeepBlanksOnly(s: string)
    requires forall i :: 0 <= i < |s| ==> IsIndentChar(s[i])
    ensures KeepIndentChars(s) == s
  {
    if s != [] {
      KeepBlanksOnly(s[1..]);
    }
  }

  /** The iterator chain `line.chars().take_while(is_whitespace)
      .filter(space or tab).collect()`, one character at a time. */
  method CollectIndent(line: string) returns (indent: string)
    ensures indent == Indent(line)
    ensures |indent| <= |line|
    ensures forall j :: 0 <= j < |indent| ==> IsIndentChar(indent[j])
  {
    indent := "";
    var k := 0;
    while k < |line| && IsWhitespace(line[k])
      invariant 0 <= k <= |line|
      invariant forall j :: 0 <= j < k ==> IsWhitespace(line[j])
      invariant indent == KeepIndentChars(line[..k])
    {
      KeepIndentCharsAppend(line[..k], line[k]);
      assert line[..k + 1] == line[..k] + [line[k]];
      if IsIndentChar(line[k]) {
        indent := indent + [line[k]];
      }
      k := k + 1;
    }
    TakeWhitespaceIsMaximalRun(line, k);
  }

  /** The text and cursor after the editor's response, as
      `code_editor_with_autoindent` leaves them.  `changed` and
      `enterPressed` are what `ret.response.changed()` and
      `key_pressed(Enter)` reported, `cursorRange` the primary cursor of
      `ret.cursor_range`.  `stored` is the cursor written back with
      `TextEdit::store_state`, present exactly when an indent was inserted.
      Reaching the indent step with the cursor at index 0 makes
      `cursor.index - 1` underflow and panics, so callers do not. */
  method AutoIndent(code: string, changed: bool, enterPressed: bool, cursorRange: Option<CCursor>)
    returns (newCode: string, stored: Option<CCursor>)
    requires changed && enterPressed && cursorRange.Some? ==>
      1 <= cursorRange.value.index <= |code|
    ensures stored.None? ==> newCode == code
    ensures stored.Some? <==>
      changed && enterPressed && cursorRange.Some? && cursorRange.value.preferNextRow &&
      RFind(code[..cursorRange.value.index - 1], '\n').Some?
    ensures stored.Some? ==>
      var i := cursorRange.value.index;
      var prev := RFind(code[..i - 1], '\n').value;
      var indent := Indent(code[prev..i]);
      newCode == code[..i] + indent + code[i..] &&
      stored.value == CCursor(i + |indent|, true) &&
      |indent| <= i - prev &&
      (forall j :: i <= j < i + |indent| ==> IsIndentChar(newCode[j])) &&
      newCode[..i] == code[..i] && newCode[i + |indent|..] == code[i..]
  {
    newCode, stored := code, None;
    if !(changed && enterPressed && cursorRange.Some?) {
      return;
    }
    var cursor := cursorRange.value;
    var i := cursor.index;
    var prevNewline := RFind(code[..i - 1], '\n');
    if cursor.preferNextRow && prevNewline.Some? {
      var prev := prevNewline.value;
      var indent := CollectIndent(code[prev..i]);
      newCode := code[..i] + indent + code[i..];
      assert newCode[..i] == code[..i];
      assert newCode[i + |indent|..] == code[i..];
      assert forall j :: i <= j < i + |indent| ==> newCode[j] == indent[j - i];
      stored := Some(CCursor(i + |indent|, cursor.preferNextRow));
    }
  }
}
