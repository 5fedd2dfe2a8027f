// The tolerant JSONC reader: comment removal, then the trailing-comma substitution.
module Jsonc {
  import opened Text

  // ---------------------------------------------------------------- comment scanner

  /** Where the scanner stands: outside strings, inside one, or just after a backslash inside one. */
  datatype Mode = Code | InString | Escaped

  /** The mode after one character that is copied to the output. */
  function Next(m: Mode, c: char): Mode {
    match m
    case Code => if c == '"' then InString else Code
    case Escaped => InString
    case InString => if c == '\\' then Escaped else if c == '"' then Code else InString
  }

  predicate Opens(t: string, second: char) {
    |t| >= 2 && t[0] == '/' && t[1] == second
  }

  /** What is left of `t` once the characters up to (not including) the next newline are skipped. */
  function SkipLine(t: string): (rest: string)
    ensures |rest| <= |t|
  {
    if t == [] || t[0] == '\n' then t else SkipLine(t[1..])
  }

  /** What is left of `t` after the first closing mark; nothing when the comment never ends. */
  function SkipBlock(t: string): (rest: string)
    ensures |rest| <= |t|
  {
    if |t| < 2 then [] else if t[0] == '*' && t[1] == '/' then t[2..] else SkipBlock(t[1..])
  }

  /** Comment removal started in mode `m`. */
  function Scan(m: Mode, t: string): string
    decreases |t|
  {
    if t == [] then []
    else if m.Code? && Opens(t, '/') then Scan(Code, SkipLine(t[2..]))
    else if m.Code? && Opens(t, '*') then Scan(Code, SkipBlock(t[2..]))
    else [t[0]] + Scan(Next(m, t[0]), t[1..])
  }

  /** No comment opener outside a string literal. */
  predicate CommentFree(m: Mode, t: string)
    decreases |t|
  {
    t == [] ||
    (!(m.Code? && (Opens(t, '/') || Opens(t, '*'))) && CommentFree(Next(m, t[0]), t[1..]))
  }

  /** Comment-free text is a fixed point of the scanner. */
  lemma {:induction false} ScanKeepsCommentFree(m: Mode, t: string)
    requires CommentFree(m, t)
    ensures Scan(m, t) == t
    decreases |t|
  {
    if t != [] {
      ScanKeepsCommentFree(Next(m, t[0]), t[1..]);
    }
  }

  /** Whatever the input, unterminated strings and comments included, no opener survives outside strings. */
  lemma {:induction false} ScanLeavesNoOpener(m: Mode, t: string)
    ensures CommentFree(m, Scan(m, t))
    decreases |t|
  {
    if t == [] {
    } else if m.Code? && Opens(t, '/') {
      ScanLeavesNoOpener(Code, SkipLine(t[2..]));
    } else if m.Code? && Opens(t, '*') {
      ScanLeavesNoOpener(Code, SkipBlock(t[2..]));
    } else {
      var rest := Scan(Next(m, t[0]), t[1..]);
      ScanLeavesNoOpener(Next(m, t[0]), t[1..]);
      assert ([t[0]] + rest)[1..] == rest;
      if m.Code? && t[0] == '/' && |t| >= 2 {
        // A slash that was copied is followed by a character that cannot start a comment,
        // so the character after it in the output is the one after it in the input.
        assert rest == [t[1]] + Scan(Next(Code, t[1]), t[1..][1..]);
      }
    }
  }

  /** Scanning changes a text exactly when it has a comment opener outside strings. */
  lemma ScanFixedPoint(t: string)
    ensures Scan(Code, t) == t <==> CommentFree(Code, t)
  {
    ScanLeavesNoOpener(Code, t);
    if CommentFree(Code, t) {
      ScanKeepsCommentFree(Code, t);
    }
  }

  /** Scanning twice equals scanning once, for every text. */
  lemma ScanIsProjection(t: string)
    ensures Scan(Code, Scan(Code, t)) == Scan(Code, t)
  {
    ScanLeavesNoOpener(Code, t);
    ScanKeepsCommentFree(Code, Scan(Code, t));
  }

  // ---------------------------------------------------------------- comment insertion

  /** The pieces of a commented document. */
  datatype Item =
    | Chunk(code: string)      // text outside strings
    | Literal(body: string)    // a string literal, without its quotes
    | Block(remark: string)    // a block comment, without its marks
    | Line(remark: string)     // a line comment, without its mark and newline

  function Source(it: Item): string {
    match it
    case Chunk(code) => code
    case Literal(body) => "\"" + body + "\""
    case Block(remark) => "/*" + remark + "*/"
    case Line(remark) => "//" + remark
  }

  /** The document with its comments. */
  function Commented(items: seq<Item>): string {
    if items == [] then [] else Source(items[0]) + Commented(items[1..])
  }

  function Kept(it: Item): string {
    if it.Block? || it.Line? then [] else Source(it)
  }

  /** The document without them. */
  function Plain(items: seq<Item>): string {
    if items == [] then [] else Kept(items[0]) + Plain(items[1..])
  }

  /** A string body: escaped pairs and characters other than quote and backslash. */
  predicate WellFormedBody(body: string) {
    body == []
    || (body[0] == '\\' && |body| >= 2 && WellFormedBody(body[2..]))
    || (body[0] != '\\' && body[0] != '"' && WellFormedBody(body[1..]))
  }

  predicate HasCloser(s: string) {
    exists i :: 0 <= i < |s| - 1 && s[i] == '*' && s[i + 1] == '/'
  }

  /** Legal places for each piece; `after` is the text that follows it. */
  predicate WellPlaced(it: Item, after: string) {
    match it
    case Chunk(code) =>
      '"' !in code && CommentFree(Code, code) && (code == [] || code[|code| - 1] != '/')
    case Literal(body) => WellFormedBody(body)
    case Block(remark) => !HasCloser(remark)
    case Line(remark) => '\n' !in remark && (after == [] || after[0] == '\n')
  }

  predicate WellPlacedAll(items: seq<Item>) {
    items == [] || (WellPlaced(items[0], Commented(items[1..])) && WellPlacedAll(items[1..]))
  }

  lemma Shift(s: string, rest: string)
    requires s != []
    ensures (s + rest)[0] == s[0] && (s + rest)[1..] == s[1..] + rest
    ensures forall x: string {:trigger s[1..] + x} :: [s[0]] + (s[1..] + x) == s + x
  {
  }

  lemma {:induction false} ScanChunk(code: string, rest: string)
    requires WellPlaced(Chunk(code), rest)
    ensures Scan(Code, code + rest) == code + Scan(Code, rest)
    decreases |code|
  {
    if code == [] {
      assert code + rest == rest;
    } else {
      Shift(code, rest);
      ScanChunk(code[1..], rest);
    }
  }

  lemma {:induction false} ScanBody(body: string, rest: string)
    requires WellFormedBody(body)
    ensures Scan(InString, body + ("\"" + rest)) == body + ("\"" + Scan(Code, rest))
    decreases |body|
  {
    var tail := "\"" + rest;
    if body == [] {
      assert body + tail == tail && tail[1..] == rest;
    } else if body[0] == '\\' {
      ScanEscape(body, tail);
      ScanBody(body[2..], rest);
      ShiftTwo(body, "\"" + Scan(Code, rest));
    } else {
      Shift(body, tail);
      ScanBody(body[1..], rest);
    }
  }

  lemma ScanEscape(body: string, tail: string)
    requires |body| >= 2 && body[0] == '\\'
    ensures Scan(InString, body + tail) == [body[0]] + ([body[1]] + Scan(InString, body[2..] + tail))
  {
    var text := body + tail;
    assert text[1..] == body[1..] + tail && text[1..][1..] == body[2..] + tail;
    assert text[1..][0] == body[1];
  }

  lemma ShiftTwo(s: string, x: string)
    requires |s| >= 2
    ensures [s[0]] + ([s[1]] + (s[2..] + x)) == s + x
  {
  }

  lemma TailCloser(s: string)
    requires s != []
    ensures HasCloser(s[1..]) ==> HasCloser(s)
  {
    if HasCloser(s[1..]) {
      var i :| 0 <= i < |s[1..]| - 1 && s[1..][i] == '*' && s[1..][i + 1] == '/';
      assert s[i + 1] == '*' && s[i + 2] == '/';
    }
  }

  lemma {:induction false} SkipClosedBlock(remark: string, rest: string)
    requires !HasCloser(remark)
    ensures SkipBlock(remark + "*/" + rest) == rest
    decreases |remark|
  {
    var text := remark + "*/" + rest;
    if remark == [] {
      assert text[2..] == rest;
    } else {
      assert text[0] == remark[0];
      assert text[1] == if |remark| > 1 then remark[1] else '*';
      assert text[1..] == remark[1..] + "*/" + rest;
      TailCloser(remark);
      SkipClosedBlock(remark[1..], rest);
    }
  }

  lemma {:induction false} SkipWholeLine(remark: string, rest: string)
    requires '\n' !in remark && (rest == [] || rest[0] == '\n')
    ensures SkipLine(remark + rest) == rest
    decreases |remark|
  {
    if remark == [] {
      assert remark + rest == rest;
    } else {
      assert (remark + rest)[1..] == remark[1..] + rest;
      SkipWholeLine(remark[1..], rest);
    }
  }

  lemma ScanLiteral(body: string, rest: string)
    requires WellFormedBody(body)
    ensures Scan(Code, Source(Literal(body)) + rest) == Source(Literal(body)) + Scan(Code, rest)
  {
    var text := body + ("\"" + rest);
    Quoted(body, rest);
    Quoted(body, Scan(Code, rest));
    assert (['"'] + text)[1..] == text;
    ScanBody(body, rest);
  }

  lemma Quoted(body: string, rest: string)
    ensures Source(Literal(body)) + rest == ['"'] + (body + ("\"" + rest))
  {
  }

  lemma ScanBlock(remark: string, rest: string)
    requires !HasCloser(remark)
    ensures Scan(Code, Source(Block(remark)) + rest) == Scan(Code, rest)
  {
    var text := Source(Block(remark)) + rest;
    assert text[2..] == remark + "*/" + rest;
    SkipClosedBlock(remark, rest);
    assert Opens(text, '*') && !Opens(text, '/');
  }

  lemma ScanLine(remark: string, rest: string)
    requires WellPlaced(Line(remark), rest)
    ensures Scan(Code, Source(Line(remark)) + rest) == Scan(Code, rest)
  {
    var text := Source(Line(remark)) + rest;
    assert text[2..] == remark + rest;
    SkipWholeLine(remark, rest);
    assert Opens(text, '/');
  }

  lemma {:induction false} SkipOpenBlock(remark: string)
    requires !HasCloser(remark)
    ensures SkipBlock(remark) == []
  {
    if |remark| >= 2 {
      TailCloser(remark);
      assert !(remark[0] == '*' && remark[1] == '/');
      SkipOpenBlock(remark[1..]);
    }
  }

  /** A block comment that never ends takes the rest of the text with it. */
  lemma OpenBlockIsDropped(code: string, remark: string)
    requires WellPlaced(Chunk(code), "/*" + remark) && !HasCloser(remark)
    ensures Scan(Code, code + ("/*" + remark)) == code
  {
    var text := "/*" + remark;
    ScanChunk(code, text);
    assert text[2..] == remark;
    SkipOpenBlock(remark);
    assert Opens(text, '*') && !Opens(text, '/');
    assert Scan(Code, []) == [] && code + [] == code;
  }

  /** One piece: copied when it is code or a string, dropped when it is a comment. */
  lemma ScanItem(it: Item, rest: string)
    requires WellPlaced(it, rest)
    ensures Scan(Code, Source(it) + rest) == Kept(it) + Scan(Code, rest)
  {
    match it
    case Chunk(code) => ScanChunk(code, rest);
    case Literal(body) => ScanLiteral(body, rest);
    case Block(remark) => ScanBlock(remark, rest);
    case Line(remark) => ScanLine(remark, rest);
  }

  /** Removing comments undoes inserting them: every chunk and every literal comes back unchanged. */
  lemma {:induction false} ScanUndoesInsertion(items: seq<Item>)
    requires WellPlacedAll(items)
    ensures Scan(Code, Commented(items)) == Plain(items)
    decreases |items|
  {
    if items != [] {
      ScanItem(items[0], Commented(items[1..]));
      ScanUndoesInsertion(items[1..]);
    }
  }

  // ---------------------------------------------------------------- trailing commas

  predicate IsCloser(c: char) {
    c == '}' || c == ']'
  }

  /** Length of the leading white space. */
  function SpaceRun(t: string): (n: nat)
    ensures n <= |t|
    ensures forall i :: 0 <= i < n ==> IsSpace(t[i])
    ensures n < |t| ==> !IsSpace(t[n])
  {
    if t == [] || !IsSpace(t[0]) then 0 else 1 + SpaceRun(t[1..])
  }

  /** The pattern "comma, white space, closer" matches at the front of `t`. */
  predicate Matches(t: string) {
    t != [] && t[0] == ',' && var n := SpaceRun(t[1..]); n + 1 < |t| && IsCloser(t[n + 1])
  }

  /** Leftmost non-overlapping substitution: each match loses its comma and scanning resumes behind it. */
  function Substitute(t: string): string
    decreases |t|
  {
    if t == [] then []
    else if Matches(t) then
      var end := SpaceRun(t[1..]) + 2;
      t[1..end] + Substitute(t[end..])
    else [t[0]] + Substitute(t[1..])
  }

  /** Position `i` holds a comma whose next character that is not white space is a closer. */
  ghost predicate Trailing(t: string, i: nat) {
    i < |t| && t[i] == ',' &&
    exists j :: i < j < |t| && IsCloser(t[j]) && forall k :: i < k < j ==> IsSpace(t[k])
  }

  /** Reference meaning: the characters of `t` from `i` on, in order, without the trailing commas. */
  ghost function WithoutTrailing(t: string, i: nat): string
    requires i <= |t|
    decreases |t| - i
  {
    if i == |t| then []
    else (if Trailing(t, i) then [] else [t[i]]) + WithoutTrailing(t, i + 1)
  }

  lemma MatchIsTrailing(t: string, i: nat)
    requires i < |t|
    ensures Matches(t[i..]) <==> Trailing(t, i)
  {
    var u := t[i..];
    var n := SpaceRun(u[1..]);
    assert forall k :: 0 <= k < |u| - 1 ==> u[1..][k] == t[i + 1 + k];
    assert forall k :: i < k < i + 1 + n ==> IsSpace(t[k]) by {
      forall k | i < k < i + 1 + n ensures IsSpace(t[k]) {
        assert u[1..][k - i - 1] == t[k];
      }
    }
    if Trailing(t, i) {
      var j :| i < j < |t| && IsCloser(t[j]) && forall k :: i < k < j ==> IsSpace(t[k]);
      assert n == j - i - 1;
    }
  }

  /** A stretch without commas is copied. */
  lemma {:induction false} CopyStretch(t: string, i: nat, j: nat)
    requires i <= j <= |t|
    requires forall k :: i <= k < j ==> t[k] != ','
    ensures WithoutTrailing(t, i) == t[i..j] + WithoutTrailing(t, j)
    decreases j - i
  {
    if i < j {
      CopyStretch(t, i + 1, j);
      Shift(t[i..j], []);
      assert t[i..j][0] == t[i] && t[i..j][1..] == t[i + 1..j] && !Trailing(t, i);
    } else {
      assert t[i..j] == [];
    }
  }

  /** A match covers one trailing comma and a stretch without commas. */
  lemma MatchStretch(t: string, i: nat, end: nat)
    requires i < |t| && Matches(t[i..]) && end == i + SpaceRun(t[i..][1..]) + 2
    ensures end <= |t| && t[i..][1..end - i] == t[i + 1..end] && t[i..][end - i..] == t[end..]
    ensures WithoutTrailing(t, i) == t[i + 1..end] + WithoutTrailing(t, end)
  {
    var u := t[i..];
    MatchIsTrailing(t, i);
    forall k | i + 1 <= k < end ensures t[k] != ',' {
      assert t[k] == u[1..][k - i - 1];
    }
    CopyStretch(t, i + 1, end);
  }

  lemma MatchCase(t: string, i: nat, end: nat)
    requires i < |t| && Matches(t[i..]) && end == i + SpaceRun(t[i..][1..]) + 2
    ensures end <= |t|
    ensures Substitute(t[end..]) == WithoutTrailing(t, end) ==> Substitute(t[i..]) == WithoutTrailing(t, i)
  {
    MatchStretch(t, i, end);
  }

  lemma NoMatchCase(t: string, i: nat)
    requires i < |t| && !Matches(t[i..])
    ensures Substitute(t[i + 1..]) == WithoutTrailing(t, i + 1) ==> Substitute(t[i..]) == WithoutTrailing(t, i)
  {
    MatchIsTrailing(t, i);
    assert t[i..][1..] == t[i + 1..];
  }

  /** The substitution deletes exactly the trailing commas and keeps everything else in order. */
  lemma {:induction false} SubstituteMeaning(t: string, i: nat)
    requires i <= |t|
    ensures Substitute(t[i..]) == WithoutTrailing(t, i)
    decreases |t| - i
  {
    if i < |t| {
      if Matches(t[i..]) {
        var end := i + SpaceRun(t[i..][1..]) + 2;
        MatchCase(t, i, end);
        SubstituteMeaning(t, end);
      } else {
        NoMatchCase(t, i);
        SubstituteMeaning(t, i + 1);
      }
    }
  }

  lemma {:induction false} WithoutTrailingLength(t: string, i: nat)
    requires i <= |t|
    ensures |WithoutTrailing(t, i)| <= |t| - i
    ensures WithoutTrailing(t, i) == t[i..] <==> forall k :: i <= k < |t| ==> !Trailing(t, k)
    decreases |t| - i
  {
    if i < |t| {
      WithoutTrailingLength(t, i + 1);
      assert t[i..] == [t[i]] + t[i + 1..];
      if Trailing(t, i) {
        assert |WithoutTrailing(t, i)| < |t[i..]|;
      } else {
        assert WithoutTrailing(t, i)[1..] == WithoutTrailing(t, i + 1);
        assert t[i..][1..] == t[i + 1..];
      }
    }
  }

  /** The comma pass leaves a text alone exactly when no comma stands before a closer, strings included. */
  lemma SubstituteFixedPoint(t: string)
    ensures Substitute(t) == t <==> forall k :: 0 <= k < |t| ==> !Trailing(t, k)
  {
    SubstituteMeaning(t, 0);
    WithoutTrailingLength(t, 0);
    assert t[0..] == t;
  }

  // ---------------------------------------------------------------- the whole reader

  function Strip(text: string): string {
    Substitute(Scan(Code, text))
  }

  /** The whole reader gives a commented document back without its comments, minus trailing commas,
      and gives it back unchanged exactly when its plain form has no trailing comma. */
  lemma StripUndoesInsertion(items: seq<Item>)
    requires WellPlacedAll(items)
    ensures Strip(Commented(items)) == WithoutTrailing(Plain(items), 0)
    ensures Strip(Commented(items)) == Plain(items) <==>
            forall k :: 0 <= k < |Plain(items)| ==> !Trailing(Plain(items), k)
  {
    ScanUndoesInsertion(items);
    SubstituteMeaning(Plain(items), 0);
    assert Plain(items)[0..] == Plain(items);
    SubstituteFixedPoint(Plain(items));
  }

  /** The characters inside strings, in order; every closing quote ends its literal. */
  function Literals(m: Mode, t: string): string
    decreases |t|
  {
    if t == [] then [] else (if m.Code? then [] else [t[0]]) + Literals(Next(m, t[0]), t[1..])
  }

  // ---------------------------------------------------------------- reading twice

  predicate CloserNext(t: string) {
    var n := SpaceRun(t); n < |t| && IsCloser(t[n])
  }

  predicate TrailingNext(t: string) {
    var n := SpaceRun(t); n < |t| && Matches(t[n..])
  }

  /** Somewhere a comma is separated from a trailing comma by white space only. */
  predicate Doubled(t: string) {
    t != [] && ((t[0] == ',' && TrailingNext(t[1..])) || Doubled(t[1..]))
  }

  predicate Settled(t: string) {
    t == [] || (!Matches(t) && Settled(t[1..]))
  }

  /** The substitution taken one character at a time. */
  lemma SubstituteStep(t: string)
    requires t != []
    ensures Substitute(t) == (if Matches(t) then [] else [t[0]]) + Substitute(t[1..])
  {
    SubstituteMeaning(t, 0);
    SubstituteMeaning(t, 1);
    MatchIsTrailing(t, 0);
    assert t[0..] == t;
  }

  lemma {:induction false} SettledIsFixed(t: string)
    ensures Settled(t) <==> Substitute(t) == t
    ensures |Substitute(t)| <= |t|
  {
    if t != [] {
      SettledIsFixed(t[1..]);
      SubstituteStep(t);
      assert t == [t[0]] + t[1..];
      if !Matches(t) {
        assert Substitute(t)[1..] == Substitute(t[1..]);
      }
    }
  }

  lemma MatchesNext(t: string)
    requires t != []
    ensures Matches(t) <==> t[0] == ',' && CloserNext(t[1..])
    ensures IsSpace(t[0]) ==> (CloserNext(t) <==> CloserNext(t[1..])) && (TrailingNext(t) <==> TrailingNext(t[1..]))
  {
    if IsSpace(t[0]) {
      var n := SpaceRun(t[1..]);
      assert SpaceRun(t) == n + 1 && t[n + 1..] == t[1..][n..];
    }
  }

  /** What a later comma sees: a closer, or a comma that is itself about to go. */
  lemma {:induction false} CloserAfterSubstitution(t: string)
    ensures CloserNext(Substitute(t)) <==> CloserNext(t) || TrailingNext(t)
  {
    if t != [] {
      CloserAfterSubstitution(t[1..]);
      SubstituteStep(t);
      MatchesNext(t);
      var r := Substitute(t);
      if !Matches(t) {
        assert r[1..] == Substitute(t[1..]);
        MatchesNext(r);
        assert !IsSpace(t[0]) ==> SpaceRun(t) == 0 && SpaceRun(r) == 0 && t[0..] == t;
      } else {
        assert r == Substitute(t[1..]);
        assert SpaceRun(t) == 0 && t[0..] == t;
      }
    }
  }

  lemma {:induction false} SettledAfterSubstitution(t: string)
    ensures Settled(Substitute(t)) <==> !Doubled(t)
  {
    if t != [] {
      SettledAfterSubstitution(t[1..]);
      SubstituteStep(t);
      MatchesNext(t);
      CloserAfterSubstitution(t[1..]);
      var r := Substitute(t);
      if Matches(t) {
        assert r == Substitute(t[1..]);
        NoTrailingBehindCloser(t[1..]);
      } else {
        assert r[1..] == Substitute(t[1..]);
        MatchesNext(r);
      }
    }
  }

  lemma NoTrailingBehindCloser(t: string)
    ensures !(CloserNext(t) && TrailingNext(t))
  {
    var n := SpaceRun(t);
    assert n < |t| ==> t[n..][0] == t[n];
  }

  lemma FirstAfterSubstitution(t: string)
    requires t != []
    ensures Substitute(t) != []
    ensures Substitute(t)[0] == t[0] ||
            (|t| > 1 && Matches(t) && Substitute(t)[0] == t[1] && (IsSpace(t[1]) || IsCloser(t[1])))
  {
    SubstituteStep(t);
    if Matches(t) {
      MatchesNext(t);
      assert t[1..] != [] && t[1..][0] == t[1];
      SubstituteStep(t[1..]);
    }
  }

  /** Dropping trailing commas opens no comment. */
  lemma {:induction false} SubstituteKeepsCommentFree(m: Mode, t: string)
    requires CommentFree(m, t)
    ensures CommentFree(m, Substitute(t))
    decreases |t|
  {
    if t != [] {
      SubstituteKeepsCommentFree(Next(m, t[0]), t[1..]);
      if Matches(t) {
        BehindDroppedComma(m, t);
      } else {
        BehindCopied(m, t);
      }
    }
  }

  /** The character that takes a dropped comma's place is white space or a closer, which the two string
      modes treat alike. */
  lemma BehindDroppedComma(m: Mode, t: string)
    requires Matches(t)
    ensures CommentFree(m, Substitute(t)) <==> CommentFree(Next(m, ','), Substitute(t[1..]))
    ensures Literals(m, Substitute(t)) == Literals(Next(m, ','), Substitute(t[1..]))
  {
    SubstituteStep(t);
    FirstAfterSubstitution(t);
    var r := Substitute(t);
    assert r == Substitute(t[1..]) && r[0] != '"' && r[0] != '\\';
  }

  /** Behind a copied character stands what stood there before, or what cannot open a comment. */
  lemma BehindCopied(m: Mode, t: string)
    requires t != [] && !Matches(t) && CommentFree(m, t)
    requires CommentFree(Next(m, t[0]), Substitute(t[1..]))
    ensures CommentFree(m, Substitute(t))
  {
    SubstituteStep(t);
    assert Substitute(t)[1..] == Substitute(t[1..]);
    if t[1..] != [] {
      FirstAfterSubstitution(t[1..]);
    }
  }

  /** Reading twice equals reading once exactly when no comma stands right before a trailing comma
      in the comment-free text. */
  lemma StripTwice(t: string)
    ensures Strip(Strip(t)) == Strip(t) <==> !Doubled(Scan(Code, t))
  {
    var u := Scan(Code, t);
    ScanLeavesNoOpener(Code, t);
    SubstituteKeepsCommentFree(Code, u);
    ScanKeepsCommentFree(Code, Substitute(u));
    SettledIsFixed(Substitute(u));
    SettledAfterSubstitution(u);
  }

  /** It can differ: of two commas before a brace the first reading drops one, the second the other. */
  lemma StripIsNotAProjection()
    ensures Strip(Strip(",,}")) != Strip(",,}")
  {
    var t := ",,}";
    assert t[1..] == ",}" && ",}"[1..] == "}" && "}"[1..] == "";
    assert SpaceRun("}") == 0 && SpaceRun(",}") == 0;
    assert ",}"[0..] == ",}";
    assert CommentFree(Code, "}") && CommentFree(Code, ",}") && CommentFree(Code, t);
    ScanKeepsCommentFree(Code, t);
    StripTwice(t);
  }

  /** The comma pass does not know about strings: the literal holding a comma and a brace loses its comma. */
  lemma StripCanDamageALiteral()
    ensures WellPlacedAll([Literal(",}")])
    ensures Plain([Literal(",}")]) == "\",}\"" && Strip(Commented([Literal(",}")])) == "\"}\""
  {
    var items := [Literal(",}")];
    assert items[1..] == [];
    assert WellFormedBody(",}") by {
      assert ",}"[1..] == "}" && "}"[1..] == "";
    }
    ScanUndoesInsertion(items);
    var t := "\",}\"";
    assert Plain(items) == t;
    assert t[1..] == ",}\"" && ",}\""[1..] == "}\"" && SpaceRun("}\"") == 0;
    assert Matches(t[1..]);
    assert ",}\""[2..] == "\"" && "\""[1..] == "";
    assert Substitute("\"") == "\"";
    assert Substitute(",}\"") == "}\"";
  }

  // ---------------------------------------------------------------- one comma, character by character

  /** A character that ends the search behind a comma without a match. */
  predicate IsStop(c: char) {
    !IsSpace(c) && !IsCloser(c)
  }

  lemma {:induction false} SpaceRunBeforeStop(s: string, tail: string)
    requires tail != [] && !IsSpace(tail[0])
    ensures SpaceRun(s + tail) == SpaceRun(s)
  {
    if s == [] {
      assert s + tail == tail;
    } else {
      Shift(s, tail);
      SpaceRunBeforeStop(s[1..], tail);
    }
  }

  /** A match in front of a stop ends in front of it. */
  lemma MatchesBeforeStop(s: string, tail: string)
    requires s != [] && tail != [] && IsStop(tail[0])
    ensures Matches(s + tail) <==> Matches(s)
  {
    Shift(s, tail);
    SpaceRunBeforeStop(s[1..], tail);
  }

  lemma StepBeforeStop(s: string, tail: string)
    requires s != [] && tail != [] && IsStop(tail[0])
    ensures Substitute(s + tail) == (if Matches(s) then [] else [s[0]]) + Substitute(s[1..] + tail)
  {
    Shift(s, tail);
    MatchesBeforeStop(s, tail);
    SubstituteStep(s + tail);
  }

  lemma {:induction false} SubstituteBeforeStop(s: string, tail: string)
    requires tail != [] && IsStop(tail[0])
    ensures Substitute(s + tail) == Substitute(s) + Substitute(tail)
  {
    if s == [] {
      assert s + tail == tail;
    } else {
      StepBeforeStop(s, tail);
      SubstituteStep(s);
      SubstituteBeforeStop(s[1..], tail);
      Regroup(if Matches(s) then [] else [s[0]], Substitute(s[1..]), Substitute(tail));
    }
  }

  lemma Regroup(a: string, b: string, c: string)
    ensures a + (b + c) == (a + b) + c
  {
  }

  lemma {:induction false} SubstituteCopies(s: string, tail: string)
    requires ',' !in s
    ensures Substitute(s + tail) == s + Substitute(tail)
  {
    if s == [] {
      assert s + tail == tail;
    } else {
      Shift(s, tail);
      SubstituteStep(s + tail);
      SubstituteCopies(s[1..], tail);
      Shift(s, Substitute(tail));
    }
  }

  /** The white space of ordinary files. */
  predicate PlainSpace(ws: string) {
    forall i :: 0 <= i < |ws| ==> ws[i] == ' ' || ws[i] == '\t' || ws[i] == '\n' || ws[i] == '\r'
  }

  lemma {:induction false} PlainSpaceRun(ws: string, tail: string)
    requires PlainSpace(ws) && tail != [] && !IsSpace(tail[0])
    ensures SpaceRun(ws + tail) == |ws| && ',' !in ws
  {
    if ws == [] {
      assert ws + tail == tail;
    } else {
      Shift(ws, tail);
      assert ws == [ws[0]] + ws[1..] && ws[0] in ws;
      PlainSpaceRun(ws[1..], tail);
    }
  }

  /** A comma, white space and the first character behind it. */
  lemma CommaTail(ws: string, tail: string)
    requires PlainSpace(ws) && tail != [] && !IsSpace(tail[0])
    ensures Substitute([','] + (ws + tail)) == (if IsCloser(tail[0]) then [] else [',']) + (ws + Substitute(tail))
  {
    var t := [','] + (ws + tail);
    assert t[1..] == ws + tail && (ws + tail)[|ws|] == tail[0];
    PlainSpaceRun(ws, tail);
    assert Matches(t) <==> IsCloser(tail[0]);
    SubstituteStep(t);
    SubstituteCopies(ws, tail);
  }

  /** A comma whose next character behind blanks, tabs and line ends is a brace or a bracket that closes is dropped;
      the text before it and the text behind the closer are read as if they stood alone. */
  lemma CommaBeforeCloserIsDropped(pre: string, ws: string, closer: char, rest: string)
    requires PlainSpace(ws) && (closer == '}' || closer == ']')
    requires CommentFree(Code, pre + ([','] + (ws + ([closer] + rest))))
    ensures Strip(pre + ([','] + (ws + ([closer] + rest)))) == Substitute(pre) + (ws + ([closer] + Substitute(rest)))
  {
    var tail := [closer] + rest;
    ScanKeepsCommentFree(Code, pre + ([','] + (ws + tail)));
    SubstituteBeforeStop(pre, [','] + (ws + tail));
    CommaTail(ws, tail);
    SubstituteCopies([closer], rest);
    assert [] + (ws + Substitute(tail)) == ws + Substitute(tail);
  }

  /** A visible ASCII character that closes nothing: a letter, a digit, a sign, a quote, an opener, another comma. */
  predicate Continues(c: char) {
    '!' <= c <= '~' && c != '}' && c != ']'
  }

  /** A comma followed by such a character is kept. */
  lemma CommaBeforeItemIsKept(pre: string, ws: string, next: char, rest: string)
    requires PlainSpace(ws) && Continues(next)
    requires CommentFree(Code, pre + ([','] + (ws + ([next] + rest))))
    ensures Strip(pre + ([','] + (ws + ([next] + rest)))) == Substitute(pre) + ([','] + (ws + Substitute([next] + rest)))
  {
    var tail := [next] + rest;
    AsciiSpaces(next);
    ScanKeepsCommentFree(Code, pre + ([','] + (ws + tail)));
    SubstituteBeforeStop(pre, [','] + (ws + tail));
    CommaTail(ws, tail);
  }

  // ---------------------------------------------------------------- what happens to literals

  /** The comma pass as its documentation has it: only a comma outside strings is dropped. */
  function DropInCode(m: Mode, t: string): string
    decreases |t|
  {
    if t == [] then []
    else (if m.Code? && Matches(t) then [] else [t[0]]) + DropInCode(Next(m, t[0]), t[1..])
  }

  /** No comma inside a string is followed by white space and a closer. */
  predicate LiteralsClean(m: Mode, t: string)
    decreases |t|
  {
    t == [] || ((m.Code? || !Matches(t)) && LiteralsClean(Next(m, t[0]), t[1..]))
  }

  lemma {:induction false} DropInCodeLength(m: Mode, t: string)
    ensures |Substitute(t)| <= |DropInCode(m, t)|
    ensures |Substitute(t)| == |DropInCode(m, t)| <==> LiteralsClean(m, t)
    ensures LiteralsClean(m, t) ==> Substitute(t) == DropInCode(m, t)
    decreases |t|
  {
    if t != [] {
      DropInCodeLength(Next(m, t[0]), t[1..]);
      SubstituteStep(t);
    }
  }

  /** For every text: the pass that ignores string boundaries agrees with the one that respects them
      exactly when no string holds a comma before a closer. */
  lemma StripRespectsLiteralsExactly(text: string)
    ensures Strip(text) == DropInCode(Code, Scan(Code, text)) <==> LiteralsClean(Code, Scan(Code, text))
  {
    DropInCodeLength(Code, Scan(Code, text));
  }

  /** Dropping commas outside strings touches no string. */
  lemma {:induction false} DropInCodeKeepsLiterals(m: Mode, t: string)
    ensures Literals(m, DropInCode(m, t)) == Literals(m, t)
    decreases |t|
  {
    if t != [] {
      var rest := DropInCode(Next(m, t[0]), t[1..]);
      DropInCodeKeepsLiterals(Next(m, t[0]), t[1..]);
      if m.Code? && Matches(t) {
        assert DropInCode(m, t) == rest;
      } else {
        assert ([t[0]] + rest)[1..] == rest;
      }
    }
  }

  lemma {:induction false} SubstituteLiterals(m: Mode, t: string)
    ensures |Literals(m, Substitute(t))| <= |Literals(m, t)|
    ensures |Literals(m, Substitute(t))| == |Literals(m, t)| <==> LiteralsClean(m, t)
    decreases |t|
  {
    if t != [] {
      SubstituteLiterals(Next(m, t[0]), t[1..]);
      if Matches(t) {
        BehindDroppedComma(m, t);
      } else {
        SubstituteStep(t);
        assert Substitute(t)[1..] == Substitute(t[1..]);
      }
    }
  }

  /** For every text: the comma pass leaves all string contents alone under the same condition. */
  lemma StripKeepsLiteralsExactly(text: string)
    ensures Literals(Code, Strip(text)) == Literals(Code, Scan(Code, text)) <==> LiteralsClean(Code, Scan(Code, text))
  {
    var t := Scan(Code, text);
    SubstituteLiterals(Code, t);
    DropInCodeLength(Code, t);
    DropInCodeKeepsLiterals(Code, t);
  }

  /** The literals of a document, each with its closing quote. */
  function Bodies(items: seq<Item>): string {
    if items == [] then []
    else (if items[0].Literal? then items[0].body + "\"" else []) + Bodies(items[1..])
  }

  lemma {:induction false} InChunk(code: string, rest: string)
    requires '"' !in code
    ensures LiteralsClean(Code, code + rest) <==> LiteralsClean(Code, rest)
    ensures Literals(Code, code + rest) == Literals(Code, rest)
  {
    if code == [] {
      assert code + rest == rest;
    } else {
      Shift(code, rest);
      InChunk(code[1..], rest);
    }
  }

  /** One character of a literal. */
  lemma BodyStep(m: Mode, s: string, tail: string)
    requires !m.Code? && s != [] && tail != [] && tail[0] == '"'
    ensures LiteralsClean(m, s + tail) <==> !Matches(s) && LiteralsClean(Next(m, s[0]), s[1..] + tail)
    ensures Literals(m, s + tail) == [s[0]] + Literals(Next(m, s[0]), s[1..] + tail)
  {
    Shift(s, tail);
    MatchesBeforeStop(s, tail);
  }

  /** An escaped pair of a literal. */
  lemma PairStep(s: string, tail: string)
    requires |s| >= 2 && s[0] == '\\' && tail != [] && tail[0] == '"'
    ensures LiteralsClean(InString, s + tail) <==> !Matches(s[1..]) && LiteralsClean(InString, s[2..] + tail)
    ensures Settled(s) <==> !Matches(s[1..]) && Settled(s[2..])
    ensures Literals(InString, s + tail) == [s[0]] + ([s[1]] + Literals(InString, s[2..] + tail))
  {
    BodyStep(InString, s, tail);
    BodyStep(Escaped, s[1..], tail);
    assert s[1..][1..] == s[2..];
  }

  lemma {:induction false} InBody(body: string, rest: string)
    requires WellFormedBody(body)
    ensures LiteralsClean(InString, body + ("\"" + rest)) <==> Settled(body) && LiteralsClean(Code, rest)
    ensures Literals(InString, body + ("\"" + rest)) == body + ("\"" + Literals(Code, rest))
  {
    var tail := "\"" + rest;
    if body == [] {
      assert body + tail == tail && tail[1..] == rest;
    } else if body[0] == '\\' {
      PairStep(body, tail);
      InBody(body[2..], rest);
      ShiftTwo(body, "\"" + Literals(Code, rest));
    } else {
      BodyStep(InString, body, tail);
      InBody(body[1..], rest);
      Shift(body, "\"" + Literals(Code, rest));
    }
  }

  lemma InLiteral(body: string, rest: string)
    requires WellFormedBody(body)
    ensures LiteralsClean(Code, Source(Literal(body)) + rest) <==> Settled(body) && LiteralsClean(Code, rest)
    ensures Literals(Code, Source(Literal(body)) + rest) == (body + "\"") + Literals(Code, rest)
  {
    Quoted(body, rest);
    OpenQuote(body + ("\"" + rest));
    InBody(body, rest);
    Regroup(body, "\"", Literals(Code, rest));
  }

  lemma OpenQuote(text: string)
    ensures LiteralsClean(Code, ['"'] + text) <==> LiteralsClean(InString, text)
    ensures Literals(Code, ['"'] + text) == Literals(InString, text)
  {
    assert (['"'] + text)[1..] == text;
    assert [] + Literals(InString, text) == Literals(InString, text);
  }

  lemma InItem(it: Item, after: string, rest: string)
    requires WellPlaced(it, after)
    ensures LiteralsClean(Code, Kept(it) + rest) <==> (it.Literal? ==> Settled(it.body)) && LiteralsClean(Code, rest)
    ensures Literals(Code, Kept(it) + rest) == (if it.Literal? then it.body + "\"" else []) + Literals(Code, rest)
  {
    match it
    case Chunk(code) => InChunk(code, rest);
    case Literal(body) => InLiteral(body, rest);
    case _ => assert Kept(it) + rest == rest;
  }

  /** Every literal of the document can be read off its plain form, and it is clean when they all are. */
  lemma {:induction false} LiteralsOfDocument(items: seq<Item>)
    requires WellPlacedAll(items)
    ensures Literals(Code, Plain(items)) == Bodies(items)
    ensures LiteralsClean(Code, Plain(items)) <==> forall it :: it in items && it.Literal? ==> Settled(it.body)
  {
    if items != [] {
      LiteralsOfDocument(items[1..]);
      InItem(items[0], Commented(items[1..]), Plain(items[1..]));
      assert items == [items[0]] + items[1..];
    }
  }

  /** The whole reader keeps the literals of a commented document exactly when none of them holds a comma
      whose next character that is not white space closes a bracket. */
  lemma ReaderKeepsLiteralsExactly(items: seq<Item>)
    requires WellPlacedAll(items)
    ensures Literals(Code, Strip(Commented(items))) == Bodies(items) <==>
            forall it, k :: it in items && it.Literal? && 0 <= k < |it.body| ==> !Trailing(it.body, k)
  {
    ScanUndoesInsertion(items);
    StripKeepsLiteralsExactly(Commented(items));
    LiteralsOfDocument(items);
    forall it | it in items && it.Literal?
      ensures Settled(it.body) <==> forall k :: 0 <= k < |it.body| ==> !Trailing(it.body, k)
    {
      SettledIsFixed(it.body);
      SubstituteFixedPoint(it.body);
    }
  }

  // ---------------------------------------------------------------- the loops

  function From(t: string, i: nat): string {
    if i < |t| then t[i..] else []
  }

  function ModeOf(inStr: bool, esc: bool): Mode {
    if esc then Escaped else if inStr then InString else Code
  }

  /** Copying one character moves it from the front of what is left to the end of the output. */
  lemma CopyStep(out: string, m: Mode, text: string, i: nat)
    requires i < |text|
    requires m == Code ==> !Opens(From(text, i), '/') && !Opens(From(text, i), '*')
    ensures out + Scan(m, From(text, i)) == out + [text[i]] + Scan(Next(m, text[i]), From(text, i + 1))
  {
    assert From(text, i)[1..] == From(text, i + 1);
  }

  /** The reader as it runs: one pass with an index, two flags and a growing output. */
  method StripJsonc(text: string) returns (stripped: string)
    ensures stripped == Strip(text)
  {
    var out: string := [];
    var i, n := 0, |text|;
    var inStr, esc := false, false;
    assert From(text, 0) == text;
    while i < n
      invariant esc ==> inStr
      invariant Scan(Code, text) == out + Scan(ModeOf(inStr, esc), From(text, i))
      decreases n - i
    {
      var c := text[i];
      if inStr {
        CopyStep(out, ModeOf(inStr, esc), text, i);
        out := out + [c];
        if esc {
          esc := false;
        } else if c == '\\' {
          esc := true;
        } else if c == '"' {
          inStr := false;
        }
        i := i + 1;
      } else if c == '"' {
        CopyStep(out, Code, text, i);
        inStr := true;
        out := out + [c];
        i := i + 1;
      } else if c == '/' && i + 1 < n && text[i + 1] == '/' {
        assert From(text, i)[2..] == From(text, i + 2);
        i := LineEnd(text, i);
      } else if c == '/' && i + 1 < n && text[i + 1] == '*' {
        assert From(text, i)[2..] == From(text, i + 2);
        i := BlockEnd(text, i + 2);
      } else {
        CopyStep(out, Code, text, i);
        out := out + [c];
        i := i + 1;
      }
    }
    assert From(text, i) == [] && out == Scan(Code, text);
    stripped := DropTrailingCommas(out);
  }

  /** Skipping a line stops at the first newline. */
  lemma {:induction false} LineSkipped(text: string, start: nat, i: nat)
    requires start <= i <= |text| && (i < |text| ==> text[i] == '\n')
    requires forall k :: start <= k < i ==> text[k] != '\n'
    ensures SkipLine(From(text, start)) == From(text, i)
    decreases i - start
  {
    if start < i {
      assert From(text, start)[1..] == From(text, start + 1);
      LineSkipped(text, start + 1, i);
    }
  }

  /** The inner loop over a line comment, from its opener to the newline. */
  method LineEnd(text: string, start: nat) returns (i: nat)
    requires start + 1 < |text| && text[start] == '/' && text[start + 1] == '/'
    ensures start + 2 <= i <= |text| && From(text, i) == SkipLine(From(text, start + 2))
  {
    i := start;
    while i < |text| && text[i] != '\n'
      invariant start <= i <= |text| && forall k :: start <= k < i ==> text[k] != '\n'
    {
      i := i + 1;
    }
    LineSkipped(text, start + 2, i);
  }

  /** The inner loop over a block comment, behind its opener; it may step past the end of the text. */
  method BlockEnd(text: string, start: nat) returns (i: nat)
    ensures start < i && From(text, i) == SkipBlock(From(text, start))
  {
    i := start;
    while i + 1 < |text| && !(text[i] == '*' && text[i + 1] == '/')
      invariant start <= i && SkipBlock(From(text, i)) == SkipBlock(From(text, start))
    {
      assert From(text, i)[1..] == From(text, i + 1);
      i := i + 1;
    }
    assert i + 1 < |text| ==> From(text, i)[2..] == From(text, i + 2);
    i := i + 2;
  }

  /** The substitution as a left-to-right search for matches. */
  method DropTrailingCommas(t: string) returns (r: string)
    ensures r == Substitute(t)
  {
    r := [];
    var i := 0;
    while i < |t|
      invariant i <= |t|
      invariant r + WithoutTrailing(t, i) == WithoutTrailing(t, 0)
    {
      var end := EndOfMatch(t, i);
      if end > i {
        r := r + t[i + 1..end];
        i := end;
      } else {
        r := r + [t[i]];
        i := i + 1;
      }
    }
    SubstituteMeaning(t, 0);
    assert t[0..] == t;
  }

  lemma MatchShape(t: string, i: nat, j: nat)
    requires i < |t| && j == i + 1 + SpaceRun(t[i + 1..])
    ensures Matches(t[i..]) <==> t[i] == ',' && j < |t| && IsCloser(t[j])
  {
    assert t[i..][1..] == t[i + 1..];
    assert j < |t| ==> t[i..][j - i] == t[j];
  }

  method SkipSpaces(t: string, i: nat) returns (j: nat)
    requires i <= |t|
    ensures j == i + SpaceRun(t[i..])
  {
    j := i;
    while j < |t| && IsSpace(t[j])
      invariant i <= j <= |t| && SpaceRun(t[i..]) == j - i + SpaceRun(t[j..])
    {
      assert t[j..][1..] == t[j + 1..];
      j := j + 1;
    }
  }

  /** One attempt of the pattern at position `i`: where the match ends, or `i` when there is none. */
  method EndOfMatch(t: string, i: nat) returns (end: nat)
    requires i < |t|
    ensures end >= i && (end > i <==> Trailing(t, i))
    ensures end > i ==> end <= |t| && WithoutTrailing(t, i) == t[i + 1..end] + WithoutTrailing(t, end)
  {
    var j := SkipSpaces(t, i + 1);
    MatchShape(t, i, j);
    MatchIsTrailing(t, i);
    if t[i] == ',' && j < |t| && IsCloser(t[j]) {
      assert t[i..][1..] == t[i + 1..];
      MatchStretch(t, i, j + 1);
      return j + 1;
    }
    return i;
  }
}
