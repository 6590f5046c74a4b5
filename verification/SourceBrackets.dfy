/** Bracket matching and top-level splitting of Rust source text
    (scripts/data_model_inventory.py, matching, split_top). */
module SourceBrackets {
  import opened Common
  import opened Text

  predicate IsOpener(c: char) {
    c == '(' || c == '[' || c == '{'
  }

  predicate IsCloser(c: char) {
    c == ')' || c == ']' || c == '}'
  }

  function CloserOf(c: char): char
    requires IsOpener(c)
  {
    if c == '(' then ')' else if c == '[' then ']' else '}'
  }

  // ---------------------------------------------------------------------------
  // Balanced text

  /** Text in which every bracket is matched by one of its own kind. */
  datatype Balanced =
    | Empty
    | Plain(c: char, rest: Balanced)
    | Nested(opener: char, inner: Balanced, after: Balanced)

  predicate WellFormed(b: Balanced) {
    match b
    case Empty => true
    case Plain(c, rest) => c !in "()[]{}" && WellFormed(rest)
    case Nested(opener, inner, after) => opener in "([{" && WellFormed(inner) && WellFormed(after)
  }

  /** The character that ends what the bracket begins. */
  function Partner(opener: char): char {
    match opener
    case '(' => ')'
    case '[' => ']'
    case _ => '}'
  }

  lemma BracketsAre(c: char)
    ensures IsOpener(c) <==> c in "([{"
    ensures IsOpener(c) || IsCloser(c) <==> c in "()[]{}"
    ensures IsOpener(c) ==> CloserOf(c) == Partner(c) && IsCloser(Partner(c)) && !IsOpener(Partner(c))
  {
  }

  function Flatten(b: Balanced): string
    requires WellFormed(b)
  {
    match b
    case Empty => ""
    case Plain(c, rest) => [c] + Flatten(rest)
    case Nested(opener, inner, after) => [opener] + Flatten(inner) + [Partner(opener)] + Flatten(after)
  }

  /** One bracket, balanced text, and the bracket's own closer. */
  ghost predicate IsGroup(s: string) {
    exists opener, inner :: IsGroupOf(s, opener, inner)
  }

  predicate IsGroupOf(s: string, opener: char, inner: Balanced) {
    opener in "([{" && WellFormed(inner) && s == [opener] + Flatten(inner) + [Partner(opener)]
  }

  // ---------------------------------------------------------------------------
  // The matcher

  /** Continue with the text `s` that begins at offset `at`, given the closers still awaited,
      innermost last. */
  function Scan(s: string, stack: seq<char>, at: nat): Result<nat>
    requires stack != []
    decreases |s|
  {
    if s == "" then Err
    else if IsOpener(s[0]) then Scan(s[1..], stack + [CloserOf(s[0])], at + 1)
    else if !IsCloser(s[0]) then Scan(s[1..], stack, at + 1)
    else if s[0] != stack[|stack| - 1] then Err
    else if |stack| == 1 then Ok(at)
    else Scan(s[1..], stack[..|stack| - 1], at + 1)
  }

  /** Where the bracket at `start` closes; Err is each of the source's exceptions. */
  function MatchAt(source: string, start: nat): Result<nat> {
    if start < |source| && IsOpener(source[start])
    then Scan(source[start + 1..], [CloserOf(source[start])], start + 1)
    else Err
  }

  method Matching(source: string, start: nat) returns (r: Result<nat>)
    ensures r == MatchAt(source, start)
  {
    if start >= |source| || !IsOpener(source[start]) {
      return Err;
    }
    var stack := [CloserOf(source[start])];
    for cursor := start + 1 to |source|
      invariant stack != []
      invariant Scan(source[cursor..], stack, cursor) == MatchAt(source, start)
    {
      var c := source[cursor];
      assert source[cursor..][1..] == source[cursor + 1..];
      if IsOpener(c) {
        stack := stack + [CloserOf(c)];
      } else if IsCloser(c) {
        if c != stack[|stack| - 1] {
          return Err;
        }
        stack := stack[..|stack| - 1];
        if stack == [] {
          return Ok(cursor);
        }
      }
    }
    return Err;
  }

  lemma NestedText(opener: char, inner: string, closer: char, after: string, rest: string)
    ensures ([opener] + inner + [closer] + after + rest)[1..] == inner + ([closer] + (after + rest))
    ensures ([opener] + inner + [closer] + after + rest)[0] == opener
  {
  }

  /** Balanced text leaves the stack as it was. */
  lemma {:induction false} ScanBalanced(b: Balanced, rest: string, stack: seq<char>, at: nat)
    requires stack != [] && WellFormed(b)
    ensures Scan(Flatten(b) + rest, stack, at) == Scan(rest, stack, at + |Flatten(b)|)
    decreases b
  {
    hide IsOpener, IsCloser, Partner, CloserOf;
    match b
    case Empty =>
      assert Flatten(b) + rest == rest;
    case Plain(c, tail) =>
      BracketsAre(c);
      assert (Flatten(b) + rest)[1..] == Flatten(tail) + rest;
      ScanBalanced(tail, rest, stack, at + 1);
    case Nested(opener, inner, after) =>
      BracketsAre(opener);
      var closer := Partner(opener);
      var beyond := [closer] + (Flatten(after) + rest);
      NestedText(opener, Flatten(inner), closer, Flatten(after), rest);
      ScanBalanced(inner, beyond, stack + [closer], at + 1);
      ScanCloser(Flatten(after) + rest, stack, closer, at + 1 + |Flatten(inner)|);
      ScanBalanced(after, rest, stack, at + 2 + |Flatten(inner)|);
  }

  lemma ScanCloser(rest: string, stack: seq<char>, closer: char, at: nat)
    requires stack != [] && IsCloser(closer)
    ensures Scan([closer] + rest, stack + [closer], at) == Scan(rest, stack, at + 1)
  {
    assert ([closer] + rest)[1..] == rest && (stack + [closer])[..|stack|] == stack;
  }

  ghost predicate AllWellFormed(bs: seq<Balanced>) {
    forall i :: 0 <= i < |bs| ==> WellFormed(bs[i])
  }

  /** Balanced texts separated by the awaited closers, innermost first. */
  ghost function Weave(bs: seq<Balanced>, stack: seq<char>): string
    requires |bs| == |stack| && AllWellFormed(bs)
  {
    if bs == [] then "" else Flatten(bs[0]) + [stack[|stack| - 1]] + Weave(bs[1..], stack[..|stack| - 1])
  }

  lemma WeaveFirst(b: Balanced, bs: seq<Balanced>, stack: seq<char>)
    requires |bs| + 1 == |stack| && WellFormed(b) && AllWellFormed(bs)
    ensures AllWellFormed([b] + bs)
    ensures Weave([b] + bs, stack) == Flatten(b) + [stack[|stack| - 1]] + Weave(bs, stack[..|stack| - 1])
  {
    hide WellFormed, Flatten;
    assert ([b] + bs)[1..] == bs;
  }

  lemma RestWellFormed(bs: seq<Balanced>)
    requires bs != [] && AllWellFormed(bs)
    ensures WellFormed(bs[0]) && AllWellFormed(bs[1..]) && [bs[0]] + bs[1..] == bs
  {
    hide WellFormed;
  }

  lemma WeavePlain(c: char, bs: seq<Balanced>, stack: seq<char>)
    requires |bs| == |stack| > 0 && AllWellFormed(bs) && !IsOpener(c) && !IsCloser(c)
    ensures AllWellFormed([Plain(c, bs[0])] + bs[1..])
    ensures Weave([Plain(c, bs[0])] + bs[1..], stack) == [c] + Weave(bs, stack)
  {
    hide Weave, AllWellFormed;
    RestWellFormed(bs);
    WeaveFirst(bs[0], bs[1..], stack);
    WeaveFirst(Plain(c, bs[0]), bs[1..], stack);
    Regroup(c, Flatten(bs[0]), stack[|stack| - 1], Weave(bs[1..], stack[..|stack| - 1]));
  }

  lemma WeaveOpener(c: char, bs: seq<Balanced>, stack: seq<char>)
    requires |bs| == |stack| + 1 > 1 && AllWellFormed(bs) && IsOpener(c)
    ensures AllWellFormed([Nested(c, bs[0], bs[1])] + bs[2..])
    ensures Weave([Nested(c, bs[0], bs[1])] + bs[2..], stack) == [c] + Weave(bs, stack + [CloserOf(c)])
  {
    hide Weave, AllWellFormed;
    var closer, top := CloserOf(c), stack[|stack| - 1];
    var others := bs[1..];
    RestWellFormed(bs);
    RestWellFormed(others);
    assert others[1..] == bs[2..] && others[0] == bs[1];
    assert (stack + [closer])[..|stack|] == stack;
    WeaveFirst(bs[0], others, stack + [closer]);
    WeaveFirst(bs[1], bs[2..], stack);
    WeaveFirst(Nested(c, bs[0], bs[1]), bs[2..], stack);
    NestedRegroup(c, Flatten(bs[0]), closer, Flatten(bs[1]), top, Weave(bs[2..], stack[..|stack| - 1]));
  }

  lemma Regroup(c: char, f: string, e: char, w: string)
    ensures ([c] + f) + [e] + w == [c] + (f + [e] + w)
  {
  }

  lemma NestedRegroup(c: char, f: string, d: char, g: string, e: char, w: string)
    ensures ([c] + f + [d] + g) + [e] + w == [c] + (f + [d] + (g + [e] + w))
  {
  }

  lemma WeaveCloser(bs: seq<Balanced>, stack: seq<char>)
    requires |bs| + 1 == |stack| && AllWellFormed(bs)
    ensures AllWellFormed([Empty] + bs)
    ensures Weave([Empty] + bs, stack) == [stack[|stack| - 1]] + Weave(bs, stack[..|stack| - 1])
  {
    hide Weave, AllWellFormed;
    WeaveFirst(Empty, bs, stack);
    assert "" + [stack[|stack| - 1]] == [stack[|stack| - 1]];
  }

  /** A successful scan has read exactly such a text. */
  lemma {:induction false} ScanWeaves(s: string, stack: seq<char>, at: nat) returns (bs: seq<Balanced>)
    requires stack != [] && Scan(s, stack, at).Ok?
    ensures |bs| == |stack| && AllWellFormed(bs)
    ensures at <= Scan(s, stack, at).value < at + |s|
    ensures s[..Scan(s, stack, at).value + 1 - at] == Weave(bs, stack)
    decreases |s|
  {
    hide Weave, AllWellFormed;
    var c, n := s[0], Scan(s, stack, at).value + 1 - at;
    if IsOpener(c) {
      var more := ScanWeaves(s[1..], stack + [CloserOf(c)], at + 1);
      WeaveOpener(c, more, stack);
      bs := [Nested(c, more[0], more[1])] + more[2..];
      assert s[..n] == [c] + s[1..][..n - 1];
    } else if !IsCloser(c) {
      var more := ScanWeaves(s[1..], stack, at + 1);
      WeavePlain(c, more, stack);
      bs := [Plain(c, more[0])] + more[1..];
      assert s[..n] == [c] + s[1..][..n - 1];
    } else {
      var more := [];
      WeaveNone();
      if |stack| > 1 {
        more := ScanWeaves(s[1..], stack[..|stack| - 1], at + 1);
        assert s[..n] == [c] + s[1..][..n - 1];
      } else {
        assert stack[..0] == [] && s[..n] == [c] + "";
      }
      WeaveCloser(more, stack);
      bs := [Empty] + more;
    }
  }

  lemma WeaveNone()
    ensures AllWellFormed([]) && Weave([], []) == ""
  {
  }

  /** The matcher returns `r` if and only if the text from the bracket to `r` is one balanced group. */
  lemma MatchIff(source: string, start: nat, r: nat)
    ensures MatchAt(source, start) == Ok(r) <==> start < r < |source| && IsGroup(source[start..r + 1])
  {
    if MatchAt(source, start) == Ok(r) {
      MatchSound(source, start);
    }
    if start < r < |source| && IsGroup(source[start..r + 1]) {
      var opener, inner :| IsGroupOf(source[start..r + 1], opener, inner);
      MatchComplete(source, start, r, opener, inner);
    }
  }

  lemma MatchSound(source: string, start: nat)
    requires MatchAt(source, start).Ok?
    ensures start < MatchAt(source, start).value < |source|
    ensures IsGroup(source[start..MatchAt(source, start).value + 1])
  {
    var r := MatchAt(source, start).value;
    var stack := [CloserOf(source[start])];
    var bs := ScanWeaves(source[start + 1..], stack, start + 1);
    assert bs[1..] == [] && stack[..0] == [];
    assert Weave(bs, stack) == Flatten(bs[0]) + [CloserOf(source[start])];
    assert source[start..r + 1] == [source[start]] + source[start + 1..][..r - start];
    assert IsGroupOf(source[start..r + 1], source[start], bs[0]);
  }

  lemma MatchComplete(source: string, start: nat, r: nat, opener: char, inner: Balanced)
    requires start < r < |source| && IsGroupOf(source[start..r + 1], opener, inner)
    ensures MatchAt(source, start) == Ok(r)
  {
    var text, closer := Flatten(inner), CloserOf(opener);
    assert source[start] == source[start..r + 1][0];
    assert source[start + 1..] == source[start..r + 1][1..] + source[r + 1..];
    assert source[start + 1..] == text + ([closer] + source[r + 1..]);
    ScanBalanced(inner, [closer] + source[r + 1..], [closer], start + 1);
  }

  // ---------------------------------------------------------------------------
  // The splitter

  /** A closing angle bracket that is not the end of an arrow. */
  predicate ClosesAngle(source: string, cursor: nat)
    requires cursor < |source|
  {
    source[cursor] == '>' && (cursor == 0 || source[cursor - 1] != '-')
  }

  /** The untrimmed pieces from `start` on, with the scan at `cursor`. */
  function SplitFrom(source: string, sep: char, start: nat, cursor: nat, angle: nat): Result<seq<string>>
    requires start <= cursor <= |source|
    decreases |source| - cursor
  {
    if cursor == |source| then Ok([source[start..]])
    else
      var c := source[cursor];
      if IsOpener(c) then
        var m := MatchAt(source, cursor);
        if m.Err? then Err
        else
          MatchSound(source, cursor);
          SplitFrom(source, sep, start, m.value + 1, angle)
      else if c == '<' then SplitFrom(source, sep, start, cursor + 1, angle + 1)
      else if ClosesAngle(source, cursor) then SplitFrom(source, sep, start, cursor + 1, Max(0, angle - 1))
      else if c == sep && angle == 0 then
        var rest := SplitFrom(source, sep, cursor + 1, cursor + 1, angle);
        if rest.Err? then Err else Ok([source[start..cursor]] + rest.value)
      else SplitFrom(source, sep, start, cursor + 1, angle)
  }

  function Pieces(source: string, sep: char): Result<seq<string>> {
    SplitFrom(source, sep, 0, 0, 0)
  }

  /** Blank pieces are dropped and the others trimmed. */
  function TrimPieces(pieces: seq<string>): seq<string> {
    if pieces == [] then []
    else if Strip(pieces[0]) != "" then [Strip(pieces[0])] + TrimPieces(pieces[1..])
    else TrimPieces(pieces[1..])
  }

  /** Piece by piece, in order: a blank one leaves nothing, any other its stripped text. */
  lemma {:induction false} TrimPiecesEach(before: seq<string>, piece: string, after: seq<string>)
    ensures TrimPieces(before + [piece] + after)
         == TrimPieces(before) + (if AllSpace(piece) then [] else [Strip(piece)]) + TrimPieces(after)
  {
    hide Strip, AllSpace;
    StripBlankIff(piece);
    TrimConcat(before + [piece], after);
    TrimConcat(before, [piece]);
    TrimOne(piece);
  }

  lemma TrimOne(piece: string)
    ensures TrimPieces([piece]) == if Strip(piece) == "" then [] else [Strip(piece)]
  {
    hide Strip;
    assert [piece][1..] == [];
  }

  lemma {:induction false} TrimConcat(a: seq<string>, b: seq<string>)
    ensures TrimPieces(a + b) == TrimPieces(a) + TrimPieces(b)
  {
    hide Strip;
    if a == [] {
      assert a + b == b;
    } else {
      assert (a + b)[1..] == a[1..] + b;
      TrimConcat(a[1..], b);
    }
  }

  lemma StripBlankIff(s: string)
    ensures Strip(s) == "" <==> AllSpace(s)
  {
    if AllSpace(s) {
      assert s + "" + "" == s;
      StripPadded(s, "", "");
    } else {
      NotBlank(s);
    }
  }

  lemma {:induction false} NotBlank(s: string)
    requires !AllSpace(s)
    ensures Strip(s) != ""
  {
    var i :| 0 <= i < |s| && !IsSpace(s[i]);
    LeftKeeps(s, i);
    StripLeftSuffix(s);
    RightKeeps(StripLeft(s));
  }

  lemma {:induction false} LeftKeeps(s: string, i: nat)
    requires i < |s| && !IsSpace(s[i])
    ensures StripLeft(s) != ""
  {
    if IsSpace(s[0]) {
      LeftKeeps(s[1..], i - 1);
    }
  }

  lemma {:induction false} RightKeeps(s: string)
    requires s != "" && !IsSpace(s[0])
    ensures StripRight(s) != ""
  {
    if IsSpace(s[|s| - 1]) {
      RightKeeps(s[..|s| - 1]);
    }
  }

  method SplitTop(source: string, sep: char) returns (r: Result<seq<string>>)
    ensures r == match Pieces(source, sep) case Err => Err case Ok(pieces) => Ok(TrimPieces(pieces))
  {
    hide TrimPieces, MatchAt;
    var parts: seq<string> := [];
    var start, cursor, angle := 0, 0, 0;
    PrependNone(Pieces(source, sep));
    while cursor < |source|
      invariant 0 <= start <= cursor <= |source| && angle >= 0
      invariant Pieces(source, sep) == Prepend(parts, SplitFrom(source, sep, start, cursor, angle))
    {
      var c := source[cursor];
      if IsOpener(c) {
        var m := Matching(source, cursor);
        if m.Err? {
          return Err;
        }
        MatchSound(source, cursor);
        cursor := m.value;
      } else if c == '<' {
        angle := angle + 1;
      } else if ClosesAngle(source, cursor) {
        angle := Max(0, angle - 1);
      } else if c == sep && angle == 0 {
        PrependOne(parts, source[start..cursor], SplitFrom(source, sep, cursor + 1, cursor + 1, angle));
        parts := parts + [source[start..cursor]];
        start := cursor + 1;
      }
      cursor := cursor + 1;
    }
    parts := parts + [source[start..]];
    r := Ok(TrimPieces(parts));
  }

  function Prepend(parts: seq<string>, r: Result<seq<string>>): Result<seq<string>> {
    if r.Err? then Err else Ok(parts + r.value)
  }

  lemma PrependNone(r: Result<seq<string>>)
    ensures Prepend([], r) == r
  {
    if r.Ok? {
      assert [] + r.value == r.value;
    }
  }

  lemma PrependOne(parts: seq<string>, p: string, r: Result<seq<string>>)
    ensures Prepend(parts, Prepend([p], r)) == Prepend(parts + [p], r)
  {
    if r.Ok? {
      assert parts + ([p] + r.value) == parts + [p] + r.value;
    }
  }

  // ---------------------------------------------------------------------------
  // Tokens: an independent account of depth

  /** A whole bracket group, or one character that opens none. */
  datatype Token = Single(c: char) | Group(text: string)

  ghost predicate ValidToken(t: Token) {
    match t
    case Single(c) => !IsOpener(c)
    case Group(text) => IsGroup(text)
  }

  function TokenText(t: Token): string {
    match t
    case Single(c) => [c]
    case Group(text) => text
  }

  function TextOf(ts: seq<Token>): string {
    if ts == [] then "" else TokenText(ts[0]) + TextOf(ts[1..])
  }

  ghost predicate ValidTokens(ts: seq<Token>) {
    forall i :: 0 <= i < |ts| ==> ValidToken(ts[i])
  }

  /** How the token changes the angle depth, after a hyphen or not; None where it leaves it alone. */
  function NextAngle(t: Token, hyphen: bool, angle: nat): Option<nat> {
    if t == Single('<') then Some(angle + 1)
    else if t == Single('>') && !hyphen then Some(Max(0, angle - 1))
    else None
  }

  /** No separator stands outside all groups and angle brackets. */
  ghost predicate NoTopSeparator(ts: seq<Token>, sep: char, hyphen: bool, angle: nat)
    decreases |ts|
  {
    if ts == [] then true
    else
      var next := NextAngle(ts[0], hyphen, angle);
      && (next.None? && angle == 0 ==> ts[0] != Single(sep))
      && NoTopSeparator(ts[1..], sep, ts[0] == Single('-'), next.GetOr(angle))
  }

  /** The angle depth at the end of the tokens. */
  ghost function AngleAfter(ts: seq<Token>, hyphen: bool, angle: nat): nat
    decreases |ts|
  {
    if ts == [] then angle
    else AngleAfter(ts[1..], ts[0] == Single('-'), NextAngle(ts[0], hyphen, angle).GetOr(angle))
  }

  predicate HyphenAt(source: string, cursor: nat)
    requires cursor <= |source|
  {
    cursor > 0 && source[cursor - 1] == '-'
  }

  /** From the cursor on: what is left of the first piece and the further pieces, as tokens. */
  ghost predicate Tokenized(source: string, sep: char, start: nat, cursor: nat, angle: nat,
                            pieces: seq<string>, parts: seq<seq<Token>>)
    requires start <= cursor <= |source|
  {
    && |pieces| == |parts| > 0
    && (forall i :: 0 <= i < |parts| ==> ValidTokens(parts[i]))
    && pieces[0] == source[start..cursor] + TextOf(parts[0])
    && NoTopSeparator(parts[0], sep, HyphenAt(source, cursor), angle)
    && (|parts| > 1 ==> AngleAfter(parts[0], HyphenAt(source, cursor), angle) == 0)
    && (forall i :: 0 < i < |parts| ==> pieces[i] == TextOf(parts[i]) && NoTopSeparator(parts[i], sep, sep == '-', 0))
    && (forall i :: 0 < i < |parts| - 1 ==> AngleAfter(parts[i], sep == '-', 0) == 0)
  }

  lemma TokenFirst(t: Token, ts: seq<Token>, sep: char, hyphen: bool, angle: nat)
    ensures TextOf([t] + ts) == TokenText(t) + TextOf(ts)
    ensures ValidToken(t) && ValidTokens(ts) ==> ValidTokens([t] + ts)
    ensures AngleAfter([t] + ts, hyphen, angle)
         == AngleAfter(ts, t == Single('-'), NextAngle(t, hyphen, angle).GetOr(angle))
    ensures var next := NextAngle(t, hyphen, angle);
            (next.None? && angle == 0 ==> t != Single(sep)) &&
            NoTopSeparator(ts, sep, t == Single('-'), next.GetOr(angle)) ==>
            NoTopSeparator([t] + ts, sep, hyphen, angle)
  {
    assert ([t] + ts)[1..] == ts;
  }

  lemma TokenizedToken(source: string, sep: char, start: nat, cursor: nat, end: nat, angle: nat, t: Token,
                       pieces: seq<string>, parts: seq<seq<Token>>)
    requires ValidToken(t) && start <= cursor < end <= |source| && source[cursor..end] == TokenText(t)
    requires HyphenAt(source, end) == (t == Single('-'))
    requires NextAngle(t, HyphenAt(source, cursor), angle).None? && angle == 0 ==> t != Single(sep)
    requires Tokenized(source, sep, start, end, NextAngle(t, HyphenAt(source, cursor), angle).GetOr(angle), pieces, parts)
    ensures Tokenized(source, sep, start, cursor, angle, pieces, parts[0 := [t] + parts[0]])
  {
    hide ValidToken, ValidTokens, NoTopSeparator, AngleAfter, TextOf, TokenText, NextAngle;
    TokenFirst(t, parts[0], sep, HyphenAt(source, cursor), angle);
    assert source[start..end] == source[start..cursor] + source[cursor..end];
    assert source[start..cursor] + (TokenText(t) + TextOf(parts[0])) == source[start..end] + TextOf(parts[0]);
  }

  /** The splitter's pieces, as tokens in which no separator is left at the top. */
  lemma {:induction false} SplitTokenizes(source: string, sep: char, start: nat, cursor: nat, angle: nat)
    returns (parts: seq<seq<Token>>)
    requires start <= cursor <= |source| && SplitFrom(source, sep, start, cursor, angle).Ok?
    ensures parts != []
    ensures Tokenized(source, sep, start, cursor, angle, SplitFrom(source, sep, start, cursor, angle).value, parts)
    decreases |source| - cursor
  {
    hide MatchAt, IsGroup, Tokenized, NextAngle;
    var pieces := SplitFrom(source, sep, start, cursor, angle).value;
    if cursor == |source| {
      parts := [[]];
      TokenizedEnd(source, sep, start, angle);
    } else if IsOpener(source[cursor]) {
      var r := MatchAt(source, cursor).value;
      MatchSound(source, cursor);
      var t := Group(source[cursor..r + 1]);
      GroupEnds(source[cursor..r + 1]);
      assert source[r] == source[cursor..r + 1][r - cursor];
      var more := SplitTokenizes(source, sep, start, r + 1, angle);
      GroupAngle(source[cursor..r + 1], HyphenAt(source, cursor), angle);
      TokenizedToken(source, sep, start, cursor, r + 1, angle, t, pieces, more);
      parts := more[0 := [t] + more[0]];
    } else {
      var t := Single(source[cursor]);
      SingleAngle(source, cursor, angle);
      assert source[cursor..cursor + 1] == [source[cursor]];
      var next := NextAngle(t, HyphenAt(source, cursor), angle);
      if next.None? && source[cursor] == sep && angle == 0 {
        var more := SplitTokenizes(source, sep, cursor + 1, cursor + 1, angle);
        TokenizedCut(source, sep, start, cursor, SplitFrom(source, sep, cursor + 1, cursor + 1, angle).value, more);
        parts := [[]] + more;
      } else {
        var more := SplitTokenizes(source, sep, start, cursor + 1, next.GetOr(angle));
        TokenizedToken(source, sep, start, cursor, cursor + 1, angle, t, pieces, more);
        parts := more[0 := [t] + more[0]];
      }
    }
  }

  lemma GroupAngle(text: string, hyphen: bool, angle: nat)
    ensures NextAngle(Group(text), hyphen, angle) == None
  {
  }

  lemma SingleAngle(source: string, cursor: nat, angle: nat)
    requires cursor < |source|
    ensures var next := NextAngle(Single(source[cursor]), HyphenAt(source, cursor), angle);
            && (source[cursor] == '<' ==> next == Some(angle + 1))
            && (ClosesAngle(source, cursor) ==> next == Some(Max(0, angle - 1)))
            && (source[cursor] != '<' && !ClosesAngle(source, cursor) ==> next == None)
  {
  }

  lemma TokenizedEnd(source: string, sep: char, start: nat, angle: nat)
    requires start <= |source|
    ensures Tokenized(source, sep, start, |source|, angle, [source[start..]], [[]])
  {
    assert source[start..|source|] + "" == source[start..];
  }

  lemma TokenizedCut(source: string, sep: char, start: nat, cursor: nat, pieces: seq<string>, parts: seq<seq<Token>>)
    requires start <= cursor < |source| && source[cursor] == sep
    requires Tokenized(source, sep, cursor + 1, cursor + 1, 0, pieces, parts)
    ensures Tokenized(source, sep, start, cursor, 0, [source[start..cursor]] + pieces, [[]] + parts)
  {
    hide TextOf, NoTopSeparator, AngleAfter, ValidTokens;
    TokensNone(sep, HyphenAt(source, cursor));
    assert source[cursor + 1..cursor + 1] + TextOf(parts[0]) == TextOf(parts[0]);
    assert source[start..cursor] + "" == source[start..cursor];
  }

  lemma TokensNone(sep: char, hyphen: bool)
    ensures TextOf([]) == "" && ValidTokens([]) && NoTopSeparator([], sep, hyphen, 0) && AngleAfter([], hyphen, 0) == 0
  {
  }

  lemma GroupEnds(s: string)
    requires IsGroup(s)
    ensures |s| >= 2 && IsOpener(s[0]) && IsCloser(s[|s| - 1])
  {
  }

  /** Joined with the separator. */
  function JoinWith(pieces: seq<string>, sep: char): string
    requires pieces != []
  {
    if |pieces| == 1 then pieces[0] else pieces[0] + [sep] + JoinWith(pieces[1..], sep)
  }

  lemma JoinOne(piece: string, sep: char)
    ensures JoinWith([piece], sep) == piece
  {
  }

  lemma JoinCut(source: string, sep: char, start: nat, cursor: nat, more: seq<string>)
    requires start <= cursor < |source| && source[cursor] == sep
    requires more != [] && JoinWith(more, sep) == source[cursor + 1..]
    ensures JoinWith([source[start..cursor]] + more, sep) == source[start..]
  {
    assert ([source[start..cursor]] + more)[1..] == more;
    assert source[start..cursor] + [sep] + source[cursor + 1..] == source[start..];
  }

  lemma {:induction false} PiecesRejoin(source: string, sep: char, start: nat, cursor: nat, angle: nat)
    requires start <= cursor <= |source| && SplitFrom(source, sep, start, cursor, angle).Ok?
    ensures SplitFrom(source, sep, start, cursor, angle).value != []
    ensures JoinWith(SplitFrom(source, sep, start, cursor, angle).value, sep) == source[start..]
    decreases |source| - cursor
  {
    hide MatchAt, IsGroup, JoinWith, ClosesAngle;
    if cursor == |source| {
      JoinOne(source[start..], sep);
    } else {
      var c := source[cursor];
      if IsOpener(c) {
        MatchSound(source, cursor);
        PiecesRejoin(source, sep, start, MatchAt(source, cursor).value + 1, angle);
      } else if c == '<' {
        PiecesRejoin(source, sep, start, cursor + 1, angle + 1);
      } else if ClosesAngle(source, cursor) {
        PiecesRejoin(source, sep, start, cursor + 1, Max(0, angle - 1));
      } else if c == sep && angle == 0 {
        PiecesRejoin(source, sep, cursor + 1, cursor + 1, angle);
        JoinCut(source, sep, start, cursor, SplitFrom(source, sep, cursor + 1, cursor + 1, angle).value);
      } else {
        PiecesRejoin(source, sep, start, cursor + 1, angle);
      }
    }
  }

  /** With no angle open it makes no difference whether a separator came before the text. */
  lemma PieceStart(ts: seq<Token>, sep: char)
    requires NoTopSeparator(ts, sep, sep == '-', 0)
    ensures NoTopSeparator(ts, sep, false, 0) && AngleAfter(ts, false, 0) == AngleAfter(ts, sep == '-', 0)
  {
  }

  /** The untrimmed pieces rejoin to the source; each is a run of whole tokens without a separator at
      bracket and angle depth zero, and every cut is made at depth zero. */
  lemma PiecesAreTopLevel(source: string, sep: char) returns (parts: seq<seq<Token>>)
    requires Pieces(source, sep).Ok?
    ensures var pieces := Pieces(source, sep).value;
            && pieces != [] && JoinWith(pieces, sep) == source
            && |parts| == |pieces|
            && forall i :: 0 <= i < |parts| ==>
                 && pieces[i] == TextOf(parts[i]) && ValidTokens(parts[i])
                 && NoTopSeparator(parts[i], sep, false, 0)
                 && (i < |parts| - 1 ==> AngleAfter(parts[i], false, 0) == 0)
  {
    PiecesRejoin(source, sep, 0, 0, 0);
    assert source[0..] == source;
    parts := SplitTokenizes(source, sep, 0, 0, 0);
    forall i | 0 < i < |parts|
      ensures NoTopSeparator(parts[i], sep, false, 0) && AngleAfter(parts[i], false, 0) == AngleAfter(parts[i], sep == '-', 0)
    {
      PieceStart(parts[i], sep);
    }
    assert source[0..0] + TextOf(parts[0]) == TextOf(parts[0]);
  }

  /** The first token is at the cursor, and the others follow it. */
  lemma FirstToken(source: string, cursor: nat, ts: seq<Token>)
    requires cursor <= |source| && ValidTokens(ts) && source[cursor..] == TextOf(ts)
    ensures ts == [] <==> cursor == |source|
    ensures ts != [] ==>
      var end := cursor + |TokenText(ts[0])|;
      && cursor < end <= |source| && ValidTokens(ts[1..]) && source[end..] == TextOf(ts[1..])
      && (ts[0].Group? ==> IsOpener(source[cursor]) && MatchAt(source, cursor) == Ok(end - 1))
      && (ts[0].Single? ==> end == cursor + 1 && !IsOpener(source[cursor]))
  {
    hide MatchAt, IsGroup, TextOf, ValidTokens;
    TextParts(ts);
    if ts != [] {
      var text := TokenText(ts[0]);
      CutAt(source, cursor, text, TextOf(ts[1..]));
      if ts[0].Group? {
        GroupEnds(text);
        MatchIff(source, cursor, cursor + |text| - 1);
      }
    }
  }

  lemma TextParts(ts: seq<Token>)
    requires ValidTokens(ts)
    ensures ts == [] ==> TextOf(ts) == ""
    ensures ts != [] ==>
      && ValidToken(ts[0]) && ValidTokens(ts[1..]) && TokenText(ts[0]) != ""
      && TextOf(ts) == TokenText(ts[0]) + TextOf(ts[1..])
  {
    if ts != [] && ts[0].Group? {
      GroupEnds(ts[0].text);
    }
  }

  lemma CutAt(source: string, cursor: nat, text: string, rest: string)
    requires cursor <= |source| && source[cursor..] == text + rest && text != ""
    ensures cursor + |text| <= |source| && source[cursor] == text[0]
    ensures source[cursor..cursor + |text|] == text && source[cursor + |text|..] == rest
  {
    assert source[cursor..][..|text|] == source[cursor..cursor + |text|];
    assert source[cursor..][|text|..] == source[cursor + |text|..];
  }

  lemma {:induction false} TokensSplit(source: string, sep: char, start: nat, cursor: nat, angle: nat, ts: seq<Token>)
    requires start <= cursor <= |source| && ValidTokens(ts) && source[cursor..] == TextOf(ts)
    ensures SplitFrom(source, sep, start, cursor, angle).Ok?
    decreases |ts|
  {
    hide MatchAt, IsGroup, ValidTokens, TextOf, ClosesAngle;
    FirstToken(source, cursor, ts);
    if ts != [] {
      var end := cursor + |TokenText(ts[0])|;
      TokensSplit(source, sep, start, end, angle, ts[1..]);
      TokensSplit(source, sep, start, end, angle + 1, ts[1..]);
      TokensSplit(source, sep, start, end, Max(0, angle - 1), ts[1..]);
      TokensSplit(source, sep, end, end, angle, ts[1..]);
    }
  }

  lemma {:induction false} SplitReads(source: string, sep: char, start: nat, cursor: nat, angle: nat)
    returns (ts: seq<Token>)
    requires start <= cursor <= |source| && SplitFrom(source, sep, start, cursor, angle).Ok?
    ensures ValidTokens(ts) && TextOf(ts) == source[cursor..]
    decreases |source| - cursor
  {
    hide MatchAt, IsGroup;
    ts := [];
    if cursor < |source| {
      var c := source[cursor];
      if IsOpener(c) {
        var r := MatchAt(source, cursor).value;
        MatchSound(source, cursor);
        var more := SplitReads(source, sep, start, r + 1, angle);
        ts := [Group(source[cursor..r + 1])] + more;
        assert ts[1..] == more && source[cursor..] == source[cursor..r + 1] + source[r + 1..];
      } else {
        var more;
        if c == '<' {
          more := SplitReads(source, sep, start, cursor + 1, angle + 1);
        } else if ClosesAngle(source, cursor) {
          more := SplitReads(source, sep, start, cursor + 1, Max(0, angle - 1));
        } else if c == sep && angle == 0 {
          more := SplitReads(source, sep, cursor + 1, cursor + 1, angle);
        } else {
          more := SplitReads(source, sep, start, cursor + 1, angle);
        }
        ts := [Single(c)] + more;
        assert ts[1..] == more && source[cursor..] == [c] + source[cursor + 1..];
      }
    }
  }

  /** The splitter raises exactly when some bracket that it meets at the top does not close. */
  lemma SplitDefinedIff(source: string, sep: char)
    ensures Pieces(source, sep).Ok? <==> exists ts: seq<Token> :: ValidTokens(ts) && TextOf(ts) == source
  {
    if exists ts: seq<Token> :: ValidTokens(ts) && TextOf(ts) == source {
      var ts: seq<Token> :| ValidTokens(ts) && TextOf(ts) == source;
      assert source[0..] == source;
      TokensSplit(source, sep, 0, 0, 0, ts);
    }
    if Pieces(source, sep).Ok? {
      var ts := SplitReads(source, sep, 0, 0, 0);
      assert source[0..] == source;
    }
  }
}
