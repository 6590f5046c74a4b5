/** Conditional-compilation guard: decides from the text of a `cfg` predicate whether the guarded
    code can be part of a production build (scripts/verify_static_contracts.py,
    cfg_is_production_possible). Conditional compilation itself follows the Rust Reference. */
module CfgGuard {
  import opened Common
  import opened Text

  datatype Operator = All | Any | Not

  function Name(op: Operator): string {
    match op
    case All => "all"
    case Any => "any"
    case Not => "not"
  }

  // ---------------------------------------------------------------------------
  // The evaluator over text; None is "unknown"

  datatype Call = Call(op: Operator, body: string)

  /** The body of `name \s* ( ... )` when that is the whole text. */
  function CallBody(op: Operator, value: string): Option<string> {
    if !(Name(op) <= value) then None
    else
      var rest := StripLeft(value[|Name(op)|..]);
      if |rest| >= 2 && rest[0] == '(' && rest[|rest| - 1] == ')' then Some(rest[1..|rest| - 1]) else None
  }

  function MatchCall(value: string): Option<Call> {
    var all, any, not := CallBody(All, value), CallBody(Any, value), CallBody(Not, value);
    if all.Some? then Some(Call(All, all.value))
    else if any.Some? then Some(Call(Any, any.value))
    else if not.Some? then Some(Call(Not, not.value))
    else None
  }

  function Delta(c: char): int {
    if c == '(' then 1 else if c == ')' then -1 else 0
  }

  /** Cut at the commas of depth zero; `piece` is the text since the last cut. */
  function SplitFrom(s: string, depth: int, piece: string): (parts: seq<string>)
    ensures forall i :: 0 <= i < |parts| ==> |parts[i]| <= |piece| + |s|
    decreases |s|
  {
    if s == "" then [piece]
    else
      var d := depth + Delta(s[0]);
      if s[0] == ',' && d == 0 then [piece] + SplitFrom(s[1..], d, "")
      else SplitFrom(s[1..], d, piece + [s[0]])
  }

  /** Blank pieces are dropped. */
  function Keep(parts: seq<string>): (kept: seq<string>)
    ensures forall p :: p in kept ==> p in parts
  {
    if parts == [] then []
    else if Strip(parts[0]) != "" then [parts[0]] + Keep(parts[1..])
    else Keep(parts[1..])
  }

  function Arguments(body: string): (args: seq<string>)
    ensures forall p :: p in args ==> |p| <= |body|
  {
    Keep(SplitFrom(body, 0, ""))
  }

  function Combine(op: Operator, values: seq<Option<bool>>): Option<bool> {
    match op
    case Not => if |values| != 1 || values[0].None? then None else Some(!values[0].value)
    case All => if Some(false) in values then Some(false) else if None in values then None else Some(true)
    case Any => if Some(true) in values then Some(true) else if None in values then None else Some(false)
  }

  lemma CallBodyShorter(value: string)
    ensures MatchCall(value).Some? ==> |MatchCall(value).value.body| < |value|
  {
    StripLeftSuffix(if |value| >= 3 then value[3..] else "");
  }

  lemma StripShorter(s: string)
    ensures |Strip(s)| <= |s|
  {
    StripSlice(s);
  }

  function Evaluate(text: string): Option<bool>
    decreases |text|, 1, 0
  {
    var value := Strip(text);
    if value == "test" then Some(false)
    else
      var call := MatchCall(value);
      if call.None? then None
      else
        StripShorter(text);
        CallBodyShorter(value);
        Combine(call.value.op, EvaluateAll(Arguments(call.value.body), |text|))
  }

  function EvaluateAll(parts: seq<string>, bound: nat): (values: seq<Option<bool>>)
    requires forall p :: p in parts ==> |p| < bound
    ensures |values| == |parts|
    ensures forall i :: 0 <= i < |parts| ==> values[i] == Evaluate(parts[i])
    decreases bound, 0, |parts|
  {
    if parts == [] then []
    else
      assert parts == [parts[0]] + parts[1..] && parts[0] in parts;
      [Evaluate(parts[0])] + EvaluateAll(parts[1..], bound)
  }

  /** Only an expression proven false without `test` excludes code from production. */
  predicate ProductionPossible(expression: string) {
    Evaluate(expression) != Some(false)
  }

  lemma SplitStep(body: string, index: nat, start: nat, depth: int)
    requires start <= index < |body|
    ensures var d := depth + Delta(body[index]);
            SplitFrom(body[index..], depth, body[start..index]) ==
            if body[index] == ',' && d == 0 then [body[start..index]] + SplitFrom(body[index + 1..], d, "")
            else SplitFrom(body[index + 1..], d, body[start..index + 1])
  {
    assert body[index..][1..] == body[index + 1..];
    assert body[start..index + 1] == body[start..index] + [body[index]];
  }

  /** The splitter as it runs. */
  method SplitArguments(body: string) returns (parts: seq<string>)
    ensures parts == Arguments(body)
  {
    hide Strip, SplitFrom, Keep;
    parts := [];
    var start, depth := 0, 0;
    assert body[0..] == body && body[0..0] == "";
    for index := 0 to |body|
      invariant 0 <= start <= index
      invariant parts + Keep(SplitFrom(body[index..], depth, body[start..index])) == Arguments(body)
    {
      SplitStep(body, index, start, depth);
      depth := depth + Delta(body[index]);
      if body[index] == ',' && depth == 0 {
        KeepFirst(body[start..index], SplitFrom(body[index + 1..], depth, ""));
        if Strip(body[start..index]) != "" {
          parts := parts + [body[start..index]];
        }
        start := index + 1;
        assert body[start..index + 1] == "";
      }
    }
    SplitLast(body, start, depth);
    if Strip(body[start..]) != "" {
      parts := parts + [body[start..]];
    }
  }

  lemma SplitLast(body: string, start: nat, depth: int)
    requires start <= |body|
    ensures Keep(SplitFrom(body[|body|..], depth, body[start..|body|]))
         == if Strip(body[start..]) != "" then [body[start..]] else []
  {
    assert body[start..|body|] == body[start..];
    KeepFirst(body[start..], []);
    assert [body[start..]] + [] == [body[start..]];
  }

  lemma KeepFirst(p: string, rest: seq<string>)
    ensures Keep([p] + rest) == (if Strip(p) != "" then [p] else []) + Keep(rest)
  {
    assert ([p] + rest)[1..] == rest;
    assert [] + Keep(rest) == Keep(rest);
  }

  // ---------------------------------------------------------------------------
  // Predicates and what they mean

  /** A `cfg` predicate together with the white space and trailing comma of one way to write it.
      What an atom asks for is told by `id`; its text may have lost that, because string literals
      are blanked before the guard reads the source. */
  datatype Cfg =
    | Test(left: string, right: string)
    | Atom(left: string, id: nat, text: string, right: string)
    | Group(left: string, op: Operator, gap: string, args: seq<Cfg>, comma: bool, tail: string, right: string)

  /** Truth for one choice of the predicates other than `test`, with `test` off. */
  ghost predicate Holds(c: Cfg, env: nat -> bool) {
    match c
    case Test(_, _) => false
    case Atom(_, id, _, _) => env(id)
    case Group(_, op, _, args, _, _, _) =>
      match op
      case All => forall i :: 0 <= i < |args| ==> Holds(args[i], env)
      case Any => exists i :: 0 <= i < |args| && Holds(args[i], env)
      case Not => |args| == 1 ==> !Holds(args[0], env)
  }

  /** Kleene's strong three-valued logic with every atom unknown. */
  function Kleene(c: Cfg): Option<bool> {
    match c
    case Test(_, _) => Some(false)
    case Atom(_, _, _, _) => None
    case Group(_, op, _, args, _, _, _) => Combine(op, KleeneAll(args))
  }

  function KleeneAll(args: seq<Cfg>): (values: seq<Option<bool>>)
    ensures |values| == |args|
    ensures forall i :: 0 <= i < |args| ==> values[i] == Kleene(args[i])
  {
    if args == [] then [] else [Kleene(args[0])] + KleeneAll(args[1..])
  }

  function Print(c: Cfg): string {
    match c
    case Test(left, right) => left + "test" + right
    case Atom(left, _, text, right) => left + text + right
    case Group(left, op, gap, args, comma, tail, right) =>
      left + (Name(op) + gap + "(" + (PrintArgs(args) + PrintTail(args, comma, tail)) + ")") + right
  }

  function PrintArgs(args: seq<Cfg>): string {
    if args == [] then ""
    else if |args| == 1 then Print(args[0])
    else Print(args[0]) + "," + PrintArgs(args[1..])
  }

  /** What follows the last argument: nothing, or a trailing comma and space. */
  function PrintTail(args: seq<Cfg>, comma: bool, tail: string): string {
    if args == [] then tail else if comma then "," + tail else ""
  }

  /** Parentheses and commas as the depth counter sees them, from depth `d`: never below zero and
      no comma at zero. */
  ghost predicate Shielded(s: string, d: int)
    decreases |s|
  {
    if s == "" then true
    else
      var d' := d + Delta(s[0]);
      d' >= 0 && (s[0] == ',' ==> d' >= 1) && Shielded(s[1..], d')
  }

  ghost function Depth(s: string, d: int): int
    decreases |s|
  {
    if s == "" then d else Depth(s[1..], d + Delta(s[0]))
  }

  /** An atom is a trimmed text with balanced parentheses and no bare comma that is neither `test`
      nor a call of an operator. */
  ghost predicate ValidAtom(text: string) {
    && text != "" && Trimmed(text) && text != "test" && MatchCall(text).None?
    && Shielded(text, 0) && Depth(text, 0) == 0
  }

  ghost predicate Valid(c: Cfg) {
    && AllSpace(c.left) && AllSpace(c.right)
    && (c.Atom? ==> ValidAtom(c.text))
    && (c.Group? ==>
          && AllSpace(c.gap) && AllSpace(c.tail)
          && (c.op.Not? ==> |c.args| == 1)
          && forall i :: 0 <= i < |c.args| ==> Valid(c.args[i]))
  }

  // ---------------------------------------------------------------------------
  // The text evaluator computes the Kleene value

  lemma {:induction false} ShieldedConcat(a: string, b: string, d: int)
    ensures Shielded(a + b, d) <==> Shielded(a, d) && Shielded(b, Depth(a, d))
    ensures Depth(a + b, d) == Depth(b, Depth(a, d))
    decreases |a|
  {
    if a == "" {
      assert a + b == b;
    } else {
      assert (a + b)[1..] == a[1..] + b;
      ShieldedConcat(a[1..], b, d + Delta(a[0]));
    }
  }

  lemma {:induction false} ShieldedDeeper(s: string, d: int)
    requires Shielded(s, d)
    ensures Shielded(s, d + 1) && Depth(s, d + 1) == Depth(s, d) + 1
    decreases |s|
  {
    if s != "" {
      ShieldedDeeper(s[1..], d + Delta(s[0]));
    }
  }

  lemma {:induction false} ShieldedPlain(s: string, d: int)
    requires d >= 0 && forall i :: 0 <= i < |s| ==> s[i] != ',' && Delta(s[i]) == 0
    ensures Shielded(s, d) && Depth(s, d) == d
    decreases |s|
  {
    if s != "" {
      ShieldedPlain(s[1..], d);
    }
  }

  lemma ShieldedSpace(s: string, d: int)
    requires d >= 0 && AllSpace(s)
    ensures Shielded(s, d) && Depth(s, d) == d
  {
    forall i | 0 <= i < |s|
      ensures s[i] != ',' && Delta(s[i]) == 0
    {
      assert IsSpace(s[i]);
    }
    ShieldedPlain(s, d);
  }

  /** A shielded text is never cut. */
  lemma {:induction false} SplitShielded(p: string, rest: string, d: int, piece: string)
    requires Shielded(p, d)
    ensures SplitFrom(p + rest, d, piece) == SplitFrom(rest, Depth(p, d), piece + p)
    decreases |p|
  {
    if p == "" {
      assert p + rest == rest && piece + p == piece;
    } else {
      var next := d + Delta(p[0]);
      assert (p + rest)[0] == p[0] && (p + rest)[1..] == p[1..] + rest;
      assert SplitFrom(p + rest, d, piece) == SplitFrom(p[1..] + rest, next, piece + [p[0]]);
      assert piece + [p[0]] + p[1..] == piece + p;
      SplitShielded(p[1..], rest, next, piece + [p[0]]);
    }
  }

  function Core(op: Operator, gap: string, inner: string): string {
    Name(op) + gap + "(" + inner + ")"
  }

  /** Between its own parentheses a group hides all its commas. */
  lemma ShieldedCore(op: Operator, gap: string, inner: string)
    requires AllSpace(gap) && Shielded(inner, 1) && Depth(inner, 1) == 1
    ensures Shielded(Core(op, gap, inner), 0) && Depth(Core(op, gap, inner), 0) == 0
  {
    var name := Name(op);
    ShieldedPlain(name, 0);
    ShieldedSpace(gap, 0);
    ShieldedConcat(name, gap, 0);
    ShieldedConcat(name + gap, "(", 0);
    ShieldedConcat(name + gap + "(", inner, 0);
    ShieldedConcat(name + gap + "(" + inner, ")", 0);
    assert "("[1..] == "" && ")"[1..] == "";
  }

  lemma ShieldedPadded(left: string, s: string, right: string)
    requires AllSpace(left) && AllSpace(right) && Shielded(s, 0) && Depth(s, 0) == 0
    ensures Shielded(left + s + right, 0) && Depth(left + s + right, 0) == 0
  {
    ShieldedSpace(left, 0);
    ShieldedSpace(right, 0);
    ShieldedConcat(left, s, 0);
    ShieldedConcat(left + s, right, 0);
  }

  lemma {:induction false} ShieldedPrint(c: Cfg)
    requires Valid(c)
    ensures Shielded(Print(c), 0) && Depth(Print(c), 0) == 0
    decreases c, 1
  {
    match c
    case Test(left, right) =>
      ShieldedPlain("test", 0);
      ShieldedPadded(left, "test", right);
    case Atom(left, _, text, right) =>
      ShieldedPadded(left, text, right);
    case Group(left, op, gap, args, comma, tail, right) =>
      ShieldedArgs(c, args);
      ShieldedTail(args, comma, tail);
      var inner := PrintArgs(args) + PrintTail(args, comma, tail);
      ShieldedConcat(PrintArgs(args), PrintTail(args, comma, tail), 1);
      ShieldedCore(op, gap, inner);
      ShieldedPadded(left, Core(op, gap, inner), right);
  }

  lemma ShieldedTail(args: seq<Cfg>, comma: bool, tail: string)
    requires AllSpace(tail)
    ensures Shielded(PrintTail(args, comma, tail), 1) && Depth(PrintTail(args, comma, tail), 1) == 1
  {
    ShieldedSpace(tail, 1);
    ShieldedConcat(",", tail, 1);
    assert ","[1..] == "";
  }

  lemma ShieldedJoin(a: string, b: string)
    requires Shielded(a, 0) && Depth(a, 0) == 0 && Shielded(b, 1) && Depth(b, 1) == 1
    ensures Shielded(a, 1) && Depth(a, 1) == 1
    ensures Shielded(a + "," + b, 1) && Depth(a + "," + b, 1) == 1
  {
    ShieldedDeeper(a, 0);
    ShieldedConcat(a, ",", 1);
    ShieldedConcat(a + ",", b, 1);
    assert ","[1..] == "";
  }

  lemma {:induction false} ShieldedArgs(c: Cfg, args: seq<Cfg>)
    requires forall i :: 0 <= i < |args| ==> args[i] < c && Valid(args[i])
    ensures Shielded(PrintArgs(args), 1) && Depth(PrintArgs(args), 1) == 1
    decreases c, 0, |args|
  {
    hide Print, Valid;
    if args != [] {
      ShieldedPrint(args[0]);
      ShieldedDeeper(Print(args[0]), 0);
      if |args| > 1 {
        ShieldedArgs(c, args[1..]);
        ShieldedJoin(Print(args[0]), PrintArgs(args[1..]));
      }
    }
  }

  // The pieces of a printed group are its printed arguments.

  function PrintEach(args: seq<Cfg>): (texts: seq<string>)
    ensures |texts| == |args| && forall i :: 0 <= i < |args| ==> texts[i] == Print(args[i])
  {
    if args == [] then [] else [Print(args[0])] + PrintEach(args[1..])
  }

  lemma StripPrint(c: Cfg)
    requires Valid(c)
    ensures Strip(Print(c)) == match c
                               case Test(_, _) => "test"
                               case Atom(_, _, text, _) => text
                               case Group(_, op, gap, args, comma, tail, _) =>
                                 Core(op, gap, PrintArgs(args) + PrintTail(args, comma, tail))
    ensures Strip(Print(c)) != ""
  {
    hide Strip, PrintArgs, PrintTail;
    match c
    case Test(left, right) =>
      StripPadded(left, "test", right);
    case Atom(left, _, text, right) =>
      StripPadded(left, text, right);
    case Group(left, op, gap, args, comma, tail, right) =>
      StripPadded(left, Core(op, gap, PrintArgs(args) + PrintTail(args, comma, tail)), right);
  }

  lemma BlankDropped(s: string)
    requires AllSpace(s)
    ensures Keep([s]) == []
  {
    StripPadded(s, "", "");
    assert s + "" + "" == s;
    KeepFirst(s, []);
  }

  lemma KeepOne(s: string)
    requires Strip(s) != ""
    ensures Keep([s]) == [s]
  {
    KeepFirst(s, []);
    assert [s] + [] == [s];
  }

  lemma SplitWhole(s: string)
    requires Shielded(s, 0)
    ensures SplitFrom(s, 0, "") == [s]
  {
    SplitShielded(s, "", 0, "");
    assert s + "" == s && "" + s == s;
  }

  lemma SplitAtComma(s: string, rest: string)
    requires Shielded(s, 0) && Depth(s, 0) == 0
    ensures SplitFrom(s + "," + rest, 0, "") == [s] + SplitFrom(rest, 0, "")
  {
    assert s + "," + rest == s + ("," + rest);
    SplitShielded(s, "," + rest, 0, "");
    assert "" + s == s && ("," + rest)[1..] == rest;
  }

  /** A shielded, non-blank piece before a comma is the first argument. */
  lemma ArgumentsThen(first: string, others: string)
    requires Shielded(first, 0) && Depth(first, 0) == 0 && Strip(first) != ""
    ensures Arguments(first + "," + others) == [first] + Arguments(others)
  {
    hide Keep, SplitFrom, Shielded, Depth, Strip;
    SplitAtComma(first, others);
    KeepFirst(first, SplitFrom(others, 0, ""));
  }

  lemma ArgumentsOne(text: string)
    requires Shielded(text, 0)
    ensures Strip(text) != "" ==> Arguments(text) == [text]
    ensures AllSpace(text) ==> Arguments(text) == []
  {
    hide Keep, SplitFrom, Shielded, Strip, AllSpace;
    SplitWhole(text);
    if Strip(text) != "" {
      KeepOne(text);
    }
    if AllSpace(text) {
      BlankDropped(text);
    }
  }

  lemma PrintNotBlank(c: Cfg)
    requires Valid(c)
    ensures Strip(Print(c)) != ""
  {
    hide Strip, Print;
    StripPrint(c);
  }

  lemma {:induction false} ArgumentsOfPrint(args: seq<Cfg>, comma: bool, tail: string)
    requires AllSpace(tail) && forall i :: 0 <= i < |args| ==> Valid(args[i])
    ensures Arguments(PrintArgs(args) + PrintTail(args, comma, tail)) == PrintEach(args)
  {
    hide Print, PrintArgs, PrintTail, Valid, AllSpace, Strip, Shielded, Depth, Arguments;
    PrintBody(args, comma, tail);
    ShieldedSpace(tail, 0);
    ArgumentsOne(tail);
    if args != [] {
      var first := Print(args[0]);
      ShieldedPrint(args[0]);
      PrintNotBlank(args[0]);
      if |args| > 1 {
        ArgumentsOfPrint(args[1..], comma, tail);
        ArgumentsThen(first, PrintArgs(args[1..]) + PrintTail(args[1..], comma, tail));
      } else if comma {
        ArgumentsThen(first, tail);
      } else {
        ArgumentsOne(first);
      }
    }
  }

  lemma PrintBody(args: seq<Cfg>, comma: bool, tail: string)
    ensures var body := PrintArgs(args) + PrintTail(args, comma, tail);
            && (args == [] ==> body == tail)
            && (|args| > 1 ==> body == Print(args[0]) + "," + (PrintArgs(args[1..]) + PrintTail(args[1..], comma, tail)))
            && (|args| == 1 ==> body == if comma then Print(args[0]) + "," + tail else Print(args[0]))
  {
    hide Print;
    if args == [] {
      assert "" + tail == tail;
    } else if |args| == 1 {
      assert Print(args[0]) + "" == Print(args[0]);
      Associate(Print(args[0]), "", tail);
    } else {
      Associate(Print(args[0]), PrintArgs(args[1..]), PrintTail(args, comma, tail));
    }
  }

  lemma Associate(p: string, a: string, t: string)
    ensures (p + "," + a) + t == p + "," + (a + t)
    ensures p + ("," + t) == p + "," + t
  {
  }

  lemma MatchCore(op: Operator, gap: string, inner: string)
    requires AllSpace(gap)
    ensures MatchCall(Core(op, gap, inner)) == Some(Call(op, inner))
    ensures Core(op, gap, inner) != "test"
  {
    var value := Core(op, gap, inner);
    CallBodyOfCore(op, gap, inner);
    assert value[0] == Name(op)[0] && value[1] == Name(op)[1] && value[2] == Name(op)[2];
    OtherNames(op, value);
  }

  lemma CallBodyOfCore(op: Operator, gap: string, inner: string)
    requires AllSpace(gap)
    ensures CallBody(op, Core(op, gap, inner)) == Some(inner)
    ensures |Core(op, gap, inner)| >= 3
  {
    var value := Core(op, gap, inner);
    var rest := "(" + inner + ")";
    assert value == Name(op) + (gap + rest);
    assert value[3..] == gap + rest;
    StripLeftOf(gap, rest);
    assert rest[1..|rest| - 1] == inner;
  }

  /** A text that starts with one operator's name starts with no other's, nor is it "test". */
  lemma OtherNames(op: Operator, value: string)
    requires |value| >= 3 && value[0] == Name(op)[0] && value[1] == Name(op)[1] && value[2] == Name(op)[2]
    ensures value != "test"
    ensures forall other :: other != op ==> CallBody(other, value).None?
  {
    assert "test"[0] == 't' && Name(op)[0] != 't';
    forall other | other != op
      ensures CallBody(other, value).None?
    {
      assert Name(other)[1] != value[1];
    }
  }

  /** The evaluator's depth-counting splitter recovers the tree: for every predicate, however it
      is spaced and whatever trailing commas it has, evaluating the text gives its Kleene value. */
  lemma {:induction false} EvaluateIsKleene(c: Cfg)
    requires Valid(c)
    ensures Evaluate(Print(c)) == Kleene(c)
    decreases c
  {
    hide Print, Strip, MatchCall, Arguments;
    StripPrint(c);
    if c.Group? {
      var inner := PrintArgs(c.args) + PrintTail(c.args, c.comma, c.tail);
      MatchCore(c.op, c.gap, inner);
      ArgumentsOfPrint(c.args, c.comma, c.tail);
      forall i | 0 <= i < |c.args|
        ensures Evaluate(Print(c.args[i])) == Kleene(c.args[i])
      {
        EvaluateIsKleene(c.args[i]);
      }
      StripShorter(Print(c));
      CallBodyShorter(Strip(Print(c)));
      assert EvaluateAll(Arguments(inner), |Print(c)|) == KleeneAll(c.args);
    }
  }

  // ---------------------------------------------------------------------------
  // Soundness, and exactness for predicates that name each atom once

  lemma {:induction false} KleeneSound(c: Cfg, env: nat -> bool)
    requires Valid(c) && Kleene(c).Some?
    ensures Holds(c, env) == Kleene(c).value
    decreases c
  {
    if c.Group? {
      var values := KleeneAll(c.args);
      forall i | 0 <= i < |c.args| && values[i].Some?
        ensures Holds(c.args[i], env) == values[i].value
      {
        KleeneSound(c.args[i], env);
      }
      match c.op
      case Not =>
      case All =>
        if Some(false) in values {
          var i :| 0 <= i < |values| && values[i] == Some(false);
          assert !Holds(c.args[i], env);
        } else {
          assert forall i :: 0 <= i < |values| ==> values[i] in values;
        }
      case Any =>
        if Some(true) in values {
          var i :| 0 <= i < |values| && values[i] == Some(true);
          assert Holds(c.args[i], env);
        } else {
          assert forall i :: 0 <= i < |values| ==> values[i] in values;
        }
    }
  }

  /** Code is excluded only when its predicate is false in every non-test build, also in those that
      tell apart atoms with equal text; and a definite "true" holds in every one. */
  lemma ExclusionIsSound(c: Cfg, env: nat -> bool)
    requires Valid(c)
    ensures !ProductionPossible(Print(c)) ==> !Holds(c, env)
    ensures Evaluate(Print(c)) == Some(true) ==> Holds(c, env)
  {
    EvaluateIsKleene(c);
    if Kleene(c).Some? {
      KleeneSound(c, env);
    }
  }

  ghost function Atoms(c: Cfg): set<nat> {
    match c
    case Test(_, _) => {}
    case Atom(_, id, _, _) => {id}
    case Group(_, _, _, args, _, _, _) => AtomsOf(args)
  }

  ghost function AtomsOf(args: seq<Cfg>): (s: set<nat>)
    ensures forall i :: 0 <= i < |args| ==> Atoms(args[i]) <= s
  {
    if args == [] then {} else Atoms(args[0]) + AtomsOf(args[1..])
  }

  /** Nothing is asked for twice. */
  ghost predicate ReadOnce(c: Cfg) {
    c.Group? ==> ReadOnceAll(c.args)
  }

  ghost predicate ReadOnceAll(args: seq<Cfg>) {
    args != [] ==> ReadOnce(args[0]) && Atoms(args[0]) !! AtomsOf(args[1..]) && ReadOnceAll(args[1..])
  }

  /** The build in which exactly these atoms hold. */
  ghost function Env(on: set<nat>): nat -> bool {
    t => t in on
  }

  lemma {:induction false} HoldsLocal(c: Cfg, e: nat -> bool, e': nat -> bool)
    requires forall t :: t in Atoms(c) ==> e(t) == e'(t)
    ensures Holds(c, e) == Holds(c, e')
    decreases c
  {
    if c.Group? {
      forall i | 0 <= i < |c.args|
        ensures Holds(c.args[i], e) == Holds(c.args[i], e')
      {
        HoldsLocal(c.args[i], e, e');
      }
    }
  }

  lemma {:induction false} ReadOnceMember(args: seq<Cfg>, i: nat)
    requires ReadOnceAll(args) && i < |args|
    ensures ReadOnce(args[i])
  {
    if i > 0 {
      ReadOnceMember(args[1..], i - 1);
    }
  }

  /** Whatever value the evaluator has not ruled out is taken by some build. */
  lemma {:induction false} Attain(c: Cfg, want: bool) returns (on: set<nat>)
    requires Valid(c) && ReadOnce(c) && Kleene(c) != Some(!want)
    ensures on <= Atoms(c) && Holds(c, Env(on)) == want
    decreases c, 1
  {
    on := {};
    if Kleene(c).Some? {
      KleeneSound(c, Env(on));
    } else if c.Atom? {
      on := if want then {c.id} else {};
    } else if c.op.Not? {
      ReadOnceMember(c.args, 0);
      on := Attain(c.args[0], !want);
    } else if c.op.All? == want {
      UnknownGroup(c);
      on := AttainAll(c, c.args, want);
    } else {
      UnknownGroup(c);
      var i :| 0 <= i < |c.args| && Kleene(c.args[i]) == None;
      ReadOnceMember(c.args, i);
      on := Attain(c.args[i], want);
    }
  }

  /** An unknown `all` has no false argument, an unknown `any` no true one, and both an unknown one. */
  lemma UnknownGroup(c: Cfg)
    requires c.Group? && !c.op.Not? && Kleene(c) == None
    ensures forall i :: 0 <= i < |c.args| ==> Kleene(c.args[i]) != Some(c.op.Any?)
    ensures exists i :: 0 <= i < |c.args| && Kleene(c.args[i]) == None
  {
    var values := KleeneAll(c.args);
    assert forall i :: 0 <= i < |c.args| ==> values[i] in values;
    var i :| 0 <= i < |values| && values[i] == None;
  }

  lemma {:induction false} AttainAll(c: Cfg, args: seq<Cfg>, want: bool) returns (on: set<nat>)
    requires forall i :: 0 <= i < |args| ==> args[i] < c && Valid(args[i]) && Kleene(args[i]) != Some(!want)
    requires ReadOnceAll(args)
    ensures on <= AtomsOf(args) && forall i :: 0 <= i < |args| ==> Holds(args[i], Env(on)) == want
    decreases c, 0, |args|
  {
    hide Kleene, Valid, Holds, Atoms, ReadOnce;
    on := {};
    if args != [] {
      var first := Attain(args[0], want);
      var others := AttainAll(c, args[1..], want);
      on := first + others;
      HoldsLocal(args[0], Env(on), Env(first));
      forall i | 0 < i < |args|
        ensures Holds(args[i], Env(on)) == want
      {
        assert args[i] == args[1..][i - 1];
        assert Atoms(args[1..][i - 1]) <= AtomsOf(args[1..]);
        HoldsLocal(args[i], Env(on), Env(others));
      }
    }
  }

  /** For a predicate that names each atom once the guard is exact: it lets the code through
      precisely when some non-test build contains it. */
  lemma GuardExactWhenReadOnce(c: Cfg)
    requires Valid(c) && ReadOnce(c)
    ensures ProductionPossible(Print(c)) <==> exists on: set<nat> :: Holds(c, Env(on))
  {
    EvaluateIsKleene(c);
    if ProductionPossible(Print(c)) {
      var on := Attain(c, true);
      assert Holds(c, Env(on));
    } else {
      forall on: set<nat>
        ensures !Holds(c, Env(on))
      {
        KleeneSound(c, Env(on));
      }
    }
  }

  // ---------------------------------------------------------------------------
  // The best that can be told from the text

  /** The same text with a different identity for every atom, from `n` on; also the next free one. */
  function Label(c: Cfg, n: nat): (Cfg, nat)
    decreases c, 1
  {
    match c
    case Test(_, _) => (c, n)
    case Atom(left, _, text, right) => (Atom(left, n, text, right), n + 1)
    case Group(left, op, gap, args, comma, tail, right) =>
      var (labelled, m) := LabelAll(args, n);
      (Group(left, op, gap, labelled, comma, tail, right), m)
  }

  function LabelAll(args: seq<Cfg>, n: nat): (r: (seq<Cfg>, nat))
    ensures |r.0| == |args|
    decreases args, 0
  {
    if args == [] then ([], n)
    else
      var (first, m) := Label(args[0], n);
      var (others, k) := LabelAll(args[1..], m);
      ([first] + others, k)
  }

  /** The identities lie in [n, m). */
  ghost predicate Within(ids: set<nat>, n: nat, m: nat) {
    forall id :: id in ids ==> n <= id < m
  }

  lemma {:induction false} LabelFacts(c: Cfg, n: nat)
    ensures var (labelled, m) := Label(c, n);
            && n <= m && Within(Atoms(labelled), n, m) && ReadOnce(labelled)
            && Print(labelled) == Print(c) && Kleene(labelled) == Kleene(c)
            && (Valid(c) ==> Valid(labelled))
    decreases c, 1
  {
    if c.Group? {
      LabelAllFacts(c.args, n);
      var labelled := LabelAll(c.args, n).0;
      assert PrintTail(labelled, c.comma, c.tail) == PrintTail(c.args, c.comma, c.tail);
    }
  }

  lemma {:induction false} LabelAllFacts(args: seq<Cfg>, n: nat)
    ensures var (labelled, m) := LabelAll(args, n);
            && n <= m && Within(AtomsOf(labelled), n, m) && ReadOnceAll(labelled)
            && PrintArgs(labelled) == PrintArgs(args) && KleeneAll(labelled) == KleeneAll(args)
            && forall i :: 0 <= i < |args| && Valid(args[i]) ==> Valid(labelled[i])
    decreases args, 0
  {
    if args != [] {
      hide Kleene, Valid, Print, Atoms, ReadOnce, Label;
      var (first, m) := Label(args[0], n);
      LabelFacts(args[0], n);
      LabelAllFacts(args[1..], m);
      var (others, k) := LabelAll(args[1..], m);
      var labelled := [first] + others;
      assert labelled[1..] == others && labelled[0] == first;
    }
  }

  /** The guard excludes a text exactly when no predicate that reads like it, whatever its atoms ask
      for, holds in any non-test build. Nothing that sees only the text can soundly exclude more. */
  lemma GuardIsBestForText(c: Cfg)
    requires Valid(c)
    ensures ProductionPossible(Print(c)) <==>
      exists like: Cfg, on: set<nat> :: Valid(like) && Print(like) == Print(c) && Holds(like, Env(on))
  {
    hide Valid, Holds, Evaluate, Print, Kleene;
    if ProductionPossible(Print(c)) {
      var (like, m) := Label(c, 0);
      LabelFacts(c, 0);
      EvaluateIsKleene(c);
      var on := Attain(like, true);
      assert Valid(like) && Print(like) == Print(c) && Holds(like, Env(on));
    } else {
      forall like: Cfg, on: set<nat> | Valid(like) && Print(like) == Print(c)
        ensures !Holds(like, Env(on))
      {
        ExclusionIsSound(like, Env(on));
      }
    }
  }

  lemma UnixIsAtom()
    ensures ValidAtom("unix")
  {
    var text := "unix";
    assert text[0] == 'u' && Name(All)[0] == 'a' && Name(Any)[0] == 'a' && Name(Not)[0] == 'n' && "test"[0] == 't';
    assert text[1..] == "nix" && text[1..][1..] == "ix" && text[1..][1..][1..] == "x" && text[1..][1..][1..][1..] == "";
  }

  /** `all(unix, not(unix))` is in no build, yet the guard keeps it: asking for the same thing twice is
      where exactness ends, on the safe side. */
  lemma RepeatedAtomKept(env: nat -> bool)
    ensures var unix := Atom("", 0, "unix", "");
            var c := Group("", All, "", [unix, Group("", Not, "", [unix], false, "", "")], false, "", "");
            !Holds(c, env) && ProductionPossible(Print(c))
  {
    hide Evaluate, Print, ValidAtom;
    var unix := Atom("", 0, "unix", "");
    var negated := Group("", Not, "", [unix], false, "", "");
    var c := Group("", All, "", [unix, negated], false, "", "");
    assert negated.args[0] == unix && c.args[0] == unix && c.args[1] == negated;
    assert !(Holds(c.args[0], env) && Holds(c.args[1], env));
    assert KleeneAll(negated.args) == [None];
    assert KleeneAll(c.args) == [None, None];
    UnixIsAtom();
    assert Valid(unix) && Valid(negated);
    EvaluateIsKleene(c);
  }

  /** Five texts and what becomes of the code they guard. */
  lemma WrittenOut()
    ensures !ProductionPossible("test")
    ensures ProductionPossible("not(test)")
    ensures !ProductionPossible("any(test)")
    ensures !ProductionPossible("all(unix,test)")
    ensures ProductionPossible("any(unix,test)")
  {
    hide Evaluate;
    TestIsPlain();
    OverTest(Not);
    OverTest(Any);
    OverBoth(All);
    OverBoth(Any);
    assert "not" + "(test)" == "not(test)" && "any" + "(test)" == "any(test)";
    assert "all" + "(unix,test)" == "all(unix,test)" && "any" + "(unix,test)" == "any(unix,test)";
  }

  lemma OverTest(op: Operator)
    ensures Evaluate(Name(op) + "(test)") == Combine(op, [Some(false)])
  {
    hide Evaluate, Combine, Name;
    var test := Test("", "");
    Around(op, [test]);
    assert PrintArgs([test]) == "test";
    assert KleeneAll([test]) == [Some(false)];
    assert Name(op) + "(" + "test" + ")" == Name(op) + "(test)";
  }

  lemma OverBoth(op: Operator)
    requires !op.Not?
    ensures Evaluate(Name(op) + "(unix,test)") == Combine(op, [None, Some(false)])
  {
    hide Evaluate, Combine, Name, ValidAtom;
    var test, unix := Test("", ""), Atom("", 0, "unix", "");
    UnixIsAtom();
    Around(op, [unix, test]);
    assert [unix, test][1..] == [test];
    assert PrintArgs([test]) == "test";
    assert PrintArgs([unix, test]) == "unix" + "," + "test" == "unix,test";
    assert KleeneAll([test]) == [Some(false)];
    assert KleeneAll([unix, test]) == [None, Some(false)];
    assert Name(op) + "(" + "unix,test" + ")" == Name(op) + "(unix,test)";
  }

  lemma TestIsPlain()
    ensures Evaluate("test") == Some(false)
  {
    EvaluateIsKleene(Test("", ""));
    assert "" + "test" + "" == "test";
  }

  lemma Around(op: Operator, args: seq<Cfg>)
    requires (op.Not? ==> |args| == 1) && forall i :: 0 <= i < |args| ==> Valid(args[i])
    requires args != []
    ensures Evaluate(Name(op) + "(" + PrintArgs(args) + ")") == Combine(op, KleeneAll(args))
  {
    hide Evaluate, PrintArgs, Valid, Kleene, KleeneAll, Combine;
    var c := Group("", op, "", args, false, "", "");
    GroupValid(c);
    EvaluateIsKleene(c);
    PlainPrint(op, args);
  }

  lemma GroupValid(c: Cfg)
    requires c.Group? && c.left == c.gap == c.tail == c.right == ""
    requires (c.op.Not? ==> |c.args| == 1) && forall i :: 0 <= i < |c.args| ==> Valid(c.args[i])
    ensures Valid(c) && Kleene(c) == Combine(c.op, KleeneAll(c.args))
  {
    hide Combine;
  }

  lemma PlainPrint(op: Operator, args: seq<Cfg>)
    requires args != []
    ensures Print(Group("", op, "", args, false, "", "")) == Name(op) + "(" + PrintArgs(args) + ")"
  {
    hide PrintArgs;
    assert PrintArgs(args) + "" == PrintArgs(args);
    var inner := Name(op) + "" + "(" + PrintArgs(args) + ")";
    assert "" + inner + "" == inner;
    assert Name(op) + "" == Name(op);
  }
}
