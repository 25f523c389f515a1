/**
 The two lexers of the final-text checker: one blanks comments, the other blanks string literals.
 Both walk the source with a stack of modes; every step moves the index on and either keeps or
 blanks the characters it passes.
 */
module Lexers {

  datatype Mode = Code | Str(quote: char) | Template | Interpolation(depth: int)

  type Stack = s: seq<Mode> | s != [] witness [Code]

  function Top(stack: Stack): Mode {
    stack[|stack| - 1]
  }

  /** The bottom of the stack is never popped: only literals and interpolations are. */
  function Pop(stack: Stack): Stack {
    if |stack| == 1 then stack else stack[..|stack| - 1]
  }

  function Push(stack: Stack, mode: Mode): Stack {
    stack + [mode]
  }

  function Replace(stack: Stack, mode: Mode): Stack {
    stack[|stack| - 1 := mode]
  }

  /** One step: the next index, the next stack, and whether the passed characters are blanked. */
  datatype Move = Move(next: nat, stack: Stack, blank: bool)

  predicate NextIs(s: string, i: nat, c: char) {
    i + 1 < |s| && s[i + 1] == c
  }

  predicate IsQuote(c: char) {
    c == '"' || c == '\'' || c == '`'
  }

  function Opened(stack: Stack, c: char, tpl: bool): Stack {
    Push(stack, if c == '`' && tpl then Template else Str(c))
  }

  /** Braces are counted only inside an interpolation. */
  function Braces(stack: Stack, c: char): Stack {
    match Top(stack)
    case Interpolation(depth) =>
      if c == '{' then Replace(stack, Interpolation(depth + 1))
      else if c == '}' then (if depth == 1 then Pop(stack) else Replace(stack, Interpolation(depth - 1)))
      else stack
    case _ => stack
  }

  /** The end of a line comment: the next newline or the end of the source. */
  function LineEnd(s: string, i: nat): (j: nat)
    requires i <= |s|
    ensures i <= j <= |s| && (j < |s| ==> s[j] == '\n')
    ensures forall k :: i <= k < j ==> s[k] != '\n'
    decreases |s| - i
  {
    if i == |s| || s[i] == '\n' then i else LineEnd(s, i + 1)
  }

  /** Behind the end mark of a block comment, or the end of the source. */
  function BlockEnd(s: string, i: nat): (j: nat)
    requires i <= |s|
    ensures i <= j <= |s|
    decreases |s| - i
  {
    if i == |s| then i
    else if s[i] == '*' && NextIs(s, i, '/') then i + 2
    else BlockEnd(s, i + 1)
  }

  // ---------------------------------------------------------------- the two step functions

  function StripStep(s: string, tpl: bool, i: nat, stack: Stack): (m: Move)
    requires i < |s|
    ensures m.next > i
  {
    var c := s[i];
    match Top(stack)
    case Str(quote) =>
      if c == '\\' && quote != '`' then Move(i + 2, stack, false)
      else Move(i + 1, if c == quote then Pop(stack) else stack, false)
    case Template =>
      if c == '\\' then Move(i + 2, stack, false)
      else if c == '`' then Move(i + 1, Pop(stack), false)
      else if tpl && c == '$' && NextIs(s, i, '{') then Move(i + 2, Push(stack, Interpolation(1)), false)
      else Move(i + 1, stack, false)
    case _ =>
      if IsQuote(c) then Move(i + 1, Opened(stack, c, tpl), false)
      else if c == '/' && NextIs(s, i, '/') then Move(LineEnd(s, i + 2), stack, true)
      else if c == '/' && NextIs(s, i, '*') then Move(BlockEnd(s, i + 2), stack, true)
      else Move(i + 1, Braces(stack, c), false)
  }

  function MaskStep(s: string, tpl: bool, i: nat, stack: Stack): (m: Move)
    requires i < |s|
    ensures m.next > i
  {
    var c := s[i];
    match Top(stack)
    case Str(quote) =>
      if c == '\\' && quote != '`' then Move(i + 2, stack, true)
      else Move(i + 1, if c == quote then Pop(stack) else stack, true)
    case Template =>
      if c == '\\' then Move(i + 2, stack, true)
      else if c == '`' then Move(i + 1, Pop(stack), true)
      else if c == '$' && NextIs(s, i, '{') then Move(i + 2, Push(stack, Interpolation(1)), true)
      else Move(i + 1, stack, true)
    case _ =>
      if IsQuote(c) then Move(i + 1, Opened(stack, c, tpl), true)
      else Move(i + 1, Braces(stack, c), Top(stack).Interpolation? && c == '}')
  }

  function Blank(s: string): (r: string)
    ensures |r| == |s| && forall k :: 0 <= k < |s| ==> r[k] == if s[k] == '\n' then '\n' else ' '
  {
    seq(|s|, k requires 0 <= k < |s| => if s[k] == '\n' then '\n' else ' ')
  }

  function Until(s: string, i: nat): (j: nat)
    ensures j <= |s| && j <= i
  {
    if i <= |s| then i else |s|
  }

  /** What a step writes for the characters it passes. */
  function Written(s: string, i: nat, m: Move): string
    requires i < |s| && i < m.next
  {
    var piece := s[i..Until(s, m.next)];
    if m.blank then Blank(piece) else piece
  }

  function Strip(s: string, tpl: bool, i: nat, stack: Stack): string
    decreases |s| - i
  {
    if i >= |s| then ""
    else
      var m := StripStep(s, tpl, i, stack);
      Written(s, i, m) + Strip(s, tpl, m.next, m.stack)
  }

  function Mask(s: string, tpl: bool, i: nat, stack: Stack): string
    decreases |s| - i
  {
    if i >= |s| then ""
    else
      var m := MaskStep(s, tpl, i, stack);
      Written(s, i, m) + Mask(s, tpl, m.next, m.stack)
  }

  function Stripped(s: string, tpl: bool): string {
    Strip(s, tpl, 0, [Code])
  }

  function Masked(s: string, tpl: bool): string {
    Mask(s, tpl, 0, [Code])
  }

  // ---------------------------------------------------------------- lengths and newlines

  /** Every character is kept or, unless it is a newline, blanked. */
  predicate Blanks(r: string, s: string) {
    |r| == |s| && forall k :: 0 <= k < |s| ==> r[k] == s[k] || (r[k] == ' ' && s[k] != '\n')
  }

  lemma BlanksConcat(r: string, s: string, r': string, s': string)
    requires Blanks(r, s) && Blanks(r', s')
    ensures Blanks(r + r', s + s')
  {
  }

  lemma WrittenBlanks(s: string, i: nat, m: Move)
    requires i < |s| && i < m.next
    ensures Blanks(Written(s, i, m), s[i..Until(s, m.next)])
    ensures s[i..] == s[i..Until(s, m.next)] + s[Until(s, m.next)..]
  {
  }

  lemma {:induction false} StripBlanks(s: string, tpl: bool, i: nat, stack: Stack)
    ensures Blanks(Strip(s, tpl, i, stack), s[Until(s, i)..])
    decreases |s| - i
  {
    if i < |s| {
      var m := StripStep(s, tpl, i, stack);
      StripBlanks(s, tpl, m.next, m.stack);
      WrittenBlanks(s, i, m);
      BlanksConcat(Written(s, i, m), s[i..Until(s, m.next)], Strip(s, tpl, m.next, m.stack), s[Until(s, m.next)..]);
    }
  }

  lemma {:induction false} MaskBlanks(s: string, tpl: bool, i: nat, stack: Stack)
    ensures Blanks(Mask(s, tpl, i, stack), s[Until(s, i)..])
    decreases |s| - i
  {
    if i < |s| {
      var m := MaskStep(s, tpl, i, stack);
      MaskBlanks(s, tpl, m.next, m.stack);
      WrittenBlanks(s, i, m);
      BlanksConcat(Written(s, i, m), s[i..Until(s, m.next)], Mask(s, tpl, m.next, m.stack), s[Until(s, m.next)..]);
    }
  }

  /** Both lexers keep the length and every newline where it is. */
  lemma PositionsAreKept(s: string, tpl: bool)
    ensures |Stripped(s, tpl)| == |s| == |Masked(s, tpl)|
    ensures forall k :: 0 <= k < |s| ==> (Stripped(s, tpl)[k] == '\n' <==> s[k] == '\n')
    ensures forall k :: 0 <= k < |s| ==> (Masked(s, tpl)[k] == '\n' <==> s[k] == '\n')
  {
    StripBlanks(s, tpl, 0, [Code]);
    MaskBlanks(s, tpl, 0, [Code]);
    assert s[0..] == s;
  }

  // ---------------------------------------------------------------- masking removes every quote

  predicate NoQuote(s: string) {
    forall k :: 0 <= k < |s| ==> !IsQuote(s[k])
  }

  lemma MaskStepWritesNoQuote(s: string, tpl: bool, i: nat, stack: Stack)
    requires i < |s|
    ensures NoQuote(Written(s, i, MaskStep(s, tpl, i, stack)))
  {
    var m := MaskStep(s, tpl, i, stack);
    if !m.blank {
      assert m.next == i + 1 && !IsQuote(s[i]);
    }
  }

  lemma {:induction false} MaskHasNoQuote(s: string, tpl: bool, i: nat, stack: Stack)
    ensures NoQuote(Mask(s, tpl, i, stack))
    decreases |s| - i
  {
    if i < |s| {
      var m := MaskStep(s, tpl, i, stack);
      MaskStepWritesNoQuote(s, tpl, i, stack);
      MaskHasNoQuote(s, tpl, m.next, m.stack);
    }
  }

  lemma {:induction false} QuoteFreeIsKept(s: string, tpl: bool, i: nat)
    requires NoQuote(s) && i <= |s|
    ensures Mask(s, tpl, i, [Code]) == s[i..]
    decreases |s| - i
  {
    if i < |s| {
      assert MaskStep(s, tpl, i, [Code]) == Move(i + 1, [Code], false);
      QuoteFreeIsKept(s, tpl, i + 1);
      assert s[i..] == s[i..i + 1] + s[i + 1..];
    }
  }

  /** Masked text has no quote left, so masking it again changes nothing. */
  lemma MaskIsIdempotent(s: string, tpl: bool)
    ensures NoQuote(Masked(s, tpl))
    ensures Masked(Masked(s, tpl), tpl) == Masked(s, tpl)
  {
    MaskHasNoQuote(s, tpl, 0, [Code]);
    QuoteFreeIsKept(Masked(s, tpl), tpl, 0);
  }

  // ---------------------------------------------------------------- stripping what was stripped

  /** `t` carries, from position `i` on, what stripping `s` writes there. */
  predicate Carries(t: string, s: string, tpl: bool, i: nat, stack: Stack) {
    |t| == |s| && t[Until(s, i)..] == Strip(s, tpl, i, stack)
  }

  predicate InCode(stack: Stack) {
    Top(stack).Code? || Top(stack).Interpolation?
  }

  /** After a step that kept its characters, the rest of `t` is what stripping writes after it. */
  lemma CarriesOn(t: string, s: string, tpl: bool, i: nat, stack: Stack)
    requires i < |s| && Carries(t, s, tpl, i, stack)
    ensures var m := StripStep(s, tpl, i, stack); var j := Until(s, m.next);
      && t[i..j] == Written(s, i, m) && Carries(t, s, tpl, m.next, m.stack)
      && t[i..] == t[i..j] + t[j..]
  {
    var m := StripStep(s, tpl, i, stack);
    hide StripStep;
    var written := Written(s, i, m);
    assert Strip(s, tpl, i, stack) == written + Strip(s, tpl, m.next, m.stack);
    SplitAt(t, i, Until(s, m.next), written, Strip(s, tpl, m.next, m.stack));
  }

  lemma SplitAt(t: string, i: nat, j: nat, front: string, back: string)
    requires i <= j <= |t| && |front| == j - i && t[i..] == front + back
    ensures t[i..j] == front && t[j..] == back
  {
    assert t[i..][..j - i] == t[i..j] && t[i..][j - i..] == t[j..];
  }

  /** The character after a kept one is the source's or a blank. */
  lemma NextCharacter(t: string, s: string, tpl: bool, i: nat, stack: Stack)
    requires i < |s| && Carries(t, s, tpl, i, stack) && !StripStep(s, tpl, i, stack).blank
    ensures t[i] == s[i]
    ensures i + 1 < |s| ==> t[i + 1] == s[i + 1] || (StripStep(s, tpl, i, stack).next == i + 1 && t[i + 1] == ' ')
  {
    var m := StripStep(s, tpl, i, stack);
    CarriesOn(t, s, tpl, i, stack);
    var j := Until(s, m.next);
    assert t[i..j] == s[i..j];
    assert t[i] == t[i..j][0] && s[i] == s[i..j][0];
    if i + 1 < |s| {
      if m.next > i + 1 {
        assert t[i + 1] == t[i..j][1] && s[i + 1] == s[i..j][1];
      } else {
        StripBlanks(s, tpl, i + 1, m.stack);
        assert t[i + 1] == t[j..][0] && s[i + 1] == s[j..][0];
      }
    }
  }

  /** A step that kept its characters is the same step on the stripped text. */
  lemma SameStep(t: string, s: string, tpl: bool, i: nat, stack: Stack)
    requires i < |s| && Carries(t, s, tpl, i, stack) && !StripStep(s, tpl, i, stack).blank
    ensures |t| == |s| && StripStep(t, tpl, i, stack) == StripStep(s, tpl, i, stack)
  {
    NextCharacter(t, s, tpl, i, stack);
  }

  predicate AllBlank(s: string, i: nat, j: nat) {
    i <= j <= |s| && forall k :: i <= k < j ==> s[k] == ' ' || s[k] == '\n'
  }

  lemma BlankStep(t: string, tpl: bool, i: nat, stack: Stack)
    requires i < |t| && (t[i] == ' ' || t[i] == '\n') && InCode(stack)
    ensures StripStep(t, tpl, i, stack) == Move(i + 1, stack, false)
    ensures MaskStep(t, tpl, i, stack) == Move(i + 1, stack, false)
  {
  }

  lemma PassBlank(t: string, tpl: bool, i: nat, stack: Stack)
    requires i < |t| && (t[i] == ' ' || t[i] == '\n') && InCode(stack)
    ensures Strip(t, tpl, i, stack) == [t[i]] + Strip(t, tpl, i + 1, stack)
  {
    BlankStep(t, tpl, i, stack);
    assert Written(t, i, Move(i + 1, stack, false)) == [t[i]];
  }

  /** In code, blanks are passed one by one and change nothing. */
  lemma {:induction false} WalkBlanks(t: string, tpl: bool, i: nat, j: nat, stack: Stack)
    requires AllBlank(t, i, j) && InCode(stack)
    ensures Strip(t, tpl, i, stack) == t[i..j] + Strip(t, tpl, j, stack)
    decreases j - i
  {
    if i < j {
      PassBlank(t, tpl, i, stack);
      WalkBlanks(t, tpl, i + 1, j, stack);
      HeadThenRest(t, i, j, Strip(t, tpl, j, stack));
    }
  }

  lemma HeadThenRest(t: string, i: nat, j: nat, rest: string)
    requires i < j <= |t|
    ensures [t[i]] + (t[i + 1..j] + rest) == t[i..j] + rest
  {
    assert t[i..j] == [t[i]] + t[i + 1..j];
  }

  /** A blanking step leaves only blanks behind, in code. */
  lemma BlankedStep(t: string, s: string, tpl: bool, i: nat, stack: Stack)
    requires i < |s| && Carries(t, s, tpl, i, stack) && StripStep(s, tpl, i, stack).blank
    ensures var m := StripStep(s, tpl, i, stack);
      m.next <= |s| == |t| && m.stack == stack && InCode(stack) && AllBlank(t, i, m.next)
  {
    var m := StripStep(s, tpl, i, stack);
    CarriesOn(t, s, tpl, i, stack);
    forall k | i <= k < m.next ensures t[k] == ' ' || t[k] == '\n' {
      assert t[k] == t[i..m.next][k - i];
    }
  }

  lemma {:induction false} StripAgain(t: string, s: string, tpl: bool, i: nat, stack: Stack)
    requires i <= |s| && Carries(t, s, tpl, i, stack)
    ensures Strip(t, tpl, i, stack) == t[i..]
    decreases |s| - i
  {
    if i < |s| {
      var m := StripStep(s, tpl, i, stack);
      CarriesOn(t, s, tpl, i, stack);
      if m.next > |s| {
        SameStep(t, s, tpl, i, stack);
      } else {
        StripAgain(t, s, tpl, m.next, m.stack);
        if m.blank {
          BlankedStep(t, s, tpl, i, stack);
          WalkBlanks(t, tpl, i, m.next, stack);
        } else {
          SameStep(t, s, tpl, i, stack);
        }
      }
    }
  }

  /** Stripping comments twice is stripping them once. */
  lemma StripIsIdempotent(s: string, tpl: bool)
    ensures Stripped(Stripped(s, tpl), tpl) == Stripped(s, tpl)
  {
    var t := Stripped(s, tpl);
    PositionsAreKept(s, tpl);
    assert t[0..] == t;
    StripAgain(t, s, tpl, 0, [Code]);
  }

  // ---------------------------------------------------------------- the two lexers in step

  /** Templates are only entered when interpolation is on. */
  predicate TemplatesAllowed(stack: Stack, tpl: bool) {
    tpl || forall k :: 0 <= k < |stack| ==> !stack[k].Template?
  }

  datatype Visit = Visit(index: nat, stack: Stack)

  function StripTrace(s: string, tpl: bool, i: nat, stack: Stack): seq<Visit>
    decreases |s| - i
  {
    if i >= |s| then []
    else
      var m := StripStep(s, tpl, i, stack);
      [Visit(i, stack)] + StripTrace(s, tpl, m.next, m.stack)
  }

  function MaskTrace(s: string, tpl: bool, i: nat, stack: Stack): seq<Visit>
    decreases |s| - i
  {
    if i >= |s| then []
    else
      var m := MaskStep(s, tpl, i, stack);
      [Visit(i, stack)] + MaskTrace(s, tpl, m.next, m.stack)
  }

  /** Where no comment starts, the lexers move alike. */
  lemma StepsAgree(s: string, tpl: bool, i: nat, stack: Stack)
    requires i < |s| && TemplatesAllowed(stack, tpl) && !StripStep(s, tpl, i, stack).blank
    ensures var m := StripStep(s, tpl, i, stack);
      m.next == MaskStep(s, tpl, i, stack).next && m.stack == MaskStep(s, tpl, i, stack).stack
      && TemplatesAllowed(m.stack, tpl)
  {
  }

  lemma {:induction false} TracesOverBlanks(t: string, tpl: bool, i: nat, j: nat, stack: Stack)
    requires AllBlank(t, i, j) && InCode(stack)
    requires StripTrace(t, tpl, j, stack) == MaskTrace(t, tpl, j, stack)
    ensures StripTrace(t, tpl, i, stack) == MaskTrace(t, tpl, i, stack)
    decreases j - i
  {
    if i < j {
      BlankStep(t, tpl, i, stack);
      TracesOverBlanks(t, tpl, i + 1, j, stack);
    }
  }

  lemma {:induction false} TracesAgree(t: string, s: string, tpl: bool, i: nat, stack: Stack)
    requires Carries(t, s, tpl, i, stack) && TemplatesAllowed(stack, tpl)
    ensures StripTrace(t, tpl, i, stack) == MaskTrace(t, tpl, i, stack)
    decreases |s| - i
  {
    if i < |s| {
      var m := StripStep(s, tpl, i, stack);
      CarriesOn(t, s, tpl, i, stack);
      if m.blank {
        BlankedStep(t, s, tpl, i, stack);
        TracesAgree(t, s, tpl, m.next, m.stack);
        TracesOverBlanks(t, tpl, i, m.next, stack);
      } else {
        SameStep(t, s, tpl, i, stack);
        StepsAgree(t, tpl, i, stack);
        TracesAgree(t, s, tpl, m.next, m.stack);
      }
    }
  }

  /** On stripped text both lexers visit the same positions with the same mode stacks. */
  lemma LexersAgreeOnStrippedText(s: string, tpl: bool)
    ensures var t := Stripped(s, tpl); StripTrace(t, tpl, 0, [Code]) == MaskTrace(t, tpl, 0, [Code])
  {
    var t := Stripped(s, tpl);
    PositionsAreKept(s, tpl);
    assert t[0..] == t;
    TracesAgree(t, s, tpl, 0, [Code]);
  }

  // ---------------------------------------------------------------- no comment is left

  predicate NoComment(trace: seq<Visit>, t: string, tpl: bool) {
    forall v :: v in trace ==> v.index < |t| && !StripStep(t, tpl, v.index, v.stack).blank
  }

  predicate Among(few: seq<Visit>, many: seq<Visit>) {
    forall v :: v in few ==> v in many
  }

  lemma {:induction false} BlanksHoldNoComment(t: string, tpl: bool, i: nat, j: nat, stack: Stack)
    requires AllBlank(t, i, j) && InCode(stack) && NoComment(StripTrace(t, tpl, j, stack), t, tpl)
    ensures NoComment(StripTrace(t, tpl, i, stack), t, tpl)
    ensures Among(StripTrace(t, tpl, j, stack), StripTrace(t, tpl, i, stack))
    ensures i < j ==> Visit(i, stack) in StripTrace(t, tpl, i, stack)
    decreases j - i
  {
    hide StripStep, Until;
    if i < j {
      BlankStep(t, tpl, i, stack);
      BlanksHoldNoComment(t, tpl, i + 1, j, stack);
      assert StripTrace(t, tpl, i, stack) == [Visit(i, stack)] + StripTrace(t, tpl, i + 1, stack);
    }
  }

  lemma {:induction false} StrippedTrace(t: string, s: string, tpl: bool, i: nat, stack: Stack)
    requires Carries(t, s, tpl, i, stack)
    ensures NoComment(StripTrace(t, tpl, i, stack), t, tpl)
    ensures Among(StripTrace(s, tpl, i, stack), StripTrace(t, tpl, i, stack))
    decreases |s| - i
  {
    if i < |s| {
      var m := StripStep(s, tpl, i, stack);
      CarriesOn(t, s, tpl, i, stack);
      StrippedTrace(t, s, tpl, m.next, m.stack);
      if m.blank {
        BlankedStep(t, s, tpl, i, stack);
        BlanksHoldNoComment(t, tpl, i, m.next, stack);
      } else {
        SameStep(t, s, tpl, i, stack);
      }
    }
  }

  /**
   Reading stripped text, the lexer never meets a comment, and it still passes every position of
   the original reading with the same mode stack.
   */
  lemma CommentsAreGone(s: string, tpl: bool)
    ensures var t := Stripped(s, tpl);
      && NoComment(StripTrace(t, tpl, 0, [Code]), t, tpl)
      && Among(StripTrace(s, tpl, 0, [Code]), StripTrace(t, tpl, 0, [Code]))
  {
    var t := Stripped(s, tpl);
    PositionsAreKept(s, tpl);
    assert t[0..] == t;
    StrippedTrace(t, s, tpl, 0, [Code]);
  }

  // ---------------------------------------------------------------- the loops over the buffer

  /** What the buffer holds after a step at `i`: the written piece, and the rest as it was. */
  ghost predicate Wrote(now: string, before: string, s: string, i: nat, m: Move) {
    i < |s| && i < m.next && |now| == |before| == |s|
    && (forall k :: i <= k < Until(s, m.next) ==> now[k] == if m.blank && s[k] != '\n' then ' ' else s[k])
    && forall k :: 0 <= k < |s| && !(i <= k < m.next) ==> now[k] == before[k]
  }

  /** Done up to `i` on the way to `goal`: `rest` is still to be written, the buffer ahead is untouched. */
  ghost predicate Progress(out: string, s: string, i: nat, rest: string, goal: string) {
    |out| == |s| && out[..Until(s, i)] + rest == goal && forall k :: i <= k < |s| ==> out[k] == s[k]
  }

  lemma WroteIsProgress(now: string, before: string, s: string, i: nat, m: Move, rest: string, goal: string)
    requires i < |s| && i < m.next && Wrote(now, before, s, i, m)
    requires Progress(before, s, i, Written(s, i, m) + rest, goal)
    ensures Progress(now, s, m.next, rest, goal)
  {
    var j := Until(s, m.next);
    assert now[i..j] == Written(s, i, m);
    assert now[..j] == before[..i] + now[i..j];
    assert before[..i] + (Written(s, i, m) + rest) == (before[..i] + Written(s, i, m)) + rest;
  }

  method BlankLine(source: string, out: array<char>, from: nat) returns (index: nat)
    requires from <= |source| == out.Length
    modifies out
    ensures index == LineEnd(source, from)
    ensures forall k :: from <= k < index ==> out[k] == ' '
    ensures forall k :: 0 <= k < out.Length && !(from <= k < index) ==> out[k] == old(out[k])
  {
    index := from;
    while index < |source| && source[index] != '\n'
      invariant from <= index <= |source| && LineEnd(source, index) == LineEnd(source, from)
      invariant forall k :: from <= k < index ==> out[k] == ' '
      invariant forall k :: 0 <= k < out.Length && !(from <= k < index) ==> out[k] == old(out[k])
    {
      out[index] := ' ';
      index := index + 1;
    }
  }

  method BlankBlock(source: string, out: array<char>, from: nat) returns (index: nat)
    requires from <= |source| == out.Length && forall k :: from <= k < |source| ==> out[k] == source[k]
    modifies out
    ensures index == BlockEnd(source, from)
    ensures forall k :: from <= k < index ==> out[k] == if source[k] != '\n' then ' ' else source[k]
    ensures forall k :: 0 <= k < out.Length && !(from <= k < index) ==> out[k] == old(out[k])
  {
    index := from;
    while index < |source|
      invariant from <= index <= |source| && BlockEnd(source, index) == BlockEnd(source, from)
      invariant forall k :: from <= k < index ==> out[k] == if source[k] != '\n' then ' ' else source[k]
      invariant forall k :: index <= k < |source| ==> out[k] == source[k]
      invariant forall k :: 0 <= k < out.Length && !(from <= k < index) ==> out[k] == old(out[k])
    {
      if index + 1 < |source| && source[index] == '*' && source[index + 1] == '/' {
        out[index], out[index + 1] := ' ', ' ';
        index := index + 2;
        return;
      }
      if source[index] != '\n' {
        out[index] := ' ';
      }
      index := index + 1;
    }
  }

  /** A turn of the loop that blanks comments, in code or in an interpolation. */
  method StripCodeAt(source: string, tpl: bool, out: array<char>, i: nat, stack: Stack)
      returns (index: nat, after: Stack)
    requires i < |source| == out.Length && forall k :: i <= k < |source| ==> out[k] == source[k]
    requires InCode(stack)
    modifies out
    ensures var m := StripStep(source, tpl, i, stack);
      index == m.next && after == m.stack && Wrote(out[..], old(out[..]), source, i, m)
  {
    index, after := i + 1, stack;
    var c := source[i];
    if IsQuote(c) {
      after := Opened(stack, c, tpl);
    } else if c == '/' && NextIs(source, i, '/') {
      out[i], out[i + 1] := ' ', ' ';
      index := BlankLine(source, out, i + 2);
    } else if c == '/' && NextIs(source, i, '*') {
      out[i], out[i + 1] := ' ', ' ';
      index := BlankBlock(source, out, i + 2);
    } else {
      after := Braces(stack, c);
    }
  }

  /** One turn of the loop that blanks comments. */
  method StripAt(source: string, tpl: bool, out: array<char>, i: nat, stack: Stack) returns (index: nat, after: Stack)
    requires i < |source| == out.Length && forall k :: i <= k < |source| ==> out[k] == source[k]
    modifies out
    ensures var m := StripStep(source, tpl, i, stack);
      index == m.next && after == m.stack && Wrote(out[..], old(out[..]), source, i, m)
  {
    index, after := i + 1, stack;
    var c := source[i];
    if Top(stack).Str? {
      if c == '\\' && Top(stack).quote != '`' {
        index := i + 2;
      } else if c == Top(stack).quote {
        after := Pop(stack);
      }
    } else if Top(stack).Template? {
      if c == '\\' {
        index := i + 2;
      } else if c == '`' {
        after := Pop(stack);
      } else if tpl && c == '$' && NextIs(source, i, '{') {
        after := Push(stack, Interpolation(1));
        index := i + 2;
      }
    } else {
      index, after := StripCodeAt(source, tpl, out, i, stack);
    }
  }

  method StripComments(source: string, tpl: bool) returns (result: string)
    ensures result == Stripped(source, tpl)
  {
    var out := new char[|source|](k requires 0 <= k < |source| => source[k]);
    var index, stack: Stack := 0, [Code];
    assert out[..] == source;
    while index < |source|
      invariant Progress(out[..], source, index, Strip(source, tpl, index, stack), Stripped(source, tpl))
      decreases |source| - index
    {
      ghost var before, i, m := out[..], index, StripStep(source, tpl, index, stack);
      index, stack := StripAt(source, tpl, out, index, stack);
      WroteIsProgress(out[..], before, source, i, m, Strip(source, tpl, index, stack), Stripped(source, tpl));
    }
    result := out[..];
  }

  method BlankAt(source: string, out: array<char>, i: nat)
    requires i < |source| == out.Length
    modifies out
    ensures out[i] == if source[i] != '\n' then ' ' else old(out[i])
    ensures forall k :: 0 <= k < out.Length && k != i ==> out[k] == old(out[k])
  {
    if source[i] != '\n' {
      out[i] := ' ';
    }
  }

  /** One turn of the loop that blanks literals. */
  method MaskAt(source: string, tpl: bool, out: array<char>, i: nat, stack: Stack) returns (index: nat, after: Stack)
    requires i < |source| == out.Length && forall k :: i <= k < |source| ==> out[k] == source[k]
    modifies out
    ensures var m := MaskStep(source, tpl, i, stack);
      index == m.next && after == m.stack && Wrote(out[..], old(out[..]), source, i, m)
  {
    index, after := i + 1, stack;
    var c := source[i];
    if Top(stack).Str? {
      BlankAt(source, out, i);
      if c == '\\' && Top(stack).quote != '`' {
        if i + 1 < |source| {
          BlankAt(source, out, i + 1);
        }
        index := i + 2;
      } else if c == Top(stack).quote {
        after := Pop(stack);
      }
    } else if Top(stack).Template? {
      BlankAt(source, out, i);
      if c == '\\' {
        if i + 1 < |source| {
          BlankAt(source, out, i + 1);
        }
        index := i + 2;
      } else if c == '`' {
        after := Pop(stack);
      } else if c == '$' && NextIs(source, i, '{') {
        out[i], out[i + 1] := ' ', ' ';
        after := Push(stack, Interpolation(1));
        index := i + 2;
      }
    } else if IsQuote(c) {
      after := Opened(stack, c, tpl);
      out[i] := ' ';
    } else {
      if Top(stack).Interpolation? && c == '}' {
        out[i] := ' ';
      }
      after := Braces(stack, c);
    }
  }

  method MaskStrings(source: string, tpl: bool) returns (result: string)
    ensures result == Masked(source, tpl)
  {
    var out := new char[|source|](k requires 0 <= k < |source| => source[k]);
    var index, stack: Stack := 0, [Code];
    assert out[..] == source;
    while index < |source|
      invariant Progress(out[..], source, index, Mask(source, tpl, index, stack), Masked(source, tpl))
      decreases |source| - index
    {
      ghost var before, i, m := out[..], index, MaskStep(source, tpl, index, stack);
      index, stack := MaskAt(source, tpl, out, index, stack);
      WroteIsProgress(out[..], before, source, i, m, Mask(source, tpl, index, stack), Masked(source, tpl));
    }
    result := out[..];
  }
}
