/**
 * `GenerateShaderCode`: a seed becomes the text of an HLSL pixel shader by
 * rewriting the `main` skeleton in place. A mask replaces `@MASK@`; then,
 * round after round, the pending `@` placeholders are marked `$` and each
 * `$` in turn becomes a function template (which brings new `@` for the next
 * round) or a value template; last, every `#` becomes a float literal. The
 * prelude of helper functions is put in front of the result.
 */
module Shader {
  import opened Text
  import opened Catalog
  import Prelude
  import opened Prng
  import FloatText

  /** The number of expansion rounds after the first: the sum of two draws from [3, 7]. */
  method DrawMaxDepth(rand: Random) returns (maxDepth: int)
    modifies rand
    ensures maxDepth == Scale(rand.stream(old(rand.drawn)), 3, 7)
                        + Scale(rand.stream(old(rand.drawn) + 1), 3, 7)
    ensures 6 <= maxDepth <= 14
    ensures rand.drawn == old(rand.drawn) + 2
  {
    var first := rand.IntBetween(3, 7);
    var second := rand.IntBetween(3, 7);
    maxDepth := first + second;
  }

  /** `n²`, the bound of the coin's draw and its threshold. */
  function Square(n: nat): nat
  {
    n * n
  }

  /** What a marked placeholder turns into. */
  datatype Kind = FunctionTemplate | ValueTemplate

  /**
   * The coin of round `round`: a draw from [1, maxDepth²] above `round²`
   * grows the expression by a function, any other draw ends it with a value.
   * So round 0 always grows and the round at `maxDepth` always ends.
   */
  function ChooseKind(draw: int, round: nat, maxDepth: nat): (k: Kind)
    requires 1 <= draw <= Square(maxDepth) && round <= maxDepth
    ensures round == 0 ==> k == FunctionTemplate
    ensures round == maxDepth ==> k == ValueTemplate
  {
    if draw > Square(round) then FunctionTemplate else ValueTemplate
  }

  /** A draw that ends the expression in one round ends it in every later round. */
  lemma ChooseKindMonotone(draw: int, i: nat, j: nat, maxDepth: nat)
    requires 1 <= draw <= Square(maxDepth) && i <= j <= maxDepth
    requires ChooseKind(draw, i, maxDepth) == ValueTemplate
    ensures ChooseKind(draw, j, maxDepth) == ValueTemplate
  {
    assert i * i <= i * j <= j * j;
  }

  function Mark(ch: char): char
  {
    if ch == '@' then '$' else ch
  }

  /**
   * The text after the marking pass: no `@` is left, and each character is
   * either kept or an `@` turned into `$`.
   */
  function Marked(s: string): (r: string)
    ensures |r| == |s| && '@' !in r
    ensures forall i :: 0 <= i < |s| ==> r[i] == s[i] || (s[i] == '@' && r[i] == '$')
  {
    seq(|s|, i requires 0 <= i < |s| => Mark(s[i]))
  }

  /**
   * Marking turns every `@` into `$` and touches no other character: no `@`
   * is left, the `$` count grows by the `@` count, all other counts stay.
   */
  lemma {:induction false} MarkedCounts(s: string, c: char)
    ensures '@' !in Marked(s)
    ensures c == '$' ==> Occurrences(Marked(s), c) == Occurrences(s, '@') + Occurrences(s, '$')
    ensures c != '$' && c != '@' ==> Occurrences(Marked(s), c) == Occurrences(s, c)
  {
    if s != [] {
      assert Marked(s)[1..] == Marked(s[1..]);
      MarkedCounts(s[1..], c);
    }
  }

  lemma MarkedAppend(a: string, b: string)
    ensures Marked(a + b) == Marked(a) + Marked(b)
  {
  }

  /** Text without a pending placeholder is left as it is. */
  lemma MarkedUnchanged(s: string)
    requires '@' !in s
    ensures Marked(s) == s
  {
  }

  lemma MarkedFramed(p: string, m: string, q: string)
    requires '@' !in p && '@' !in q
    ensures Marked(p + m + q) == p + Marked(m) + q
  {
    MarkedAppend(p + m, q);
    MarkedAppend(p, m);
    MarkedUnchanged(p);
    MarkedUnchanged(q);
  }

  /**
   * The rounds of growth as a sequence of stages: stage `i + 1` is stage `i`
   * with every `@` marked `$` and every `$` then filled, first one first, with
   * the templates `rounds[i]` drawn in round `i`, one per `$`.
   */
  ghost predicate GrowthSteps(stages: seq<string>, rounds: seq<seq<string>>)
  {
    |stages| == |rounds| + 1
    && forall i :: 0 <= i < |rounds| ==>
         Occurrences(Marked(stages[i]), '$') == |rounds[i]|
         && stages[i + 1] == Fill(Marked(stages[i]), '$', rounds[i])
  }

  /** One more round keeps the stages in step. */
  lemma GrowthStepsAppend(stages: seq<string>, rounds: seq<seq<string>>, picks: seq<string>)
    requires GrowthSteps(stages, rounds)
    requires Occurrences(Marked(stages[|rounds|]), '$') == |picks|
    ensures GrowthSteps(stages + [Fill(Marked(stages[|rounds|]), '$', picks)], rounds + [picks])
  {
    var k := |rounds|;
    var stages', rounds' := stages + [Fill(Marked(stages[k]), '$', picks)], rounds + [picks];
    forall i | 0 <= i < |rounds'|
      ensures Occurrences(Marked(stages'[i]), '$') == |rounds'[i]|
              && stages'[i + 1] == Fill(Marked(stages'[i]), '$', rounds'[i])
    {
      assert stages'[i] == stages[i];
      if i < k {
        assert stages'[i + 1] == stages[i + 1] && rounds'[i] == rounds[i];
      } else {
        assert rounds'[i] == picks;
      }
    }
  }

  /**
   * A last round whose templates hold no `@` and no `$` ends the growth:
   * marking removes every `@` and filling every `$`.
   */
  lemma FinalRound(stages: seq<string>, rounds: seq<seq<string>>)
    requires GrowthSteps(stages, rounds) && |rounds| > 0
    requires forall t <- rounds[|rounds| - 1] :: '@' !in t && '$' !in t
    ensures '@' !in stages[|rounds|] && '$' !in stages[|rounds|]
  {
    var k := |rounds| - 1;
    FillAbsent(Marked(stages[k]), '$', rounds[k], '$');
    FillAbsent(Marked(stages[k]), '$', rounds[k], '@');
  }

  /** The text a random constant is printed as: `std::to_string` and an `f`. */
  function Literal(x: real): (r: string)
    ensures |r| >= 9 && r[|r| - 1] == 'f' && r[|r| - 8] == '.'
    ensures r[..|r| - 1] == FloatText.ToString(x)
  {
    FloatText.ToString(x) + "f"
  }

  function Literals(xs: seq<real>): (r: seq<string>)
    ensures |r| == |xs|
  {
    seq(|xs|, i requires 0 <= i < |xs| => Literal(xs[i]))
  }

  /** Every value of `xs` lies strictly between 0 and 1. */
  predicate InUnitInterval(xs: seq<real>)
  {
    forall x <- xs :: 0.0 < x < 1.0
  }

  lemma UnitIntervalAppend(xs: seq<real>, x: real)
    requires InUnitInterval(xs) && 0.0 < x < 1.0
    ensures InUnitInterval(xs + [x])
  {
  }

  lemma LiteralsAppend(xs: seq<real>, x: real)
    ensures Literals(xs + [x]) == Literals(xs) + [Literal(x)]
  {
  }

  /** A literal holds no marker and ends in `f`, so it is a complete HLSL float. */
  lemma LiteralIsMarkerFree(x: real)
    ensures MarkerFree(Literal(x))
    ensures Literal(x)[|Literal(x)| - 1] == 'f'
  {
    FloatText.ToStringCharacters(x);
    var s := FloatText.ToString(x);
    forall i | 0 <= i < |Literal(x)| ensures !IsMarker(Literal(x)[i]) {
      if i < |s| {
        assert Literal(x)[i] == s[i] && s[i] in s;
      }
    }
  }

  /** The `main` function under construction. */
  class ExpressionBuffer {
    var text: string

    constructor()
      ensures text == Skeleton
    {
      text := Skeleton;
    }

    /**
     * Replaces the one `@MASK@` of the skeleton by a mask drawn at random.
     * The body then holds the three channel placeholders and those of the mask.
     */
    method SubstituteMask(rand: Random, masks: seq<string>) returns (mask: string)
      requires text == Skeleton
      requires |masks| > 0 && forall m <- masks :: '$' !in m && Occurrences(m, '@') <= 2
      modifies this, rand
      ensures mask in masks && mask == masks[Scale(rand.stream(old(rand.drawn)), 0, |masks| - 1)]
      ensures text == Preamble + (Channels + MaskLine + mask) + Closing
      ensures Occurrences(text, '@') == 3 + Occurrences(mask, '@') <= 5
      ensures '$' !in Channels + MaskLine + mask
      ensures rand.drawn == old(rand.drawn) + 1
    {
      var maskPos := FindToken(text, MaskToken);
      MaskTokenPosition();
      mask := rand.Element(masks);
      MaskSubstitution(text, maskPos.value, mask);
      text := Replace(text, maskPos.value, |MaskToken|, mask);
    }

    /** Turns every pending `@` into a `$`, one character at a time. */
    method MarkPending()
      modifies this
      ensures text == Marked(old(text))
    {
      for i := 0 to |text|
        invariant |text| == |old(text)|
        invariant forall j :: 0 <= j < i ==> text[j] == Mark(old(text)[j])
        invariant forall j :: i <= j < |text| ==> text[j] == old(text)[j]
      {
        if text[i] == '@' {
          text := text[i := '$'];
        }
      }
    }

    /**
     * Replaces each `$`, first one first, by a template drawn from the
     * function catalog or the value catalog as the coin of `round` says.
     * `picks` are the templates drawn, in order.
     */
    method ResolvePending(rand: Random, round: nat, maxDepth: nat, functions: seq<string>, values: seq<string>)
      returns (picks: seq<string>)
      requires 1 <= maxDepth && round <= maxDepth
      requires |functions| > 0 && |values| > 0
      requires forall t <- functions :: '$' !in t
      requires forall t <- values :: '$' !in t
      modifies this, rand
      ensures Occurrences(old(text), '$') == |picks|
      ensures text == Fill(old(text), '$', picks)
      ensures '$' !in text
      ensures forall t <- picks :: t in functions || t in values
      ensures round == 0 ==> forall t <- picks :: t in functions
      ensures round == maxDepth ==> forall t <- picks :: t in values
    {
      ghost var prefix: string, rest := [], text;
      FillingStart(text, '$');
      picks := [];
      var pos := Find(text, '$');
      while pos.Some?
        invariant Filling(old(text), prefix, rest, '$', picks, text)
        invariant pos == Find(text, '$')
        invariant forall t <- picks :: t in functions || t in values
        invariant round == 0 ==> forall t <- picks :: t in functions
        invariant round == maxDepth ==> forall t <- picks :: t in values
        decreases Occurrences(text, '$')
      {
        var draw := rand.IntBetween(1, Square(maxDepth));
        var replacement: string;
        if ChooseKind(draw, round, maxDepth) == FunctionTemplate {
          replacement := rand.Element(functions);
        } else {
          replacement := rand.Element(values);
        }
        prefix, rest := FillingStep(old(text), prefix, rest, '$', picks, text, pos.value, replacement);
        text := Replace(text, pos.value, 1, replacement);
        picks := picks + [replacement];
        pos := Find(text, '$');
      }
      FillingEnd(old(text), prefix, rest, '$', picks, text);
    }

    /**
     * The rounds of growth: in round `i`, from 0 to `maxDepth`, every `@`
     * becomes a `$` and every `$` a template. What lies outside the
     * expression, `head` and `tail`, is left as it is. `stages` are the
     * expression before and after each round, `rounds` the templates each
     * round drew.
     */
    method Grow(rand: Random, maxDepth: nat, functions: seq<string>, values: seq<string>,
                ghost head: string, ghost expression: string, ghost tail: string)
      returns (ghost grown: string, ghost stages: seq<string>, ghost rounds: seq<seq<string>>)
      requires 1 <= maxDepth
      requires |functions| > 0 && |values| > 0
      requires forall t <- functions :: '$' !in t
      requires forall t <- values :: '$' !in t && '@' !in t
      requires MarkerFree(head) && MarkerFree(tail)
      requires text == head + expression + tail && '$' !in expression
      modifies this, rand
      ensures text == head + grown + tail
      ensures |rounds| == maxDepth + 1 && GrowthSteps(stages, rounds)
      ensures stages[0] == expression && stages[maxDepth + 1] == grown
      ensures forall i, t :: 0 <= i <= maxDepth && t in rounds[i] ==> t in functions || t in values
      ensures forall t <- rounds[0] :: t in functions
      ensures forall t <- rounds[maxDepth] :: t in values
      ensures '$' !in grown && '@' !in grown
    {
      grown, stages, rounds := expression, [expression], [];
      for i := 0 to maxDepth + 1
        invariant text == head + grown + tail
        invariant |rounds| == i && GrowthSteps(stages, rounds)
        invariant stages[0] == expression && stages[i] == grown
        invariant forall j, t :: 0 <= j < i && t in rounds[j] ==> t in functions || t in values
        invariant i > 0 ==> forall t <- rounds[0] :: t in functions
        invariant i == maxDepth + 1 ==> forall t <- rounds[maxDepth] :: t in values
        invariant '$' !in grown
        invariant i == maxDepth + 1 ==> '@' !in grown
      {
        MarkPending();
        MarkedFramed(head, grown, tail);
        ghost var marked := Marked(grown);
        MarkedCounts(grown, '@');
        var picks := ResolvePending(rand, i, maxDepth, functions, values);
        FramedOccurrences(head, marked, tail, '$');
        FillFramed(head, marked, tail, '$', picks);
        GrowthStepsAppend(stages, rounds, picks);
        grown := Fill(marked, '$', picks);
        stages, rounds := stages + [grown], rounds + [picks];
        FillAbsent(marked, '$', picks, '$');
        if i == maxDepth {
          FinalRound(stages, rounds);
        }
      }
    }

    /**
     * Replaces each `#`, first one first, by the literal of a fresh random
     * float; `constants` are the floats drawn, in order.
     */
    method ResolveLiterals(rand: Random) returns (constants: seq<real>)
      modifies this, rand
      ensures Occurrences(old(text), '#') == |constants|
      ensures text == Fill(old(text), '#', Literals(constants))
      ensures '#' !in text
      ensures InUnitInterval(constants)
    {
      ghost var prefix: string, rest := [], text;
      FillingStart(text, '#');
      constants := [];
      var pos := Find(text, '#');
      while pos.Some?
        invariant Filling(old(text), prefix, rest, '#', Literals(constants), text)
        invariant pos == Find(text, '#')
        invariant InUnitInterval(constants)
        decreases Occurrences(text, '#')
      {
        var x := rand.FloatO();
        var literal := Literal(x);
        LiteralIsMarkerFree(x);
        MarkerFreeChars(literal);
        prefix, rest := FillingStep(old(text), prefix, rest, '#', Literals(constants), text, pos.value, literal);
        text := Replace(text, pos.value, 1, literal);
        LiteralsAppend(constants, x);
        UnitIntervalAppend(constants, x);
        constants := constants + [x];
        pos := Find(text, '#');
      }
      FillingEnd(old(text), prefix, rest, '#', Literals(constants), text);
    }
  }

  lemma LiteralsAreMarkerFree(xs: seq<real>)
    ensures forall t <- Literals(xs) :: '@' !in t && '$' !in t && '#' !in t
  {
    forall t <- Literals(xs) ensures '@' !in t && '$' !in t && '#' !in t {
      var i :| 0 <= i < |xs| && Literals(xs)[i] == t;
      LiteralIsMarkerFree(xs[i]);
      MarkerFreeChars(t);
    }
  }

  /** Printing the constants leaves a frame around an expression free of markers. */
  lemma FinalText(head: string, grown: string, tail: string, constants: seq<real>)
    requires MarkerFree(head) && MarkerFree(tail)
    requires '$' !in grown && '@' !in grown
    requires Occurrences(head + grown + tail, '#') == |Literals(constants)|
    requires forall t <- Literals(constants) :: '@' !in t && '$' !in t && '#' !in t
    ensures exists expression: string ::
              Fill(head + grown + tail, '#', Literals(constants)) == head + expression + tail
              && MarkerFree(head + expression + tail)
  {
    FramedOccurrences(head, grown, tail, '#');
    FillFramed(head, grown, tail, '#', Literals(constants));
    var expression := Fill(grown, '#', Literals(constants));
    FillAbsent(grown, '#', Literals(constants), '@');
    FillAbsent(grown, '#', Literals(constants), '$');
    FillAbsent(grown, '#', Literals(constants), '#');
    MarkerFreeChars(expression);
    MarkerFreeAppend(head, expression);
    MarkerFreeAppend(head + expression, tail);
  }

  /** Putting a mask in place of the skeleton's token, and what that leaves pending. */
  lemma MaskSubstitution(text: string, pos: nat, mask: string)
    requires text == Skeleton && pos == |Preamble + Channels + MaskLine|
    requires '$' !in mask && Occurrences(mask, '@') <= 2
    ensures pos <= |text|
    ensures Replace(text, pos, |MaskToken|, mask) == Preamble + (Channels + MaskLine + mask) + Closing
    ensures Occurrences(Preamble + (Channels + MaskLine + mask) + Closing, '@') == 3 + Occurrences(mask, '@')
    ensures '$' !in Channels + MaskLine + mask
  {
    SkeletonLayout();
    MarkerFreeChars(Closing);
    MaskInPlace(Preamble, Channels, MaskLine, MaskToken, Closing, mask, '@');
    ChannelsArePending();
    MarkerFreeChars(MaskLine);
  }

  /**
   * Replacing the token between `p + c + m` and `q` by a mask: the body is
   * the channels, the mask line and the mask, and a character not in `q`
   * occurs as often as before the token and in the mask together.
   */
  lemma MaskInPlace(p: string, c: string, m: string, tok: string, q: string, mask: string, x: char)
    requires x !in q
    ensures Replace(p + c + m + tok + q, |p + c + m|, |tok|, mask) == p + (c + m + mask) + q
    ensures Occurrences(p + (c + m + mask) + q, x) == Occurrences(p + c + m, x) + Occurrences(mask, x)
  {
    ReplaceToken(p + c + m, tok, q, mask);
    assert p + c + m + mask + q == p + (c + m + mask) + q;
    OccurrencesAppend(p + c + m, mask, x);
    OccurrencesAppend(p + c + m + mask, q, x);
  }

  /** The depth a generator whose raw draws are `stream` draws first. */
  function DrawnDepth(stream: nat -> nat): int
  {
    Scale(stream(0), 3, 7) + Scale(stream(1), 3, 7)
  }

  /** The mask such a generator draws third, after the two draws of the depth. */
  function DrawnMask(stream: nat -> nat): string
  {
    Masks[Scale(stream(2), 0, |Masks| - 1)]
  }

  /**
   * `main` is what the rounds make of the skeleton: the mask `mask` from the
   * mask catalog put in place of the token, `depth + 1` rounds of growth
   * going through `stages` with the templates `rounds` (functions only in the
   * first round, values only in the last), and the `#` of the last stage
   * filled with the literals of `constants`, floats of (0, 1).
   */
  ghost predicate GeneratedMain(main: string, animate: bool, depth: nat, mask: string,
                                stages: seq<string>, rounds: seq<seq<string>>, constants: seq<real>)
  {
    6 <= depth <= 14 && mask in Masks
    && |rounds| == depth + 1 && GrowthSteps(stages, rounds)
    && stages[0] == Channels + MaskLine + mask
    && (forall i, t :: 0 <= i <= depth && t in rounds[i] ==> t in Functions || t in Values(animate))
    && (forall t <- rounds[0] :: t in Functions)
    && (forall t <- rounds[depth] :: t in Values(animate))
    && InUnitInterval(constants) && Occurrences(stages[depth + 1], '#') == |constants|
    && main == Preamble + Fill(stages[depth + 1], '#', Literals(constants)) + Closing
  }

  /**
   * Whatever the draws, a `main` made this way holds no marker: the last
   * round draws only values, which hold no `@` and no `$`, and no printed
   * constant brings a marker back.
   */
  lemma GeneratedMainIsMarkerFree(main: string, animate: bool, depth: nat, mask: string,
                                  stages: seq<string>, rounds: seq<seq<string>>, constants: seq<real>)
    requires GeneratedMain(main, animate, depth, mask, stages, rounds, constants)
    ensures MarkerFree(main)
  {
    ValuesAreTerminal(animate);
    PreambleIsMarkerFree();
    ClosingIsMarkerFree();
    LastStageIsMarkerFree(Preamble, stages, rounds, Values(animate), constants, Closing);
  }

  /** The last stage, with its constants printed, framed by marker-free text. */
  lemma LastStageIsMarkerFree(head: string, stages: seq<string>, rounds: seq<seq<string>>,
                              values: seq<string>, constants: seq<real>, tail: string)
    requires MarkerFree(head) && MarkerFree(tail)
    requires GrowthSteps(stages, rounds) && |rounds| > 0
    requires forall t <- rounds[|rounds| - 1] :: t in values
    requires forall t <- values :: '@' !in t && '$' !in t
    requires Occurrences(stages[|rounds|], '#') == |constants|
    ensures MarkerFree(head + Fill(stages[|rounds|], '#', Literals(constants)) + tail)
  {
    FinalRound(stages, rounds);
    var last := stages[|rounds|];
    LiteralsAreMarkerFree(constants);
    FramedOccurrences(head, last, tail, '#');
    FillFramed(head, last, tail, '#', Literals(constants));
    FinalText(head, last, tail, constants);
  }

  /**
   * The rest of `main` once the depth and the mask are drawn: grows the
   * expression of `buffer` for `depth + 1` rounds and prints its constants.
   */
  method CompleteMain(buffer: ExpressionBuffer, rand: Random, depth: nat, mask: string, animate: bool)
    returns (main: string, ghost stages: seq<string>, ghost rounds: seq<seq<string>>, ghost constants: seq<real>)
    requires 6 <= depth <= 14 && mask in Masks
    requires buffer.text == Preamble + (Channels + MaskLine + mask) + Closing
    requires '$' !in Channels + MaskLine + mask
    modifies buffer, rand
    ensures GeneratedMain(main, animate, depth, mask, stages, rounds, constants)
    ensures MarkerFree(main)
  {
    PreambleIsMarkerFree();
    ClosingIsMarkerFree();
    FunctionsAreUnmarked();
    ValuesAreTerminal(animate);
    CatalogsAreNotEmpty(animate);
    ghost var expression;
    expression, stages, rounds := buffer.Grow(rand, depth, Functions, Values(animate), Preamble, Channels + MaskLine + mask, Closing);
    var drawn := buffer.ResolveLiterals(rand);
    constants := drawn;
    FramedOccurrences(Preamble, expression, Closing, '#');
    FillFramed(Preamble, expression, Closing, '#', Literals(constants));
    main := buffer.text;
    GeneratedMainIsMarkerFree(main, animate, depth, mask, stages, rounds, constants);
  }

  /**
   * The `main` function for the draws of a fresh generator `rand`: the
   * skeleton whose mask token has been replaced by a mask, whose expression
   * has been grown for `depth + 1` rounds and whose constants have been
   * printed. The depth is the sum of the first two draws and the mask the
   * one the third draw selects. No marker is left in it.
   */
  method GenerateMain(rand: Random, animate: bool)
    returns (main: string, ghost depth: nat, ghost mask: string, ghost stages: seq<string>,
             ghost rounds: seq<seq<string>>, ghost constants: seq<real>)
    requires rand.drawn == 0
    modifies rand
    ensures GeneratedMain(main, animate, depth, mask, stages, rounds, constants)
    ensures depth == DrawnDepth(rand.stream) && mask == DrawnMask(rand.stream)
    ensures MarkerFree(main)
  {
    var maxDepth := DrawMaxDepth(rand);
    depth := maxDepth;
    assert depth == DrawnDepth(rand.stream);
    var buffer := new ExpressionBuffer();
    MasksArity();
    MasksAreUnmarked();
    var drawnMask := buffer.SubstituteMask(rand, Masks);
    mask := drawnMask;
    assert mask == DrawnMask(rand.stream);
    main, stages, rounds, constants := CompleteMain(buffer, rand, maxDepth, drawnMask, animate);
  }

  /**
   * The shader text for `seed`: the prelude, then the `main` generated from
   * the draws of the generator seeded with `seed`. `streamOf(seed)` is the raw
   * draw stream of that generator.
   */
  method GenerateShaderCode(seed: nat, streamOf: nat -> (nat -> nat), animate: bool)
    returns (code: string, ghost main: string, ghost depth: nat, ghost mask: string,
             ghost stages: seq<string>, ghost rounds: seq<seq<string>>, ghost constants: seq<real>)
    ensures code == Prelude.FunctionDefinitions + main
    ensures GeneratedMain(main, animate, depth, mask, stages, rounds, constants)
    ensures depth == DrawnDepth(streamOf(seed)) && mask == DrawnMask(streamOf(seed))
    ensures MarkerFree(code)
  {
    var rand := new Random(streamOf(seed));
    var generated;
    generated, depth, mask, stages, rounds, constants := GenerateMain(rand, animate);
    main := generated;
    code := Prelude.FunctionDefinitions + generated;
    Prelude.FunctionDefinitionsAreMarkerFree();
    MarkerFreeAppend(Prelude.FunctionDefinitions, generated);
  }
}
