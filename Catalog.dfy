/**
 * The fixed text the generator works with: the three template catalogs
 * (values, functions, masks) and the `main` skeleton the expression grows
 * in. The helper functions put in front of the result are in `Prelude`.
 *
 * Templates use three marker characters: `@` is a pending placeholder, `$`
 * a placeholder marked for the current round, and `#` a random constant.
 * Duplicate entries are the only weighting of the random choice.
 */
module Catalog {
  import opened Text

  predicate IsMarker(c: char)
  {
    c == '@' || c == '$' || c == '#'
  }

  predicate MarkerFree(s: string)
  {
    forall i :: 0 <= i < |s| ==> !IsMarker(s[i])
  }

  /**
   * Terminal templates: the four coordinate channels, the two time channels
   * when the shader is animated, and the constant marker `#` twice.
   */
  function Values(animate: bool): seq<string>
  {
    ["uv.x", "uv.y", "invX", "invY"]
    + (if animate then ["sinTime", "cosTime"] else [])
    + ["#", "#"]
  }

  /**
   * Non-terminal templates, in catalog order; each `@` is a sub-expression
   * still to be generated. They are grouped by how many inputs the HLSL
   * helper at their head takes; some entries pin two inputs to constants
   * `#` or to the pixel coordinates, so a template may have fewer slots.
   */
  const Functions: seq<string> := OneInput + TwoInputs + ThreeInputs + FourInputs

  const OneInput: seq<string> := [
    "fInv(@)",
    "fSqr(@)",
    "fSqrt(@)",
    "fSmooth(@)",
    "fSharp(@)"
  ]
  const TwoInputs: seq<string> := [
    "fAdd(@, @)",
    "fSub(@, @)",
    "fMul(@, @)",
    "fInv(fMul(@, @))",
    "fDiv(@, @)",
    "fAvg(@, @)",
    "fGeom(@, @)",
    "fHarm(@, @)",
    "fHypo(@, @)",
    "fMin(@, @)",
    "fMax(@, @)",
    "fPow(@, @)",
    "fBell(@, @)",
    "fInv(fBell(@, @))",
    "fWave(@, @)",
    "fWave(@, @)",
    "fWaveDamp(@, @)",
    "fInv(fWaveDamp(@, @))"
  ]
  const ThreeInputs: seq<string> := [
    "fLerp(@, @, @)",
    "fSmoothLerp(@, @, @)",
    "fMlerp(@, @, @)"
  ]
  const FourInputs: seq<string> := [
    "fDist(@, @, @, @)",
    "fDist(@, @, #, #)",
    "fDist(uv.x, uv.y, @, @)",
    "fDist(uv.x, uv.y, #, #)",
    "fInv(fDist(@, @, @, @))",
    "fInv(fDist(@, @, #, #))",
    "fInv(fDist(uv.x, uv.y, @, @))",
    "fInv(fDist(uv.x, uv.y, #, #))",
    "fDistLine(@, @, @, @)",
    "fDistLine(@, @, #, #)",
    "fDistLine(uv.x, uv.y, @, @)",
    "fDistLine(uv.x, uv.y, #, #)",
    "fInv(fDistLine(@, @, @, @))",
    "fInv(fDistLine(@, @, #, #))",
    "fInv(fDistLine(uv.x, uv.y, @, @))",
    "fInv(fDistLine(uv.x, uv.y, #, #))"
  ]

  /**
   * Post-processing of the colour, applied once around `rgb`, in catalog
   * order: no mask (listed three times), a shift by one sub-expression, a
   * double shift, and the inverted forms of the last two.
   */
  const Masks: seq<string> := Plain + Shifts + DoubleShifts + InvertedShifts + InvertedDoubleShifts

  const Plain: seq<string> := ["rgb", "rgb", "rgb"]
  const Shifts: seq<string> := ["fAdd3(rgb, @)", "fSub3(rgb, @)"]
  const DoubleShifts: seq<string> := ["fAdd3(fSub3(rgb, @), @)", "fSub3(fAdd3(rgb, @), @)"]
  const InvertedShifts: seq<string> := ["fInv3(fAdd3(rgb, @))", "fInv3(fSub3(rgb, @))"]
  const InvertedDoubleShifts: seq<string> := ["fInv3(fAdd3(fSub3(rgb, @), @))", "fInv3(fSub3(fAdd3(rgb, @), @))"]

  /** Concatenation of a list of text pieces. */
  function Join(pieces: seq<string>): string
  {
    if pieces == [] then "" else pieces[0] + Join(pieces[1..])
  }

  lemma {:induction false} JoinMarkerFree(pieces: seq<string>)
    requires forall k :: 0 <= k < |pieces| ==> MarkerFree(pieces[k])
    ensures MarkerFree(Join(pieces))
  {
    if pieces != [] {
      JoinMarkerFree(pieces[1..]);
    }
  }

  // The `main` skeleton, piece by piece: the constant buffer, the entry point
  // and its locals, the three colour channels, the mask line and the return.

  const BufferLines: seq<string> := [
    "\n",
    "\n",
    "\tcbuffer ConstantBuffer\n",
    "\t{\n",
    "\t\tfloat4 buf;\n",
    "\t};\n",
    "\n"
  ]
  const EntryLines: seq<string> := [
    "\tfloat4 main(float2 uv : TEXCOORD)", " : SV_TARGET\n",
    "\t{\n"
  ]
  const CoordinateLines: seq<string> := [
    "\t\tfloat invX = 1.0f - uv.x;\n",
    "\t\tfloat invY = 1.0f - uv.y;\n"
  ]
  const TimeLines: seq<string> := [
    "\t\tfloat sinTime = buf.x;\n",
    "\t\tfloat cosTime = buf.y;\n"
  ]
  const ColourLines: seq<string> := [
    "\n",
    "\t\tfloat3 rgb = float3("
  ]
  const Channels: string := "@, @, @"
  const MaskLine: string := ");\n\t\trgb = "
  const MaskToken: string := "@MASK@"
  const ClosingLines: seq<string> := [
    ";\n",
    "\n",
    "\t\treturn float4(rgb, 1.0f);\n",
    "\t}\n",
    "\t\n",
    "\t"
  ]

  const Preamble: string :=
    Join(BufferLines) + Join(EntryLines) + Join(CoordinateLines) + Join(TimeLines) + Join(ColourLines)
  const Closing: string := Join(ClosingLines)
  const Skeleton: string := Preamble + Channels + MaskLine + MaskToken + Closing

  /** Every catalog the generator draws from has entries. */
  lemma CatalogsAreNotEmpty(animate: bool)
    ensures |Functions| > 0 && |Values(animate)| > 0 && |Masks| > 0
  {
  }

  /** Values close an expression: none holds a placeholder, pending or marked. */
  lemma ValuesAreTerminal(animate: bool)
    ensures forall t <- Values(animate) :: '@' !in t && '$' !in t
  {
  }

  lemma OneInputUnmarked()
    ensures forall t <- OneInput :: '$' !in t
  {
  }

  lemma TwoInputsUnmarked()
    ensures forall t <- TwoInputs :: '$' !in t
  {
  }

  lemma ThreeInputsUnmarked()
    ensures forall t <- ThreeInputs :: '$' !in t
  {
  }

  lemma FourInputsUnmarked()
    ensures forall t <- FourInputs :: '$' !in t
  {
  }

  /** No function template holds a marked placeholder. */
  lemma FunctionsAreUnmarked()
    ensures forall t <- Functions :: '$' !in t
  {
    OneInputUnmarked();
    TwoInputsUnmarked();
    ThreeInputsUnmarked();
    FourInputsUnmarked();
  }

  /** No mask holds a marked placeholder. */
  lemma MasksAreUnmarked()
    ensures forall m <- Masks :: '$' !in m
  {
  }

  /** `c` appears in `s` nowhere but at positions `a` and `b`. */
  predicate OnlyAt(s: string, c: char, a: nat, b: nat)
  {
    forall i :: 0 <= i < |s| && s[i] == c ==> i == a || i == b
  }

  lemma {:induction false} OnlyAtCount(s: string, c: char, a: nat, b: nat)
    requires a <= b && OnlyAt(s, c, a, b)
    ensures Occurrences(s, c) <= (if a == b then 1 else 2)
  {
    if a >= |s| {
      assert c !in s;
    } else {
      var rest := s[a + 1..];
      assert s == s[..a] + [s[a]] + rest;
      assert c !in s[..a];
      OccurrencesAppend(s[..a] + [s[a]], rest, c);
      OccurrencesAppend(s[..a], [s[a]], c);
      if a == b {
        assert c !in rest;
      } else {
        forall i | 0 <= i < |rest| && rest[i] == c ensures i == b - a - 1 {
          assert s[a + 1 + i] == c;
        }
        OnlyAtCount(rest, c, b - a - 1, b - a - 1);
      }
    }
  }

  // One lemma per mask: the solver handles one literal at a time far better.
  lemma AddShiftArity()
    ensures Occurrences("fAdd3(rgb, @)", '@') <= 1
  {
    OnlyAtCount("fAdd3(rgb, @)", '@', 11, 11);
  }

  lemma SubShiftArity()
    ensures Occurrences("fSub3(rgb, @)", '@') <= 1
  {
    OnlyAtCount("fSub3(rgb, @)", '@', 11, 11);
  }

  lemma AddSubShiftArity()
    ensures Occurrences("fAdd3(fSub3(rgb, @), @)", '@') <= 2
  {
    OnlyAtCount("fAdd3(fSub3(rgb, @), @)", '@', 17, 21);
  }

  lemma SubAddShiftArity()
    ensures Occurrences("fSub3(fAdd3(rgb, @), @)", '@') <= 2
  {
    OnlyAtCount("fSub3(fAdd3(rgb, @), @)", '@', 17, 21);
  }

  lemma InvertedAddShiftArity()
    ensures Occurrences("fInv3(fAdd3(rgb, @))", '@') <= 1
  {
    OnlyAtCount("fInv3(fAdd3(rgb, @))", '@', 17, 17);
  }

  lemma InvertedSubShiftArity()
    ensures Occurrences("fInv3(fSub3(rgb, @))", '@') <= 1
  {
    OnlyAtCount("fInv3(fSub3(rgb, @))", '@', 17, 17);
  }

  lemma InvertedAddSubShiftArity()
    ensures Occurrences("fInv3(fAdd3(fSub3(rgb, @), @))", '@') <= 2
  {
    OnlyAtCount("fInv3(fAdd3(fSub3(rgb, @), @))", '@', 23, 27);
  }

  lemma InvertedSubAddShiftArity()
    ensures Occurrences("fInv3(fSub3(fAdd3(rgb, @), @))", '@') <= 2
  {
    OnlyAtCount("fInv3(fSub3(fAdd3(rgb, @), @))", '@', 23, 27);
  }

  lemma PairBound(x: string, y: string, c: char, n: nat)
    requires Occurrences(x, c) <= n && Occurrences(y, c) <= n
    ensures forall m <- [x, y] :: Occurrences(m, c) <= n
  {
  }

  lemma ShiftsArity()
    ensures forall m <- Shifts :: Occurrences(m, '@') <= 1
  {
    AddShiftArity();
    SubShiftArity();
    PairBound("fAdd3(rgb, @)", "fSub3(rgb, @)", '@', 1);
  }

  lemma DoubleShiftsArity()
    ensures forall m <- DoubleShifts :: Occurrences(m, '@') <= 2
  {
    AddSubShiftArity();
    SubAddShiftArity();
    PairBound("fAdd3(fSub3(rgb, @), @)", "fSub3(fAdd3(rgb, @), @)", '@', 2);
  }

  lemma InvertedShiftsArity()
    ensures forall m <- InvertedShifts :: Occurrences(m, '@') <= 1
  {
    InvertedAddShiftArity();
    InvertedSubShiftArity();
    PairBound("fInv3(fAdd3(rgb, @))", "fInv3(fSub3(rgb, @))", '@', 1);
  }

  lemma InvertedDoubleShiftsArity()
    ensures forall m <- InvertedDoubleShifts :: Occurrences(m, '@') <= 2
  {
    InvertedAddSubShiftArity();
    InvertedSubAddShiftArity();
    PairBound("fInv3(fAdd3(fSub3(rgb, @), @))", "fInv3(fSub3(fAdd3(rgb, @), @))", '@', 2);
  }

  lemma PlainArity()
    ensures forall m <- Plain :: Occurrences(m, '@') == 0
  {
    assert '@' !in "rgb";
  }

  /** Every mask leaves at most two sub-expressions to generate. */
  lemma MasksArity()
    ensures forall m <- Masks :: Occurrences(m, '@') <= 2
  {
    PlainArity();
    ShiftsArity();
    DoubleShiftsArity();
    InvertedShiftsArity();
    InvertedDoubleShiftsArity();
  }

  lemma BufferLinesAreMarkerFree()
    ensures MarkerFree(Join(BufferLines))
  {
    JoinMarkerFree(BufferLines);
  }

  lemma EntryLinesAreMarkerFree()
    ensures MarkerFree(Join(EntryLines))
  {
    JoinMarkerFree(EntryLines);
  }

  lemma CoordinateLinesAreMarkerFree()
    ensures MarkerFree(Join(CoordinateLines))
  {
    JoinMarkerFree(CoordinateLines);
  }

  lemma TimeLinesAreMarkerFree()
    ensures MarkerFree(Join(TimeLines))
  {
    JoinMarkerFree(TimeLines);
  }

  lemma ColourLinesAreMarkerFree()
    ensures MarkerFree(Join(ColourLines))
  {
    JoinMarkerFree(ColourLines);
  }

  /** Marker-free text holds none of the three marker characters, and conversely. */
  lemma MarkerFreeChars(s: string)
    ensures MarkerFree(s) <==> '@' !in s && '$' !in s && '#' !in s
  {
    if !MarkerFree(s) {
      var i :| 0 <= i < |s| && IsMarker(s[i]);
      assert s[i] in s;
    }
  }

  lemma MarkerFreeAppend(a: string, b: string)
    requires MarkerFree(a) && MarkerFree(b)
    ensures MarkerFree(a + b)
  {
  }

  lemma PreambleIsMarkerFree()
    ensures MarkerFree(Preamble)
  {
    BufferLinesAreMarkerFree();
    EntryLinesAreMarkerFree();
    CoordinateLinesAreMarkerFree();
    TimeLinesAreMarkerFree();
    ColourLinesAreMarkerFree();
    MarkerFreeAppend(Join(BufferLines), Join(EntryLines));
    MarkerFreeAppend(Join(BufferLines) + Join(EntryLines), Join(CoordinateLines));
    MarkerFreeAppend(Join(BufferLines) + Join(EntryLines) + Join(CoordinateLines), Join(TimeLines));
    MarkerFreeAppend(Join(BufferLines) + Join(EntryLines) + Join(CoordinateLines) + Join(TimeLines), Join(ColourLines));
  }

  lemma ClosingIsMarkerFree()
    ensures MarkerFree(Closing)
  {
    JoinMarkerFree(ClosingLines);
  }

  /** The three colour channels are pending placeholders. */
  lemma ChannelsArePending()
    ensures Occurrences(Channels, '@') == 3 && '$' !in Channels
  {
  }

  lemma MaskLineIsMarkerFree()
    ensures MarkerFree(MaskLine) && MaskLine[0] == ')'
  {
  }

  /** The marker count of a marker-free frame around `c` is that of `c`. */
  lemma FramedOccurrences(p: string, c: string, m: string, x: char)
    requires MarkerFree(p) && MarkerFree(m) && IsMarker(x)
    ensures Occurrences(p + c + m, x) == Occurrences(c, x)
  {
    assert x !in p && x !in m;
    OccurrencesAppend(p, c, x);
    OccurrencesAppend(p + c, m, x);
  }

  /**
   * Outside the channels and the mask token the skeleton holds no marker,
   * and the three channels are the only placeholders before the token.
   */
  lemma SkeletonLayout()
    ensures MarkerFree(Preamble) && MarkerFree(MaskLine) && MarkerFree(Closing)
    ensures Occurrences(Preamble + Channels + MaskLine, '@') == 3
    ensures Occurrences(Preamble + Channels + MaskLine, '$') == 0
  {
    PreambleIsMarkerFree();
    ClosingIsMarkerFree();
    MaskLineIsMarkerFree();
    ChannelsArePending();
    FramedOccurrences(Preamble, Channels, MaskLine, '@');
    FramedOccurrences(Preamble, Channels, MaskLine, '$');
  }

  /** A token that starts with a marker does not start inside a marker-free stretch. */
  lemma SkipMarkerFree(a: string, b: string, tok: string)
    requires MarkerFree(a) && tok != [] && IsMarker(tok[0])
    ensures FindToken(a + b, tok) == match FindToken(b, tok)
                                     case None => None
                                     case Some(k) => Some(|a| + k)
  {
    forall i: nat | i < |a| ensures !OccursAt(a + b, tok, i) {
      if i + |tok| <= |a + b| {
        assert (a + b)[i..i + |tok|][0] == a[i];
      }
    }
    FindTokenSkip(a, b, tok);
  }

  /** `@MASK@` does not start among the channels when what follows them is not an `M`. */
  lemma SkipChannels(b: string)
    requires b != [] && b[0] != 'M'
    ensures FindToken(Channels + b, MaskToken) == match FindToken(b, MaskToken)
                                                  case None => None
                                                  case Some(k) => Some(|Channels| + k)
  {
    var s := Channels + b;
    forall i: nat | i < |Channels| ensures !OccursAt(s, MaskToken, i) {
      if i + |MaskToken| <= |s| {
        assert s[i..i + |MaskToken|][1] == s[i + 1];
      }
    }
    FindTokenSkip(Channels, b, MaskToken);
  }

  lemma FindMaskTokenAfterChannels(m: string, closing: string)
    requires MarkerFree(m) && m != [] && m[0] != 'M'
    ensures FindToken(Channels + (m + (MaskToken + closing)), MaskToken) == Some(|Channels| + |m|)
  {
    var b := m + (MaskToken + closing);
    assert FindToken(b, MaskToken) == Some(|m|) by {
      FindTokenAtStart(MaskToken, closing);
      SkipMarkerFree(m, MaskToken + closing, MaskToken);
    }
    assert b[0] == m[0];
    SkipChannels(b);
  }

  /** `find("@MASK@")` in a skeleton whose text around the channels holds no marker. */
  lemma FindMaskToken(p: string, m: string, closing: string)
    requires MarkerFree(p) && MarkerFree(m) && m != [] && m[0] != 'M'
    ensures FindToken(p + Channels + m + MaskToken + closing, MaskToken) == Some(|p + Channels + m|)
  {
    var s := p + (Channels + (m + (MaskToken + closing)));
    assert p + Channels + m + MaskToken + closing == s;
    FindMaskTokenAfterChannels(m, closing);
    SkipMarkerFree(p, Channels + (m + (MaskToken + closing)), MaskToken);
  }

  /** `find("@MASK@")` on the skeleton lands on the token between the mask line and the closing. */
  lemma MaskTokenPosition()
    ensures FindToken(Skeleton, MaskToken) == Some(|Preamble + Channels + MaskLine|)
  {
    PreambleIsMarkerFree();
    MaskLineIsMarkerFree();
    FindMaskToken(Preamble, MaskLine, Closing);
  }
}
