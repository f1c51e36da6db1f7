/**
 * The fixed text put in front of every generated `main`: the HLSL helper
 * functions the function and mask templates call. The generator only
 * carries it along; nothing here depends on what the helpers compute.
 */
module Prelude {

  import opened Catalog

  /**
   * The HLSL definitions of every primitive the function and mask templates
   * call, in the order the generator emits them.
   *
   * Each helper is the join of a few groups of lines, and a line longer
   * than 32 characters is cut at a space. The verifier checks that a
   * string literal holds no marker at a cost that grows quickly with its
   * length, so every group gets its own small lemma and the lemmas above it
   * only put the facts together.
   */
  const FunctionDefinitions: string :=
    OneInputDefinitions + TwoInputDefinitions + ThreeInputDefinitions
    + FourInputDefinitions + MaskDefinitions

  lemma FunctionDefinitionsAreMarkerFree()
    ensures MarkerFree(FunctionDefinitions)
  {
    OneInputIsMarkerFree();
    TwoInputIsMarkerFree();
    ThreeInputIsMarkerFree();
    FourInputIsMarkerFree();
    MaskIsMarkerFree();
    MarkerFreeAppend(OneInputDefinitions, TwoInputDefinitions);
    MarkerFreeAppend(OneInputDefinitions + TwoInputDefinitions, ThreeInputDefinitions);
    MarkerFreeAppend(OneInputDefinitions + TwoInputDefinitions + ThreeInputDefinitions, FourInputDefinitions);
    MarkerFreeAppend(OneInputDefinitions + TwoInputDefinitions + ThreeInputDefinitions + FourInputDefinitions, MaskDefinitions);
  }

  /** The helpers of one input. */
  const OneInputDefinitions: string :=
    InvDefinition + SqrDefinition + SqrtDefinition + SmoothDefinition
    + SharpDefinition

  lemma OneInputIsMarkerFree()
    ensures MarkerFree(OneInputDefinitions)
  {
    InvIsMarkerFree();
    SqrIsMarkerFree();
    SqrtIsMarkerFree();
    SmoothIsMarkerFree();
    SharpIsMarkerFree();
    MarkerFreeAppend(InvDefinition, SqrDefinition);
    MarkerFreeAppend(InvDefinition + SqrDefinition, SqrtDefinition);
    MarkerFreeAppend(InvDefinition + SqrDefinition + SqrtDefinition, SmoothDefinition);
    MarkerFreeAppend(InvDefinition + SqrDefinition + SqrtDefinition + SmoothDefinition, SharpDefinition);
  }

  /** The helpers of two inputs. */
  const TwoInputDefinitions: string :=
    AddDefinition + SubDefinition + MulDefinition + DivDefinition
    + AvgDefinition + GeomDefinition + HarmDefinition + HypoDefinition
    + MinDefinition + MaxDefinition + PowDefinition + BellDefinition
    + WaveDefinition + WaveDampDefinition

  /** The first half of the helpers of two inputs. */
  lemma TwoInputHeadIsMarkerFree()
    ensures MarkerFree(AddDefinition + SubDefinition + MulDefinition + DivDefinition + AvgDefinition + GeomDefinition + HarmDefinition)
  {
    AddIsMarkerFree();
    SubIsMarkerFree();
    MulIsMarkerFree();
    DivIsMarkerFree();
    AvgIsMarkerFree();
    GeomIsMarkerFree();
    HarmIsMarkerFree();
    MarkerFreeAppend(AddDefinition, SubDefinition);
    MarkerFreeAppend(AddDefinition + SubDefinition, MulDefinition);
    MarkerFreeAppend(AddDefinition + SubDefinition + MulDefinition, DivDefinition);
    MarkerFreeAppend(AddDefinition + SubDefinition + MulDefinition + DivDefinition, AvgDefinition);
    MarkerFreeAppend(AddDefinition + SubDefinition + MulDefinition + DivDefinition + AvgDefinition, GeomDefinition);
    MarkerFreeAppend(AddDefinition + SubDefinition + MulDefinition + DivDefinition + AvgDefinition + GeomDefinition, HarmDefinition);
  }

  lemma TwoInputIsMarkerFree()
    ensures MarkerFree(TwoInputDefinitions)
  {
    TwoInputHeadIsMarkerFree();
    HypoIsMarkerFree();
    MinIsMarkerFree();
    MaxIsMarkerFree();
    PowIsMarkerFree();
    BellIsMarkerFree();
    WaveIsMarkerFree();
    WaveDampIsMarkerFree();
    MarkerFreeAppend(AddDefinition + SubDefinition + MulDefinition + DivDefinition + AvgDefinition + GeomDefinition + HarmDefinition, HypoDefinition);
    MarkerFreeAppend(AddDefinition + SubDefinition + MulDefinition + DivDefinition + AvgDefinition + GeomDefinition + HarmDefinition + HypoDefinition, MinDefinition);
    MarkerFreeAppend(AddDefinition + SubDefinition + MulDefinition + DivDefinition + AvgDefinition + GeomDefinition + HarmDefinition + HypoDefinition + MinDefinition, MaxDefinition);
    MarkerFreeAppend(AddDefinition + SubDefinition + MulDefinition + DivDefinition + AvgDefinition + GeomDefinition + HarmDefinition + HypoDefinition + MinDefinition + MaxDefinition, PowDefinition);
    MarkerFreeAppend(AddDefinition + SubDefinition + MulDefinition + DivDefinition + AvgDefinition + GeomDefinition + HarmDefinition + HypoDefinition + MinDefinition + MaxDefinition + PowDefinition, BellDefinition);
    MarkerFreeAppend(AddDefinition + SubDefinition + MulDefinition + DivDefinition + AvgDefinition + GeomDefinition + HarmDefinition + HypoDefinition + MinDefinition + MaxDefinition + PowDefinition + BellDefinition, WaveDefinition);
    MarkerFreeAppend(AddDefinition + SubDefinition + MulDefinition + DivDefinition + AvgDefinition + GeomDefinition + HarmDefinition + HypoDefinition + MinDefinition + MaxDefinition + PowDefinition + BellDefinition + WaveDefinition, WaveDampDefinition);
  }

  /** The helpers of three inputs. */
  const ThreeInputDefinitions: string :=
    LerpDefinition + SmoothLerpDefinition + MlerpDefinition + ClampDefinition

  lemma ThreeInputIsMarkerFree()
    ensures MarkerFree(ThreeInputDefinitions)
  {
    LerpIsMarkerFree();
    SmoothLerpIsMarkerFree();
    MlerpIsMarkerFree();
    ClampIsMarkerFree();
    MarkerFreeAppend(LerpDefinition, SmoothLerpDefinition);
    MarkerFreeAppend(LerpDefinition + SmoothLerpDefinition, MlerpDefinition);
    MarkerFreeAppend(LerpDefinition + SmoothLerpDefinition + MlerpDefinition, ClampDefinition);
  }

  /** The helpers of four inputs. */
  const FourInputDefinitions: string :=
    DistDefinition + DistLineDefinition

  lemma FourInputIsMarkerFree()
    ensures MarkerFree(FourInputDefinitions)
  {
    DistIsMarkerFree();
    DistLineIsMarkerFree();
    MarkerFreeAppend(DistDefinition, DistLineDefinition);
  }

  /** The helpers the mask templates call. */
  const MaskDefinitions: string :=
    Inv3Definition + Add3Definition + Sub3Definition

  lemma MaskIsMarkerFree()
    ensures MarkerFree(MaskDefinitions)
  {
    Inv3IsMarkerFree();
    Add3IsMarkerFree();
    Sub3IsMarkerFree();
    MarkerFreeAppend(Inv3Definition, Add3Definition);
    MarkerFreeAppend(Inv3Definition + Add3Definition, Sub3Definition);
  }

  const InvDefinition: string :=
    Join(InvLines1) + Join(InvLines2)

  const InvLines1: seq<string> := [
    "\n",
    "\t\n",
    "\t// 1 input\n",
    "\t\n",
    "\tfloat fInv(float x)\n"
  ]

  lemma InvLines1AreMarkerFree()
    ensures MarkerFree(Join(InvLines1))
  {
    JoinMarkerFree(InvLines1);
  }

  const InvLines2: seq<string> := [
    "\t{\n",
    "\t\treturn 1.0f - x;\n",
    "\t}\n"
  ]

  lemma InvLines2AreMarkerFree()
    ensures MarkerFree(Join(InvLines2))
  {
    JoinMarkerFree(InvLines2);
  }

  lemma InvIsMarkerFree()
    ensures MarkerFree(InvDefinition)
  {
    InvLines1AreMarkerFree();
    InvLines2AreMarkerFree();
    MarkerFreeAppend(Join(InvLines1), Join(InvLines2));
  }

  const SqrDefinition: string :=
    Join(SqrLines)

  const SqrLines: seq<string> := [
    "\t\n",
    "\tfloat fSqr(float x)\n",
    "\t{\n",
    "\t\treturn x * x;\n",
    "\t}\n"
  ]

  lemma SqrIsMarkerFree()
    ensures MarkerFree(SqrDefinition)
  {
    JoinMarkerFree(SqrLines);
  }

  const SqrtDefinition: string :=
    Join(SqrtLines)

  const SqrtLines: seq<string> := [
    "\t\n",
    "\tfloat fSqrt(float x)\n",
    "\t{\n",
    "\t\treturn sqrt(x);\n",
    "\t}\n"
  ]

  lemma SqrtIsMarkerFree()
    ensures MarkerFree(SqrtDefinition)
  {
    JoinMarkerFree(SqrtLines);
  }

  const SmoothDefinition: string :=
    Join(SmoothLines1) + Join(SmoothLines2) + Join(SmoothLines3)

  const SmoothLines1: seq<string> := [
    "\t\n",
    "\tfloat fSmooth(float x)\n",
    "\t{\n",
    "\t\tfloat x2 = x * x;\n"
  ]

  lemma SmoothLines1AreMarkerFree()
    ensures MarkerFree(Join(SmoothLines1))
  {
    JoinMarkerFree(SmoothLines1);
  }

  const SmoothLines2: seq<string> := [
    "\t\tfloat x3 = x2 * x;\n",
    "\t\treturn x2 + x2 + x2 - x3 - ",
    "x3;\n"
  ]

  lemma SmoothLines2AreMarkerFree()
    ensures MarkerFree(Join(SmoothLines2))
  {
    JoinMarkerFree(SmoothLines2);
  }

  const SmoothLines3: seq<string> := [
    "\t}\n"
  ]

  lemma SmoothLines3AreMarkerFree()
    ensures MarkerFree(Join(SmoothLines3))
  {
    JoinMarkerFree(SmoothLines3);
  }

  lemma SmoothIsMarkerFree()
    ensures MarkerFree(SmoothDefinition)
  {
    SmoothLines1AreMarkerFree();
    SmoothLines2AreMarkerFree();
    SmoothLines3AreMarkerFree();
    MarkerFreeAppend(Join(SmoothLines1), Join(SmoothLines2));
    MarkerFreeAppend(Join(SmoothLines1) + Join(SmoothLines2), Join(SmoothLines3));
  }

  const SharpDefinition: string :=
    Join(SharpLines1) + Join(SharpLines2)

  const SharpLines1: seq<string> := [
    "\n",
    "\tfloat fSharp(float x)\n",
    "\t{\n",
    "\t\treturn x * (x * (x + x - "
  ]

  lemma SharpLines1AreMarkerFree()
    ensures MarkerFree(Join(SharpLines1))
  {
    JoinMarkerFree(SharpLines1);
  }

  const SharpLines2: seq<string> := [
    "3.0f) + 2.0f);\n",
    "\t}\n"
  ]

  lemma SharpLines2AreMarkerFree()
    ensures MarkerFree(Join(SharpLines2))
  {
    JoinMarkerFree(SharpLines2);
  }

  lemma SharpIsMarkerFree()
    ensures MarkerFree(SharpDefinition)
  {
    SharpLines1AreMarkerFree();
    SharpLines2AreMarkerFree();
    MarkerFreeAppend(Join(SharpLines1), Join(SharpLines2));
  }

  const AddDefinition: string :=
    Join(AddLines1) + Join(AddLines2) + Join(AddLines3) + Join(AddLines4) + Join(AddLines5)

  const AddLines1: seq<string> := [
    "\t\n",
    "\t// "
  ]

  lemma AddLines1AreMarkerFree()
    ensures MarkerFree(Join(AddLines1))
  {
    JoinMarkerFree(AddLines1);
  }

  const AddLines2: seq<string> := [
    "-------------------------------------\n"
  ]

  lemma AddLines2AreMarkerFree()
    ensures MarkerFree(Join(AddLines2))
  {
    JoinMarkerFree(AddLines2);
  }

  const AddLines3: seq<string> := [
    "\t// 2 inputs\n",
    "\t\n",
    "\tfloat fAdd(float x, float y)\n",
    "\t{\n"
  ]

  lemma AddLines3AreMarkerFree()
    ensures MarkerFree(Join(AddLines3))
  {
    JoinMarkerFree(AddLines3);
  }

  const AddLines4: seq<string> := [
    "\t\tfloat res = x + y;\n",
    "\t\tif (res > 1.0f)\n",
    "\t\t\treturn 2.0f - res;\n"
  ]

  lemma AddLines4AreMarkerFree()
    ensures MarkerFree(Join(AddLines4))
  {
    JoinMarkerFree(AddLines4);
  }

  const AddLines5: seq<string> := [
    "\t\treturn res;\n",
    "\t}\n"
  ]

  lemma AddLines5AreMarkerFree()
    ensures MarkerFree(Join(AddLines5))
  {
    JoinMarkerFree(AddLines5);
  }

  lemma AddIsMarkerFree()
    ensures MarkerFree(AddDefinition)
  {
    AddLines1AreMarkerFree();
    AddLines2AreMarkerFree();
    AddLines3AreMarkerFree();
    AddLines4AreMarkerFree();
    AddLines5AreMarkerFree();
    MarkerFreeAppend(Join(AddLines1), Join(AddLines2));
    MarkerFreeAppend(Join(AddLines1) + Join(AddLines2), Join(AddLines3));
    MarkerFreeAppend(Join(AddLines1) + Join(AddLines2) + Join(AddLines3), Join(AddLines4));
    MarkerFreeAppend(Join(AddLines1) + Join(AddLines2) + Join(AddLines3) + Join(AddLines4), Join(AddLines5));
  }

  const SubDefinition: string :=
    Join(SubLines1) + Join(SubLines2) + Join(SubLines3)

  const SubLines1: seq<string> := [
    "\t\n",
    "\tfloat fSub(float x, float y)\n",
    "\t{\n"
  ]

  lemma SubLines1AreMarkerFree()
    ensures MarkerFree(Join(SubLines1))
  {
    JoinMarkerFree(SubLines1);
  }

  const SubLines2: seq<string> := [
    "\t\tfloat res = x - y;\n",
    "\t\tif (res < 0.0f)\n",
    "\t\t\treturn -res;\n",
    "\t\treturn res;\n"
  ]

  lemma SubLines2AreMarkerFree()
    ensures MarkerFree(Join(SubLines2))
  {
    JoinMarkerFree(SubLines2);
  }

  const SubLines3: seq<string> := [
    "\t}\n"
  ]

  lemma SubLines3AreMarkerFree()
    ensures MarkerFree(Join(SubLines3))
  {
    JoinMarkerFree(SubLines3);
  }

  lemma SubIsMarkerFree()
    ensures MarkerFree(SubDefinition)
  {
    SubLines1AreMarkerFree();
    SubLines2AreMarkerFree();
    SubLines3AreMarkerFree();
    MarkerFreeAppend(Join(SubLines1), Join(SubLines2));
    MarkerFreeAppend(Join(SubLines1) + Join(SubLines2), Join(SubLines3));
  }

  const MulDefinition: string :=
    Join(MulLines)

  const MulLines: seq<string> := [
    "\t\n",
    "\tfloat fMul(float x, float y)\n",
    "\t{\n",
    "\t\treturn x * y;\n",
    "\t}\n"
  ]

  lemma MulIsMarkerFree()
    ensures MarkerFree(MulDefinition)
  {
    JoinMarkerFree(MulLines);
  }

  const DivDefinition: string :=
    Join(DivLines1) + Join(DivLines2) + Join(DivLines3)

  const DivLines1: seq<string> := [
    "\t\t\n",
    "\tfloat fDiv(float x, float y)\n",
    "\t{\n"
  ]

  lemma DivLines1AreMarkerFree()
    ensures MarkerFree(Join(DivLines1))
  {
    JoinMarkerFree(DivLines1);
  }

  const DivLines2: seq<string> := [
    "\t\tfloat min = x, max = y;\n",
    "\t\tif (x > y)\n",
    "\t\t{\n",
    "\t\t\tmin = y;\n",
    "\t\t\tmax = x;\n"
  ]

  lemma DivLines2AreMarkerFree()
    ensures MarkerFree(Join(DivLines2))
  {
    JoinMarkerFree(DivLines2);
  }

  const DivLines3: seq<string> := [
    "\t\t}\n",
    "\t\tif (max < 0.0001f)\n",
    "\t\t\tmax = 0.0001f;\n",
    "\t\treturn min / max;\n",
    "\t}\n"
  ]

  lemma DivLines3AreMarkerFree()
    ensures MarkerFree(Join(DivLines3))
  {
    JoinMarkerFree(DivLines3);
  }

  lemma DivIsMarkerFree()
    ensures MarkerFree(DivDefinition)
  {
    DivLines1AreMarkerFree();
    DivLines2AreMarkerFree();
    DivLines3AreMarkerFree();
    MarkerFreeAppend(Join(DivLines1), Join(DivLines2));
    MarkerFreeAppend(Join(DivLines1) + Join(DivLines2), Join(DivLines3));
  }

  const AvgDefinition: string :=
    Join(AvgLines1) + Join(AvgLines2)

  const AvgLines1: seq<string> := [
    "\t\n",
    "\tfloat fAvg(float x, float y)\n",
    "\t{\n"
  ]

  lemma AvgLines1AreMarkerFree()
    ensures MarkerFree(Join(AvgLines1))
  {
    JoinMarkerFree(AvgLines1);
  }

  const AvgLines2: seq<string> := [
    "\t\treturn (x + y) * 0.5f;\n",
    "\t}\n"
  ]

  lemma AvgLines2AreMarkerFree()
    ensures MarkerFree(Join(AvgLines2))
  {
    JoinMarkerFree(AvgLines2);
  }

  lemma AvgIsMarkerFree()
    ensures MarkerFree(AvgDefinition)
  {
    AvgLines1AreMarkerFree();
    AvgLines2AreMarkerFree();
    MarkerFreeAppend(Join(AvgLines1), Join(AvgLines2));
  }

  const GeomDefinition: string :=
    Join(GeomLines1) + Join(GeomLines2)

  const GeomLines1: seq<string> := [
    "\t\n",
    "\tfloat fGeom(float x, float y)\n",
    "\t{\n"
  ]

  lemma GeomLines1AreMarkerFree()
    ensures MarkerFree(Join(GeomLines1))
  {
    JoinMarkerFree(GeomLines1);
  }

  const GeomLines2: seq<string> := [
    "\t\treturn sqrt(x * y);\n",
    "\t}\n"
  ]

  lemma GeomLines2AreMarkerFree()
    ensures MarkerFree(Join(GeomLines2))
  {
    JoinMarkerFree(GeomLines2);
  }

  lemma GeomIsMarkerFree()
    ensures MarkerFree(GeomDefinition)
  {
    GeomLines1AreMarkerFree();
    GeomLines2AreMarkerFree();
    MarkerFreeAppend(Join(GeomLines1), Join(GeomLines2));
  }

  const HarmDefinition: string :=
    Join(HarmLines1) + Join(HarmLines2) + Join(HarmLines3)

  const HarmLines1: seq<string> := [
    "\t\n",
    "\tfloat fHarm(float x, float y)\n",
    "\t{\n"
  ]

  lemma HarmLines1AreMarkerFree()
    ensures MarkerFree(Join(HarmLines1))
  {
    JoinMarkerFree(HarmLines1);
  }

  const HarmLines2: seq<string> := [
    "\t\tfloat den = x + y;\n",
    "\t\tif (den < 0.0001f)\n",
    "\t\t\tden = 0.0001f;\n"
  ]

  lemma HarmLines2AreMarkerFree()
    ensures MarkerFree(Join(HarmLines2))
  {
    JoinMarkerFree(HarmLines2);
  }

  const HarmLines3: seq<string> := [
    "\t\treturn (2.0f * x * y) / den;\n",
    "\t}\n"
  ]

  lemma HarmLines3AreMarkerFree()
    ensures MarkerFree(Join(HarmLines3))
  {
    JoinMarkerFree(HarmLines3);
  }

  lemma HarmIsMarkerFree()
    ensures MarkerFree(HarmDefinition)
  {
    HarmLines1AreMarkerFree();
    HarmLines2AreMarkerFree();
    HarmLines3AreMarkerFree();
    MarkerFreeAppend(Join(HarmLines1), Join(HarmLines2));
    MarkerFreeAppend(Join(HarmLines1) + Join(HarmLines2), Join(HarmLines3));
  }

  const HypoDefinition: string :=
    Join(HypoLines1) + Join(HypoLines2) + Join(HypoLines3)

  const HypoLines1: seq<string> := [
    "\n",
    "\tfloat fHypo(float x, float y)\n",
    "\t{\n"
  ]

  lemma HypoLines1AreMarkerFree()
    ensures MarkerFree(Join(HypoLines1))
  {
    JoinMarkerFree(HypoLines1);
  }

  const HypoLines2: seq<string> := [
    "\t\treturn 0.70710678f * sqrt(x * "
  ]

  lemma HypoLines2AreMarkerFree()
    ensures MarkerFree(Join(HypoLines2))
  {
    JoinMarkerFree(HypoLines2);
  }

  const HypoLines3: seq<string> := [
    "x + y * y); // Scale by 1 / ",
    "sqrt(2)\n",
    "\t}\t\n"
  ]

  lemma HypoLines3AreMarkerFree()
    ensures MarkerFree(Join(HypoLines3))
  {
    JoinMarkerFree(HypoLines3);
  }

  lemma HypoIsMarkerFree()
    ensures MarkerFree(HypoDefinition)
  {
    HypoLines1AreMarkerFree();
    HypoLines2AreMarkerFree();
    HypoLines3AreMarkerFree();
    MarkerFreeAppend(Join(HypoLines1), Join(HypoLines2));
    MarkerFreeAppend(Join(HypoLines1) + Join(HypoLines2), Join(HypoLines3));
  }

  const MinDefinition: string :=
    Join(MinLines1) + Join(MinLines2)

  const MinLines1: seq<string> := [
    "\t\n",
    "\tfloat fMin(float x, float y)\n",
    "\t{\n"
  ]

  lemma MinLines1AreMarkerFree()
    ensures MarkerFree(Join(MinLines1))
  {
    JoinMarkerFree(MinLines1);
  }

  const MinLines2: seq<string> := [
    "\t\treturn x < y ? x : y;\n",
    "\t}\n"
  ]

  lemma MinLines2AreMarkerFree()
    ensures MarkerFree(Join(MinLines2))
  {
    JoinMarkerFree(MinLines2);
  }

  lemma MinIsMarkerFree()
    ensures MarkerFree(MinDefinition)
  {
    MinLines1AreMarkerFree();
    MinLines2AreMarkerFree();
    MarkerFreeAppend(Join(MinLines1), Join(MinLines2));
  }

  const MaxDefinition: string :=
    Join(MaxLines1) + Join(MaxLines2)

  const MaxLines1: seq<string> := [
    "\n",
    "\tfloat fMax(float x, float y)\n",
    "\t{\n"
  ]

  lemma MaxLines1AreMarkerFree()
    ensures MarkerFree(Join(MaxLines1))
  {
    JoinMarkerFree(MaxLines1);
  }

  const MaxLines2: seq<string> := [
    "\t\treturn x > y ? x : y;\n",
    "\t}\n"
  ]

  lemma MaxLines2AreMarkerFree()
    ensures MarkerFree(Join(MaxLines2))
  {
    JoinMarkerFree(MaxLines2);
  }

  lemma MaxIsMarkerFree()
    ensures MarkerFree(MaxDefinition)
  {
    MaxLines1AreMarkerFree();
    MaxLines2AreMarkerFree();
    MarkerFreeAppend(Join(MaxLines1), Join(MaxLines2));
  }

  const PowDefinition: string :=
    Join(PowLines1) + Join(PowLines2) + Join(PowLines3) + Join(PowLines4)

  const PowLines1: seq<string> := [
    "\t\n",
    "\tfloat fPow(float x, float y)\n",
    "\t{\n",
    "\t\tif (x < 0.01f)\n"
  ]

  lemma PowLines1AreMarkerFree()
    ensures MarkerFree(Join(PowLines1))
  {
    JoinMarkerFree(PowLines1);
  }

  const PowLines2: seq<string> := [
    "\t\t\tx = 0.01f;\n",
    "\t\tif (x > 0.99f)\n",
    "\t\t\tx = 0.99f;\n"
  ]

  lemma PowLines2AreMarkerFree()
    ensures MarkerFree(Join(PowLines2))
  {
    JoinMarkerFree(PowLines2);
  }

  const PowLines3: seq<string> := [
    "\t\tfloat exp = exp2(4.0f * y - ",
    "2.0f);\n"
  ]

  lemma PowLines3AreMarkerFree()
    ensures MarkerFree(Join(PowLines3))
  {
    JoinMarkerFree(PowLines3);
  }

  const PowLines4: seq<string> := [
    "\t\treturn pow(x, exp);\n",
    "\t}\n"
  ]

  lemma PowLines4AreMarkerFree()
    ensures MarkerFree(Join(PowLines4))
  {
    JoinMarkerFree(PowLines4);
  }

  lemma PowIsMarkerFree()
    ensures MarkerFree(PowDefinition)
  {
    PowLines1AreMarkerFree();
    PowLines2AreMarkerFree();
    PowLines3AreMarkerFree();
    PowLines4AreMarkerFree();
    MarkerFreeAppend(Join(PowLines1), Join(PowLines2));
    MarkerFreeAppend(Join(PowLines1) + Join(PowLines2), Join(PowLines3));
    MarkerFreeAppend(Join(PowLines1) + Join(PowLines2) + Join(PowLines3), Join(PowLines4));
  }

  const BellDefinition: string :=
    Join(BellLines1) + Join(BellLines2) + Join(BellLines3) + Join(BellLines4)

  const BellLines1: seq<string> := [
    "\n",
    "\tfloat fBell(float x, float y)\n",
    "\t{\n",
    "\t\tif (x < 0.01f)\n"
  ]

  lemma BellLines1AreMarkerFree()
    ensures MarkerFree(Join(BellLines1))
  {
    JoinMarkerFree(BellLines1);
  }

  const BellLines2: seq<string> := [
    "\t\t\tx = 0.01f;\n",
    "\t\tif (x > 0.99f)\n",
    "\t\t\tx = 0.99f;\n",
    "\t\tfloat y2 = y * y;\n"
  ]

  lemma BellLines2AreMarkerFree()
    ensures MarkerFree(Join(BellLines2))
  {
    JoinMarkerFree(BellLines2);
  }

  const BellLines3: seq<string> := [
    "\t\treturn pow(4.0f * x * (1.0f - "
  ]

  lemma BellLines3AreMarkerFree()
    ensures MarkerFree(Join(BellLines3))
  {
    JoinMarkerFree(BellLines3);
  }

  const BellLines4: seq<string> := [
    "x), 20.0f * y2 * y2 + 0.3f);\n",
    "\t}\n"
  ]

  lemma BellLines4AreMarkerFree()
    ensures MarkerFree(Join(BellLines4))
  {
    JoinMarkerFree(BellLines4);
  }

  lemma BellIsMarkerFree()
    ensures MarkerFree(BellDefinition)
  {
    BellLines1AreMarkerFree();
    BellLines2AreMarkerFree();
    BellLines3AreMarkerFree();
    BellLines4AreMarkerFree();
    MarkerFreeAppend(Join(BellLines1), Join(BellLines2));
    MarkerFreeAppend(Join(BellLines1) + Join(BellLines2), Join(BellLines3));
    MarkerFreeAppend(Join(BellLines1) + Join(BellLines2) + Join(BellLines3), Join(BellLines4));
  }

  const WaveDefinition: string :=
    Join(WaveLines1) + Join(WaveLines2) + Join(WaveLines3)

  const WaveLines1: seq<string> := [
    "\t\n",
    "\tfloat fWave(float x, float y)\n",
    "\t{\n"
  ]

  lemma WaveLines1AreMarkerFree()
    ensures MarkerFree(Join(WaveLines1))
  {
    JoinMarkerFree(WaveLines1);
  }

  const WaveLines2: seq<string> := [
    "\t\tconst float MAX_FREQUENCY = ",
    "6.0f * 3.1415927f;\n"
  ]

  lemma WaveLines2AreMarkerFree()
    ensures MarkerFree(Join(WaveLines2))
  {
    JoinMarkerFree(WaveLines2);
  }

  const WaveLines3: seq<string> := [
    "\t\treturn 0.5f + 0.5f * ",
    "cos(MAX_FREQUENCY * x * y);\n",
    "\t}\n"
  ]

  lemma WaveLines3AreMarkerFree()
    ensures MarkerFree(Join(WaveLines3))
  {
    JoinMarkerFree(WaveLines3);
  }

  lemma WaveIsMarkerFree()
    ensures MarkerFree(WaveDefinition)
  {
    WaveLines1AreMarkerFree();
    WaveLines2AreMarkerFree();
    WaveLines3AreMarkerFree();
    MarkerFreeAppend(Join(WaveLines1), Join(WaveLines2));
    MarkerFreeAppend(Join(WaveLines1) + Join(WaveLines2), Join(WaveLines3));
  }

  const WaveDampDefinition: string :=
    Join(WaveDampLines1) + Join(WaveDampLines2) + Join(WaveDampLines3) + Join(WaveDampLines4) + Join(WaveDampLines5) + Join(WaveDampLines6)

  const WaveDampLines1: seq<string> := [
    "\t\n",
    "\tfloat fWaveDamp(float x, float ",
    "y)\n",
    "\t{\n"
  ]

  lemma WaveDampLines1AreMarkerFree()
    ensures MarkerFree(Join(WaveDampLines1))
  {
    JoinMarkerFree(WaveDampLines1);
  }

  const WaveDampLines2: seq<string> := [
    "\t\tconst float FREQUENCY_FACTOR ",
    "= 3.0f * 3.1415927f;\n"
  ]

  lemma WaveDampLines2AreMarkerFree()
    ensures MarkerFree(Join(WaveDampLines2))
  {
    JoinMarkerFree(WaveDampLines2);
  }

  const WaveDampLines3: seq<string> := [
    "\t\tconst float SHIFT_FACTOR = ",
    "1.0f / 6.0f;\n",
    "\t\tfloat osc = "
  ]

  lemma WaveDampLines3AreMarkerFree()
    ensures MarkerFree(Join(WaveDampLines3))
  {
    JoinMarkerFree(WaveDampLines3);
  }

  const WaveDampLines4: seq<string> := [
    "ldexp(cos(FREQUENCY_FACTOR * x "
  ]

  lemma WaveDampLines4AreMarkerFree()
    ensures MarkerFree(Join(WaveDampLines4))
  {
    JoinMarkerFree(WaveDampLines4);
  }

  const WaveDampLines5: seq<string> := [
    "* (y + SHIFT_FACTOR)), -x * x);\n",
    "\t\treturn osc * osc;\n"
  ]

  lemma WaveDampLines5AreMarkerFree()
    ensures MarkerFree(Join(WaveDampLines5))
  {
    JoinMarkerFree(WaveDampLines5);
  }

  const WaveDampLines6: seq<string> := [
    "\t}\n"
  ]

  lemma WaveDampLines6AreMarkerFree()
    ensures MarkerFree(Join(WaveDampLines6))
  {
    JoinMarkerFree(WaveDampLines6);
  }

  lemma WaveDampIsMarkerFree()
    ensures MarkerFree(WaveDampDefinition)
  {
    WaveDampLines1AreMarkerFree();
    WaveDampLines2AreMarkerFree();
    WaveDampLines3AreMarkerFree();
    WaveDampLines4AreMarkerFree();
    WaveDampLines5AreMarkerFree();
    WaveDampLines6AreMarkerFree();
    MarkerFreeAppend(Join(WaveDampLines1), Join(WaveDampLines2));
    MarkerFreeAppend(Join(WaveDampLines1) + Join(WaveDampLines2), Join(WaveDampLines3));
    MarkerFreeAppend(Join(WaveDampLines1) + Join(WaveDampLines2) + Join(WaveDampLines3), Join(WaveDampLines4));
    MarkerFreeAppend(Join(WaveDampLines1) + Join(WaveDampLines2) + Join(WaveDampLines3) + Join(WaveDampLines4), Join(WaveDampLines5));
    MarkerFreeAppend(Join(WaveDampLines1) + Join(WaveDampLines2) + Join(WaveDampLines3) + Join(WaveDampLines4) + Join(WaveDampLines5), Join(WaveDampLines6));
  }

  const LerpDefinition: string :=
    Join(LerpLines1) + Join(LerpLines2) + Join(LerpLines3) + Join(LerpLines4)

  const LerpLines1: seq<string> := [
    "\n",
    "\t// "
  ]

  lemma LerpLines1AreMarkerFree()
    ensures MarkerFree(Join(LerpLines1))
  {
    JoinMarkerFree(LerpLines1);
  }

  const LerpLines2: seq<string> := [
    "-------------------------------------\n"
  ]

  lemma LerpLines2AreMarkerFree()
    ensures MarkerFree(Join(LerpLines2))
  {
    JoinMarkerFree(LerpLines2);
  }

  const LerpLines3: seq<string> := [
    "\t// 3 inputs\n",
    "\t\n",
    "\tfloat fLerp(float x, float y, ",
    "float z)\n"
  ]

  lemma LerpLines3AreMarkerFree()
    ensures MarkerFree(Join(LerpLines3))
  {
    JoinMarkerFree(LerpLines3);
  }

  const LerpLines4: seq<string> := [
    "\t{\n",
    "\t\treturn (1.0f - z) * x + z * ",
    "y;\n",
    "\t}\n"
  ]

  lemma LerpLines4AreMarkerFree()
    ensures MarkerFree(Join(LerpLines4))
  {
    JoinMarkerFree(LerpLines4);
  }

  lemma LerpIsMarkerFree()
    ensures MarkerFree(LerpDefinition)
  {
    LerpLines1AreMarkerFree();
    LerpLines2AreMarkerFree();
    LerpLines3AreMarkerFree();
    LerpLines4AreMarkerFree();
    MarkerFreeAppend(Join(LerpLines1), Join(LerpLines2));
    MarkerFreeAppend(Join(LerpLines1) + Join(LerpLines2), Join(LerpLines3));
    MarkerFreeAppend(Join(LerpLines1) + Join(LerpLines2) + Join(LerpLines3), Join(LerpLines4));
  }

  const SmoothLerpDefinition: string :=
    Join(SmoothLerpLines1) + Join(SmoothLerpLines2) + Join(SmoothLerpLines3) + Join(SmoothLerpLines4)

  const SmoothLerpLines1: seq<string> := [
    "\t\n",
    "\tfloat fSmoothLerp(float x, ",
    "float y, float z)\n",
    "\t{\n"
  ]

  lemma SmoothLerpLines1AreMarkerFree()
    ensures MarkerFree(Join(SmoothLerpLines1))
  {
    JoinMarkerFree(SmoothLerpLines1);
  }

  const SmoothLerpLines2: seq<string> := [
    "\t\tfloat z2 = z * z;\n",
    "\t\tfloat z3 = z2 * z;\n"
  ]

  lemma SmoothLerpLines2AreMarkerFree()
    ensures MarkerFree(Join(SmoothLerpLines2))
  {
    JoinMarkerFree(SmoothLerpLines2);
  }

  const SmoothLerpLines3: seq<string> := [
    "\t\tfloat smooth = z2 + z2 + z2 - ",
    "z3 - z3;\n"
  ]

  lemma SmoothLerpLines3AreMarkerFree()
    ensures MarkerFree(Join(SmoothLerpLines3))
  {
    JoinMarkerFree(SmoothLerpLines3);
  }

  const SmoothLerpLines4: seq<string> := [
    "\t\treturn smooth * (y - x) + x;\n",
    "\t}\n"
  ]

  lemma SmoothLerpLines4AreMarkerFree()
    ensures MarkerFree(Join(SmoothLerpLines4))
  {
    JoinMarkerFree(SmoothLerpLines4);
  }

  lemma SmoothLerpIsMarkerFree()
    ensures MarkerFree(SmoothLerpDefinition)
  {
    SmoothLerpLines1AreMarkerFree();
    SmoothLerpLines2AreMarkerFree();
    SmoothLerpLines3AreMarkerFree();
    SmoothLerpLines4AreMarkerFree();
    MarkerFreeAppend(Join(SmoothLerpLines1), Join(SmoothLerpLines2));
    MarkerFreeAppend(Join(SmoothLerpLines1) + Join(SmoothLerpLines2), Join(SmoothLerpLines3));
    MarkerFreeAppend(Join(SmoothLerpLines1) + Join(SmoothLerpLines2) + Join(SmoothLerpLines3), Join(SmoothLerpLines4));
  }

  const MlerpDefinition: string :=
    Join(MlerpLines1) + Join(MlerpLines2) + Join(MlerpLines3)

  const MlerpLines1: seq<string> := [
    "\t\n",
    "\tfloat fMlerp(float x, float y, ",
    "float z)\n",
    "\t{\n"
  ]

  lemma MlerpLines1AreMarkerFree()
    ensures MarkerFree(Join(MlerpLines1))
  {
    JoinMarkerFree(MlerpLines1);
  }

  const MlerpLines2: seq<string> := [
    "\t\tif (x < 0.0001f)\n",
    "\t\t\tx = 0.0001f;\n",
    "\t\tif (y < 0.0001f)\n",
    "\t\t\ty = 0.0001f;\n"
  ]

  lemma MlerpLines2AreMarkerFree()
    ensures MarkerFree(Join(MlerpLines2))
  {
    JoinMarkerFree(MlerpLines2);
  }

  const MlerpLines3: seq<string> := [
    "\t\treturn x * pow(y / x, z);\n",
    "\t}\n"
  ]

  lemma MlerpLines3AreMarkerFree()
    ensures MarkerFree(Join(MlerpLines3))
  {
    JoinMarkerFree(MlerpLines3);
  }

  lemma MlerpIsMarkerFree()
    ensures MarkerFree(MlerpDefinition)
  {
    MlerpLines1AreMarkerFree();
    MlerpLines2AreMarkerFree();
    MlerpLines3AreMarkerFree();
    MarkerFreeAppend(Join(MlerpLines1), Join(MlerpLines2));
    MarkerFreeAppend(Join(MlerpLines1) + Join(MlerpLines2), Join(MlerpLines3));
  }

  const ClampDefinition: string :=
    Join(ClampLines1) + Join(ClampLines2) + Join(ClampLines3) + Join(ClampLines4)

  const ClampLines1: seq<string> := [
    "\t\n",
    "\tfloat fClamp(float x, float y, ",
    "float z)\n",
    "\t{\n"
  ]

  lemma ClampLines1AreMarkerFree()
    ensures MarkerFree(Join(ClampLines1))
  {
    JoinMarkerFree(ClampLines1);
  }

  const ClampLines2: seq<string> := [
    "\t\tfloat min = x, max = y;\n",
    "\t\tif (x > y)\n",
    "\t\t{\n",
    "\t\t\tmin = y;\n",
    "\t\t\tmax = x;\n"
  ]

  lemma ClampLines2AreMarkerFree()
    ensures MarkerFree(Join(ClampLines2))
  {
    JoinMarkerFree(ClampLines2);
  }

  const ClampLines3: seq<string> := [
    "\t\t}\n",
    "\t\tif (z < min)\n",
    "\t\t\treturn min;\n",
    "\t\telse if (z > max)\n",
    "\t\t\treturn max;\n"
  ]

  lemma ClampLines3AreMarkerFree()
    ensures MarkerFree(Join(ClampLines3))
  {
    JoinMarkerFree(ClampLines3);
  }

  const ClampLines4: seq<string> := [
    "\t\treturn z;\n",
    "\t}\n"
  ]

  lemma ClampLines4AreMarkerFree()
    ensures MarkerFree(Join(ClampLines4))
  {
    JoinMarkerFree(ClampLines4);
  }

  lemma ClampIsMarkerFree()
    ensures MarkerFree(ClampDefinition)
  {
    ClampLines1AreMarkerFree();
    ClampLines2AreMarkerFree();
    ClampLines3AreMarkerFree();
    ClampLines4AreMarkerFree();
    MarkerFreeAppend(Join(ClampLines1), Join(ClampLines2));
    MarkerFreeAppend(Join(ClampLines1) + Join(ClampLines2), Join(ClampLines3));
    MarkerFreeAppend(Join(ClampLines1) + Join(ClampLines2) + Join(ClampLines3), Join(ClampLines4));
  }

  const DistDefinition: string :=
    Join(DistLines1) + Join(DistLines2) + Join(DistLines3) + Join(DistLines4) + Join(DistLines5) + Join(DistLines6)

  const DistLines1: seq<string> := [
    "\t\n",
    "\t// "
  ]

  lemma DistLines1AreMarkerFree()
    ensures MarkerFree(Join(DistLines1))
  {
    JoinMarkerFree(DistLines1);
  }

  const DistLines2: seq<string> := [
    "-------------------------------------\n"
  ]

  lemma DistLines2AreMarkerFree()
    ensures MarkerFree(Join(DistLines2))
  {
    JoinMarkerFree(DistLines2);
  }

  const DistLines3: seq<string> := [
    "\t// 4 inputs\n",
    "\t\t\n",
    "\tfloat fDist(float x, float y, "
  ]

  lemma DistLines3AreMarkerFree()
    ensures MarkerFree(Join(DistLines3))
  {
    JoinMarkerFree(DistLines3);
  }

  const DistLines4: seq<string> := [
    "float z, float w)\n",
    "\t{\n",
    "\t\tfloat dx = x - z;\n",
    "\t\tfloat dy = y - w;\n"
  ]

  lemma DistLines4AreMarkerFree()
    ensures MarkerFree(Join(DistLines4))
  {
    JoinMarkerFree(DistLines4);
  }

  const DistLines5: seq<string> := [
    "\t\treturn 0.70710678f * sqrt(dx "
  ]

  lemma DistLines5AreMarkerFree()
    ensures MarkerFree(Join(DistLines5))
  {
    JoinMarkerFree(DistLines5);
  }

  const DistLines6: seq<string> := [
    "* dx + dy * dy); // Scale by 1 ",
    "/ sqrt(2)\n",
    "\t}\n"
  ]

  lemma DistLines6AreMarkerFree()
    ensures MarkerFree(Join(DistLines6))
  {
    JoinMarkerFree(DistLines6);
  }

  lemma DistIsMarkerFree()
    ensures MarkerFree(DistDefinition)
  {
    DistLines1AreMarkerFree();
    DistLines2AreMarkerFree();
    DistLines3AreMarkerFree();
    DistLines4AreMarkerFree();
    DistLines5AreMarkerFree();
    DistLines6AreMarkerFree();
    MarkerFreeAppend(Join(DistLines1), Join(DistLines2));
    MarkerFreeAppend(Join(DistLines1) + Join(DistLines2), Join(DistLines3));
    MarkerFreeAppend(Join(DistLines1) + Join(DistLines2) + Join(DistLines3), Join(DistLines4));
    MarkerFreeAppend(Join(DistLines1) + Join(DistLines2) + Join(DistLines3) + Join(DistLines4), Join(DistLines5));
    MarkerFreeAppend(Join(DistLines1) + Join(DistLines2) + Join(DistLines3) + Join(DistLines4) + Join(DistLines5), Join(DistLines6));
  }

  const DistLineDefinition: string :=
    Join(DistLineLines1) + Join(DistLineLines2) + Join(DistLineLines3) + Join(DistLineLines4) + Join(DistLineLines5) + Join(DistLineLines6) + Join(DistLineLines7) + Join(DistLineLines8) + Join(DistLineLines9) + Join(DistLineLines10) + Join(DistLineLines11) + Join(DistLineLines12) + Join(DistLineLines13) + Join(DistLineLines14)

  const DistLineLines1: seq<string> := [
    "\t\n",
    "\tfloat fDistLine(float x, float "
  ]

  lemma DistLineLines1AreMarkerFree()
    ensures MarkerFree(Join(DistLineLines1))
  {
    JoinMarkerFree(DistLineLines1);
  }

  const DistLineLines2: seq<string> := [
    "y, float z, float w)\n",
    "\t{\n",
    "\t\tif (z < 0.499f)\n",
    "\t\t{\n"
  ]

  lemma DistLineLines2AreMarkerFree()
    ensures MarkerFree(Join(DistLineLines2))
  {
    JoinMarkerFree(DistLineLines2);
  }

  const DistLineLines3: seq<string> := [
    "\t\t\tfloat m = tan(z * ",
    "3.1415927f);\n"
  ]

  lemma DistLineLines3AreMarkerFree()
    ensures MarkerFree(Join(DistLineLines3))
  {
    JoinMarkerFree(DistLineLines3);
  }

  const DistLineLines4: seq<string> := [
    "\t\t\tfloat n = (1.0f - w) * (1.0f ",
    "+ m) - m;\n"
  ]

  lemma DistLineLines4AreMarkerFree()
    ensures MarkerFree(Join(DistLineLines4))
  {
    JoinMarkerFree(DistLineLines4);
  }

  const DistLineLines5: seq<string> := [
    "\t\t\tfloat c = (x + y * m - m * ",
    "n) / (m * m + 1.0f);\n"
  ]

  lemma DistLineLines5AreMarkerFree()
    ensures MarkerFree(Join(DistLineLines5))
  {
    JoinMarkerFree(DistLineLines5);
  }

  const DistLineLines6: seq<string> := [
    "\t\t\tfloat dx = c - x;\n",
    "\t\t\tfloat dy = m * c + n - y;\n"
  ]

  lemma DistLineLines6AreMarkerFree()
    ensures MarkerFree(Join(DistLineLines6))
  {
    JoinMarkerFree(DistLineLines6);
  }

  const DistLineLines7: seq<string> := [
    "\t\t\treturn 0.70710678f * sqrt(dx ",
    "* dx + dy * dy);\n",
    "\t\t}\n"
  ]

  lemma DistLineLines7AreMarkerFree()
    ensures MarkerFree(Join(DistLineLines7))
  {
    JoinMarkerFree(DistLineLines7);
  }

  const DistLineLines8: seq<string> := [
    "\t\telse if (z > 0.501f)\n",
    "\t\t{\n",
    "\t\t\tfloat m = tan(z * ",
    "3.1415927f);\n"
  ]

  lemma DistLineLines8AreMarkerFree()
    ensures MarkerFree(Join(DistLineLines8))
  {
    JoinMarkerFree(DistLineLines8);
  }

  const DistLineLines9: seq<string> := [
    "\t\t\tfloat n = w - m * w;\n",
    "\t\t\tfloat c = (x + y * m - m * "
  ]

  lemma DistLineLines9AreMarkerFree()
    ensures MarkerFree(Join(DistLineLines9))
  {
    JoinMarkerFree(DistLineLines9);
  }

  const DistLineLines10: seq<string> := [
    "n) / (m * m + 1.0f);\n",
    "\t\t\tfloat dx = c - x;\n"
  ]

  lemma DistLineLines10AreMarkerFree()
    ensures MarkerFree(Join(DistLineLines10))
  {
    JoinMarkerFree(DistLineLines10);
  }

  const DistLineLines11: seq<string> := [
    "\t\t\tfloat dy = m * c + n - y;\n"
  ]

  lemma DistLineLines11AreMarkerFree()
    ensures MarkerFree(Join(DistLineLines11))
  {
    JoinMarkerFree(DistLineLines11);
  }

  const DistLineLines12: seq<string> := [
    "\t\t\treturn 0.70710678f * sqrt(dx ",
    "* dx + dy * dy);\n",
    "\t\t}\n"
  ]

  lemma DistLineLines12AreMarkerFree()
    ensures MarkerFree(Join(DistLineLines12))
  {
    JoinMarkerFree(DistLineLines12);
  }

  const DistLineLines13: seq<string> := [
    "\t\telse\n",
    "\t\t{\n",
    "\t\t\treturn 0.70710678f * abs(w - ",
    "x);\n",
    "\t\t}\n"
  ]

  lemma DistLineLines13AreMarkerFree()
    ensures MarkerFree(Join(DistLineLines13))
  {
    JoinMarkerFree(DistLineLines13);
  }

  const DistLineLines14: seq<string> := [
    "\t}\n"
  ]

  lemma DistLineLines14AreMarkerFree()
    ensures MarkerFree(Join(DistLineLines14))
  {
    JoinMarkerFree(DistLineLines14);
  }

  /** The lines of `fDistLine` through its first branch. */
  lemma DistLineHeadIsMarkerFree()
    ensures MarkerFree(Join(DistLineLines1) + Join(DistLineLines2) + Join(DistLineLines3) + Join(DistLineLines4) + Join(DistLineLines5) + Join(DistLineLines6) + Join(DistLineLines7))
  {
    DistLineLines1AreMarkerFree();
    DistLineLines2AreMarkerFree();
    DistLineLines3AreMarkerFree();
    DistLineLines4AreMarkerFree();
    DistLineLines5AreMarkerFree();
    DistLineLines6AreMarkerFree();
    DistLineLines7AreMarkerFree();
    MarkerFreeAppend(Join(DistLineLines1), Join(DistLineLines2));
    MarkerFreeAppend(Join(DistLineLines1) + Join(DistLineLines2), Join(DistLineLines3));
    MarkerFreeAppend(Join(DistLineLines1) + Join(DistLineLines2) + Join(DistLineLines3), Join(DistLineLines4));
    MarkerFreeAppend(Join(DistLineLines1) + Join(DistLineLines2) + Join(DistLineLines3) + Join(DistLineLines4), Join(DistLineLines5));
    MarkerFreeAppend(Join(DistLineLines1) + Join(DistLineLines2) + Join(DistLineLines3) + Join(DistLineLines4) + Join(DistLineLines5), Join(DistLineLines6));
    MarkerFreeAppend(Join(DistLineLines1) + Join(DistLineLines2) + Join(DistLineLines3) + Join(DistLineLines4) + Join(DistLineLines5) + Join(DistLineLines6), Join(DistLineLines7));
  }

  lemma DistLineIsMarkerFree()
    ensures MarkerFree(DistLineDefinition)
  {
    DistLineHeadIsMarkerFree();
    DistLineLines8AreMarkerFree();
    DistLineLines9AreMarkerFree();
    DistLineLines10AreMarkerFree();
    DistLineLines11AreMarkerFree();
    DistLineLines12AreMarkerFree();
    DistLineLines13AreMarkerFree();
    DistLineLines14AreMarkerFree();
    MarkerFreeAppend(Join(DistLineLines1) + Join(DistLineLines2) + Join(DistLineLines3) + Join(DistLineLines4) + Join(DistLineLines5) + Join(DistLineLines6) + Join(DistLineLines7), Join(DistLineLines8));
    MarkerFreeAppend(Join(DistLineLines1) + Join(DistLineLines2) + Join(DistLineLines3) + Join(DistLineLines4) + Join(DistLineLines5) + Join(DistLineLines6) + Join(DistLineLines7) + Join(DistLineLines8), Join(DistLineLines9));
    MarkerFreeAppend(Join(DistLineLines1) + Join(DistLineLines2) + Join(DistLineLines3) + Join(DistLineLines4) + Join(DistLineLines5) + Join(DistLineLines6) + Join(DistLineLines7) + Join(DistLineLines8) + Join(DistLineLines9), Join(DistLineLines10));
    MarkerFreeAppend(Join(DistLineLines1) + Join(DistLineLines2) + Join(DistLineLines3) + Join(DistLineLines4) + Join(DistLineLines5) + Join(DistLineLines6) + Join(DistLineLines7) + Join(DistLineLines8) + Join(DistLineLines9) + Join(DistLineLines10), Join(DistLineLines11));
    MarkerFreeAppend(Join(DistLineLines1) + Join(DistLineLines2) + Join(DistLineLines3) + Join(DistLineLines4) + Join(DistLineLines5) + Join(DistLineLines6) + Join(DistLineLines7) + Join(DistLineLines8) + Join(DistLineLines9) + Join(DistLineLines10) + Join(DistLineLines11), Join(DistLineLines12));
    MarkerFreeAppend(Join(DistLineLines1) + Join(DistLineLines2) + Join(DistLineLines3) + Join(DistLineLines4) + Join(DistLineLines5) + Join(DistLineLines6) + Join(DistLineLines7) + Join(DistLineLines8) + Join(DistLineLines9) + Join(DistLineLines10) + Join(DistLineLines11) + Join(DistLineLines12), Join(DistLineLines13));
    MarkerFreeAppend(Join(DistLineLines1) + Join(DistLineLines2) + Join(DistLineLines3) + Join(DistLineLines4) + Join(DistLineLines5) + Join(DistLineLines6) + Join(DistLineLines7) + Join(DistLineLines8) + Join(DistLineLines9) + Join(DistLineLines10) + Join(DistLineLines11) + Join(DistLineLines12) + Join(DistLineLines13), Join(DistLineLines14));
  }

  const Inv3Definition: string :=
    Join(Inv3Lines1) + Join(Inv3Lines2) + Join(Inv3Lines3) + Join(Inv3Lines4)

  const Inv3Lines1: seq<string> := [
    "\n",
    "\t// "
  ]

  lemma Inv3Lines1AreMarkerFree()
    ensures MarkerFree(Join(Inv3Lines1))
  {
    JoinMarkerFree(Inv3Lines1);
  }

  const Inv3Lines2: seq<string> := [
    "-------------------------------------\n"
  ]

  lemma Inv3Lines2AreMarkerFree()
    ensures MarkerFree(Join(Inv3Lines2))
  {
    JoinMarkerFree(Inv3Lines2);
  }

  const Inv3Lines3: seq<string> := [
    "\t// Masks\n",
    "\n",
    "\tfloat3 fInv3(float3 v)\n",
    "\t{\n"
  ]

  lemma Inv3Lines3AreMarkerFree()
    ensures MarkerFree(Join(Inv3Lines3))
  {
    JoinMarkerFree(Inv3Lines3);
  }

  const Inv3Lines4: seq<string> := [
    "\t\treturn float3(1.0f, 1.0f, ",
    "1.0f) - v;\n",
    "\t}\n"
  ]

  lemma Inv3Lines4AreMarkerFree()
    ensures MarkerFree(Join(Inv3Lines4))
  {
    JoinMarkerFree(Inv3Lines4);
  }

  lemma Inv3IsMarkerFree()
    ensures MarkerFree(Inv3Definition)
  {
    Inv3Lines1AreMarkerFree();
    Inv3Lines2AreMarkerFree();
    Inv3Lines3AreMarkerFree();
    Inv3Lines4AreMarkerFree();
    MarkerFreeAppend(Join(Inv3Lines1), Join(Inv3Lines2));
    MarkerFreeAppend(Join(Inv3Lines1) + Join(Inv3Lines2), Join(Inv3Lines3));
    MarkerFreeAppend(Join(Inv3Lines1) + Join(Inv3Lines2) + Join(Inv3Lines3), Join(Inv3Lines4));
  }

  const Add3Definition: string :=
    Join(Add3Lines1) + Join(Add3Lines2) + Join(Add3Lines3)

  const Add3Lines1: seq<string> := [
    "\n",
    "\tfloat3 fAdd3(float3 v, float ",
    "x)\n",
    "\t{\n"
  ]

  lemma Add3Lines1AreMarkerFree()
    ensures MarkerFree(Join(Add3Lines1))
  {
    JoinMarkerFree(Add3Lines1);
  }

  const Add3Lines2: seq<string> := [
    "\t\tfloat3 res = v + float3(x, x, ",
    "x);\n"
  ]

  lemma Add3Lines2AreMarkerFree()
    ensures MarkerFree(Join(Add3Lines2))
  {
    JoinMarkerFree(Add3Lines2);
  }

  const Add3Lines3: seq<string> := [
    "\t\treturn lerp(res, 2.0f - res, ",
    "step(1.0f, res));\n",
    "\t}\n"
  ]

  lemma Add3Lines3AreMarkerFree()
    ensures MarkerFree(Join(Add3Lines3))
  {
    JoinMarkerFree(Add3Lines3);
  }

  lemma Add3IsMarkerFree()
    ensures MarkerFree(Add3Definition)
  {
    Add3Lines1AreMarkerFree();
    Add3Lines2AreMarkerFree();
    Add3Lines3AreMarkerFree();
    MarkerFreeAppend(Join(Add3Lines1), Join(Add3Lines2));
    MarkerFreeAppend(Join(Add3Lines1) + Join(Add3Lines2), Join(Add3Lines3));
  }

  const Sub3Definition: string :=
    Join(Sub3Lines1) + Join(Sub3Lines2) + Join(Sub3Lines3)

  const Sub3Lines1: seq<string> := [
    "\t\n",
    "\tfloat3 fSub3(float3 v, float ",
    "x)\n",
    "\t{\n"
  ]

  lemma Sub3Lines1AreMarkerFree()
    ensures MarkerFree(Join(Sub3Lines1))
  {
    JoinMarkerFree(Sub3Lines1);
  }

  const Sub3Lines2: seq<string> := [
    "\t\tfloat3 res = v - float3(x, x, ",
    "x);\n"
  ]

  lemma Sub3Lines2AreMarkerFree()
    ensures MarkerFree(Join(Sub3Lines2))
  {
    JoinMarkerFree(Sub3Lines2);
  }

  const Sub3Lines3: seq<string> := [
    "\t\treturn lerp(-res, res, ",
    "step(0.0f, res));\n",
    "\t}\n",
    "\n",
    "\t"
  ]

  lemma Sub3Lines3AreMarkerFree()
    ensures MarkerFree(Join(Sub3Lines3))
  {
    JoinMarkerFree(Sub3Lines3);
  }

  lemma Sub3IsMarkerFree()
    ensures MarkerFree(Sub3Definition)
  {
    Sub3Lines1AreMarkerFree();
    Sub3Lines2AreMarkerFree();
    Sub3Lines3AreMarkerFree();
    MarkerFreeAppend(Join(Sub3Lines1), Join(Sub3Lines2));
    MarkerFreeAppend(Join(Sub3Lines1) + Join(Sub3Lines2), Join(Sub3Lines3));
  }
}
