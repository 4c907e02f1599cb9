/**
 * The reports of the LoRA information nodes as values: the ten lines of
 * the single-LoRA report, with a sign-driven effect line per strength, and
 * the lines of the multi-LoRA report, one block per active slot among
 * slots 1 to 3, followed by a count line (or the no-LoRA line when no slot
 * is active) and the closing rule.
 */
module LoraReport {
  import opened Text
  import opened Fixed
  import Paths
  import Seqs
  import opened Wrappers

  // ---------------------------------------------------------------------------
  // Single LoRA report
  // ---------------------------------------------------------------------------

  /** The effect line for one strength: positive, negative, or no effect. */
  function EffectLine(target: string, strength: real): string
  {
    if strength != 0.0 then
      if strength > 0.0 then "✓ LoRA 对 " + target + " 有正向作用 (强度: " + Fmt2(strength) + ")"
      else "✓ LoRA 对 " + target + " 有负向作用 (强度: " + Fmt2(strength) + ")"
    else "○ LoRA 对 " + target + " 无作用"
  }

  function PositivePrefix(target: string): string { "✓ LoRA 对 " + target + " 有正向作用" }
  function NegativePrefix(target: string): string { "✓ LoRA 对 " + target + " 有负向作用" }
  function NoEffectLine(target: string): string { "○ LoRA 对 " + target + " 无作用" }
  function Quoted(strength: real): string { " (强度: " + Fmt2(strength) + ")" }

  lemma PrefixesDiffer(target: string)
    ensures !StartsWith(PositivePrefix(target), NegativePrefix(target))
    ensures !StartsWith(NegativePrefix(target), PositivePrefix(target))
    ensures PositivePrefix(target)[0] == '✓' && NegativePrefix(target)[0] == '✓' && NoEffectLine(target)[0] == '○'
  {
    var pre := "✓ LoRA 对 " + target + " 有";
    assert PositivePrefix(target) == pre + "正向作用";
    assert NegativePrefix(target) == pre + "负向作用";
    assert PositivePrefix(target)[|pre|] == '正';
    assert NegativePrefix(target)[|pre|] == '负';
  }

  lemma SignedEffectLine(target: string, strength: real)
    requires strength != 0.0
    ensures EffectLine(target, strength)
         == (if strength > 0.0 then PositivePrefix(target) else NegativePrefix(target)) + Quoted(strength)
  {
  }

  /**
   * The effect line is classified by the sign of the strength alone: the
   * positive text exactly when it is above zero, the negative text exactly
   * when below, the no-effect text exactly when zero; a non-zero strength
   * is quoted with two decimals.
   */
  lemma EffectLineBySign(target: string, strength: real)
    ensures StartsWith(EffectLine(target, strength), PositivePrefix(target)) <==> strength > 0.0
    ensures StartsWith(EffectLine(target, strength), NegativePrefix(target)) <==> strength < 0.0
    ensures EffectLine(target, strength) == NoEffectLine(target) <==> strength == 0.0
    ensures strength != 0.0 ==> EndsWith(EffectLine(target, strength), Quoted(strength))
  {
    var line := EffectLine(target, strength);
    PrefixesDiffer(target);
    if strength != 0.0 {
      SignedEffectLine(target, strength);
      var prefix := if strength > 0.0 then PositivePrefix(target) else NegativePrefix(target);
      var other := if strength > 0.0 then NegativePrefix(target) else PositivePrefix(target);
      AppendEnds(prefix, Quoted(strength));
      assert |other| == |prefix|;
      assert line[..|other|] == prefix;
      assert line[0] == '✓';
    } else {
      assert line == NoEffectLine(target);
      assert |line| < |PositivePrefix(target)| && |line| < |NegativePrefix(target)|;
    }
  }

  /** The eight lines before the effect lines: frame, title, frame, name, path, both strengths, frame. */
  function ReportHead(loraName: string, strengthModel: real, strengthClip: real): seq<string>
  {
    [ Rule, "LoRA 信息", Rule,
      "LoRA 名称: " + Paths.BaseName(loraName),
      "完整路径: " + loraName,
      "Model 强度: " + Fmt2(strengthModel),
      "CLIP 强度: " + Fmt2(strengthClip),
      Rule ]
  }

  /** The ten report lines: the head, then the model's effect line before the clip's. */
  function ReportLines(loraName: string, strengthModel: real, strengthClip: real): (r: seq<string>)
    ensures |r| == 10
  {
    ReportHead(loraName, strengthModel, strengthClip) + [EffectLine("Model", strengthModel), EffectLine("CLIP", strengthClip)]
  }

  lemma EffectLineSingle(target: string, strength: real)
    requires '\n' !in target
    ensures '\n' !in EffectLine(target, strength)
  {
    AppendAvoids("✓ LoRA 对 ", target, '\n');
    AppendAvoids("○ LoRA 对 ", target, '\n');
    AppendAvoids("○ LoRA 对 " + target, " 无作用", '\n');
    if strength != 0.0 {
      var head := if strength > 0.0 then "✓ LoRA 对 " + target + " 有正向作用 (强度: " else "✓ LoRA 对 " + target + " 有负向作用 (强度: ";
      AppendAvoids("✓ LoRA 对 " + target, if strength > 0.0 then " 有正向作用 (强度: " else " 有负向作用 (强度: ", '\n');
      Fmt2SingleLine(strength);
      AppendAvoids(head, Fmt2(strength), '\n');
      AppendAvoids(head + Fmt2(strength), ")", '\n');
    }
  }

  /**
   * When the path holds no line break, splitting the report at line breaks
   * gives back exactly the ten lines: the report has exactly that layout.
   */
  lemma ReportSplitsIntoLines(loraName: string, strengthModel: real, strengthClip: real)
    requires '\n' !in loraName
    ensures Split(Join(ReportLines(loraName, strengthModel, strengthClip), "\n"), '\n')
         == ReportLines(loraName, strengthModel, strengthClip)
  {
    ReportLinesSingle(loraName, strengthModel, strengthClip);
    assert "\n" == ['\n'];
    SplitJoin(ReportLines(loraName, strengthModel, strengthClip), '\n');
  }

  lemma ReportLinesSingle(loraName: string, strengthModel: real, strengthClip: real)
    requires '\n' !in loraName
    ensures forall k :: 0 <= k < 10 ==> '\n' !in ReportLines(loraName, strengthModel, strengthClip)[k]
  {
    var lines := ReportLines(loraName, strengthModel, strengthClip);
    Paths.BaseNameAvoids(loraName, '\n');
    AppendAvoids("LoRA 名称: ", Paths.BaseName(loraName), '\n');
    AppendAvoids("完整路径: ", loraName, '\n');
    Fmt2SingleLine(strengthModel);
    Fmt2SingleLine(strengthClip);
    AppendAvoids("Model 强度: ", Fmt2(strengthModel), '\n');
    AppendAvoids("CLIP 强度: ", Fmt2(strengthClip), '\n');
    EffectLineSingle("Model", strengthModel);
    EffectLineSingle("CLIP", strengthClip);
    forall k | 0 <= k < 10 ensures '\n' !in lines[k] {
      if k == 0 || k == 2 || k == 7 {
        assert lines[k] == Rule;
      }
    }
  }

  // ---------------------------------------------------------------------------
  // Multi LoRA report
  // ---------------------------------------------------------------------------

  /** The slots the multi node reads: 1, 2 and 3. */
  const SlotCount: nat := 3

  /** `f"lora_{i}{suffix}"`. */
  function SlotKey(i: nat, suffix: string): string
  {
    "lora_" + NatToString(i) + suffix
  }

  /** `kwargs.get(key, 1.0)` for a strength. */
  function StrengthOf(strengths: map<string, real>, key: string): real
  {
    if key in strengths then strengths[key] else 1.0
  }

  /** What the node reads for one slot: its name argument when given, and both strengths. */
  datatype SlotArgs = SlotArgs(name: Option<string>, strengthModel: real, strengthClip: real)

  /** The arguments of slot i, looked up under its three keys. */
  function ReadSlot(names: map<string, string>, strengths: map<string, real>, i: nat): SlotArgs
  {
    var key := SlotKey(i, "_name");
    SlotArgs(if key in names then Some(names[key]) else None,
             StrengthOf(strengths, SlotKey(i, "_strength_model")),
             StrengthOf(strengths, SlotKey(i, "_strength_clip")))
  }

  /** The arguments of slots 1 to 3, in slot order. */
  function SlotArgsOf(names: map<string, string>, strengths: map<string, real>): seq<SlotArgs>
  {
    seq(SlotCount, j requires 0 <= j < SlotCount => ReadSlot(names, strengths, j + 1))
  }

  /** A slot takes part when its name argument is given and is not `"None"`. */
  predicate Active(s: SlotArgs)
  {
    s.name.Some? && s.name.value != "None"
  }

  /** The name argument of slot i is given and is not `"None"`, read directly from the arguments. */
  predicate NameGiven(names: map<string, string>, i: nat)
  {
    SlotKey(i, "_name") in names && names[SlotKey(i, "_name")] != "None"
  }

  /** The four lines of active slot number i. */
  function SlotLines(s: SlotArgs, i: nat): seq<string>
    requires Active(s)
  {
    [ "\nLoRA " + NatToString(i) + ":",
      "  名称: " + Paths.BaseName(s.name.value),
      "  Model 强度: " + Fmt2(s.strengthModel),
      "  CLIP 强度: " + Fmt2(s.strengthClip) ]
  }

  /** The numbers of the active slots among the first k, in increasing order. */
  function ActiveSlots(slots: seq<SlotArgs>, k: nat): (r: seq<nat>)
    requires k <= |slots|
    ensures |r| <= k
    ensures forall j :: 0 <= j < |r| ==> 1 <= r[j] <= k && Active(slots[r[j] - 1])
  {
    if k == 0 then [] else ActiveSlots(slots, k - 1) + (if Active(slots[k - 1]) then [k] else [])
  }

  /** The active slots among the first k are exactly those, each once, in increasing order. */
  lemma {:induction false} ActiveSlotsExact(slots: seq<SlotArgs>, k: nat)
    requires k <= |slots|
    ensures forall j, l :: 0 <= j < l < |ActiveSlots(slots, k)| ==> ActiveSlots(slots, k)[j] < ActiveSlots(slots, k)[l]
    ensures forall i :: 1 <= i <= k && Active(slots[i - 1]) ==> i in ActiveSlots(slots, k)
  {
    if k > 0 {
      ActiveSlotsExact(slots, k - 1);
      var prev := ActiveSlots(slots, k - 1);
      var r := ActiveSlots(slots, k);
      if Active(slots[k - 1]) {
        assert r == prev + [k];
        assert r[|prev|] == k;
        assert forall j :: 0 <= j < |prev| ==> r[j] == prev[j];
      } else {
        assert r == prev;
      }
    }
  }

  /** The name arguments of the active slots among the first k, in slot order. */
  function ActiveRawNames(slots: seq<SlotArgs>, k: nat): seq<string>
    requires k <= |slots|
  {
    if k == 0 then []
    else ActiveRawNames(slots, k - 1) + (if Active(slots[k - 1]) then [slots[k - 1].name.value] else [])
  }

  /** The base name of each path, in order. */
  function BaseNames(paths: seq<string>): (r: seq<string>)
    ensures |r| == |paths|
  {
    if |paths| == 0 then [] else BaseNames(paths[..|paths| - 1]) + [Paths.BaseName(paths[|paths| - 1])]
  }

  lemma BaseNamesSnoc(paths: seq<string>, p: string)
    ensures BaseNames(paths + [p]) == BaseNames(paths) + [Paths.BaseName(p)]
  {
    assert (paths + [p])[..|paths|] == paths;
  }

  lemma {:induction false} BaseNamesAt(paths: seq<string>, j: nat)
    requires j < |paths|
    ensures BaseNames(paths)[j] == Paths.BaseName(paths[j])
  {
    if j < |paths| - 1 {
      BaseNamesAt(paths[..|paths| - 1], j);
    }
  }

  /** The base names of the active slots among the first k, in slot order. */
  function ActiveNames(slots: seq<SlotArgs>, k: nat): seq<string>
    requires k <= |slots|
  {
    BaseNames(ActiveRawNames(slots, k))
  }

  /** The lines of the active slots among the first k, in slot order. */
  function SlotsLines(slots: seq<SlotArgs>, k: nat): seq<string>
    requires k <= |slots|
  {
    if k == 0 then []
    else SlotsLines(slots, k - 1) + (if Active(slots[k - 1]) then SlotLines(slots[k - 1], k) else [])
  }

  /** The name arguments collected are those of the active slots, one per slot, in slot order. */
  lemma {:induction false} ActiveRawNamesInSlotOrder(slots: seq<SlotArgs>, k: nat)
    requires k <= |slots|
    ensures |ActiveRawNames(slots, k)| == |ActiveSlots(slots, k)|
    ensures forall j :: 0 <= j < |ActiveSlots(slots, k)| ==>
      ActiveRawNames(slots, k)[j] == slots[ActiveSlots(slots, k)[j] - 1].name.value
  {
    if k > 0 {
      ActiveRawNamesInSlotOrder(slots, k - 1);
      var nums, prevNums := ActiveSlots(slots, k), ActiveSlots(slots, k - 1);
      var list, prevList := ActiveRawNames(slots, k), ActiveRawNames(slots, k - 1);
      if Active(slots[k - 1]) {
        assert nums == prevNums + [k] && list == prevList + [slots[k - 1].name.value];
        forall j | 0 <= j < |nums| ensures list[j] == slots[nums[j] - 1].name.value {
          if j < |prevNums| {
            assert nums[j] == prevNums[j] && list[j] == prevList[j];
          }
        }
      } else {
        assert nums == prevNums && list == prevList;
      }
    }
  }

  /** The collected names are the base names of the active slots' name arguments, one per slot, in slot order. */
  lemma ActiveNamesInSlotOrder(slots: seq<SlotArgs>, k: nat)
    requires k <= |slots|
    ensures |ActiveNames(slots, k)| == |ActiveSlots(slots, k)|
    ensures forall j :: 0 <= j < |ActiveSlots(slots, k)| ==>
      ActiveNames(slots, k)[j] == Paths.BaseName(slots[ActiveSlots(slots, k)[j] - 1].name.value)
  {
    ActiveRawNamesInSlotOrder(slots, k);
    var raw := ActiveRawNames(slots, k);
    forall j | 0 <= j < |raw| ensures BaseNames(raw)[j] == Paths.BaseName(raw[j]) {
      BaseNamesAt(raw, j);
    }
  }

  /** No name is collected exactly when none of the first k slots is active. */
  lemma {:induction false} ActiveNamesEmpty(slots: seq<SlotArgs>, k: nat)
    requires k <= |slots|
    ensures |ActiveNames(slots, k)| == 0 <==> forall i :: 0 <= i < k ==> !Active(slots[i])
  {
    if k > 0 {
      ActiveNamesEmpty(slots, k - 1);
      assert |ActiveRawNames(slots, k - 1)| <= |ActiveRawNames(slots, k)|;
    }
  }

  /** Every active slot contributes four lines. */
  lemma {:induction false} SlotsLinesLength(slots: seq<SlotArgs>, k: nat)
    requires k <= |slots|
    ensures |SlotsLines(slots, k)| == 4 * |ActiveSlots(slots, k)|
  {
    if k > 0 {
      SlotsLinesLength(slots, k - 1);
    }
  }

  /** `lora_names`: the names joined with ", ", or "无" when there are none. */
  function NamesText(list: seq<string>): string
  {
    if |list| == 0 then "无" else Join(list, ", ")
  }

  /** The closing count line. */
  function Footer(count: nat): string
  {
    if count == 0 then "\n未配置任何 LoRA" else "\n总计: " + NatToString(count) + " 个 LoRA"
  }

  function MultiHeader(): seq<string>
  {
    [Rule, "多 LoRA 信息", Rule]
  }

  /** The full multi report: header, the active slots' blocks, the count line, the closing frame. */
  function MultiReportLines(names: map<string, string>, strengths: map<string, real>): seq<string>
  {
    var slots := SlotArgsOf(names, strengths);
    MultiHeader() + SlotsLines(slots, SlotCount) + [Footer(|ActiveNames(slots, SlotCount)|), Rule]
  }

  /** Slot i is active exactly when its name argument is given and is not "None". */
  lemma SlotActiveIff(names: map<string, string>, strengths: map<string, real>, i: nat)
    requires 1 <= i <= SlotCount
    ensures Active(SlotArgsOf(names, strengths)[i - 1]) <==> NameGiven(names, i)
  {
    assert SlotArgsOf(names, strengths)[i - 1] == ReadSlot(names, strengths, i);
  }

  /**
   * At most three names are collected; none exactly when no slot's name
   * argument is given as anything but "None"; the count line states the
   * number of active slots.
   */
  lemma MultiNames(names: map<string, string>, strengths: map<string, real>)
    ensures |ActiveNames(SlotArgsOf(names, strengths), SlotCount)| <= 3
    ensures |ActiveNames(SlotArgsOf(names, strengths), SlotCount)| == 0
        <==> !NameGiven(names, 1) && !NameGiven(names, 2) && !NameGiven(names, 3)
    ensures var slots := SlotArgsOf(names, strengths);
      Footer(|ActiveNames(slots, SlotCount)|) ==
        (if |ActiveSlots(slots, SlotCount)| == 0 then "\n未配置任何 LoRA"
         else "\n总计: " + NatToString(|ActiveSlots(slots, SlotCount)|) + " 个 LoRA")
  {
    var slots := SlotArgsOf(names, strengths);
    ActiveNamesInSlotOrder(slots, SlotCount);
    ActiveNamesEmpty(slots, SlotCount);
    SlotActiveIff(names, strengths, 1);
    SlotActiveIff(names, strengths, 2);
    SlotActiveIff(names, strengths, 3);
  }

  /** The multi report opens with the framed title and closes with the frame line. */
  lemma MultiFrame(names: map<string, string>, strengths: map<string, real>)
    ensures StartsWith(Join(MultiReportLines(names, strengths), "\n"), Rule + "\n" + "多 LoRA 信息" + "\n" + Rule)
    ensures EndsWith(Join(MultiReportLines(names, strengths), "\n"), Rule)
    ensures |MultiReportLines(names, strengths)| == 5 + 4 * |ActiveSlots(SlotArgsOf(names, strengths), SlotCount)|
  {
    var slots := SlotArgsOf(names, strengths);
    var lines := SlotsLines(slots, SlotCount);
    var tail := [Footer(|ActiveNames(slots, SlotCount)|), Rule];
    SlotsLinesLength(slots, SlotCount);
    Seqs.AppendAssoc(MultiHeader(), lines, tail);
    FramedJoin(Rule, "多 LoRA 信息", lines + tail, "\n");
  }
}
