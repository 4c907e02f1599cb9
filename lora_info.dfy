/**
 * The three LoRA information nodes.  Each builds its report by appending
 * lines one at a time and hands the model and clip objects back untouched.
 */
module LoraInfo {
  import opened Text
  import opened Fixed
  import opened LoraReport
  import Seqs
  import Paths

  /** The effect line as the node chooses it: by `!= 0`, then by `> 0`. */
  method EffectText(target: string, strength: real) returns (line: string)
    ensures line == EffectLine(target, strength)
    ensures StartsWith(line, PositivePrefix(target)) <==> strength > 0.0
    ensures StartsWith(line, NegativePrefix(target)) <==> strength < 0.0
    ensures line == "○ LoRA 对 " + target + " 无作用" <==> strength == 0.0
  {
    if strength != 0.0 {
      if strength > 0.0 {
        line := "✓ LoRA 对 " + target + " 有正向作用 (强度: " + Fmt2(strength) + ")";
      } else {
        line := "✓ LoRA 对 " + target + " 有负向作用 (强度: " + Fmt2(strength) + ")";
      }
    } else {
      line := "○ LoRA 对 " + target + " 无作用";
    }
    EffectLineBySign(target, strength);
  }

  /**
   * `get_lora_info_simple`: the base name of the LoRA file and the report,
   * built line by line.
   */
  method GetLoraInfoSimple(loraName: string, strengthModel: real, strengthClip: real)
    returns (loraBaseName: string, loraInfo: string)
    ensures loraBaseName == Paths.BaseName(loraName)
    ensures loraInfo == Join(ReportLines(loraName, strengthModel, strengthClip), "\n")
  {
    loraBaseName := Paths.BaseName(loraName);
    var infoLines: seq<string> := [];
    infoLines := infoLines + [Rule];
    infoLines := infoLines + ["LoRA 信息"];
    infoLines := infoLines + [Rule];
    infoLines := infoLines + ["LoRA 名称: " + loraBaseName];
    infoLines := infoLines + ["完整路径: " + loraName];
    infoLines := infoLines + ["Model 强度: " + Fmt2(strengthModel)];
    infoLines := infoLines + ["CLIP 强度: " + Fmt2(strengthClip)];
    infoLines := infoLines + [Rule];
    Seqs.AppendEight(Rule, "LoRA 信息", Rule, "LoRA 名称: " + loraBaseName, "完整路径: " + loraName,
      "Model 强度: " + Fmt2(strengthModel), "CLIP 强度: " + Fmt2(strengthClip), Rule);
    ghost var head := infoLines;
    var modelLine := EffectText("Model", strengthModel);
    infoLines := infoLines + [modelLine];
    var clipLine := EffectText("CLIP", strengthClip);
    infoLines := infoLines + [clipLine];
    Seqs.AppendTwo(head, modelLine, clipLine);
    loraInfo := Join(infoLines, "\n");
  }

  /**
   * `get_lora_info`: the same name and report as the simple node for the
   * same inputs, with model and clip handed back unchanged.
   */
  method GetLoraInfo<M, C>(model: M, clip: C, loraName: string, strengthModel: real, strengthClip: real)
    returns (modelOut: M, clipOut: C, loraBaseName: string, loraInfo: string)
    ensures modelOut == model && clipOut == clip
    ensures loraBaseName == Paths.BaseName(loraName)
    ensures loraInfo == Join(ReportLines(loraName, strengthModel, strengthClip), "\n")
  {
    loraBaseName, loraInfo := GetLoraInfoSimple(loraName, strengthModel, strengthClip);
    modelOut, clipOut := model, clip;
  }

  /**
   * `get_multi_lora_info`: visits slots 1, 2, 3 in order, collecting the
   * base name and the four lines of each active slot, then adds the count
   * line and the closing frame; model and clip pass through.
   */
  method GetMultiLoraInfo<M, C>(model: M, clip: C, names: map<string, string>, strengths: map<string, real>)
    returns (modelOut: M, clipOut: C, loraNames: string, loraInfo: string)
    ensures modelOut == model && clipOut == clip
    ensures loraNames == NamesText(ActiveNames(SlotArgsOf(names, strengths), SlotCount))
    ensures loraInfo == Join(MultiReportLines(names, strengths), "\n")
  {
    var loraList: seq<string> := [];
    var infoLines: seq<string> := [];
    infoLines := infoLines + [Rule];
    infoLines := infoLines + ["多 LoRA 信息"];
    infoLines := infoLines + [Rule];
    Seqs.AppendThree(Rule, "多 LoRA 信息", Rule);
    Seqs.AppendNil(MultiHeader());
    ghost var slots := SlotArgsOf(names, strengths);
    for i := 1 to SlotCount + 1
      invariant loraList == BaseNames(ActiveRawNames(slots, i - 1))
      invariant infoLines == MultiHeader() + SlotsLines(slots, i - 1)
    {
      var loraNameKey := SlotKey(i, "_name");
      var strengthModelKey := SlotKey(i, "_strength_model");
      var strengthClipKey := SlotKey(i, "_strength_clip");
      assert slots[i - 1] == ReadSlot(names, strengths, i);
      if loraNameKey in names && names[loraNameKey] != "None" {
        var loraName := names[loraNameKey];
        var strengthModel := if strengthModelKey in strengths then strengths[strengthModelKey] else 1.0;
        var strengthClip := if strengthClipKey in strengths then strengths[strengthClipKey] else 1.0;
        var loraBaseName := Paths.BaseName(loraName);
        assert Active(slots[i - 1]) && slots[i - 1].name.value == loraName;
        assert ActiveRawNames(slots, i) == ActiveRawNames(slots, i - 1) + [loraName];
        BaseNamesSnoc(ActiveRawNames(slots, i - 1), loraName);
        loraList := loraList + [loraBaseName];
        ghost var before := infoLines;
        var header := "\nLoRA " + NatToString(i) + ":";
        var nameLine := "  名称: " + loraBaseName;
        var modelLine := "  Model 强度: " + Fmt2(strengthModel);
        var clipLine := "  CLIP 强度: " + Fmt2(strengthClip);
        infoLines := infoLines + [header];
        infoLines := infoLines + [nameLine];
        infoLines := infoLines + [modelLine];
        infoLines := infoLines + [clipLine];
        Seqs.AppendFour(before, header, nameLine, modelLine, clipLine);
        Seqs.AppendAssoc(MultiHeader(), SlotsLines(slots, i - 1), [header, nameLine, modelLine, clipLine]);
      } else {
        assert !Active(slots[i - 1]);
        assert ActiveRawNames(slots, i) == ActiveRawNames(slots, i - 1);
        assert SlotsLines(slots, i) == SlotsLines(slots, i - 1);
      }
    }
    ghost var body := infoLines;
    if |loraList| == 0 {
      infoLines := infoLines + ["\n未配置任何 LoRA"];
      loraNames := "无";
    } else {
      loraNames := Join(loraList, ", ");
      infoLines := infoLines + ["\n总计: " + NatToString(|loraList|) + " 个 LoRA"];
    }
    infoLines := infoLines + [Rule];
    Seqs.AppendTwo(body, Footer(|loraList|), Rule);
    loraInfo := Join(infoLines, "\n");
    modelOut, clipOut := model, clip;
  }
}
