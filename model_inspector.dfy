/**
 * The model inspector node.  The inspected object is abstracted as what
 * reflection shows of it: the rendering of its type, its class name, the
 * names `dir()` lists (in that order) and, for each name, what `getattr`
 * yields — a value of a known shape, or an exception.  The node hands the
 * object back untouched together with a report built line by line.
 */
module ModelInspector {
  import opened Text
  import Seqs

  /** A dictionary key: `str(k)` and `repr(k)`. */
  datatype Key = Key(text: string, repr: string)

  /**
   * An attribute value as the report sees it: an instance of `str`, `int`,
   * `float` or `bool`; a `list`; a `dict` with its keys in insertion order;
   * or anything else.  `typeName` is `type(value).__name__` and `text` is
   * `str(value)`.
   */
  datatype Value =
    | Plain(typeName: string, text: string)
    | ListOf(typeName: string, text: string)
    | DictOf(typeName: string, text: string, keys: seq<Key>)
    | Opaque(typeName: string)

  /** `AttributeError`, which `hasattr` absorbs, or any other exception, which it lets through. */
  datatype ErrorKind = AttributeError | OtherException

  /** The outcome of `getattr(model, name)`: a value, or an exception with its `str(e)`. */
  datatype Access = Ok(value: Value) | Raises(error: ErrorKind, message: string)

  /**
   * The inspected object: `str(type(model))`, `model.__class__.__name__`,
   * `dir(model)` and the attributes `getattr` can resolve.
   */
  datatype ModelObject = ModelObject(typeText: string, className: string, names: seq<string>, attributes: map<string, Access>)

  /** What the node returns: the model and the report, or the exception that escaped. */
  datatype Outcome = Returned(model: ModelObject, inspectionInfo: string) | Raised(message: string)

  /** The outcome of the common-attribute section: its lines, or the exception that escaped `hasattr`. */
  datatype Common = Lines(lines: seq<string>) | Raise(message: string)

  const Dashes := Repeat('-', 60)
  const ReportTitle := "Model对象检查报告"

  /** The attributes the node probes in its last section, in this order. */
  const CommonNames: seq<string> := ["model", "model_config", "model_options", "patches", "patches_list"]

  /** `getattr(model, name)`: a missing attribute raises `AttributeError` with Python's standard message. */
  function Lookup(obj: ModelObject, name: string): (r: Access)
    ensures name !in obj.attributes ==> r.Raises? && r.error == AttributeError
  {
    if name in obj.attributes then obj.attributes[name]
    else Raises(AttributeError, "'" + obj.className + "' object has no attribute '" + name + "'")
  }

  /** An exception that `hasattr` does not absorb. */
  predicate Escapes(a: Access)
  {
    a.Raises? && a.error == OtherException
  }

  /** A name shown in the full listing: it does not start with `__`. */
  predicate Visible(name: string)
  {
    !StartsWith(name, "__")
  }

  /** `word in name.lower()`. */
  predicate Mentions(name: string, word: string)
  {
    Contains(Lower(name), word)
  }

  /** The names of the full listing, in `dir()` order. */
  function VisibleNames(names: seq<string>): (r: seq<string>)
    ensures forall n :: n in r <==> n in names && Visible(n)
  {
    Seqs.Filter(names, Visible)
  }

  /** `[attr for attr in attrs if word in attr.lower()]`, over every name `dir()` gives. */
  function MatchingNames(names: seq<string>, word: string): (r: seq<string>)
    ensures |r| <= |names|
    ensures forall n :: n in r <==> n in names && Mentions(n, word)
  {
    Seqs.Filter(names, n => Mentions(n, word))
  }

  /** `[k for k in d.keys() if 'lora' in str(k).lower()]`. */
  function LoraKeys(keys: seq<Key>): (r: seq<Key>)
    ensures forall k :: k in r <==> k in keys && Mentions(k.text, "lora")
  {
    Seqs.Filter(keys, (k: Key) => Mentions(k.text, "lora"))
  }

  /** `str(keys)` for a list of keys: their reprs, comma-separated, in brackets. */
  function KeyList(keys: seq<Key>): (r: string)
    ensures StartsWith(r, "[") && EndsWith(r, "]")
  {
    var body := Join(seq(|keys|, i requires 0 <= i < |keys| => keys[i].repr), ", ");
    AppendEnds("[" + body, "]");
    AppendEnds("[", body);
    assert ("[" + body + "]")[..1] == ("[" + body)[..1];
    "[" + body + "]"
  }

  /** A line of the full listing: value and type for plain values, the type otherwise. */
  function ListingLine(name: string, a: Access): string
  {
    match a
    case Ok(Plain(t, text)) => "  " + name + ": " + text + " (" + t + ")"
    case Ok(v) => "  " + name + ": <" + v.typeName + ">"
    case Raises(_, m) => "  " + name + ": <无法访问: " + m + ">"
  }

  /** A line of a match section: `str(value)` for plain values, lists and dicts, the type otherwise. */
  function DetailLine(name: string, a: Access): string
  {
    match a
    case Ok(Opaque(t)) => "  " + name + ": <" + t + ">"
    case Ok(v) => "  " + name + ": " + v.text
    case Raises(_, m) => "  " + name + ": <无法访问: " + m + ">"
  }

  /** The lines the full-listing loop appends for the names it has visited. */
  function AttributeLines(obj: ModelObject, names: seq<string>): seq<string>
  {
    if |names| == 0 then []
    else
      var last := names[|names| - 1];
      AttributeLines(obj, names[..|names| - 1]) + (if Visible(last) then [ListingLine(last, Lookup(obj, last))] else [])
  }

  /** The lines a match-section loop appends: one per name, in order. */
  function DetailLines(obj: ModelObject, names: seq<string>): (r: seq<string>)
    ensures |r| == |names|
    ensures forall j :: 0 <= j < |names| ==> r[j] == DetailLine(names[j], Lookup(obj, names[j]))
  {
    if |names| == 0 then []
    else
      var last := names[|names| - 1];
      DetailLines(obj, names[..|names| - 1]) + [DetailLine(last, Lookup(obj, last))]
  }

  function CountLine(n: nat): string
  {
    "找到 " + NatToString(n) + " 个可能相关的属性:"
  }

  function NoneLine(word: string): string
  {
    "未找到包含'" + word + "'的属性"
  }

  /** A match section after its heading: the count and one line per match, or the not-found line. */
  function MatchLines(obj: ModelObject, matches: seq<string>, word: string): seq<string>
  {
    if |matches| > 0 then [CountLine(|matches|)] + DetailLines(obj, matches) else [NoneLine(word)]
  }

  /** The three heading lines of a section. */
  function SectionHead(title: string): seq<string>
  {
    ["\n" + Dashes, title, Dashes]
  }

  /** The lines for one common attribute that is present: its type, then the lora keys of a dict if it has any. */
  function CommonEntry(name: string, v: Value): (r: seq<string>)
    ensures 1 <= |r| <= 2
    ensures r[0] == "  " + name + ": <" + v.typeName + ">"
    ensures |r| == 2 <==> v.DictOf? && exists k :: k in v.keys && Mentions(k.text, "lora")
  {
    var typeLine := "  " + name + ": <" + v.typeName + ">";
    if v.DictOf? && |LoraKeys(v.keys)| > 0 then
      [typeLine, "    包含lora相关的键: " + KeyList(LoraKeys(v.keys))]
    else
      [typeLine]
  }

  /** The common-attribute loop over the names it has visited. */
  function CommonLines(obj: ModelObject, names: seq<string>): Common
  {
    if |names| == 0 then Lines([])
    else
      var last := names[|names| - 1];
      match CommonLines(obj, names[..|names| - 1])
      case Raise(m) => Raise(m)
      case Lines(ls) =>
        match Lookup(obj, last)
        case Raises(OtherException, m) => Raise(m)
        case Raises(AttributeError, _) => Lines(ls)
        case Ok(v) => Lines(ls + CommonEntry(last, v))
  }

  /** The common attributes `hasattr` confirms, in order. */
  function PresentNames(obj: ModelObject, names: seq<string>): (r: seq<string>)
    ensures |r| <= |names|
    ensures forall n :: n in r <==> n in names && Lookup(obj, n).Ok?
  {
    if |names| == 0 then []
    else
      var last := names[|names| - 1];
      PresentNames(obj, names[..|names| - 1]) + (if Lookup(obj, last).Ok? then [last] else [])
  }

  /** names[k] is the first name whose lookup raises an exception that `hasattr` lets through. */
  predicate FirstEscape(obj: ModelObject, names: seq<string>, k: int)
  {
    0 <= k < |names| && Escapes(Lookup(obj, names[k]))
    && forall j :: 0 <= j < k ==> !Escapes(Lookup(obj, names[j]))
  }

  /** The report's lines, given the lines of the common-attribute section. */
  function ReportLines(obj: ModelObject, common: seq<string>): seq<string>
  {
    [Rule, ReportTitle, Rule, "\n对象类型: " + obj.typeText, "对象类名: " + obj.className]
    + SectionHead("所有属性 (dir()):")
    + AttributeLines(obj, obj.names)
    + SectionHead("LoRA相关信息检查:")
    + MatchLines(obj, MatchingNames(obj.names, "lora"), "lora")
    + SectionHead("名称相关信息检查:")
    + MatchLines(obj, MatchingNames(obj.names, "name"), "name")
    + SectionHead("常见属性检查:")
    + common
    + ["\n" + Rule]
  }

  /** What `inspect_model` returns for an object. */
  function Inspect(obj: ModelObject): Outcome
  {
    match CommonLines(obj, CommonNames)
    case Raise(m) => Raised(m)
    case Lines(common) => Returned(obj, Join(ReportLines(obj, common), "\n"))
  }

  /** `inspect_model`: appends the report line by line, then joins it with newlines. */
  method InspectModel(model: ModelObject) returns (r: Outcome)
    ensures r == Inspect(model)
  {
    var infoLines: seq<string> := [];
    infoLines := infoLines + [Rule];
    infoLines := infoLines + [ReportTitle];
    infoLines := infoLines + [Rule];
    infoLines := infoLines + ["\n对象类型: " + model.typeText];
    infoLines := infoLines + ["对象类名: " + model.className];
    Seqs.AppendFive(Rule, ReportTitle, Rule, "\n对象类型: " + model.typeText, "对象类名: " + model.className);

    ghost var before := infoLines;
    infoLines := infoLines + ["\n" + Dashes];
    infoLines := infoLines + ["所有属性 (dir()):"];
    infoLines := infoLines + [Dashes];
    Seqs.AppendThreeTo(before, "\n" + Dashes, "所有属性 (dir()):", Dashes);

    var attrs := model.names;
    infoLines := ReportAttributes(model, infoLines);

    before := infoLines;
    infoLines := infoLines + ["\n" + Dashes];
    infoLines := infoLines + ["LoRA相关信息检查:"];
    infoLines := infoLines + [Dashes];
    Seqs.AppendThreeTo(before, "\n" + Dashes, "LoRA相关信息检查:", Dashes);
    var loraAttrs := MatchingNames(attrs, "lora");
    infoLines := ReportMatches(model, infoLines, loraAttrs, "lora");

    before := infoLines;
    infoLines := infoLines + ["\n" + Dashes];
    infoLines := infoLines + ["名称相关信息检查:"];
    infoLines := infoLines + [Dashes];
    Seqs.AppendThreeTo(before, "\n" + Dashes, "名称相关信息检查:", Dashes);
    var nameAttrs := MatchingNames(attrs, "name");
    infoLines := ReportMatches(model, infoLines, nameAttrs, "name");

    before := infoLines;
    infoLines := infoLines + ["\n" + Dashes];
    infoLines := infoLines + ["常见属性检查:"];
    infoLines := infoLines + [Dashes];
    Seqs.AppendThreeTo(before, "\n" + Dashes, "常见属性检查:", Dashes);

    var common := ReportCommon(model, infoLines);
    if common.Raise? {
      return Raised(common.message);
    }
    infoLines := common.lines;

    infoLines := infoLines + ["\n" + Rule];
    var inspectionInfo := Join(infoLines, "\n");
    r := Returned(model, inspectionInfo);
  }

  /** The full listing: a line for every name `dir()` gives that does not start with `__`. */
  method ReportAttributes(model: ModelObject, infoLines: seq<string>) returns (out: seq<string>)
    ensures out == infoLines + AttributeLines(model, model.names)
  {
    var attrs := model.names;
    out := infoLines;
    Seqs.AppendNil(infoLines);
    for i := 0 to |attrs|
      invariant out == infoLines + AttributeLines(model, attrs[..i])
    {
      var attr := attrs[i];
      assert attrs[..i + 1][..i] == attrs[..i];
      ghost var done := AttributeLines(model, attrs[..i]);
      if !StartsWith(attr, "__") {
        var line: string;
        match Lookup(model, attr) {
          case Ok(v) =>
            if v.Plain? {
              line := "  " + attr + ": " + v.text + " (" + v.typeName + ")";
            } else {
              line := "  " + attr + ": <" + v.typeName + ">";
            }
          case Raises(_, m) =>
            line := "  " + attr + ": <无法访问: " + m + ">";
        }
        out := out + [line];
        Seqs.AppendAssoc(infoLines, done, [line]);
      } else {
        Seqs.AppendNil(done);
      }
    }
    assert attrs[..|attrs|] == attrs;
  }

  /**
   * The common-attribute section: for each of `CommonNames` that `hasattr`
   * confirms, its type and the lora keys of a dict; an exception other than
   * `AttributeError` escapes `hasattr` and ends the node.
   */
  method ReportCommon(model: ModelObject, infoLines: seq<string>) returns (c: Common)
    ensures c == match CommonLines(model, CommonNames)
      case Raise(m) => Raise(m)
      case Lines(ls) => Lines(infoLines + ls)
  {
    var commonAttrs := CommonNames;
    var out := infoLines;
    Seqs.AppendNil(infoLines);
    for i := 0 to |commonAttrs|
      invariant CommonLines(model, commonAttrs[..i]).Lines?
      invariant out == infoLines + CommonLines(model, commonAttrs[..i]).lines
    {
      var attr := commonAttrs[i];
      assert commonAttrs[..i + 1][..i] == commonAttrs[..i];
      var access := Lookup(model, attr);
      if access.Raises? && access.error == OtherException {
        // `hasattr` lets the exception through.
        CommonRaisePersists(model, commonAttrs, i + 1);
        return Raise(access.message);
      }
      if access.Ok? {
        var v := access.value;
        ghost var done := CommonLines(model, commonAttrs[..i]).lines;
        var typeLine := "  " + attr + ": <" + v.typeName + ">";
        out := out + [typeLine];
        if v.DictOf? {
          var loraKeys := LoraKeys(v.keys);
          if |loraKeys| > 0 {
            var keysLine := "    包含lora相关的键: " + KeyList(loraKeys);
            out := out + [keysLine];
            Seqs.AppendTwo(infoLines + done, typeLine, keysLine);
            Seqs.AppendAssoc(infoLines, done, [typeLine, keysLine]);
          } else {
            Seqs.AppendAssoc(infoLines, done, [typeLine]);
          }
        } else {
          Seqs.AppendAssoc(infoLines, done, [typeLine]);
        }
      }
    }
    assert commonAttrs[..|commonAttrs|] == commonAttrs;
    c := Lines(out);
  }

  /** One match section after its heading: the count line and a line per match, or the not-found line. */
  method ReportMatches(model: ModelObject, infoLines: seq<string>, matches: seq<string>, word: string)
    returns (out: seq<string>)
    ensures out == infoLines + MatchLines(model, matches, word)
  {
    out := infoLines;
    if |matches| > 0 {
      out := out + [CountLine(|matches|)];
      ghost var head := out;
      Seqs.AppendNil(head);
      for i := 0 to |matches|
        invariant out == head + DetailLines(model, matches[..i])
      {
        var attr := matches[i];
        assert matches[..i + 1][..i] == matches[..i];
        var line: string;
        match Lookup(model, attr) {
          case Ok(v) =>
            if v.Opaque? {
              line := "  " + attr + ": <" + v.typeName + ">";
            } else {
              line := "  " + attr + ": " + v.text;
            }
          case Raises(_, m) =>
            line := "  " + attr + ": <无法访问: " + m + ">";
        }
        out := out + [line];
        Seqs.AppendAssoc(head, DetailLines(model, matches[..i]), [line]);
      }
      assert matches[..|matches|] == matches;
      Seqs.AppendAssoc(infoLines, [CountLine(|matches|)], DetailLines(model, matches));
    } else {
      out := out + [NoneLine(word)];
    }
  }

  /** Once an exception has escaped, later common attributes change nothing. */
  lemma {:induction false} CommonRaisePersists(obj: ModelObject, names: seq<string>, k: nat)
    requires k <= |names|
    requires CommonLines(obj, names[..k]).Raise?
    ensures CommonLines(obj, names) == CommonLines(obj, names[..k])
    decreases |names| - k
  {
    if k == |names| {
      assert names[..k] == names;
    } else {
      var init := names[..|names| - 1];
      assert init[..k] == names[..k];
      CommonRaisePersists(obj, init, k);
    }
  }

  /** The full listing holds exactly one line per name not starting with `__`, in `dir()` order. */
  lemma {:induction false} ListingIsFilter(obj: ModelObject, names: seq<string>)
    ensures |AttributeLines(obj, names)| == |VisibleNames(names)|
    ensures forall j :: 0 <= j < |VisibleNames(names)| ==>
      AttributeLines(obj, names)[j] == ListingLine(VisibleNames(names)[j], Lookup(obj, VisibleNames(names)[j]))
  {
    if |names| > 0 {
      var init, last := names[..|names| - 1], names[|names| - 1];
      ListingIsFilter(obj, init);
      Seqs.InitLast(names);
      Seqs.FilterSnoc(init, last, Visible);
    }
  }

  /**
   * A match section has one line more than there are matches: the
   * not-found line exactly when nothing matched, otherwise the count line
   * followed by a line per match in order.
   */
  lemma MatchSection(obj: ModelObject, matches: seq<string>, word: string)
    ensures |MatchLines(obj, matches, word)| == 1 + |matches|
    ensures MatchLines(obj, matches, word)[0] == NoneLine(word) <==> |matches| == 0
    ensures |matches| > 0 ==> MatchLines(obj, matches, word)[0] == CountLine(|matches|)
    ensures forall j :: 0 <= j < |matches| ==>
      MatchLines(obj, matches, word)[j + 1] == DetailLine(matches[j], Lookup(obj, matches[j]))
  {
    if |matches| > 0 {
      assert CountLine(|matches|)[0] == '找';
      assert NoneLine(word)[0] == '未';
    }
  }

  /** The count line gives the number of matches back. */
  lemma CountLineInjective(m: nat, n: nat)
    requires CountLine(m) == CountLine(n)
    ensures m == n
  {
    var tail := " 个可能相关的属性:";
    var a, b := CountLine(m), CountLine(n);
    assert a[3..|a| - |tail|] == NatToString(m);
    assert b[3..|b| - |tail|] == NatToString(n);
    NatToStringInjective(m, n);
  }

  /**
   * The common section ends the node exactly when one of its names raises
   * an exception other than `AttributeError`, and then with the first such
   * exception.
   */
  lemma {:induction false} CommonRaisesIff(obj: ModelObject, names: seq<string>)
    ensures CommonLines(obj, names).Raise? <==> exists k :: 0 <= k < |names| && Escapes(Lookup(obj, names[k]))
    ensures CommonLines(obj, names).Raise? ==>
      exists k :: FirstEscape(obj, names, k) && Lookup(obj, names[k]).message == CommonLines(obj, names).message
  {
    if |names| > 0 {
      var init, last := names[..|names| - 1], names[|names| - 1];
      CommonRaisesIff(obj, init);
      assert forall j :: 0 <= j < |init| ==> init[j] == names[j];
      match CommonLines(obj, init)
      case Raise(m) =>
        var k :| FirstEscape(obj, init, k) && Lookup(obj, init[k]).message == m;
        assert FirstEscape(obj, names, k);
      case Lines(_) =>
        if Escapes(Lookup(obj, last)) {
          assert FirstEscape(obj, names, |names| - 1);
        } else {
          forall k | 0 <= k < |names|
            ensures !Escapes(Lookup(obj, names[k]))
          {
            if k < |init| {
              assert names[k] == init[k];
            }
          }
        }
    }
  }

  /** Every name `hasattr` confirms adds one or two lines, and no other name adds any. */
  lemma {:induction false} CommonLinesCount(obj: ModelObject, names: seq<string>)
    requires CommonLines(obj, names).Lines?
    ensures |PresentNames(obj, names)| <= |CommonLines(obj, names).lines| <= 2 * |PresentNames(obj, names)|
  {
    if |names| > 0 {
      var init := names[..|names| - 1];
      CommonLinesCount(obj, init);
    }
  }

  /**
   * The node returns unless a common attribute raises past `hasattr`; then
   * it hands back the model it was given, and its report opens with the
   * title between two rules and closes with a rule on a line of its own.
   */
  lemma InspectFrame(obj: ModelObject)
    ensures Inspect(obj).Returned? <==> forall k :: 0 <= k < |CommonNames| ==> !Escapes(Lookup(obj, CommonNames[k]))
    ensures Inspect(obj).Raised? ==>
      exists k :: FirstEscape(obj, CommonNames, k) && Lookup(obj, CommonNames[k]).message == Inspect(obj).message
    ensures Inspect(obj).Returned? ==> Inspect(obj).model == obj
    ensures Inspect(obj).Returned? ==> StartsWith(Inspect(obj).inspectionInfo, Rule + "\n" + ReportTitle + "\n" + Rule)
    ensures Inspect(obj).Returned? ==> EndsWith(Inspect(obj).inspectionInfo, "\n" + Rule)
  {
    CommonRaisesIff(obj, CommonNames);
    match CommonLines(obj, CommonNames)
    case Raise(_) =>
    case Lines(common) =>
      var lines := ReportLines(obj, common);
      var body := lines[3..];
      assert lines == [Rule, ReportTitle, Rule] + body;
      FramedJoin(Rule, ReportTitle, body, "\n");
  }

  /** A dunder name is left out of the listing but still found by the lora filter. */
  lemma DunderLoraReported()
    ensures VisibleNames(["__lora__", "model"]) == ["model"]
    ensures MatchingNames(["__lora__", "model"], "lora") == ["__lora__"]
  {
    assert StartsWith("__lora__", "__");
    assert "model"[..2][0] == 'm';
    assert Lower("__lora__") == "__lora__";
    assert OccursAt("__lora__", "lora", 2);
    assert Lower("model") == "model";
    forall i: nat | i <= 5
      ensures !OccursAt("model", "lora", i)
    {
      if i + 4 <= 5 {
        assert "model"[i..i + 4][0] == "model"[i] != 'l';
      }
    }
  }

  /** The filters ignore case: a name matches exactly when its upper-case form does. */
  lemma MentionsIgnoresCase(name: string, word: string)
    ensures Mentions(Upper(name), word) <==> Mentions(name, word)
  {
    LowerUpper(name);
  }
}
