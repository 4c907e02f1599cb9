/**
 * The Excel image extraction node (`PD_excel_image.extract_images`).
 *
 * One run scans an input directory for workbooks, opens each one, walks its
 * sheets and their embedded images, resolves an output format and file name
 * for every image it can decode, saves it, and returns a status text.  The
 * filesystem, the workbook reader and the image library are abstracted as
 * outcomes given to the run (an `Environment`); the run's observable effects
 * are the directory it creates, one log entry per workbook and the list of
 * save attempts, in order.
 */
module ExcelImage {
  import opened Wrappers
  import opened Seqs
  import opened Text
  import Paths

  /** What reading one embedded image reference yields. */
  datatype ImageOutcome =
    | Unreadable                      // neither `_data` nor `ref` and `image`: skipped
    | DecodeFailure(message: string)  // fetching the bytes or `Image.open` raised
    | Decoded(declaredFormat: Option<string>, mode: string, flattenSucceeds: bool, saveSucceeds: bool)
      // decoded with PIL's `format` and `mode`; whether compositing onto white
      // (if the run asks for it) and `save` would succeed

  /** The embedded images of one sheet, in order (empty when it has no `_images`). */
  type Sheet = seq<ImageOutcome>

  /** One `*.xlsx` / `*.xlsm` file found in the input directory, identified by its stem. */
  datatype Workbook =
    | Unopenable(stem: string, message: string)  // `load_workbook` raised
    | Opened(stem: string, sheets: seq<Sheet>)

  /** The filesystem as the run sees it. */
  datatype Environment = Environment(
    inputExists: bool,            // `os.path.exists(input_directory)`
    mkdirError: Option<string>,   // the message if creating the output directory raises
    xlsx: seq<Workbook>,          // `glob("*.xlsx")`, in listing order
    xlsm: seq<Workbook>)          // `glob("*.xlsm")`, in listing order

  /** The node's naming and format options. */
  datatype Config = Config(prefix: string, imageFormat: string, includeFilename: bool)

  /** A keyword argument passed to `save`. */
  datatype SaveOption = Quality(level: nat) | Optimize(enabled: bool)

  /** One call of `img.save`: the file name in the output directory and what was written. */
  datatype SaveAttempt = SaveAttempt(
    fileName: string,
    format: string,
    options: seq<SaveOption>,
    mode: string,        // mode of the image handed to `save`
    flattened: bool,     // composited onto a white RGB background first
    succeeded: bool)

  /** The per-workbook console line: skipped, or opened with its image count. */
  datatype FileLog = Skipped(stem: string, message: string) | Processed(stem: string, imageCount: nat)

  /** The mutually exclusive shapes of the returned status text. */
  datatype Report =
    | InputMissing(inputDirectory: string)
    | NoExcelFiles(inputDirectory: string, outputDirectory: string)
    | Extracted(processedFiles: nat, totalImages: nat, outputDirectory: string)
    | NoImages(processedFiles: nat, outputDirectory: string)
    | Failed(message: string)

  /** Everything a run produces. */
  datatype RunResult = RunResult(report: Report, createdDirectory: Option<string>, files: seq<FileLog>, saves: seq<SaveAttempt>)

  // ---------------------------------------------------------------------------
  // Decisions taken for one image
  // ---------------------------------------------------------------------------

  /** The format handed to `save` and the file extension. */
  datatype Target = Target(format: string, extension: string)

  /** Format and extension: the declared format (PNG if none) in `auto` mode, else the choice, with `jpg` read as JPEG. */
  function ResolveFormat(imageFormat: string, declared: Option<string>): Target
  {
    if imageFormat == "auto" then
      var format := if declared.Some? && declared.value != "" then declared.value else "PNG";
      Target(format, Lower(format))
    else if Upper(imageFormat) == "JPG" then Target("JPEG", "jpg")
    else Target(Upper(imageFormat), Lower(imageFormat))
  }

  /** An explicit choice spelled `jpg` in any case is `jpg` in lower case. */
  lemma JpgSpelling(imageFormat: string)
    requires Upper(imageFormat) == "JPG"
    ensures Lower(imageFormat) == "jpg"
  {
    assert |imageFormat| == 3;
    assert Upper(imageFormat)[0] == 'J' && Upper(imageFormat)[1] == 'P' && Upper(imageFormat)[2] == 'G';
    assert Lower(imageFormat)[0] == 'j' && Lower(imageFormat)[1] == 'p' && Lower(imageFormat)[2] == 'g';
  }

  /**
   * What the resolved target means: in `auto` mode the declared format (or
   * PNG) with its lower-case extension; for an explicit choice the extension
   * is the choice in lower case (so `jpeg` stays `jpeg` and `jpg` stays
   * `jpg`), the format is its upper case except that `jpg` becomes JPEG; and
   * the extension is always the lower-case format, except for the `jpg` alias.
   */
  lemma ResolvedTarget(imageFormat: string, declared: Option<string>)
    ensures var t := ResolveFormat(imageFormat, declared);
      && (imageFormat == "auto" && declared.Some? && declared.value != "" ==> t == Target(declared.value, Lower(declared.value)))
      && (imageFormat == "auto" && (declared.None? || declared.value == "") ==> t == Target("PNG", "png"))
      && (imageFormat != "auto" ==> t.extension == Lower(imageFormat))
      && (imageFormat != "auto" && Upper(imageFormat) in {"JPG", "JPEG"} ==> t.format == "JPEG")
      && (imageFormat != "auto" && Upper(imageFormat) != "JPG" ==> t.format == Upper(imageFormat))
      && (t.extension == Lower(t.format) || (t.format == "JPEG" && t.extension == "jpg"))
      && Lower(t.extension) == t.extension
  {
    var t := ResolveFormat(imageFormat, declared);
    if imageFormat == "auto" {
      assert Lower("PNG") == "png";
      LowerLower(t.format);
    } else if Upper(imageFormat) == "JPG" {
      JpgSpelling(imageFormat);
      assert Lower("jpg") == "jpg";
    } else {
      LowerUpper(imageFormat);
      LowerLower(imageFormat);
    }
  }

  /** The choices the node offers resolve as follows. */
  lemma OfferedChoices(declared: Option<string>)
    ensures ResolveFormat("png", declared) == Target("PNG", "png")
    ensures ResolveFormat("jpg", declared) == Target("JPEG", "jpg")
    ensures ResolveFormat("jpeg", declared) == Target("JPEG", "jpeg")
    ensures ResolveFormat("bmp", declared) == Target("BMP", "bmp")
    ensures ResolveFormat("gif", declared) == Target("GIF", "gif")
  {
    assert Upper("png") == "PNG" && Lower("png") == "png";
    assert Upper("jpg") == "JPG";
    assert Upper("jpeg") == "JPEG" && Lower("jpeg") == "jpeg";
    assert Upper("bmp") == "BMP" && Lower("bmp") == "bmp";
    assert Upper("gif") == "GIF" && Lower("gif") == "gif";
  }

  /** Alpha is flattened onto white only for an explicit choice that resolves to JPEG, from RGBA or palette mode. */
  predicate NeedsFlatten(imageFormat: string, target: Target, mode: string)
  {
    imageFormat != "auto" && target.format == "JPEG" && (mode == "RGBA" || mode == "P")
  }

  /** The keyword arguments for `save`: quality 95 and optimize for JPEG, optimize for PNG, none otherwise. */
  function SaveOptionsFor(format: string): seq<SaveOption>
  {
    if format == "JPEG" then [Quality(95), Optimize(true)]
    else if format == "PNG" then [Optimize(true)]
    else []
  }

  /** `prefix + (stem + "_" if include_filename) + str(counter) + "." + ext`. */
  function FileName(prefix: string, stem: string, includeFilename: bool, counter: nat, extension: string): string
  {
    prefix + (if includeFilename then stem + "_" else "") + NatToString(counter) + "." + extension
  }

  // ---------------------------------------------------------------------------
  // Reading the counter back from a file name
  // ---------------------------------------------------------------------------

  /** The part of s before its last occurrence of c (s itself if c does not occur). */
  function BeforeLast(s: string, c: char): string
  {
    var i := Paths.RFind(s, c);
    if i < 0 then s else s[..i]
  }

  /** The longest run of digits at the end of s. */
  function TrailingDigits(s: string): (r: string)
    ensures AllDigits(r)
  {
    if |s| == 0 || !IsDigit(s[|s| - 1]) then "" else TrailingDigits(s[..|s| - 1]) + [s[|s| - 1]]
  }

  /** The counter a file name was generated with, for a known prefix and naming mode. */
  function CounterOf(fileName: string, prefix: string, includeFilename: bool): nat
  {
    var base := BeforeLast(fileName, '.');
    if includeFilename then ParseDecimal(TrailingDigits(base))
    else if StartsWith(base, prefix) && AllDigits(base[|prefix|..]) then ParseDecimal(base[|prefix|..])
    else 0
  }

  lemma BeforeLastDot(a: string, ext: string)
    requires '.' !in ext
    ensures BeforeLast(a + "." + ext, '.') == a
  {
    var s := a + "." + ext;
    assert forall j :: |a| < j < |s| ==> s[j] == ext[j - |a| - 1];
    Paths.RFindIsLast(s, '.', |a|);
  }

  lemma {:induction false} TrailingDigitsAfter(a: string, x: char, digits: string)
    requires !IsDigit(x) && AllDigits(digits)
    ensures TrailingDigits(a + [x] + digits) == digits
    decreases |digits|
  {
    var s := a + [x] + digits;
    if |digits| == 0 {
      assert s[|s| - 1] == x;
    } else {
      var init := digits[..|digits| - 1];
      assert s[..|s| - 1] == a + [x] + init;
      TrailingDigitsAfter(a, x, init);
      assert init + [digits[|digits| - 1]] == digits;
    }
  }

  /** The counter can be read back from any generated file name whose extension has no '.'. */
  lemma FileNameCounter(prefix: string, stem: string, includeFilename: bool, counter: nat, extension: string)
    requires '.' !in extension
    ensures CounterOf(FileName(prefix, stem, includeFilename, counter, extension), prefix, includeFilename) == counter
  {
    var digits := NatToString(counter);
    var middle := if includeFilename then stem + "_" else "";
    var base := prefix + middle + digits;
    assert FileName(prefix, stem, includeFilename, counter, extension) == base + "." + extension;
    BeforeLastDot(base, extension);
    ParseNatToString(counter);
    if includeFilename {
      assert base == (prefix + stem) + ['_'] + digits;
      TrailingDigitsAfter(prefix + stem, '_', digits);
    } else {
      assert base[..|prefix|] == prefix;
      assert base[|prefix|..] == digits;
    }
  }

  /** Two generated names with the same prefix and naming mode but different counters differ. */
  lemma FileNamesDiffer(prefix: string, includeFilename: bool, stem1: string, n1: nat, ext1: string, stem2: string, n2: nat, ext2: string)
    requires '.' !in ext1 && '.' !in ext2
    requires n1 != n2
    ensures FileName(prefix, stem1, includeFilename, n1, ext1) != FileName(prefix, stem2, includeFilename, n2, ext2)
  {
    FileNameCounter(prefix, stem1, includeFilename, n1, ext1);
    FileNameCounter(prefix, stem2, includeFilename, n2, ext2);
  }

  // ---------------------------------------------------------------------------
  // The run as a specification: folds over workbooks, sheets and images
  // ---------------------------------------------------------------------------

  /** An image is counted (and numbered) when it decodes and, if flattening is due, flattening succeeds. */
  predicate Countable(cfg: Config, image: ImageOutcome)
  {
    image.Decoded? &&
    (!NeedsFlatten(cfg.imageFormat, ResolveFormat(cfg.imageFormat, image.declaredFormat), image.mode) || image.flattenSucceeds)
  }

  /** The save that the image numbered `counter` of workbook `stem` leads to. */
  function AttemptFor(cfg: Config, stem: string, counter: nat, image: ImageOutcome): SaveAttempt
    requires image.Decoded?
  {
    var target := ResolveFormat(cfg.imageFormat, image.declaredFormat);
    var flatten := NeedsFlatten(cfg.imageFormat, target, image.mode);
    SaveAttempt(
      FileName(cfg.prefix, stem, cfg.includeFilename, counter, target.extension),
      target.format,
      SaveOptionsFor(target.format),
      if flatten then "RGB" else image.mode,
      flatten,
      image.saveSucceeds)
  }

  /** The run's image counter and the saves so far. */
  datatype Numbering = Numbering(total: nat, saves: seq<SaveAttempt>)

  /** The run's counters and logs while it walks the workbooks. */
  datatype Tally = Tally(total: nat, processed: nat, files: seq<FileLog>, saves: seq<SaveAttempt>)

  function ImageStep(cfg: Config, stem: string, n: Numbering, image: ImageOutcome): Numbering
  {
    if Countable(cfg, image) then Numbering(n.total + 1, n.saves + [AttemptFor(cfg, stem, n.total + 1, image)])
    else n
  }

  function ImagesFold(cfg: Config, stem: string, n: Numbering, images: seq<ImageOutcome>): (r: Numbering)
    ensures r.total >= n.total
  {
    if |images| == 0 then n
    else ImageStep(cfg, stem, ImagesFold(cfg, stem, n, images[..|images| - 1]), images[|images| - 1])
  }

  function SheetsFold(cfg: Config, stem: string, n: Numbering, sheets: seq<Sheet>): (r: Numbering)
    ensures r.total >= n.total
  {
    if |sheets| == 0 then n
    else ImagesFold(cfg, stem, SheetsFold(cfg, stem, n, sheets[..|sheets| - 1]), sheets[|sheets| - 1])
  }

  function WorkbookStep(cfg: Config, t: Tally, wb: Workbook): Tally
  {
    match wb
    case Unopenable(stem, message) => t.(files := t.files + [Skipped(stem, message)])
    case Opened(stem, sheets) =>
      var after := SheetsFold(cfg, stem, Numbering(t.total, t.saves), sheets);
      Tally(after.total, t.processed + 1, t.files + [Processed(stem, after.total - t.total)], after.saves)
  }

  function WorkbooksFold(cfg: Config, t: Tally, wbs: seq<Workbook>): Tally
  {
    if |wbs| == 0 then t
    else WorkbookStep(cfg, WorkbooksFold(cfg, t, wbs[..|wbs| - 1]), wbs[|wbs| - 1])
  }

  /** Python's `s.strip() == ""`: every character is whitespace by `str.isspace`. */
  predicate IsBlank(s: string)
  {
    forall i :: 0 <= i < |s| ==> IsSpace(s[i])
  }

  /** `c.isspace()`: ASCII whitespace, the separators 0x1C-0x1F, and the Unicode spaces. */
  predicate IsSpace(c: char)
  {
    || c == ' ' || '\t' <= c <= '\r' || '\U{1c}' <= c <= '\U{1f}'
    || c == '\U{85}' || c == '\U{a0}' || c == '\U{1680}' || '\U{2000}' <= c <= '\U{200a}'
    || c == '\U{2028}' || c == '\U{2029}' || c == '\U{202f}' || c == '\U{205f}' || c == '\U{3000}'
  }

  /** The output directory: the given one, or `input/image-<date>` when it is blank. */
  function OutputDirectory(inputDirectory: string, outputDirectory: string, today: string): string
  {
    if IsBlank(outputDirectory) then Paths.JoinPath(inputDirectory, "image-" + today) else outputDirectory
  }

  /** The whole run; `today` is the `%Y%m%d` rendering of the current date. */
  function Run(env: Environment, inputDirectory: string, outputDirectory: string, today: string, cfg: Config): RunResult
  {
    if inputDirectory == "" || !env.inputExists then
      RunResult(InputMissing(inputDirectory), None, [], [])
    else
      var outDir := OutputDirectory(inputDirectory, outputDirectory, today);
      if env.mkdirError.Some? then RunResult(Failed(env.mkdirError.value), None, [], [])
      else
        var excelFiles := env.xlsx + env.xlsm;
        if excelFiles == [] then RunResult(NoExcelFiles(inputDirectory, outDir), Some(outDir), [], [])
        else
          var t := WorkbooksFold(cfg, Tally(0, 0, [], []), excelFiles);
          var report := if t.total > 0 then Extracted(t.processed, t.total, outDir) else NoImages(t.processed, outDir);
          RunResult(report, Some(outDir), t.files, t.saves)
  }

  /** The status text returned for each report shape. */
  function StatusText(report: Report): (text: string)
    ensures |text| > 0
    ensures text[0] == '✅' <==> report.Extracted?
    ensures text[0] == '❌' <==> report.InputMissing? || report.Failed?
    ensures text[0] == 'ℹ' <==> report.NoExcelFiles? || report.NoImages?
  {
    match report
    case InputMissing(input) => "❌ 输入目录不存在: " + input
    case NoExcelFiles(input, outDir) => "ℹ️  在目录中没有找到Excel文件: " + input + "\n📁 输出目录: " + outDir
    case Extracted(processed, total, outDir) =>
      "✅ 提取完成！\n📊 处理结果:\n  - 处理文件数: " + NatToString(processed) + " 个Excel文件\n  - 提取图片数: "
      + NatToString(total) + " 张\n📁 图片保存在: " + outDir
    case NoImages(processed, outDir) =>
      "ℹ️  没有找到图片\n📊 处理结果:\n  - 处理文件数: " + NatToString(processed) + " 个Excel文件\n  - 提取图片数: 0 张\n📁 输出目录: " + outDir
    case Failed(message) => "❌ 处理过程中发生错误: " + message
  }

  // ---------------------------------------------------------------------------
  // What the run does, stated without the folds
  // ---------------------------------------------------------------------------

  /** An image together with the stem of the workbook it came from. */
  datatype Located = Located(stem: string, image: ImageOutcome)

  function Tag(stem: string, images: seq<ImageOutcome>): (r: seq<Located>)
    ensures |r| == |images|
    ensures forall i :: 0 <= i < |images| ==> r[i] == Located(stem, images[i])
  {
    seq(|images|, i requires 0 <= i < |images| => Located(stem, images[i]))
  }

  lemma TagConcat(stem: string, a: seq<ImageOutcome>, b: seq<ImageOutcome>)
    ensures Tag(stem, a + b) == Tag(stem, a) + Tag(stem, b)
  {
  }

  /** The images of every opened workbook, sheet by sheet, in the order the run visits them. */
  function RunImages(wbs: seq<Workbook>): seq<Located>
  {
    if |wbs| == 0 then []
    else RunImages(wbs[..|wbs| - 1]) + ImagesOf(wbs[|wbs| - 1])
  }

  function ImagesOf(wb: Workbook): seq<Located>
  {
    match wb
    case Opened(stem, sheets) => Tag(stem, Concat(sheets))
    case Unopenable(_, _) => []
  }

  function CountablePred(cfg: Config): Located -> bool
  {
    (x: Located) => Countable(cfg, x.image)
  }

  /** The images the run counts, in visiting order. */
  function CountedImages(cfg: Config, wbs: seq<Workbook>): seq<Located>
  {
    Filter(RunImages(wbs), CountablePred(cfg))
  }

  const IsOpened: Workbook -> bool := (wb: Workbook) => wb.Opened?

  /** The log entry each workbook gets: skipped, or opened with the number of its counted images. */
  function FileLogFor(cfg: Config, wb: Workbook): FileLog
  {
    match wb
    case Unopenable(stem, message) => Skipped(stem, message)
    case Opened(stem, sheets) => Processed(stem, |Filter(ImagesOf(wb), CountablePred(cfg))|)
  }

  predicate AllDecoded(counted: seq<Located>)
  {
    forall k :: 0 <= k < |counted| ==> counted[k].image.Decoded?
  }

  /** The saves for a list of counted images, numbered 1, 2, ... in order. */
  function Attempts(cfg: Config, counted: seq<Located>): (r: seq<SaveAttempt>)
    requires AllDecoded(counted)
    ensures |r| == |counted|
  {
    if |counted| == 0 then []
    else
      var last := counted[|counted| - 1];
      Attempts(cfg, counted[..|counted| - 1]) + [AttemptFor(cfg, last.stem, |counted|, last.image)]
  }

  /** The saves are exactly those for the counted images, in order. */
  predicate Numbered(cfg: Config, saves: seq<SaveAttempt>, counted: seq<Located>)
  {
    AllDecoded(counted) && saves == Attempts(cfg, counted)
  }

  /** The k-th save is the attempt for the k-th counted image, with counter k + 1. */
  lemma {:induction false} NumberedAt(cfg: Config, saves: seq<SaveAttempt>, counted: seq<Located>, k: nat)
    requires Numbered(cfg, saves, counted) && k < |counted|
    ensures counted[k].image.Decoded? && saves[k] == AttemptFor(cfg, counted[k].stem, k + 1, counted[k].image)
    decreases |counted|
  {
    var init := counted[..|counted| - 1];
    if k < |init| {
      assert AllDecoded(init) by {
        forall m | 0 <= m < |init| ensures init[m].image.Decoded? { assert init[m] == counted[m]; }
      }
      NumberedAt(cfg, Attempts(cfg, init), init, k);
      assert init[k] == counted[k];
    }
  }

  lemma NumberedStep(cfg: Config, saves: seq<SaveAttempt>, counted: seq<Located>, stem: string, image: ImageOutcome)
    requires Numbered(cfg, saves, counted) && image.Decoded?
    ensures Numbered(cfg, saves + [AttemptFor(cfg, stem, |counted| + 1, image)], counted + [Located(stem, image)])
  {
    var more := counted + [Located(stem, image)];
    assert more[..|counted|] == counted;
    assert AllDecoded(more) by {
      forall m | 0 <= m < |more| ensures more[m].image.Decoded? {
        if m < |counted| { assert more[m] == counted[m]; }
      }
    }
  }

  lemma {:induction false} ImagesFoldNumbers(cfg: Config, stem: string, t: Numbering, images: seq<ImageOutcome>, counted: seq<Located>)
    requires t.total == |t.saves| && Numbered(cfg, t.saves, counted)
    ensures var r := ImagesFold(cfg, stem, t, images);
      && r.total == |r.saves|
      && Numbered(cfg, r.saves, counted + Filter(Tag(stem, images), CountablePred(cfg)))
    decreases |images|
  {
    var p := CountablePred(cfg);
    if |images| == 0 {
      AppendNil(counted);
    } else {
      var init := images[..|images| - 1];
      var last := images[|images| - 1];
      ImagesFoldNumbers(cfg, stem, t, init, counted);
      var t1 := ImagesFold(cfg, stem, t, init);
      var a := Filter(Tag(stem, init), p);
      var b := if Countable(cfg, last) then [Located(stem, last)] else [];
      CountedTagSnoc(stem, images, p);
      AppendAssoc(counted, a, b);
      if Countable(cfg, last) {
        NumberedStep(cfg, t1.saves, counted + a, stem, last);
      } else {
        AppendNil(counted + a);
      }
    }
  }

  lemma CountedTagSnoc(stem: string, images: seq<ImageOutcome>, p: Located -> bool)
    requires |images| > 0
    ensures var last := images[|images| - 1];
      Filter(Tag(stem, images), p)
      == Filter(Tag(stem, images[..|images| - 1]), p) + (if p(Located(stem, last)) then [Located(stem, last)] else [])
  {
    var init := images[..|images| - 1];
    var last := images[|images| - 1];
    InitLast(images);
    TagConcat(stem, init, [last]);
    assert Tag(stem, [last]) == [Located(stem, last)];
    FilterSnoc(Tag(stem, init), Located(stem, last), p);
  }

  lemma CountedSheetsSnoc(stem: string, sheets: seq<Sheet>, p: Located -> bool)
    requires |sheets| > 0
    ensures Filter(Tag(stem, Concat(sheets)), p)
         == Filter(Tag(stem, Concat(sheets[..|sheets| - 1])), p) + Filter(Tag(stem, sheets[|sheets| - 1]), p)
  {
    var init := sheets[..|sheets| - 1];
    var last := sheets[|sheets| - 1];
    assert Concat(sheets) == Concat(init) + last;
    TagConcat(stem, Concat(init), last);
    FilterConcat(Tag(stem, Concat(init)), Tag(stem, last), p);
  }

  lemma {:induction false} SheetsFoldNumbers(cfg: Config, stem: string, t: Numbering, sheets: seq<Sheet>, counted: seq<Located>)
    requires t.total == |t.saves| && Numbered(cfg, t.saves, counted)
    ensures var r := SheetsFold(cfg, stem, t, sheets);
      && r.total == |r.saves|
      && Numbered(cfg, r.saves, counted + Filter(Tag(stem, Concat(sheets)), CountablePred(cfg)))
    decreases |sheets|
  {
    var p := CountablePred(cfg);
    if |sheets| == 0 {
      AppendNil(counted);
    } else {
      var init := sheets[..|sheets| - 1];
      var last := sheets[|sheets| - 1];
      SheetsFoldNumbers(cfg, stem, t, init, counted);
      var a := Filter(Tag(stem, Concat(init)), p);
      var b := Filter(Tag(stem, last), p);
      ImagesFoldNumbers(cfg, stem, SheetsFold(cfg, stem, t, init), last, counted + a);
      CountedSheetsSnoc(stem, sheets, p);
      AppendAssoc(counted, a, b);
    }
  }

  /** The images of the workbooks before the last one come first. */
  lemma CountedImagesSnoc(cfg: Config, wbs: seq<Workbook>)
    requires |wbs| > 0
    ensures CountedImages(cfg, wbs)
         == CountedImages(cfg, wbs[..|wbs| - 1]) + Filter(ImagesOf(wbs[|wbs| - 1]), CountablePred(cfg))
  {
    FilterConcat(RunImages(wbs[..|wbs| - 1]), ImagesOf(wbs[|wbs| - 1]), CountablePred(cfg));
  }

  /** The log entries of the workbooks, one each, in order. */
  function FileLogs(cfg: Config, wbs: seq<Workbook>): (r: seq<FileLog>)
    ensures |r| == |wbs|
    ensures forall i :: 0 <= i < |wbs| ==> r[i] == FileLogFor(cfg, wbs[i])
  {
    seq(|wbs|, i requires 0 <= i < |wbs| => FileLogFor(cfg, wbs[i]))
  }

  lemma FileLogsSnoc(cfg: Config, wbs: seq<Workbook>)
    requires |wbs| > 0
    ensures FileLogs(cfg, wbs) == FileLogs(cfg, wbs[..|wbs| - 1]) + [FileLogFor(cfg, wbs[|wbs| - 1])]
  {
  }

  /** One workbook: its counted images are numbered on from the tally, and it adds its log entry. */
  lemma WorkbookStepNumbers(cfg: Config, t: Tally, wb: Workbook, counted: seq<Located>)
    requires t.total == |t.saves| && Numbered(cfg, t.saves, counted)
    ensures var r := WorkbookStep(cfg, t, wb);
      && r.total == |r.saves|
      && Numbered(cfg, r.saves, counted + Filter(ImagesOf(wb), CountablePred(cfg)))
      && r.processed == t.processed + (if wb.Opened? then 1 else 0)
      && r.files == t.files + [FileLogFor(cfg, wb)]
  {
    match wb
    case Unopenable(_, _) =>
      AppendNil(counted);
    case Opened(stem, sheets) =>
      SheetsFoldNumbers(cfg, stem, Numbering(t.total, t.saves), sheets, counted);
  }

  lemma {:induction false} WorkbooksFoldNumbers(cfg: Config, t: Tally, wbs: seq<Workbook>, counted: seq<Located>)
    requires t.total == |t.saves| && Numbered(cfg, t.saves, counted)
    ensures var r := WorkbooksFold(cfg, t, wbs);
      && r.total == |r.saves|
      && Numbered(cfg, r.saves, counted + CountedImages(cfg, wbs))
      && r.processed == t.processed + |Filter(wbs, IsOpened)|
      && r.files == t.files + FileLogs(cfg, wbs)
    decreases |wbs|
  {
    if |wbs| == 0 {
      AppendNil(counted);
      AppendNil(t.files);
    } else {
      var init := wbs[..|wbs| - 1];
      var last := wbs[|wbs| - 1];
      WorkbooksFoldNumbers(cfg, t, init, counted);
      var t1 := WorkbooksFold(cfg, t, init);
      var a := CountedImages(cfg, init);
      WorkbookStepNumbers(cfg, t1, last, counted + a);
      CountedImagesSnoc(cfg, wbs);
      AppendAssoc(counted, a, Filter(ImagesOf(last), CountablePred(cfg)));
      InitLast(wbs);
      FilterSnoc(init, last, IsOpened);
      FileLogsSnoc(cfg, wbs);
      AppendAssoc(t.files, FileLogs(cfg, init), [FileLogFor(cfg, last)]);
    }
  }

  /**
   * Once the scan has started, the run saves exactly the counted images, in
   * visiting order, the k-th with counter k + 1 whether or not earlier saves
   * failed; every workbook gets its log entry; and the report is the success
   * text when some image was counted, else the no-images text, both stating
   * the number of workbooks that opened and the number of counted images.
   */
  lemma RunAfterScan(env: Environment, inputDirectory: string, outputDirectory: string, today: string, cfg: Config)
    requires inputDirectory != "" && env.inputExists && env.mkdirError.None? && env.xlsx + env.xlsm != []
    ensures var r := Run(env, inputDirectory, outputDirectory, today, cfg);
      var files := env.xlsx + env.xlsm;
      var counted := CountedImages(cfg, files);
      var outDir := OutputDirectory(inputDirectory, outputDirectory, today);
      && Numbered(cfg, r.saves, counted)
      && r.files == FileLogs(cfg, files)
      && r.report == (if |counted| > 0 then Extracted(|Filter(files, IsOpened)|, |counted|, outDir)
                      else NoImages(|Filter(files, IsOpened)|, outDir))
      && r.createdDirectory == Some(outDir)
  {
    var files := env.xlsx + env.xlsm;
    var t := WorkbooksFold(cfg, Tally(0, 0, [], []), files);
    ScanTally(cfg, files);
    var outDir := OutputDirectory(inputDirectory, outputDirectory, today);
    var report := if t.total > 0 then Extracted(t.processed, t.total, outDir) else NoImages(t.processed, outDir);
    assert Run(env, inputDirectory, outputDirectory, today, cfg) == RunResult(report, Some(outDir), t.files, t.saves);
  }

  /** The tally of a whole scan, from an empty one. */
  lemma ScanTally(cfg: Config, files: seq<Workbook>)
    ensures var t := WorkbooksFold(cfg, Tally(0, 0, [], []), files);
      && Numbered(cfg, t.saves, CountedImages(cfg, files))
      && t.total == |CountedImages(cfg, files)|
      && t.processed == |Filter(files, IsOpened)|
      && t.files == FileLogs(cfg, files)
  {
    var counted := CountedImages(cfg, files);
    WorkbooksFoldNumbers(cfg, Tally(0, 0, [], []), files, []);
    NilAppend(counted);
    NilAppend(FileLogs(cfg, files));
  }

  /**
   * Before the scan: a missing input directory yields only the error text
   * and creates nothing; a failing mkdir yields the error text; an input
   * directory with no workbooks yields the notice naming the output
   * directory, which has already been created.
   */
  lemma RunBeforeScan(env: Environment, inputDirectory: string, outputDirectory: string, today: string, cfg: Config)
    ensures var r := Run(env, inputDirectory, outputDirectory, today, cfg);
      var outDir := OutputDirectory(inputDirectory, outputDirectory, today);
      && (inputDirectory == "" || !env.inputExists ==> r == RunResult(InputMissing(inputDirectory), None, [], []))
      && (inputDirectory != "" && env.inputExists && env.mkdirError.Some? ==>
            r == RunResult(Failed(env.mkdirError.value), None, [], []))
      && (inputDirectory != "" && env.inputExists && env.mkdirError.None? && env.xlsx + env.xlsm == [] ==>
            r == RunResult(NoExcelFiles(inputDirectory, outDir), Some(outDir), [], []))
      && (r.createdDirectory.Some? <==> inputDirectory != "" && env.inputExists && env.mkdirError.None?)
  {
  }

  /** A blank output directory becomes `input/image-<date>`; any other is used as given. */
  lemma DefaultOutputDirectory(inputDirectory: string, outputDirectory: string, today: string)
    ensures IsBlank(outputDirectory) && inputDirectory != "" && !EndsWith(inputDirectory, "/") ==>
      OutputDirectory(inputDirectory, outputDirectory, today) == inputDirectory + "/image-" + today
    ensures !IsBlank(outputDirectory) ==> OutputDirectory(inputDirectory, outputDirectory, today) == outputDirectory
    ensures IsBlank("") && IsBlank(" \t\n")
  {
    assert !StartsWith("image-" + today, "/") by {
      assert ("image-" + today)[0] == 'i';
    }
  }

  lemma ExtensionDotFree(imageFormat: string, declared: Option<string>)
    requires '.' !in imageFormat
    requires declared.Some? ==> '.' !in declared.value
    ensures '.' !in ResolveFormat(imageFormat, declared).extension
  {
    if imageFormat == "auto" {
      if declared.Some? && declared.value != "" {
        LowerKeepsMissing(declared.value, '.');
      } else {
        LowerKeepsMissing("PNG", '.');
      }
    } else if Upper(imageFormat) != "JPG" {
      LowerKeepsMissing(imageFormat, '.');
    }
  }

  /** Every image in the list either has no declared format or one without a '.'. */
  predicate DeclaredDotFree(images: seq<Located>)
  {
    forall k :: 0 <= k < |images| && images[k].image.Decoded? && images[k].image.declaredFormat.Some? ==>
      '.' !in images[k].image.declaredFormat.value
  }

  /** Numbered saves get pairwise different file names, since their counters differ. */
  lemma NumberedNamesDistinct(cfg: Config, saves: seq<SaveAttempt>, counted: seq<Located>)
    requires Numbered(cfg, saves, counted)
    requires '.' !in cfg.imageFormat && DeclaredDotFree(counted)
    ensures forall i, j :: 0 <= i < j < |saves| ==> saves[i].fileName != saves[j].fileName
  {
    forall i, j | 0 <= i < j < |saves| ensures saves[i].fileName != saves[j].fileName {
      NumberedAt(cfg, saves, counted, i);
      NumberedAt(cfg, saves, counted, j);
      var a := counted[i].image;
      var b := counted[j].image;
      ExtensionDotFree(cfg.imageFormat, a.declaredFormat);
      ExtensionDotFree(cfg.imageFormat, b.declaredFormat);
      FileNamesDiffer(cfg.prefix, cfg.includeFilename,
        counted[i].stem, i + 1, ResolveFormat(cfg.imageFormat, a.declaredFormat).extension,
        counted[j].stem, j + 1, ResolveFormat(cfg.imageFormat, b.declaredFormat).extension);
    }
  }

  /** No two images saved in one run get the same file name, when formats carry no '.'. */
  lemma RunFileNamesDistinct(env: Environment, inputDirectory: string, outputDirectory: string, today: string, cfg: Config)
    requires '.' !in cfg.imageFormat && DeclaredDotFree(RunImages(env.xlsx + env.xlsm))
    ensures var saves := Run(env, inputDirectory, outputDirectory, today, cfg).saves;
      forall i, j :: 0 <= i < j < |saves| ==> saves[i].fileName != saves[j].fileName
  {
    var files := env.xlsx + env.xlsm;
    if inputDirectory != "" && env.inputExists && env.mkdirError.None? && files != [] {
      RunAfterScan(env, inputDirectory, outputDirectory, today, cfg);
      var counted := CountedImages(cfg, files);
      var all := RunImages(files);
      assert DeclaredDotFree(counted) by {
        forall k | 0 <= k < |counted| && counted[k].image.Decoded? && counted[k].image.declaredFormat.Some?
          ensures '.' !in counted[k].image.declaredFormat.value
        {
          var m :| 0 <= m < |all| && all[m] == counted[k];
        }
      }
      NumberedNamesDistinct(cfg, Run(env, inputDirectory, outputDirectory, today, cfg).saves, counted);
    }
  }

  /**
   * Every save uses the options of its format; the k-th save comes from the
   * k-th counted image, is flattened exactly when the choice is explicit,
   * the target is JPEG and that image is in RGBA or P mode, and is then
   * written in RGB mode, otherwise in the image's own mode; in `auto` mode
   * nothing is flattened.
   */
  lemma RunSaveSettings(env: Environment, inputDirectory: string, outputDirectory: string, today: string, cfg: Config)
    ensures var saves := Run(env, inputDirectory, outputDirectory, today, cfg).saves;
      var counted := CountedImages(cfg, env.xlsx + env.xlsm);
      && (forall k :: 0 <= k < |saves| ==> saves[k].options == SaveOptionsFor(saves[k].format))
      && (forall k :: 0 <= k < |saves| ==>
            && k < |counted|
            && (saves[k].flattened <==>
                  cfg.imageFormat != "auto" && saves[k].format == "JPEG" &&
                  (counted[k].image.mode == "RGBA" || counted[k].image.mode == "P"))
            && saves[k].mode == (if saves[k].flattened then "RGB" else counted[k].image.mode)
            && saves[k].succeeded == counted[k].image.saveSucceeds)
      && (cfg.imageFormat == "auto" ==> forall k :: 0 <= k < |saves| ==> !saves[k].flattened)
  {
    var files := env.xlsx + env.xlsm;
    if inputDirectory != "" && env.inputExists && env.mkdirError.None? && files != [] {
      RunAfterScan(env, inputDirectory, outputDirectory, today, cfg);
      var saves := Run(env, inputDirectory, outputDirectory, today, cfg).saves;
      forall k | 0 <= k < |saves| {
        NumberedAt(cfg, saves, CountedImages(cfg, files), k);
      }
    }
  }

  // ---------------------------------------------------------------------------
  // The run as the node executes it: nested loops over files, sheets and images
  // ---------------------------------------------------------------------------

  /**
   * The sheets-and-images part of `extract_images` for one opened workbook:
   * every image that decodes (and, when due, flattens) takes the next
   * counter value before its save is attempted.
   */
  method ExtractWorkbookImages(cfg: Config, stem: string, sheets: seq<Sheet>, totalBefore: nat, savesBefore: seq<SaveAttempt>)
    returns (totalImgCount: nat, fileImgCount: nat, saves: seq<SaveAttempt>)
    ensures Numbering(totalImgCount, saves) == SheetsFold(cfg, stem, Numbering(totalBefore, savesBefore), sheets)
    ensures fileImgCount == totalImgCount - totalBefore
  {
    totalImgCount, saves := totalBefore, savesBefore;
    fileImgCount := 0;
    var j := 0;
    while j < |sheets|
      invariant 0 <= j <= |sheets|
      invariant Numbering(totalImgCount, saves) == SheetsFold(cfg, stem, Numbering(totalBefore, savesBefore), sheets[..j])
      invariant fileImgCount == totalImgCount - totalBefore
    {
      var images := sheets[j];
      ghost var sheetStart := Numbering(totalImgCount, saves);
      var k := 0;
      while k < |images|
        invariant 0 <= k <= |images|
        invariant Numbering(totalImgCount, saves) == ImagesFold(cfg, stem, sheetStart, images[..k])
        invariant fileImgCount == totalImgCount - totalBefore
      {
        var image := images[k];
        if image.Decoded? {
          var target := ResolveFormat(cfg.imageFormat, image.declaredFormat);
          var flatten := NeedsFlatten(cfg.imageFormat, target, image.mode);
          if !flatten || image.flattenSucceeds {
            // the counter moves before the save, so a failed save still uses its number
            totalImgCount := totalImgCount + 1;
            fileImgCount := fileImgCount + 1;
            var fileName := FileName(cfg.prefix, stem, cfg.includeFilename, totalImgCount, target.extension);
            var mode := if flatten then "RGB" else image.mode;
            saves := saves + [SaveAttempt(fileName, target.format, SaveOptionsFor(target.format), mode, flatten, image.saveSucceeds)];
          }
        }
        assert images[..k + 1][..k] == images[..k];
        k := k + 1;
      }
      assert images[..k] == images;
      assert sheets[..j + 1][..j] == sheets[..j];
      j := j + 1;
    }
    assert sheets[..j] == sheets;
  }

  /** `extract_images`: validates the input, derives and creates the output directory, and extracts every image. */
  method ExtractImages(env: Environment, inputDirectory: string, outputDirectory: string, today: string,
                       filenamePrefix: string, imageFormat: string, includeFilename: bool)
    returns (statusText: string, result: RunResult)
    ensures result == Run(env, inputDirectory, outputDirectory, today, Config(filenamePrefix, imageFormat, includeFilename))
    ensures statusText == StatusText(result.report)
  {
    var cfg := Config(filenamePrefix, imageFormat, includeFilename);
    if inputDirectory == "" || !env.inputExists {
      result := RunResult(InputMissing(inputDirectory), None, [], []);
      statusText := StatusText(result.report);
      return;
    }
    var outDir := outputDirectory;
    if IsBlank(outputDirectory) {
      outDir := Paths.JoinPath(inputDirectory, "image-" + today);
    }
    if env.mkdirError.Some? {
      result := RunResult(Failed(env.mkdirError.value), None, [], []);
      statusText := StatusText(result.report);
      return;
    }
    var excelFiles := env.xlsx + env.xlsm;
    if excelFiles == [] {
      result := RunResult(NoExcelFiles(inputDirectory, outDir), Some(outDir), [], []);
      statusText := StatusText(result.report);
      return;
    }

    var totalImgCount: nat := 0;
    var processedFiles: nat := 0;
    var fileLog: seq<FileLog> := [];
    var saves: seq<SaveAttempt> := [];
    var i := 0;
    while i < |excelFiles|
      invariant 0 <= i <= |excelFiles|
      invariant Tally(totalImgCount, processedFiles, fileLog, saves) == WorkbooksFold(cfg, Tally(0, 0, [], []), excelFiles[..i])
    {
      match excelFiles[i] {
        case Unopenable(stem, message) =>
          fileLog := fileLog + [Skipped(stem, message)];
        case Opened(stem, sheets) =>
          processedFiles := processedFiles + 1;
          var fileImgCount;
          totalImgCount, fileImgCount, saves := ExtractWorkbookImages(cfg, stem, sheets, totalImgCount, saves);
          fileLog := fileLog + [Processed(stem, fileImgCount)];
      }
      assert excelFiles[..i + 1][..i] == excelFiles[..i];
      i := i + 1;
    }
    assert excelFiles[..i] == excelFiles;
    var report := if totalImgCount > 0 then Extracted(processedFiles, totalImgCount, outDir) else NoImages(processedFiles, outDir);
    result := RunResult(report, Some(outDir), fileLog, saves);
    statusText := StatusText(report);
  }
}
