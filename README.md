# PD ComfyUI nodes: Excel image extraction, LoRA information, model inspector

This project models three ComfyUI custom nodes in Dafny and proves properties
of the model.

- **`PD_excel_image.extract_images`** scans an input directory for `*.xlsx`
  and `*.xlsm` workbooks and walks each workbook's sheets and embedded
  images. It resolves a save format and file extension for every image it
  can decode (`auto`, or an explicit choice with `jpg` read as JPEG), and
  flattens transparency onto white when an explicit choice converts an RGBA
  or palette image to JPEG. For every image it can decode and, when due,
  flatten, it:
  - numbers the image with a run-wide counter and derives the file name;
  - saves it with format-specific options.

  An image that fails to decode or to flatten is skipped without a number.

  It returns one of five status texts. The filesystem, the workbook reader and
  the image library are abstracted as outcomes handed to the run (module
  `ExcelImage`).
- **`PD_LoraInfo.get_lora_info`** and **`PD_LoraInfoSimple.get_lora_info_simple`**
  build a ten-line report for one LoRA. The report holds:
  - the base name (`splitext(basename(name))[0]`);
  - the full path;
  - both strengths formatted with `:.2f`;
  - one effect line per strength (positive, negative or no effect).

  **`PD_LoraInfoMulti.get_multi_lora_info`** reports up to three LoRA slots.
  A slot is active when its name is given and is not `"None"`. Each active
  slot adds a four-line block, and the report ends with a count line (or
  `未配置任何 LoRA` when no slot is active) and a closing rule. The
  node also returns the active base names, comma-separated, or `无` when there
  are none. The report values are in module `LoraReport`, the nodes in module
  `LoraInfo`.
- **`PD_ModelInspector.inspect_model`** lists an object's attributes in
  `dir()` order. It then reports:
  - all names not starting with `__`;
  - every name containing `lora` and every name containing `name`, case
    insensitively, over the unfiltered list;
  - the five common attributes `model`, `model_config`, `model_options`,
    `patches` and `patches_list`, with the lora keys of a dict value.

  The object is abstracted as what reflection shows of it: its type text, its
  class name, its `dir()` names and the outcome of `getattr` for each name
  (module `ModelInspector`).

Supporting modules:

- `Text`: the Python `str` operations used (`*`, `join`, `lower`, `upper`,
  `in`, `startswith`, `str(n)`). It also defines `split` on `\n`, which no node
  calls: it serves the round-trip lemmas `SplitJoin`, `JoinSplit` and
  `ReportSplitsIntoLines`.
- `Paths`: `posixpath.join` (`JoinPath`), `basename` and `splitext`.
- `Fixed`: `f"{x:.2f}"` on the exact real a float denotes.
- `Seqs`: list comprehensions with a condition, and flattening.
- `Wrappers`: `Option`.

Each node that builds its result step by step is a method that builds the
list as the node does. Each such method is proved equal to a specification
function, and the properties are proved about those functions:

- `ExcelImage.ExtractImages` against `ExcelImage.Run`;
- `LoraInfo.GetMultiLoraInfo` against `LoraReport.MultiReportLines`;
- `ModelInspector.InspectModel` against `ModelInspector.Inspect`.

The per-workbook sheet and image loops of `extract_images` are written as a
method of their own, `ExcelImage.ExtractWorkbookImages`, which the outer loop
calls. The inspector's listing, match and common-attribute loops are written
the same way: `ReportAttributes`, `ReportMatches` (used for both the `lora`
and the `name` sections, whose code is the same) and `ReportCommon`.

## Model

| member | source | states |
|---|---|---|
| ExcelImage.JpgSpelling | py/excel_image.py:131-137 | an explicit choice spelled `jpg` in any letter case gets the extension `jpg` |
| ExcelImage.ResolvedTarget | py/excel_image.py:127-137 | in `auto` mode the declared format is used, or PNG when there is none, with its lower-cased extension; an explicit choice gives the upper-cased format and the lower-cased extension, with `JPG` turned into `JPEG`; the extension is always lower case and is the lower-cased format except for JPEG/`jpg` |
| ExcelImage.OfferedChoices | py/excel_image.py:127-137 | the offered choices png, jpg, jpeg, bmp and gif resolve to PNG/png, JPEG/jpg, JPEG/jpeg, BMP/bmp and GIF/gif, whatever the image declares |
| ExcelImage.FileNameCounter | py/excel_image.py:152-155 | the counter can be read back from any generated file name whose extension has no `.`, with or without the workbook stem |
| ExcelImage.FileNamesDiffer | py/excel_image.py:149-155 | two file names generated with the same prefix and naming mode but different counters differ |
| ExcelImage.ImagesFold | py/excel_image.py:112-150 | walking a sheet's images never lowers the run-wide image total |
| ExcelImage.SheetsFold | py/excel_image.py:107-150 | walking a workbook's sheets never lowers the run-wide image total |
| ExcelImage.Attempts | py/excel_image.py:149-168 | there is exactly one save per counted image |
| ExcelImage.NumberedAt | py/excel_image.py:149-168 | the k-th save is the save of the k-th counted image with counter k + 1 |
| ExcelImage.ImagesFoldNumbers | py/excel_image.py:112-173 | after a sheet's images the total equals the number of saves, and the new saves are those of the sheet's countable images, numbered on in order |
| ExcelImage.SheetsFoldNumbers | py/excel_image.py:107-173 | the same over all sheets of a workbook |
| ExcelImage.FileLogs | py/excel_image.py:175-182 | one log entry per workbook, in order: skipped with its error, or opened with its image count |
| ExcelImage.WorkbookStepNumbers | py/excel_image.py:100-182 | one workbook numbers its countable images on from the run's tally, counts as processed exactly when it opens, and adds its log entry |
| ExcelImage.WorkbooksFoldNumbers | py/excel_image.py:96-182 | over all workbooks: saves numbered over every counted image in visiting order, processed equals the number of workbooks that open, logs in order |
| ExcelImage.ScanTally | py/excel_image.py:92-182 | from an empty tally the total is the number of counted images and the processed count the number of opened workbooks |
| ExcelImage.RunBeforeScan | py/excel_image.py:63-87 | a missing or empty input directory returns the missing-input text with no directory created; a failing mkdir returns the error text; no workbooks returns the no-files text; a directory is created exactly when the input exists and mkdir succeeds |
| ExcelImage.RunAfterScan | py/excel_image.py:84-192 | with workbooks found, the saves are numbered over the counted images; the report is success with the processed and image counts when an image was counted, else no-images; the output directory is created |
| ExcelImage.DefaultOutputDirectory | py/excel_image.py:71-73 | a blank output directory (by `str.isspace`) becomes `input/image-<date>`; any other is used as given |
| ExcelImage.ExtensionDotFree | py/excel_image.py:127-137 | when neither the choice nor the declared format holds a `.`, neither does the extension |
| ExcelImage.NumberedNamesDistinct | py/excel_image.py:149-158 | numbered saves get pairwise different file names |
| ExcelImage.RunFileNamesDistinct | py/excel_image.py:149-158 | no two images saved in one run get the same file name when no format holds a `.` |
| ExcelImage.RunSaveSettings | py/excel_image.py:139-168 | every save uses the options of its format (quality 95 and optimize for JPEG, optimize for PNG); an image is flattened exactly when an explicit choice resolves to JPEG and its mode is RGBA or P, and then it is saved as RGB; `auto` never flattens |
| ExcelImage.StatusText | py/excel_image.py:184-197 | the five status texts are told apart by their first character: success, error (missing input or failure) and information (no files or no images) |
| ExcelImage.ExtractWorkbookImages | py/excel_image.py:103-173 | the per-workbook loops leave the total and the saves that the sheet fold gives, and the workbook's image count is the growth of the total |
| ExcelImage.ExtractImages | py/excel_image.py:47-197 | the run equals `Run` for the same environment and options, and the status text is that of its report |
| Fixed.RoundHalfEven | py/PD_LoraInfo.py:78 | the nearest integer, with ties going to the even neighbour |
| Fixed.Fmt2Rounds | py/PD_LoraInfo.py:78 | the two-decimal value is within half a hundredth of x, and is x itself when x has at most two decimals |
| Fixed.RenderParts | py/PD_LoraInfo.py:78 | the text is an optional minus sign, the integer part, a dot and exactly two digits |
| Fixed.RenderInjective | py/PD_LoraInfo.py:78 | different two-decimal values give different texts |
| Fixed.Fmt2SingleLine | py/PD_LoraInfo.py:78 | a formatted strength never holds a newline |
| Fixed.Fmt2Samples | py/PD_LoraInfo.py:78 | 1.0 gives `1.00`, -0.5 gives `-0.50`, 0.125 gives `0.12` (tie to even) and -0.001 gives `-0.00` |
| Paths.Basename | py/PD_LoraInfo.py:69 | the base name holds no `/`, is a suffix of the path, and follows a `/` when shorter than the path |
| Paths.SplitExt | py/PD_LoraInfo.py:69 | root and extension concatenate back to the path; the extension is empty or one dot followed by neither dots nor slashes |
| Paths.BaseName | py/PD_LoraInfo.py:69 | the LoRA base name holds no `/` |
| Paths.BaseNameAvoids | py/PD_LoraInfo.py:69 | a character absent from the path is absent from its base name |
| Paths.BasenameAfterDirectory | py/PD_LoraInfo.py:69 | the base name of a directory followed by a file name is that file name |
| Paths.SplitExtAtLastDot | py/PD_LoraInfo.py:69 | splitting `stem.ext` gives back the stem when the stem has a non-dot character |
| Paths.SplitExtLeadingDots | py/PD_LoraInfo.py:69 | a final component made of dots followed by a dot-free rest has an empty extension, so `.bashrc` keeps its leading dot as `splitext` does |
| Paths.BaseNameOfPath | py/PD_LoraInfo.py:69 | the base name of `dir/stem.ext` is `stem` |
| Text.SplitJoin | py/PD_LoraInfo.py:99 | splitting the newline-joined report gives back its lines when no line holds a newline |
| Text.JoinSplit | py/PD_LoraInfo.py:99 | joining the pieces of a split gives back the text |
| Text.ParseNatToString | py/excel_image.py:153 | reading back the decimal text of the counter gives the counter |
| Text.NatToStringInjective | py/excel_image.py:153 | different counters have different decimal texts |
| Text.LowerUpper | py/PD_ModelInspector.py:70 | lowering the upper-case form of a name equals lowering the name |
| LoraReport.PrefixesDiffer | py/PD_LoraInfo.py:83-97 | the positive and negative effect prefixes differ, and neither is a prefix of the other |
| LoraReport.SignedEffectLine | py/PD_LoraInfo.py:83-87 | for a non-zero strength the line is the sign's prefix followed by the strength in two decimals |
| LoraReport.EffectLineBySign | py/PD_LoraInfo.py:83-97 | the line starts with the positive prefix exactly when the strength is positive, with the negative prefix exactly when it is negative, and is the no-effect line exactly when it is zero |
| LoraReport.ReportLines | py/PD_LoraInfo.py:72-97 | the single-LoRA report has ten lines |
| LoraReport.EffectLineSingle | py/PD_LoraInfo.py:83-97 | an effect line holds no newline |
| LoraReport.ReportLinesSingle | py/PD_LoraInfo.py:72-97 | no report line holds a newline when the LoRA path holds none |
| LoraReport.ReportSplitsIntoLines | py/PD_LoraInfo.py:72-99 | splitting the report text on newlines gives back the ten lines |
| LoraReport.ActiveSlots | py/PD_LoraInfo.py:257-262 | the active slots are numbers from 1 to k whose slot is active |
| LoraReport.ActiveSlotsExact | py/PD_LoraInfo.py:257-262 | the active slots are strictly increasing, and every active slot up to k is among them |
| LoraReport.ActiveRawNamesInSlotOrder | py/PD_LoraInfo.py:262-269 | the j-th collected name is the name of the j-th active slot |
| LoraReport.ActiveNamesInSlotOrder | py/PD_LoraInfo.py:262-269 | the j-th listed name is the base name of the j-th active slot's name |
| LoraReport.ActiveNamesEmpty | py/PD_LoraInfo.py:262-279 | the name list is empty exactly when no slot is active |
| LoraReport.SlotsLinesLength | py/PD_LoraInfo.py:272-275 | each active slot contributes four lines |
| LoraReport.SlotActiveIff | py/PD_LoraInfo.py:258-262 | slot i is active exactly when `lora_i_name` is given and is not `"None"` |
| LoraReport.MultiNames | py/PD_LoraInfo.py:277-282 | at most three names; none exactly when no slot has a name that is given and is not `"None"`; the footer is "未配置任何 LoRA" for none, else the number of active slots |
| LoraReport.MultiFrame | py/PD_LoraInfo.py:252-284 | the multi report opens with the rule, the title and the rule, ends with the rule, and has 5 + 4 × (active slots) lines |
| LoraInfo.EffectText | py/PD_LoraInfo.py:83-89 | the line starts with the positive prefix exactly when the strength is positive, with the negative prefix exactly when it is negative, and is the no-effect line exactly when it is zero |
| LoraInfo.GetLoraInfoSimple | py/PD_LoraInfo.py:159-195 | returns the base name and the newline-joined ten-line report |
| LoraInfo.GetLoraInfo | py/PD_LoraInfo.py:68-104 | returns model and clip unchanged, with the same name and report |
| LoraInfo.GetMultiLoraInfo | py/PD_LoraInfo.py:250-291 | returns model and clip unchanged, the active base names in slot order (or `无`), and the newline-joined multi report |
| ModelInspector.Lookup | py/PD_ModelInspector.py:56 | a name the object does not resolve raises `AttributeError` |
| ModelInspector.VisibleNames | py/PD_ModelInspector.py:52-54 | the listed names are exactly the `dir()` names not starting with `__` |
| ModelInspector.MatchingNames | py/PD_ModelInspector.py:70 | the matches are exactly the `dir()` names, dunders included, whose lower-cased form contains the word |
| ModelInspector.LoraKeys | py/PD_ModelInspector.py:116 | the lora keys are exactly the dict's keys whose lower-cased `str` contains `lora` |
| ModelInspector.KeyList | py/PD_ModelInspector.py:118 | the rendered key list is bracketed |
| ModelInspector.DetailLines | py/PD_ModelInspector.py:73-81 | one detail line per matched name, in order |
| ModelInspector.CommonEntry | py/PD_ModelInspector.py:112-118 | a present common attribute gives its type line, plus a second line exactly when it is a dict with a key containing `lora` |
| ModelInspector.PresentNames | py/PD_ModelInspector.py:108-110 | the present common attributes are exactly those whose lookup succeeds |
| ModelInspector.CommonRaisePersists | py/PD_ModelInspector.py:109-110 | once an exception has escaped `hasattr`, later common attributes change nothing |
| ModelInspector.ListingIsFilter | py/PD_ModelInspector.py:52-64 | the full listing has exactly one line per non-dunder name, in `dir()` order |
| ModelInspector.MatchSection | py/PD_ModelInspector.py:70-83 | a match section has one line more than the matches: the not-found line exactly when nothing matched, otherwise the count line followed by one line per match |
| ModelInspector.CountLineInjective | py/PD_ModelInspector.py:72 | the count line determines the number of matches |
| ModelInspector.CommonRaisesIff | py/PD_ModelInspector.py:108-120 | the common section ends the node exactly when a common attribute raises something other than `AttributeError`, and then with the first such exception |
| ModelInspector.CommonLinesCount | py/PD_ModelInspector.py:108-118 | each present common attribute adds one or two lines, and absent ones add none |
| ModelInspector.InspectFrame | py/PD_ModelInspector.py:39-127 | the node returns unless an exception escapes `hasattr`; it then hands back the same model, and its report opens with the title between two rules and ends with a rule on a line of its own |
| ModelInspector.DunderLoraReported | py/PD_ModelInspector.py:52-70 | `__lora__` is left out of the listing but found by the lora filter |
| ModelInspector.MentionsIgnoresCase | py/PD_ModelInspector.py:70 | a name matches exactly when its upper-case form does |
| ModelInspector.ReportAttributes | py/PD_ModelInspector.py:52-64 | the listing loop appends exactly the listing lines |
| ModelInspector.ReportMatches | py/PD_ModelInspector.py:70-83 | the match-section code appends exactly the section's lines |
| ModelInspector.ReportCommon | py/PD_ModelInspector.py:108-120 | the common loop appends the common lines, or stops with the exception that escaped `hasattr` |
| ModelInspector.InspectModel | py/PD_ModelInspector.py:39-127 | the node's result equals `Inspect` of the object |

## Left out

- Filesystem, openpyxl and PIL: directory existence, `mkdir`, `glob`, `load_workbook`, image decoding, compositing and `save` are outcomes given to the run. Saving writes nothing; the save attempts are the observable effect.
- The order of `glob` results is taken as given; the model fixes only `*.xlsx` before `*.xlsm`.
- `datetime.now()`: the `%Y%m%d` date is a parameter.
- `print` calls (console logging) are not modelled; the per-workbook log entries stand in for the lines that carry counts.
- ExcelImage.Run: the outer `except` is modelled for a failing `mkdir` only; other failures of the filesystem layer, such as `glob` raising, are not modelled.
- ExcelImage.ImagesFold: the ensures states only that the total never falls; the numbering of the saves is stated by `ImagesFoldNumbers`.
- ExcelImage.SheetsFold: the ensures states only that the total never falls; the numbering is stated by `SheetsFoldNumbers`.
- Floats: strengths are the exact reals the floats denote. NaN and infinities are not modelled.
- Fixed.Fmt2: -0.0 is the real 0 and renders `0.00` where Python prints `-0.00`.
- Case mapping covers ASCII letters only; Python's full Unicode `lower`/`upper` is not modelled.
- Paths are POSIX; Windows separators are not modelled.
- The `**kwargs` of `get_multi_lora_info` are two typed maps, names and strengths; values of other types are not modelled.
- Python reflection (`dir`, `getattr`, `hasattr`, `type(...).__name__`, `str`, `repr`) is abstracted: the object gives its names, its attribute outcomes, its type names and its texts.
- `dir()` returns names sorted; the model takes the names in whatever order they are given and does not rely on sorting.
- ModelInspector.KeyList: the ensures states only the brackets; each key's `repr` is given, not computed.
- ModelInspector.CommonLinesCount: it bounds the line count by one or two per present attribute rather than giving the exact count.
- The `except` branch at py/PD_ModelInspector.py:119-120 is not modelled. The model treats `keys()` of a dict and `str`/`repr` of its keys as given texts that cannot fail. In Python any of them can raise, and the node then appends `<无法访问: …>` after the type line. The model also assumes `getattr` gives the same outcome each time, so it has no other path to that branch either.
- `INPUT_TYPES`, the `NODE_CLASS_MAPPINGS`/`NODE_DISPLAY_NAME_MAPPINGS` registration tables, `folder_paths` and the unused `torch` import are not modelled.
- py/py_conda_comfyui.py holds shell commands for setting up an environment, not node logic, and is not part of this model.
