/**
 * The main window's view model, `ImageConfig`: the form state the window binds
 * to, its commands (folder and file selection, the width/height radio buttons,
 * closing the dialog, executing the batch) and the validation rules the
 * execute command checks. The image service it is given is seen only through
 * the calls made to it, recorded as `Call` values.
 */
module ViewModel {
  import opened Int32Arith
  import opened Wrappers
  import Paths
  import CollectionValidation
  import CustomiseImage

  const ResizeAndBorderMode: string := "リサイズ + 枠線"
  const ResizeOnlyMode: string := "リサイズのみ"
  const BorderOnlyMode: string := "枠線のみ"

  const ErrorMessage: string := "エラーが発生しました"
  const SuccessMessage: string := "処理が正常に完了しました"

  const ExecuteLabel: string := "実行"
  const BusyLabel: string := "処理中"

  /** The outcome of the folder picker: cancelled, a folder, or the dialog itself threw. */
  datatype FolderPick = FolderCancelled | FolderPicked(folder: string) | FolderDialogFailed

  /** The outcome of the multi-select file picker: cancelled, the full paths chosen, or the dialog itself threw. */
  datatype FilesPick = FilesCancelled | FilesPicked(paths: seq<string>) | FilesDialogFailed

  /** A call of one of the three `Convert` overloads of the image service. */
  datatype Call =
    | ResizeWithBorder(sourceImagePath: string, outputImagePath: string,
                       outputHeight: Int32, outputWidth: Int32, borderSize: Int32, borderColor: CustomiseImage.Color)
    | ResizeOnly(sourceImagePath: string, outputImagePath: string, outputHeight: Int32, outputWidth: Int32)
    | BorderOnly(sourceImagePath: string, outputImagePath: string, borderSize: Int32, borderColor: CustomiseImage.Color)

  predicate IsKnownMode(mode: string) {
    mode == ResizeAndBorderMode || mode == ResizeOnlyMode || mode == BorderOnlyMode
  }

  // ---------------------------------------------------------------------------
  // Folder selection: which files are taken

  /** The extensions folder selection keeps, compared exactly (case-sensitive). */
  predicate IsImageExtension(extension: string) {
    extension in {".jpg", ".jpeg", ".png"}
  }

  predicate IsImagePath(path: string) {
    IsImageExtension(Paths.Extension(path))
  }

  /** The `Where` filter of folder selection: the paths with an image extension, in listing order. */
  function ImagePaths(paths: seq<string>): (images: seq<string>)
    ensures |images| <= |paths|
    ensures forall p :: p in images ==> p in paths && IsImagePath(p)
    ensures forall p :: p in paths && IsImagePath(p) ==> p in images
  {
    if paths == [] then []
    else if IsImagePath(paths[0]) then [paths[0]] + ImagePaths(paths[1..])
    else ImagePaths(paths[1..])
  }

  /** The file-name part of each path, position by position. */
  function FileNames(paths: seq<string>): (names: seq<string>)
  {
    seq(|paths|, i requires 0 <= i < |paths| => Paths.FileName(paths[i]))
  }

  /** Each name combined with a folder, position by position. */
  function CombineAll(folder: string, names: seq<string>): (paths: seq<string>)
    ensures |paths| == |names|
  {
    seq(|names|, i requires 0 <= i < |names| => Paths.Combine(folder, names[i]))
  }

  /** The filter keeps listing order: filtering a concatenation concatenates the filtered parts. */
  lemma {:induction false} ImagePathsAppend(a: seq<string>, b: seq<string>)
    ensures ImagePaths(a + b) == ImagePaths(a) + ImagePaths(b)
    decreases |a|
  {
    if a == [] {
      assert a + b == b;
    } else {
      assert (a + b)[0] == a[0];
      assert (a + b)[1..] == a[1..] + b;
      ImagePathsAppend(a[1..], b);
    }
  }

  /** Every name folder selection puts in the list is a plain file name with an image extension. */
  lemma SelectedNamesAreImages(paths: seq<string>, k: nat)
    requires k < |FileNames(ImagePaths(paths))|
    ensures var name := FileNames(ImagePaths(paths))[k];
            Paths.IsPlainName(name) && IsImageExtension(Paths.Extension(name))
  {
    var p := ImagePaths(paths)[k];
    assert p in ImagePaths(paths);
    Paths.ExtensionOfFileName(p);
    Paths.FileNameIsLastComponent(p);
  }

  /**
   * Files chosen by folder selection are written back: combining a selected
   * name with any output folder gives a path `SaveImage` writes exactly once.
   */
  lemma SelectedImagesAreSaved(paths: seq<string>, outputFolder: string, k: nat)
    requires k < |FileNames(ImagePaths(paths))|
    ensures |CustomiseImage.EncodersFor(Paths.Extension(Paths.Combine(outputFolder, FileNames(ImagePaths(paths))[k])))| == 1
  {
    var name := FileNames(ImagePaths(paths))[k];
    SelectedNamesAreImages(paths, k);
    Paths.ExtensionOfCombine(outputFolder, name);
  }

  /**
   * Picking files of one folder and building the paths from the chosen folder
   * and names again gives back the paths picked.
   */
  lemma PickedFilesRoundTrip(folder: string, names: seq<string>)
    requires names != [] && folder != [] && !Paths.IsSeparator(folder[|folder| - 1])
    requires forall i :: 0 <= i < |names| ==> Paths.IsPlainName(names[i])
    ensures var picked := CombineAll(folder, names);
            && Paths.DirectoryName(picked[0]) == folder
            && FileNames(picked) == names
            && CombineAll(Paths.DirectoryName(picked[0]), FileNames(picked)) == picked
  {
    var picked := CombineAll(folder, names);
    assert picked[0] == Paths.Combine(folder, names[0]);
    Paths.DirectoryNameOfCombine(folder, names[0]);
    FileNamesOfCombineAll(folder, names);
  }

  /** Taking the file names of paths built from a folder and plain names gives the names back. */
  lemma FileNamesOfCombineAll(folder: string, names: seq<string>)
    requires forall i :: 0 <= i < |names| ==> Paths.IsPlainName(names[i])
    ensures FileNames(CombineAll(folder, names)) == names
  {
    var picked := CombineAll(folder, names);
    var back := FileNames(picked);
    forall i | 0 <= i < |names| ensures back[i] == names[i] {
      assert picked[i] == Paths.Combine(folder, names[i]);
      Paths.FileNameOfCombine(folder, names[i]);
    }
  }

  // ---------------------------------------------------------------------------
  // Execution: the calls a batch makes

  /** The call the loop body makes for one source/output pair, by exact match on the process type. */
  function PlannedCall(mode: string, sourceImagePath: string, outputImagePath: string,
                       outputHeight: Int32, outputWidth: Int32, borderSize: Int32,
                       borderColor: CustomiseImage.Color): (call: Option<Call>)
    ensures call.Some? <==> IsKnownMode(mode)
    ensures call.Some? ==> call.value.sourceImagePath == sourceImagePath && call.value.outputImagePath == outputImagePath
    ensures call.Some? && !call.value.ResizeOnly? ==> call.value.borderSize == borderSize && call.value.borderColor == borderColor
    ensures call.Some? && !call.value.BorderOnly? ==> call.value.outputHeight == outputHeight && call.value.outputWidth == outputWidth
  {
    if mode == ResizeAndBorderMode then
      Some(ResizeWithBorder(sourceImagePath, outputImagePath, outputHeight, outputWidth, borderSize, borderColor))
    else if mode == ResizeOnlyMode then
      Some(ResizeOnly(sourceImagePath, outputImagePath, outputHeight, outputWidth))
    else if mode == BorderOnlyMode then
      Some(BorderOnly(sourceImagePath, outputImagePath, borderSize, borderColor))
    else None
  }

  /** The calls a whole batch makes when nothing fails: one per index, in index order. */
  function BatchCalls(mode: string, sources: seq<string>, outputs: seq<string>,
                      outputHeight: Int32, outputWidth: Int32, borderSize: Int32,
                      borderColor: CustomiseImage.Color): (calls: seq<Call>)
    requires |sources| == |outputs|
    ensures IsKnownMode(mode) ==> |calls| == |sources|
    ensures !IsKnownMode(mode) ==> calls == []
    ensures forall i :: 0 <= i < |calls| ==>
              Some(calls[i]) == PlannedCall(mode, sources[i], outputs[i], outputHeight, outputWidth, borderSize, borderColor)
  {
    if !IsKnownMode(mode) then []
    else seq(|sources|, i requires 0 <= i < |sources| =>
               PlannedCall(mode, sources[i], outputs[i], outputHeight, outputWidth, borderSize, borderColor).value)
  }

  /**
   * Each mode calls its own overload with the index's paths and the form's
   * settings, exactly once per index; any other process type calls nothing.
   */
  lemma BatchCallsDispatch(mode: string, sources: seq<string>, outputs: seq<string>,
                           outputHeight: Int32, outputWidth: Int32, borderSize: Int32,
                           borderColor: CustomiseImage.Color, i: nat)
    requires |sources| == |outputs| && i < |sources|
    ensures var calls := BatchCalls(mode, sources, outputs, outputHeight, outputWidth, borderSize, borderColor);
            && (!IsKnownMode(mode) <==> calls == [])
            && (IsKnownMode(mode) ==>
                  |calls| == |sources| && calls[i].sourceImagePath == sources[i] && calls[i].outputImagePath == outputs[i])
            && (mode == ResizeAndBorderMode ==>
                  calls[i] == ResizeWithBorder(sources[i], outputs[i], outputHeight, outputWidth, borderSize, borderColor))
            && (mode == ResizeOnlyMode ==>
                  calls[i] == ResizeOnly(sources[i], outputs[i], outputHeight, outputWidth))
            && (mode == BorderOnlyMode ==>
                  calls[i] == BorderOnly(sources[i], outputs[i], borderSize, borderColor))
  {
  }

  /**
   * The path lists of `ExecuteButtonClick`: for every selected name, its path
   * in the source folder and its path in the output folder.
   */
  method BuildImagePaths(sourceFolderPath: string, outputFolderPath: string, selectedImageNameList: seq<string>)
    returns (sourceImagePaths: seq<string>, outputImagePaths: seq<string>)
    ensures |sourceImagePaths| == |selectedImageNameList| && |outputImagePaths| == |selectedImageNameList|
    ensures forall i :: 0 <= i < |selectedImageNameList| ==>
              sourceImagePaths[i] == Paths.Combine(sourceFolderPath, selectedImageNameList[i]) &&
              outputImagePaths[i] == Paths.Combine(outputFolderPath, selectedImageNameList[i])
  {
    sourceImagePaths, outputImagePaths := [], [];
    for k := 0 to |selectedImageNameList|
      invariant |sourceImagePaths| == k && |outputImagePaths| == k
      invariant forall i :: 0 <= i < k ==>
                  sourceImagePaths[i] == Paths.Combine(sourceFolderPath, selectedImageNameList[i]) &&
                  outputImagePaths[i] == Paths.Combine(outputFolderPath, selectedImageNameList[i])
    {
      var imageName := selectedImageNameList[k];
      sourceImagePaths := sourceImagePaths + [Paths.Combine(sourceFolderPath, imageName)];
      outputImagePaths := outputImagePaths + [Paths.Combine(outputFolderPath, imageName)];
    }
  }

  /**
   * The loop over the indices (`Parallel.For`, here run in index order): each
   * index dispatches on the process type. `fails` says which service calls
   * throw (an unreadable source, an unwritable output); the first that throws
   * ends the batch. The calls made are a prefix of the planned ones, and the
   * batch completes exactly when no planned call throws.
   */
  method RunBatch(mode: string, sources: seq<string>, outputs: seq<string>,
                  outputHeight: Int32, outputWidth: Int32, borderSize: Int32,
                  borderColor: CustomiseImage.Color, fails: Call -> bool)
    returns (attempted: seq<Call>, completed: bool)
    requires |sources| == |outputs|
    ensures var planned := BatchCalls(mode, sources, outputs, outputHeight, outputWidth, borderSize, borderColor);
            && attempted <= planned
            && (completed <==> forall k :: 0 <= k < |planned| ==> !fails(planned[k]))
            && (completed ==> attempted == planned)
            && (!completed ==> attempted != [] && fails(attempted[|attempted| - 1]))
  {
    ghost var planned := BatchCalls(mode, sources, outputs, outputHeight, outputWidth, borderSize, borderColor);
    attempted := [];
    var i := 0;
    while i < |sources|
      invariant 0 <= i <= |sources|
      invariant IsKnownMode(mode) ==> attempted == planned[..i]
      invariant !IsKnownMode(mode) ==> attempted == []
      invariant forall k :: 0 <= k < |attempted| ==> !fails(attempted[k])
    {
      var sourceImagePath := sources[i];
      var outputImagePath := outputs[i];
      var call: Option<Call> := None;
      if mode == ResizeAndBorderMode {
        call := Some(ResizeWithBorder(sourceImagePath, outputImagePath, outputHeight, outputWidth, borderSize, borderColor));
      } else if mode == ResizeOnlyMode {
        call := Some(ResizeOnly(sourceImagePath, outputImagePath, outputHeight, outputWidth));
      } else if mode == BorderOnlyMode {
        call := Some(BorderOnly(sourceImagePath, outputImagePath, borderSize, borderColor));
      }
      if call.Some? {
        assert planned[..i + 1] == planned[..i] + [call.value];
        attempted := attempted + [call.value];
        if fails(call.value) {
          assert planned[i] == call.value;
          return attempted, false;
        }
      }
      i := i + 1;
    }
    assert IsKnownMode(mode) ==> planned[..i] == planned;
    completed := true;
  }

  /**
   * The work inside the `try` of `ExecuteButtonClick` once the form is valid:
   * build both path lists from the selected names, then run the batch.
   */
  method ProcessImages(sourceFolderPath: string, outputFolderPath: string, selectedImageNameList: seq<string>,
                       mode: string, outputHeight: Int32, outputWidth: Int32, borderSize: Int32,
                       borderColor: CustomiseImage.Color, fails: Call -> bool)
    returns (attempted: seq<Call>, completed: bool)
    ensures var planned := BatchCalls(mode, CombineAll(sourceFolderPath, selectedImageNameList),
                                      CombineAll(outputFolderPath, selectedImageNameList),
                                      outputHeight, outputWidth, borderSize, borderColor);
            && attempted <= planned
            && (completed <==> forall k :: 0 <= k < |planned| ==> !fails(planned[k]))
            && (completed ==> attempted == planned)
            && (!completed ==> attempted != [] && fails(attempted[|attempted| - 1]))
  {
    var sourceImagePaths, outputImagePaths := BuildImagePaths(sourceFolderPath, outputFolderPath, selectedImageNameList);
    assert sourceImagePaths == CombineAll(sourceFolderPath, selectedImageNameList);
    assert outputImagePaths == CombineAll(outputFolderPath, selectedImageNameList);
    attempted, completed := RunBatch(mode, sourceImagePaths, outputImagePaths,
                                     outputHeight, outputWidth, borderSize, borderColor, fails);
  }

  // ---------------------------------------------------------------------------
  // Validation rules of the form

  /** The white-space characters `Required` disregards (the ASCII ones). */
  predicate IsWhiteSpace(c: char) {
    c == ' ' || c == '\t' || c == '\n' || c == '\r' || c == '\U{000B}' || c == '\U{000C}'
  }

  /** `[Required]` on a string: present, and not empty or white space only. */
  predicate IsPresent(s: string)
    ensures IsPresent(s) ==> s != []
    ensures s != [] && !IsWhiteSpace(s[0]) ==> IsPresent(s)
  {
    exists i :: 0 <= i < |s| && !IsWhiteSpace(s[i])
  }

  predicate IsHexDigit(c: char) {
    '0' <= c <= '9' || 'a' <= c <= 'f' || 'A' <= c <= 'F'
  }

  /** A whole-string match of `^#[0-9A-Fa-f]{6}$`. */
  predicate IsHexColor(s: string)
    ensures IsHexColor(s) ==> |s| == 7 && forall i :: 0 <= i < |s| ==> !IsWhiteSpace(s[i])
  {
    |s| == 7 && s[0] == '#' && forall i :: 1 <= i < 7 ==> IsHexDigit(s[i])
  }

  /** `[RegularExpression]` accepts the empty string (that is left to `[Required]`) and otherwise needs a whole-string match. */
  predicate MatchesColorPattern(s: string)
    ensures s == [] ==> MatchesColorPattern(s)
    ensures MatchesColorPattern(s) && s != [] ==> |s| == 7 && s[0] == '#'
  {
    s == [] || IsHexColor(s)
  }

  /** `[Range(1, Int32.MaxValue)]`. */
  predicate IsBorderSizeInRange(borderSize: Int32)
    ensures IsBorderSizeInRange(borderSize) <==> borderSize >= 1
  {
    1 <= borderSize <= MaxInt32
  }

  /** The validator on the selection list: at least one element. */
  function SelectionRule(): CollectionValidation.ObservableCollectionValidation {
    CollectionValidation.Create(1, "must be one element")
  }

  /** Both colour rules together accept exactly the `#RRGGBB` strings. */
  lemma ColorRulesAcceptExactlyHexColors(s: string)
    ensures IsPresent(s) && MatchesColorPattern(s) <==> IsHexColor(s)
  {
    if IsHexColor(s) {
      assert !IsWhiteSpace(s[0]);
    }
  }

  /** The default colour passes; a short code, a missing `#` or a non-hex digit does not. */
  lemma ColorExamples()
    ensures IsHexColor("#444444") && IsHexColor("#a0B1c2")
    ensures !IsHexColor("#44444") && !IsHexColor("444444") && !IsHexColor("#44444G")
  {
    assert "#44444G"[6] == 'G';
    assert "444444"[0] != '#';
  }

  // ---------------------------------------------------------------------------
  // The view model

  class ImageConfig {
    var SourceFolderPath: string
    var OutputFolderPath: string
    var SelectedImageNameList: seq<string>
    var OutputWidth: Int32
    var OutputHeight: Int32
    var BorderColor: string
    var BorderSize: Int32
    var IsWidthDecimalUpDownEnabled: bool
    var IsHeightDecimalUpDownEnabled: bool
    var ProcessType: seq<string>
    var SelectedProcessType: string
    var IsDialogOpen: bool
    var DialogMessage: string
    var ExecuteButtonContent: string
    var ExecuteButtonIsEnabled: bool
    var IsIndeterminate: bool
    var IsIndicatorVisible: bool

    /** Exactly one of the two size boxes is enabled. */
    predicate OneDimensionEnabled()
      reads this
    {
      IsWidthDecimalUpDownEnabled != IsHeightDecimalUpDownEnabled
    }

    /** The execute button while a batch runs. */
    predicate Busy()
      reads this
    {
      ExecuteButtonContent == BusyLabel && IsIndeterminate && IsIndicatorVisible && !ExecuteButtonIsEnabled
    }

    /** The execute button when no batch runs. */
    predicate Idle()
      reads this
    {
      ExecuteButtonContent == ExecuteLabel && !IsIndeterminate && !IsIndicatorVisible && ExecuteButtonIsEnabled
    }

    /**
     * `HasErrors` after `ValidateAllProperties`: some field breaks one of its
     * rules. The form passes exactly when both folders hold a non-blank
     * character, at least one name is selected, the colour is `#RRGGBB` and
     * the border is at least 1.
     */
    predicate HasErrors()
      reads this`SourceFolderPath, this`OutputFolderPath, this`SelectedImageNameList,
            this`BorderColor, this`BorderSize
      ensures !HasErrors() <==>
                && IsPresent(SourceFolderPath) && IsPresent(OutputFolderPath)
                && |SelectedImageNameList| >= 1 && IsHexColor(BorderColor) && BorderSize >= 1
    {
      ColorRulesAcceptExactlyHexColors(BorderColor);
      !(&& IsPresent(SourceFolderPath)
        && IsPresent(OutputFolderPath)
        && SelectionRule().IsValid(CollectionValidation.Collection(|SelectedImageNameList|)) == CollectionValidation.Success
        && IsPresent(BorderColor) && MatchesColorPattern(BorderColor)
        && IsBorderSizeInRange(BorderSize))
    }

    /** The calls a batch started from the current form would make. */
    function PlannedBatch(): seq<Call>
      reads this`SourceFolderPath, this`OutputFolderPath, this`SelectedImageNameList,
            this`SelectedProcessType, this`OutputHeight, this`OutputWidth, this`BorderSize, this`BorderColor
    {
      BatchCalls(SelectedProcessType,
                 CombineAll(SourceFolderPath, SelectedImageNameList),
                 CombineAll(OutputFolderPath, SelectedImageNameList),
                 OutputHeight, OutputWidth, BorderSize, BorderColor)
    }

    /** The form as the window first shows it. */
    constructor ()
      ensures SourceFolderPath == "" && OutputFolderPath == "" && SelectedImageNameList == []
      ensures OutputWidth == 708 && OutputHeight == 1
      ensures BorderColor == "#444444" && BorderSize == 1
      ensures IsWidthDecimalUpDownEnabled && !IsHeightDecimalUpDownEnabled
      ensures ProcessType == [ResizeAndBorderMode, ResizeOnlyMode, BorderOnlyMode]
      ensures SelectedProcessType == ResizeAndBorderMode
      ensures !IsDialogOpen && DialogMessage == ""
      ensures Idle() && OneDimensionEnabled()
    {
      SourceFolderPath, OutputFolderPath, SelectedImageNameList := "", "", [];
      OutputWidth, OutputHeight := 708, 1;
      BorderColor, BorderSize := "#444444", 1;
      IsWidthDecimalUpDownEnabled, IsHeightDecimalUpDownEnabled := true, false;
      ProcessType := [ResizeAndBorderMode, ResizeOnlyMode, BorderOnlyMode];
      SelectedProcessType := ResizeAndBorderMode;
      IsDialogOpen, DialogMessage := false, "";
      ExecuteButtonContent, ExecuteButtonIsEnabled := ExecuteLabel, true;
      IsIndeterminate, IsIndicatorVisible := false, false;
    }

    /** `OnSourceFolderPathChanged`: the output folder follows the source folder. */
    method OnSourceFolderPathChanged(value: string)
      modifies this`OutputFolderPath
      ensures OutputFolderPath == value
    {
      OutputFolderPath := value;
    }

    /**
     * The generated `SourceFolderPath` setter: a new value is stored and the
     * change hook runs; setting the value it already has does nothing.
     */
    method SetSourceFolderPath(value: string)
      modifies this`SourceFolderPath, this`OutputFolderPath
      ensures SourceFolderPath == value
      ensures OutputFolderPath == if old(SourceFolderPath) == value then old(OutputFolderPath) else value
    {
      if SourceFolderPath != value {
        SourceFolderPath := value;
        OnSourceFolderPathChanged(value);
      }
    }

    /** `WidthRadioButtonChecked`: the width box is enabled and the height becomes the sentinel. */
    method WidthRadioButtonChecked()
      modifies this`IsWidthDecimalUpDownEnabled, this`IsHeightDecimalUpDownEnabled, this`OutputHeight
      ensures IsWidthDecimalUpDownEnabled && !IsHeightDecimalUpDownEnabled && OutputHeight == 1
      ensures OneDimensionEnabled()
    {
      IsWidthDecimalUpDownEnabled := true;
      IsHeightDecimalUpDownEnabled := false;
      OutputHeight := 1;
    }

    /** `HeightRadioButtonChecked`: the height box is enabled and the width becomes the sentinel. */
    method HeightRadioButtonChecked()
      modifies this`IsWidthDecimalUpDownEnabled, this`IsHeightDecimalUpDownEnabled, this`OutputWidth
      ensures !IsWidthDecimalUpDownEnabled && IsHeightDecimalUpDownEnabled && OutputWidth == 1
      ensures OneDimensionEnabled()
    {
      IsWidthDecimalUpDownEnabled := false;
      IsHeightDecimalUpDownEnabled := true;
      OutputWidth := 1;
    }

    /** `CloseDialogButtonClick`. */
    method CloseDialogButtonClick()
      modifies this`IsDialogOpen
      ensures !IsDialogOpen
    {
      IsDialogOpen := false;
    }

    /**
     * `SelectOutputFolderButtonClick`: a picked folder becomes the output
     * folder; a dialog that throws is reported in the dialog.
     */
    method SelectOutputFolderButtonClick(pick: FolderPick)
      modifies this`OutputFolderPath, this`DialogMessage, this`IsDialogOpen
      ensures OutputFolderPath == if pick.FolderPicked? then pick.folder else old(OutputFolderPath)
      ensures pick.FolderDialogFailed? ==> DialogMessage == ErrorMessage && IsDialogOpen
      ensures !pick.FolderDialogFailed? ==> DialogMessage == old(DialogMessage) && IsDialogOpen == old(IsDialogOpen)
    {
      if pick.FolderDialogFailed? {
        DialogMessage := ErrorMessage;
        IsDialogOpen := true;
      } else if pick.FolderPicked? {
        OutputFolderPath := pick.folder;
      }
    }

    /** The `Clear` and `Add` loop both selection commands end with: the list becomes the paths' file names. */
    method RefillSelection(paths: seq<string>)
      modifies this`SelectedImageNameList
      ensures SelectedImageNameList == FileNames(paths)
    {
      SelectedImageNameList := [];
      for i := 0 to |paths|
        invariant |SelectedImageNameList| == i
        invariant forall k :: 0 <= k < i ==> SelectedImageNameList[k] == Paths.FileName(paths[k])
      {
        SelectedImageNameList := SelectedImageNameList + [Paths.FileName(paths[i])];
      }
    }

    /**
     * `SelectFolderButtonClick`: both folders become the picked folder and the
     * list is refilled with the names of its image files, in listing order.
     * `directoryFiles` gives the files of each existing directory as
     * `Directory.GetFiles` lists them; a missing directory throws, which the
     * command reports in the dialog, as it does a dialog that throws.
     */
    method SelectFolderButtonClick(pick: FolderPick, directoryFiles: map<string, seq<string>>)
      modifies this`SourceFolderPath, this`OutputFolderPath, this`SelectedImageNameList,
               this`DialogMessage, this`IsDialogOpen
      ensures pick.FolderCancelled? ==>
                && SourceFolderPath == old(SourceFolderPath) && OutputFolderPath == old(OutputFolderPath)
                && SelectedImageNameList == old(SelectedImageNameList)
                && DialogMessage == old(DialogMessage) && IsDialogOpen == old(IsDialogOpen)
      ensures pick.FolderDialogFailed? || (pick.FolderPicked? && pick.folder !in directoryFiles) ==>
                && SourceFolderPath == old(SourceFolderPath) && OutputFolderPath == old(OutputFolderPath)
                && SelectedImageNameList == old(SelectedImageNameList)
                && DialogMessage == ErrorMessage && IsDialogOpen
      ensures pick.FolderPicked? && pick.folder in directoryFiles ==>
                && SourceFolderPath == pick.folder && OutputFolderPath == pick.folder
                && SelectedImageNameList == FileNames(ImagePaths(directoryFiles[pick.folder]))
                && DialogMessage == old(DialogMessage) && IsDialogOpen == old(IsDialogOpen)
    {
      if pick.FolderCancelled? {
        return;
      }
      if pick.FolderDialogFailed? || pick.folder !in directoryFiles {
        DialogMessage := ErrorMessage;
        IsDialogOpen := true;
        return;
      }
      var selectedFilesPath := ImagePaths(directoryFiles[pick.folder]);
      SetSourceFolderPath(pick.folder);
      OutputFolderPath := pick.folder;
      RefillSelection(selectedFilesPath);
    }

    /**
     * `SelectFileButtonClick`: both folders become the directory of the first
     * file picked and the list is refilled with the picked names (no filter).
     * An empty pick makes `First()` throw, which the command reports, as it
     * does a dialog that throws.
     */
    method SelectFileButtonClick(pick: FilesPick)
      modifies this`SourceFolderPath, this`OutputFolderPath, this`SelectedImageNameList,
               this`DialogMessage, this`IsDialogOpen
      ensures pick.FilesCancelled? ==>
                && SourceFolderPath == old(SourceFolderPath) && OutputFolderPath == old(OutputFolderPath)
                && SelectedImageNameList == old(SelectedImageNameList)
                && DialogMessage == old(DialogMessage) && IsDialogOpen == old(IsDialogOpen)
      ensures pick.FilesDialogFailed? || (pick.FilesPicked? && pick.paths == []) ==>
                && SourceFolderPath == old(SourceFolderPath) && OutputFolderPath == old(OutputFolderPath)
                && SelectedImageNameList == old(SelectedImageNameList)
                && DialogMessage == ErrorMessage && IsDialogOpen
      ensures pick.FilesPicked? && pick.paths != [] ==>
                && SourceFolderPath == Paths.DirectoryName(pick.paths[0])
                && OutputFolderPath == Paths.DirectoryName(pick.paths[0])
                && SelectedImageNameList == FileNames(pick.paths)
                && DialogMessage == old(DialogMessage) && IsDialogOpen == old(IsDialogOpen)
    {
      if pick.FilesCancelled? {
        return;
      }
      if pick.FilesDialogFailed? || pick.paths == [] {
        DialogMessage := ErrorMessage;
        IsDialogOpen := true;
        return;
      }
      var folder := Paths.DirectoryName(pick.paths[0]);
      SetSourceFolderPath(folder);
      OutputFolderPath := folder;
      RefillSelection(pick.paths);
    }

    /** The start of `ExecuteButtonClick`: the button is disabled, relabelled, and the indicator shown. */
    method BeginExecution()
      modifies this`ExecuteButtonContent, this`IsIndeterminate, this`IsIndicatorVisible, this`ExecuteButtonIsEnabled
      ensures Busy()
    {
      ExecuteButtonContent := BusyLabel;
      IsIndeterminate := true;
      IsIndicatorVisible := true;
      ExecuteButtonIsEnabled := false;
    }

    /** The end of `ExecuteButtonClick`, whatever happened: the button is back and the dialog opens. */
    method EndExecution()
      modifies this`ExecuteButtonContent, this`IsIndeterminate, this`IsIndicatorVisible,
               this`ExecuteButtonIsEnabled, this`IsDialogOpen
      ensures Idle() && IsDialogOpen
    {
      ExecuteButtonContent := ExecuteLabel;
      IsIndeterminate := false;
      IsIndicatorVisible := false;
      ExecuteButtonIsEnabled := true;
      IsDialogOpen := true;
    }

    /**
     * `ExecuteButtonClick`: with a valid form, one service call per selected
     * name in the chosen mode; the dialog then reports success exactly when no
     * call threw. With an invalid form no call is made and the dialog reports
     * the error. Either way the button ends enabled and the dialog open.
     */
    method ExecuteButtonClick(fails: Call -> bool) returns (attempted: seq<Call>)
      modifies this`ExecuteButtonContent, this`IsIndeterminate, this`IsIndicatorVisible,
               this`ExecuteButtonIsEnabled, this`DialogMessage, this`IsDialogOpen
      ensures Idle() && IsDialogOpen
      ensures old(HasErrors()) ==> attempted == [] && DialogMessage == ErrorMessage
      ensures !old(HasErrors()) ==>
                var planned := old(PlannedBatch());
                && attempted <= planned
                && (DialogMessage == SuccessMessage <==> forall k :: 0 <= k < |planned| ==> !fails(planned[k]))
                && (DialogMessage == SuccessMessage ==> attempted == planned)
                && (DialogMessage != SuccessMessage ==> DialogMessage == ErrorMessage)
    {
      var hasErrors := HasErrors();
      BeginExecution();
      if !hasErrors {
        var completed;
        attempted, completed := ProcessImages(SourceFolderPath, OutputFolderPath, SelectedImageNameList,
                                              SelectedProcessType, OutputHeight, OutputWidth, BorderSize, BorderColor, fails);
        if completed {
          DialogMessage := SuccessMessage;
        } else {
          DialogMessage := ErrorMessage;
        }
      } else {
        attempted := [];
        DialogMessage := ErrorMessage;
      }
      EndExecution();
    }
  }

  /** A form that passes validation has at least one name, folders, a `#RRGGBB` colour and a positive border. */
  lemma ValidFormRequirements(sourceFolderPath: string, outputFolderPath: string, names: seq<string>,
                              borderColor: string, borderSize: Int32)
    requires IsPresent(sourceFolderPath) && IsPresent(outputFolderPath)
    requires SelectionRule().IsValid(CollectionValidation.Collection(|names|)) == CollectionValidation.Success
    requires IsPresent(borderColor) && MatchesColorPattern(borderColor) && IsBorderSizeInRange(borderSize)
    ensures |names| >= 1 && IsHexColor(borderColor) && borderSize >= 1
    ensures sourceFolderPath != [] && outputFolderPath != []
  {
    ColorRulesAcceptExactlyHexColors(borderColor);
  }
}
