# FrameResizer in Dafny

FrameResizer is a Windows desktop tool that resizes photos and draws a
coloured border around them, in batches. This project models its decision
logic and proves properties of it:

- **The image service** (`CustomiseImage`). It has three `Convert` overloads:
  resize with a border, resize only, and border only. It also has
  `SaveImage`. An image is reduced to its width and height. A conversion is
  described by what it produces: the canvas size, the fill colour, the size
  of the content drawn on it, where the content is drawn, and the encoders
  the file is written with. Sizes are C# `Int32` values with unchecked
  (wrap-around) arithmetic.
- **The main view model** (`ViewModel.ImageConfig`). It is a class whose
  fields are the form's observable properties. Its methods are the commands:
  - the width and height radio buttons;
  - folder, file and output-folder selection;
  - closing the dialog;
  - executing the batch.
  The generated `SourceFolderPath` setter, with its change hook, is a method
  too. The validation attributes are predicates on the fields. Calls to the
  image service are recorded as `Call` values.
- **The collection-size validation attribute**
  (`CollectionValidation.ObservableCollectionValidation`).
- **The WiX fragment generator** of the installer (`WixComponents`). It
  lists the regular files of a build directory and writes a WiX v4
  `<ComponentGroup>` with one `<Component>` per file, in sorted order.

Supporting modules:

- `Int32Arith`: the `Int32` range and two's-complement wrap-around.
- `Paths`: `Path.Combine`, `GetFileName`, `GetExtension` and
  `GetDirectoryName` on Windows-style paths.
- `Wrappers`: `Option`.

The doc comment of the first `Convert` overload says a dimension of `0`
means "derive it from the other one". The code tests for `1`, and so does
the view model, which resets the other dimension to `1`. The model follows
the code.

Dialogs, directory listings and file systems are inputs:

- a `FolderPick` or `FilesPick` value for a dialog's outcome;
- a map from directory to listed files for `Directory.GetFiles`;
- a map from path to `Directory` for `os.listdir`/`os.path.isfile`.

A call to the image service that throws is given by a predicate
`fails: Call -> bool`. The aspect ratio is an `AspectRatio` value. It holds
two functions: the height that goes with a width, and the width that goes
with a height.

## Model

| member | source | states |
|---|---|---|
| CustomiseImage.DeriveBox | FrameResizer/Service/CustomiseImage.cs:31-34 | The two sentinel tests, run in order, produce exactly `TargetBox`: the height is derived only when the width is above 1 and the height is 1; the width only when the height is above 1 and the width is 1 |
| CustomiseImage.TargetBox | FrameResizer/Service/CustomiseImage.cs:31-34 | At most one dimension is derived. The box keeps the requested width or the requested height. A dimension changes only if it was the sentinel 1 and the other one is above 1 |
| CustomiseImage.TargetBoxDerivesHeight | FrameResizer/Service/CustomiseImage.cs:31-32 | With the width above 1 and the height 1, the width is kept and the height comes from the aspect ratio |
| CustomiseImage.TargetBoxDerivesWidth | FrameResizer/Service/CustomiseImage.cs:33-34 | With the height above 1 and the width 1, the height is kept and the width comes from the aspect ratio |
| CustomiseImage.TargetBoxKeepsRequest | FrameResizer/Service/CustomiseImage.cs:17-18 | Without a sentinel pattern the requested box is used unchanged. This covers both dimensions 1, both above 1, and a 0: the tests at lines 31-34 do not treat 0 as a sentinel, whatever the doc comment says |
| CustomiseImage.Shrink | FrameResizer/Service/CustomiseImage.cs:36-37 | `outer - borderSize * 2` in `Int32` is the exact difference wrapped modulo 2^32. Without overflow, a border on each side of the result adds up to `outer` |
| CustomiseImage.Grow | FrameResizer/Service/CustomiseImage.cs:81-82 | `inner + borderSize * 2` in `Int32` is the exact sum wrapped modulo 2^32. Without overflow, it is `inner` plus a border on each side |
| CustomiseImage.ResizeWithBorder | FrameResizer/Service/CustomiseImage.cs:21-49 | The canvas is the derived box, filled with the border colour. The content is the box shrunk by the border. It is drawn at `(borderSize, borderSize)`, so without overflow `offset + inner + borderSize == outer` in each dimension. The file is written with the encoders its extension selects |
| CustomiseImage.ResizeOnly | FrameResizer/Service/CustomiseImage.cs:55-68 | The output is the derived box, with no fill and no offset. The file is written with the encoders its extension selects |
| CustomiseImage.BorderOnly | FrameResizer/Service/CustomiseImage.cs:75-89 | The content is the unresized source, drawn at `(borderSize, borderSize)` on a filled canvas. Without overflow the canvas is the source plus `2 * borderSize` in each dimension, and `offset + source + borderSize == canvas` |
| CustomiseImage.EncodersFor | FrameResizer/Service/CustomiseImage.cs:98-102 | At most one encoder. PNG exactly for `".png"`; JPEG at quality 100 exactly for `".jpg"` or `".jpeg"`; none for any other extension |
| CustomiseImage.SaveImage | FrameResizer/Service/CustomiseImage.cs:95-103 | The two independent extension tests write with exactly the encoders `EncodersFor` gives for the path's extension, so never with both |
| CustomiseImage.OtherExtensionsAreDropped | FrameResizer/Service/CustomiseImage.cs:99-102 | `.PNG`, `.JPG`, `.Jpeg`, `.bmp` and no extension are not written at all: the match is exact and case-sensitive |
| CustomiseImage.SavedExtensionIsWrittenOnce | FrameResizer/Service/CustomiseImage.cs:99-102 | Each of the three saved extensions is written exactly once |
| CollectionValidation.ObservableCollectionValidation.IsValid | FrameResizer/Utils/ObservableCollectionValidation.cs:19-32 | Success if and only if the value is a collection with `Count >= MinCount`. Every other result is a failure carrying `ErrMsg` |
| CollectionValidation.Create | FrameResizer/Utils/ObservableCollectionValidation.cs:13-17 | The constructor stores `minCount` and `errMsg` unchanged |
| CollectionValidation.IsValidMonotone | FrameResizer/Utils/ObservableCollectionValidation.cs:24 | If a collection passes, any larger collection passes too |
| CollectionValidation.NonCollectionsFail | FrameResizer/Utils/ObservableCollectionValidation.cs:22-31 | Null and non-collections fail with `ErrMsg`, whatever `MinCount` is |
| CollectionValidation.MinCountOneRejectsEmpty | FrameResizer/ViewModel/ImageConfig.cs:109 | With the selection list's minimum of 1, a collection passes if and only if it is non-empty |
| ViewModel.ImageConfig.constructor | FrameResizer/ViewModel/ImageConfig.cs:96-159 | The form's initial values: empty folders and list, width 708, height 1 (the sentinel), colour `#444444`, border 1, width box enabled, the three modes with resize+border selected, and an idle button with the dialog closed |
| ViewModel.ImageConfig.OnSourceFolderPathChanged | FrameResizer/ViewModel/ImageConfig.cs:172-175 | The output folder becomes the new source folder |
| ViewModel.ImageConfig.SetSourceFolderPath | FrameResizer/ViewModel/ImageConfig.cs:97-100 | The source folder takes the new value. The output folder follows it when the value changed and is untouched otherwise; no other field changes |
| ViewModel.ImageConfig.WidthRadioButtonChecked | FrameResizer/ViewModel/ImageConfig.cs:298-303 | The width box is enabled, the height box disabled and the height set to the sentinel 1. Exactly one box is enabled afterwards. The width and every other field are untouched |
| ViewModel.ImageConfig.HeightRadioButtonChecked | FrameResizer/ViewModel/ImageConfig.cs:307-312 | The mirror image: the height box is enabled and the width set to 1. The height and every other field are untouched |
| ViewModel.ImageConfig.CloseDialogButtonClick | FrameResizer/ViewModel/ImageConfig.cs:316 | The dialog is closed, nothing else changes |
| ViewModel.ImageConfig.SelectOutputFolderButtonClick | FrameResizer/ViewModel/ImageConfig.cs:270-294 | A picked folder becomes the output folder. A cancelled dialog changes nothing. A dialog that throws opens the error dialog and leaves the output folder as it was |
| ViewModel.ImageConfig.RefillSelection | FrameResizer/ViewModel/ImageConfig.cs:254-258 | After the clear-and-add loop the list holds the file name of each path, position by position |
| ViewModel.ImageConfig.SelectFolderButtonClick | FrameResizer/ViewModel/ImageConfig.cs:231-265 | On a pick, both folders become the picked folder. The list becomes the file names of its files with an image extension, in listing order. A folder that cannot be listed, or a dialog that throws, leaves the form unchanged and opens the error dialog. Cancel changes nothing |
| ViewModel.ImageConfig.SelectFileButtonClick | FrameResizer/ViewModel/ImageConfig.cs:193-226 | On a pick, both folders become the directory of the first path and the list becomes the file names of all paths, unfiltered. An empty pick, or a dialog that throws, opens the error dialog and changes nothing else. Cancel changes nothing |
| ViewModel.ImagePaths | FrameResizer/ViewModel/ImageConfig.cs:248-251 | The filter keeps exactly the listed paths whose extension is `.jpg`, `.jpeg` or `.png` |
| ViewModel.ImagePathsAppend | FrameResizer/ViewModel/ImageConfig.cs:249-251 | The filter keeps listing order: filtering a concatenation concatenates the filtered parts |
| ViewModel.SelectedNamesAreImages | FrameResizer/ViewModel/ImageConfig.cs:248-258 | Every name folder selection puts in the list is a plain file name with an image extension |
| ViewModel.SelectedImagesAreSaved | FrameResizer/ViewModel/ImageConfig.cs:248-258 | A selected name combined with any output folder is a path `SaveImage` writes exactly once, so no selected image is dropped at save time |
| ViewModel.PickedFilesRoundTrip | FrameResizer/ViewModel/ImageConfig.cs:212-218 | For files picked from one folder, the recovered folder and names rebuild exactly the picked paths. The paths execution builds are then the files the user chose |
| ViewModel.FileNamesOfCombineAll | FrameResizer/ViewModel/ImageConfig.cs:345-348 | Taking file names of paths built from a folder and plain names gives the names back |
| ViewModel.BuildImagePaths | FrameResizer/ViewModel/ImageConfig.cs:340-350 | Both lists are as long as the selection. Entry `i` is the source folder (respectively the output folder) combined with name `i` |
| ViewModel.PlannedCall | FrameResizer/ViewModel/ImageConfig.cs:357-372 | A call is planned if and only if the process type is one of the three modes. It carries the index's source and output paths, the border settings when the overload takes them, and the requested size when the overload takes it |
| ViewModel.BatchCalls | FrameResizer/ViewModel/ImageConfig.cs:352-373 | A known mode plans one call per index and an unknown one none. Entry `i` is the call planned for source `i` and output `i` |
| ViewModel.BatchCallsDispatch | FrameResizer/ViewModel/ImageConfig.cs:352-373 | Each index makes one call with that index's paths. Resize+border calls the six-argument overload, resize-only the four-argument one, border-only the border overload, each with the form's settings. Any other process type makes no call |
| ViewModel.RunBatch | FrameResizer/ViewModel/ImageConfig.cs:352-373 | The calls made are a prefix of the planned calls. The batch completes if and only if no planned call throws, and then every planned call was made. Otherwise the last call made is the one that threw |
| ViewModel.ProcessImages | FrameResizer/ViewModel/ImageConfig.cs:338-376 | The same outcome as `RunBatch`, stated against the calls planned from the folders and the selected names: a prefix of the plan, complete if and only if no planned call throws, and otherwise ending with the call that threw |
| ViewModel.ImageConfig.BeginExecution | FrameResizer/ViewModel/ImageConfig.cs:323-326 | The button is disabled and reads "処理中"; the indicator is shown and indeterminate |
| ViewModel.ImageConfig.EndExecution | FrameResizer/ViewModel/ImageConfig.cs:389-394 | The button is enabled and reads "実行"; the indicator is off and the dialog open |
| ViewModel.ImageConfig.ExecuteButtonClick | FrameResizer/ViewModel/ImageConfig.cs:320-395 | An invalid form makes no call and reports the error. A valid form makes a prefix of the planned calls. It reports success exactly when no planned call throws, and then all were made; otherwise it reports the error. Either way the button ends idle and the dialog open |
| ViewModel.IsPresent | FrameResizer/ViewModel/ImageConfig.cs:99-104 | `Required` rejects the empty string and accepts any string that starts with a non-blank character |
| ViewModel.IsHexColor | FrameResizer/ViewModel/ImageConfig.cs:123 | A whole match of `^#[0-9A-Fa-f]{6}$` is seven characters long and holds no white space |
| ViewModel.MatchesColorPattern | FrameResizer/ViewModel/ImageConfig.cs:123 | The regular-expression rule lets the empty string through (that is left to `Required`). Any other string it accepts is seven characters starting with `#` |
| ViewModel.IsBorderSizeInRange | FrameResizer/ViewModel/ImageConfig.cs:128 | `Range(1, Int32.MaxValue)` on an `Int32` is exactly "at least 1": the upper bound excludes nothing |
| ViewModel.ImageConfig.HasErrors | FrameResizer/ViewModel/ImageConfig.cs:329-331 | The form has no errors if and only if both folders hold a non-blank character, at least one name is selected, the colour is `#RRGGBB` and the border is at least 1 |
| ViewModel.ColorRulesAcceptExactlyHexColors | FrameResizer/ViewModel/ImageConfig.cs:122-123 | `Required` and the regular expression together accept exactly the `#RRGGBB` strings |
| ViewModel.ColorExamples | FrameResizer/ViewModel/ImageConfig.cs:123-124 | The default `#444444` and mixed-case digits match. A five-digit code, a missing `#` and a non-hex digit do not |
| ViewModel.ValidFormRequirements | FrameResizer/ViewModel/ImageConfig.cs:99-128 | A form that passes validation has non-empty folders, at least one selected name, a `#RRGGBB` colour and a border of at least 1 |
| Paths.Combine | FrameResizer/ViewModel/ImageConfig.cs:345-348 | A folder without a trailing separator and a plain name are joined with one backslash |
| Paths.FileNameIsLastComponent | FrameResizer/ViewModel/ImageConfig.cs:217 | The file name is the longest suffix free of separators and of `:` (any colon, not only the colon of a drive root) |
| Paths.Extension | FrameResizer/Service/CustomiseImage.cs:98 | The extension is empty, or a suffix of the path of at least two characters that starts at the last dot of the file name, with no dot or separator after it. Whenever the file name has a last dot that is not its final character, the extension is the suffix from that dot, so `"a.png"` has `".png"` |
| Paths.FileName | FrameResizer/ViewModel/ImageConfig.cs:217 | The file name is no longer than the path and is empty when the path ends with a separator or a colon. `FileNameIsLastComponent` gives the full characterisation |
| Paths.ExtensionOfFileName | FrameResizer/ViewModel/ImageConfig.cs:250-257 | Taking the file name keeps the extension |
| Paths.FileNameOfCombine | FrameResizer/ViewModel/ImageConfig.cs:345-348 | The file name of a folder combined with a plain name is that name |
| Paths.ExtensionOfCombine | FrameResizer/ViewModel/ImageConfig.cs:348 | Combining with a folder keeps a plain name's extension |
| Paths.DirectoryName | FrameResizer/ViewModel/ImageConfig.cs:212 | The directory name is everything before the last separator, or empty when there is none |
| Paths.DirectoryNameOfCombine | FrameResizer/ViewModel/ImageConfig.cs:212-213 | The directory name of a folder combined with a plain name is the folder |
| Int32Arith.Wrap | FrameResizer/Service/CustomiseImage.cs:36-37 | A result that fits in `Int32` is kept as it is |
| Int32Arith.WrapIsCongruent | FrameResizer/Service/CustomiseImage.cs:36-37 | The wrapped value differs from the exact result by a multiple of 2^32 |
| Int32Arith.WrapCongruent | FrameResizer/Service/CustomiseImage.cs:81-82 | Results that differ by a multiple of 2^32 wrap to the same `Int32` |
| WixComponents.ReplaceAll | FrameResizerMSI/generate_wix_components.py:6 | A replacement as long as the pattern keeps the length. A string starting with the pattern starts with the replacement. One that does not starts with its own first character |
| WixComponents.ReplaceAllWithoutPattern | FrameResizerMSI/generate_wix_components.py:6 | A path without `$(Configuration)` is looked up as it is |
| WixComponents.SinglePlaceholderSubstituted | FrameResizerMSI/generate_wix_components.py:6 | A path with one `$(Configuration)` is looked up with the configuration in its place |
| WixComponents.RegularFiles | FrameResizerMSI/generate_wix_components.py:16 | Exactly the entry names for which `isfile` holds are kept |
| WixComponents.LexLe | FrameResizerMSI/generate_wix_components.py:32 | Python's string order: a prefix comes first, and an ordered pair of non-empty strings has ordered first characters |
| WixComponents.Insert | FrameResizerMSI/generate_wix_components.py:32 | Inserting into a sorted list keeps it sorted and adds exactly the new name |
| WixComponents.Sort | FrameResizerMSI/generate_wix_components.py:32 | `sorted` returns an ascending permutation of its input |
| WixComponents.SortedUnique | FrameResizerMSI/generate_wix_components.py:32 | Two ascending arrangements of the same names are equal |
| WixComponents.SortIgnoresListingOrder | FrameResizerMSI/generate_wix_components.py:32 | Sorting gives the same list whatever the input order |
| WixComponents.Components | FrameResizerMSI/generate_wix_components.py:32-35 | Each file contributes three lines |
| WixComponents.ComponentsAt | FrameResizerMSI/generate_wix_components.py:32-35 | Block `k` of the components is the `<Component>` of file `k` |
| WixComponents.BuildFragmentLines | FrameResizerMSI/generate_wix_components.py:26-39 | The appended lines are the header, one block per file in the given order, and the footer |
| WixComponents.Fragment | FrameResizerMSI/generate_wix_components.py:4-41 | A fragment exists only for a readable substituted path. It starts with the `<Wix>` line and ends with `</Wix>` |
| WixComponents.GenerateWixComponents | FrameResizerMSI/generate_wix_components.py:4-41 | The result is the `Fragment` specification for every input and file system |
| WixComponents.FragmentNoneCases | FrameResizerMSI/generate_wix_components.py:9-23 | No fragment if and only if the substituted path is missing or unreadable, or holds no regular file |
| WixComponents.FragmentLinesShape | FrameResizerMSI/generate_wix_components.py:27-39 | The lines are `6 + 3 * n`: the three opening lines, one block per file, the three closing lines |
| WixComponents.FragmentText | FrameResizerMSI/generate_wix_components.py:41 | If no name or path holds a newline, splitting the text at newlines gives back those `6 + 3 * n` lines. The text ends with `</Wix>` and no trailing newline |
| WixComponents.FragmentContents | FrameResizerMSI/generate_wix_components.py:16-41 | A fragment lists exactly the regular files of the substituted path, in sorted order. Each `Source` is the unsubstituted path, a backslash and the name |
| WixComponents.FragmentIgnoresListingOrder | FrameResizerMSI/generate_wix_components.py:16-32 | The fragment does not depend on the order the directory lists its files in |
| WixComponents.Join | FrameResizerMSI/generate_wix_components.py:41 | The joined text starts with the first line, and a newline follows it when there is a second line |
| WixComponents.SplitJoin | FrameResizerMSI/generate_wix_components.py:41 | Splitting newline-joined lines at newlines gives the lines back, when no line holds a newline |
| WixComponents.JoinEndsWithLastLine | FrameResizerMSI/generate_wix_components.py:41 | Joined text ends with the last line, so no newline follows it |

## Left out

- Pixel work is not modelled. This covers ImageSharp's `Image.Load`, `Resize`, `Fill`, `DrawImage`, `Save`, the encoders and `Color.ParseHex`. An image is its size; a conversion is its canvas, fill, content size, offset and encoders. The border colour stays the validated `#RRGGBB` string.
- The floating-point aspect ratio and the `(Int32)` cast are not modelled. The derived dimension comes from the two functions of `AspectRatio`, and nothing is claimed about their values.
- CustomiseImage.ResizeWithBorder: the content size is taken to be exactly the size passed to `Resize`. What ImageSharp does with a zero or negative size is not modelled. A call that throws is the `fails` predicate in the view model.
- CustomiseImage.ResizeOnly: the output size is taken to be exactly the box passed to `Resize`. ImageSharp's rule that a 0 width or height keeps the aspect ratio is not modelled. So for a request such as height 0, width 708, the model gives a 708×0 box where the program writes an image whose height follows the aspect ratio.
- `Parallel.For` runs in index order, and the batch stops at the first call that throws. In the real loop, iterations already running when one throws may still finish. `async` and `Task.Delay(1000)` are left out. The model validates the form and plans the batch from one state, with no command running during the await. In the program the UI thread is free for that second: other commands and bindings can change the folders, the selection, the colour, the mode and the size before the loop reads them.
- Exceptions are not modelled by type. Each catch-all becomes one outcome: the error dialog in the three selection commands (a dialog that throws is a pick outcome of its own), the error message in `ExecuteButtonClick`.
- Dialogs, `Directory.GetFiles`, `os.listdir`, `os.path.exists` and `os.path.isfile` are parameters. A path missing from the map is one that does not exist, or that `GetFiles` cannot list.
- `Path.Combine`, `GetFileName`, `GetExtension` and `GetDirectoryName` are simplified. Invalid characters, UNC and device paths, and .NET's trimming rules are left out. Paths.DirectoryName: returns `""` for a path without a separator. .NET keeps the separator of a root such as `C:\` and returns null for a root itself. It also normalises `/` to `\`, so `C:/a/b.png` gives `C:\a` in .NET and `C:/a` here.
- Paths.FileName: stops at any `:`. .NET 8 stops only at a separator or at the colon of a drive root, so `C:\d\f.txt:s` gives `s` here and `f.txt:s` in .NET. Paths.Extension likewise stops at any `:`, which .NET 8's `GetExtension` ignores.
- The `ObservableValidator` machinery is not modelled: `ValidateAllProperties`, `ErrorsChanged`, the error list and its messages. `HasErrors` is the negated conjunction of the field rules. `Required` treats only the ASCII white-space characters as blank.
- `OnErrorsChanged` does nothing, and FrameResizer/App.xaml.cs and FrameResizer/View/MainWindow.xaml.cs are wiring; none of these are modelled. FrameResizer/Interface/ICustomiseImage.cs only declares the three `Convert` signatures.
- In generate_wix_components.py, `main`, argparse, console messages and writing the output file are not modelled.
- WixComponents.GenerateWixComponents: `configuration` is a required parameter. The Python default `"Release"` is not modelled, because `main` always passes argparse's value.
- `sorted` compares strings by code point, as Python does. Equal names cannot occur in one directory, so stability does not matter.
