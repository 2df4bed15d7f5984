# GO-WinFilePicker in Dafny

GO-WinFilePicker opens the Windows "open file" dialog (`IFileOpenDialog`)
from Go through raw COM calls. It offers four entry points:

- `SelectFile` returns one path.
- `SelectFiles` returns several paths.
- `SelectFolder` returns one folder.
- `SelectFolders` returns several folders.

All four run `showOpenDialog`, whose steps are:

1. Initialise COM and create the dialog.
2. Read the dialog's option word, add the requested flags and write it back.
3. Set the title and a "Supported Files" extension filter.
4. Show the dialog modally.
5. Read back either the result array (multi-select) or the single result item.
6. Turn each item into a path with `getPathFromItem` (GetDisplayName, then decoding the UTF-16 buffer).

A separate demo program (`main.go`) has its own, stricter `SelectFile` and
`SelectFolder`.

This project models both files. The operating system is a scripted
`Backend` object (module `Com`):

- Its `script` fixes the HRESULT each COM call returns, the option word the
  dialog reports, the chosen items and their display-name buffers.
- Its `log` records every call in order, with the HRESULT the call got.

Each Go function is an imperative method that drives the backend. Its
contract ties the new log and its result to a pure function of the script:

- `WinFilePicker.Session` for the library.
- `MainProgram.Strict` for the demo program.

The lemmas state what the code promises about those functions:

- Every handle is released exactly once, in defer order (module `Ledger`
  replays the log against a stack of held resources).
- A failed session stops at the call its error names.
- The option word, title and filter are installed as described.
- The multi-select loop returns exactly the usable paths, in order.
- The filter string reads back as the patterns it was built from.

Modules:

- `Utf16`: NUL-terminated UTF-16 buffers, and decoding by Go's `unicode/utf16` rules.
- `Com`: HRESULT and `FAILED`, the option flags, the call log and the scripted backend.
- `Ledger`: the resource discipline and where a log stops.
- `WinFilePicker`: the library (`GO-WinFilePicker.go`).
- `SessionFacts`: the lemmas about the library.
- `FilterFacts`: the filter string read back.
- `MainProgram`: the demo program (`main.go`).
- `MainFacts`: the lemmas about the demo program, and how it compares with the library.

## Model

| member | source | states |
|---|---|---|
| Com.FailedIsSeverityBit | GO-WinFilePicker.go:139-141 | FAILED (int32 of the returned word is negative) holds exactly when bit 31 of the word is set |
| Com.FailedReadsLowWordOnly | GO-WinFilePicker.go:139-141 | bits above the low 32 of the uintptr never change the FAILED verdict |
| Com.Int32Range | GO-WinFilePicker.go:140 | Go's int32(hr) lands in the int32 range and keeps the low 32 bits of hr |
| Utf16.Decode | GO-WinFilePicker.go:132 | syscall.UTF16ToString's decoding yields at most one character per unit, and nothing exactly for no units |
| Utf16.CStringStopsAtNul | GO-WinFilePicker.go:121-132 | the converted string is the decoding of the units before the first NUL; units after it are never read |
| Utf16.CStringEmptyIff | GO-WinFilePicker.go:117-127 | the conversion gives "" exactly for a nil pointer or a buffer that starts with NUL |
| WinFilePicker.Utf16PtrToString | GO-WinFilePicker.go:117-133 | the length scan, copy and decode return the string the nil-or-NUL-terminated buffer stands for |
| WinFilePicker.OptionsKeepCurrent | GO-WinFilePicker.go:194-207 | every bit the dialog reported in GetOptions is still set in the word written back |
| WinFilePicker.OptionsRequireExistingFiles | GO-WinFilePicker.go:201 | FOS_FILEMUSTEXIST (0x1000) is always set |
| WinFilePicker.OptionsPickFolders | GO-WinFilePicker.go:202-204 | FOS_PICKFOLDERS (0x20) is set exactly when folders are picked or the dialog already had it |
| WinFilePicker.OptionsMultiSelect | GO-WinFilePicker.go:205-207 | FOS_ALLOWMULTISELECT (0x200) is set exactly when multi-select is asked for or the dialog already had it |
| WinFilePicker.OptionsAddNothingElse | GO-WinFilePicker.go:201-207 | no bit outside the current word and the three flags is ever set |
| WinFilePicker.BuildFilterSpec | GO-WinFilePicker.go:306-322 | one entry named "Supported Files" whose spec is "*.ext" per extension joined with ';', in order |
| WinFilePicker.GetPathFromItem | GO-WinFilePicker.go:324-337 | GetDisplayName; on failure "" and nothing to free; on success the decoded buffer, then exactly one CoTaskMemFree of that buffer |
| WinFilePicker.ShowOpenDialog | GO-WinFilePicker.go:173-304 | the calls made and the value returned are those of Session, with CoUninitialize last whenever COM came up |
| WinFilePicker.RunDialog | GO-WinFilePicker.go:180-192 | a failed CoCreateInstance ends the session with "failed to create FileOpenDialog"; otherwise the dialog is used and its deferred Release runs last |
| WinFilePicker.SetDialogOptions | GO-WinFilePicker.go:194-216 | GetOptions (HRESULT ignored), then SetOptions with the composed word; returns SetOptions' HRESULT |
| WinFilePicker.ApplyTitle | GO-WinFilePicker.go:218-225 | SetTitle is called only for a non-empty title, and its result is ignored |
| WinFilePicker.ApplyFilter | GO-WinFilePicker.go:227-237 | SetFileTypes with the built filter is called only for extensions when files are picked, and its result is ignored |
| WinFilePicker.ConfigureAndShow | GO-WinFilePicker.go:194-303 | SetOptions failure gives "failed to set options", a failed Show gives "user cancelled", and otherwise the results branch runs |
| WinFilePicker.ReadResults | GO-WinFilePicker.go:248-288 | GetResults and GetCount failures give their errors; the loop visits every slot in order, skips failed GetItemAt, keeps non-empty paths, releases each item once and then the array |
| WinFilePicker.ReadResult | GO-WinFilePicker.go:289-303 | GetResult failure gives "failed to retrieve result"; otherwise a one-element list holding the item's path, then the item's Release |
| WinFilePicker.SelectFile | GO-WinFilePicker.go:143-152 | a single-select file session; the first path, the session's error, or "no file selected" for an empty list |
| WinFilePicker.SelectFiles | GO-WinFilePicker.go:154-156 | a multi-select file session with the given extensions |
| WinFilePicker.SelectFolder | GO-WinFilePicker.go:158-167 | a single-select folder session with no extensions; the first path or "no folder selected" |
| WinFilePicker.SelectFolders | GO-WinFilePicker.go:169-171 | a multi-select folder session with no extensions |
| SessionFacts.SessionBalanced | GO-WinFilePicker.go:173-304 | on every path, each resource obtained (COM, dialog, array, items, path buffers) is released exactly once, in reverse order, and never used after its release |
| SessionFacts.SessionReleasesWhatItAcquires | GO-WinFilePicker.go:173-304 | for every resource, the session gives it back as many times as it obtained it |
| SessionFacts.ApartmentReleasedOnce | GO-WinFilePicker.go:174-178 | CoUninitialize runs once when CoInitializeEx succeeded and never otherwise |
| SessionFacts.DialogReleasedOnce | GO-WinFilePicker.go:180-192 | the dialog is released once when COM came up and creation succeeded, and never otherwise |
| SessionFacts.CollectClosed | GO-WinFilePicker.go:270-287 | the item loop leaves the held resources as it found them: each item obtained is released within its turn |
| SessionFacts.SessionStopsAtCulprit | GO-WinFilePicker.go:173-304 | when an error is returned, the last call that is not a deferred release is the one the error names, and that call failed |
| SessionFacts.SessionSucceedsIff | GO-WinFilePicker.go:173-304 | success exactly when COM init, creation, SetOptions and Show succeed, plus GetResults and GetCount (multi-select) or GetResult (single-select) |
| SessionFacts.IgnoredFailures | GO-WinFilePicker.go:194-237 | the HRESULTs of GetOptions, SetTitle and SetFileTypes never change what a session returns |
| SessionFacts.SessionSettings | GO-WinFilePicker.go:194-237 | the configuring calls are: none without a dialog; else SetOptions with the composed word, then title and filter only if SetOptions succeeded |
| SessionFacts.OptionsInstalled | GO-WinFilePicker.go:209-216 | SetOptions is called exactly when the dialog exists, and always with the current word plus the requested flags |
| SessionFacts.TitleInstalled | GO-WinFilePicker.go:218-225 | SetTitle is called exactly when SetOptions succeeded and the title is not empty, and always with that title |
| SessionFacts.FilterInstalled | GO-WinFilePicker.go:227-237 | SetFileTypes is called exactly when SetOptions succeeded, extensions were given and files are picked, and always with the "Supported Files" filter |
| SessionFacts.CollectSelects | GO-WinFilePicker.go:270-288 | after n turns the loop has gathered exactly the selected paths of the first n slots, in order |
| SessionFacts.MultiSelectPaths | GO-WinFilePicker.go:248-288 | a successful multi-select session returns the paths of the slots whose GetItemAt succeeded and whose path is not empty, in slot order |
| SessionFacts.SelectedBounds | GO-WinFilePicker.go:270-288 | there are never more paths than slots, none is empty, and none is lost exactly when every slot yields a path |
| SessionFacts.SelectedFromPicked | GO-WinFilePicker.go:279-285 | every returned path is the display name of a slot whose GetItemAt and GetDisplayName succeeded |
| SessionFacts.SelectedAllPicked | GO-WinFilePicker.go:270-288 | when every slot yields a path, the i-th path returned is the path of slot i |
| SessionFacts.SingleSelectPath | GO-WinFilePicker.go:289-303 | single-select succeeds exactly when SetOptions, Show and GetResult succeed, and then returns a one-element list with the item's path |
| SessionFacts.SelectFileAnswers | GO-WinFilePicker.go:143-152 | SelectFile never reports "no file selected"; on success it returns the result item's path |
| SessionFacts.SelectFolderAnswers | GO-WinFilePicker.go:158-167 | SelectFolder never reports "no folder selected"; on success it returns the result item's path |
| FilterFacts.SplitJoin | GO-WinFilePicker.go:309-314 | splitting the ';'-joined string gives back the parts, when there are some and none contains ';' |
| FilterFacts.FilterSpecRoundTrip | GO-WinFilePicker.go:306-322 | the installed filter is one "Supported Files" entry whose patterns read back as "*.ext" for each extension, in order |
| FilterFacts.FilterForImages | GO-WinFilePicker.go:306-322 | jpg, png and gif give the spec "*.jpg;*.png;*.gif" |
| MainProgram.Utf16PtrToString | main.go:91-111 | the demo's count-then-copy conversion returns the same string as the library's: nil gives "", otherwise the units before the NUL, decoded |
| MainProgram.SelectFile | main.go:121-199 | the calls and the value are those of Strict with option word 0 and the title "Select File" |
| MainProgram.SelectFolder | main.go:201-279 | the calls and the value are those of Strict with option word FOS_PICKFOLDERS and the title "Select folder" |
| MainProgram.PickOne | main.go:122-127 | COM initialisation failure gives "COM initialization failed"; otherwise the dialog scope runs and CoUninitialize comes last |
| MainProgram.WithDialog | main.go:129-140 | creation failure gives "failed to create FileOpenDialog"; otherwise the dialog is used and then released |
| MainProgram.ConfigureStrictly | main.go:142-173 | SetOptions with the given word, then title conversion, SetTitle and Show; each failure ends the call with its own error |
| MainProgram.ReadStrictResult | main.go:175-184 | GetResult failure gives "failed to retrieve results"; otherwise the path is read and the item released |
| MainProgram.ReadPath | main.go:186-198 | GetDisplayName failure gives "failed to retrieve the path"; otherwise the decoded buffer, then one CoTaskMemFree |
| MainFacts.StrictBalanced | main.go:121-199 | on every path, each resource obtained is released exactly once, in reverse order, and never used after its release |
| MainFacts.StrictReleasesWhatItAcquires | main.go:121-199 | for every resource, the picker gives it back as many times as it obtained it |
| MainFacts.PathFreedOnceOnSuccess | main.go:186-198 | the path buffer is freed with CoTaskMemFree once when the picker succeeds and never otherwise |
| MainFacts.StrictStopsAtCulprit | main.go:121-199 | when an error is returned, the last real call is the one the error names; for a title conversion failure, the last call is a SetOptions that succeeded |
| MainFacts.StrictWritesExactly | main.go:142-164 | GetOptions and SetFileTypes are never called; SetOptions carries exactly the given word and is called iff COM init and creation succeeded; SetTitle carries the given title |
| MainFacts.StrictSucceedsIff | main.go:121-199 | success exactly when every call succeeds and the title converts; the value is then the decoded display name |
| MainFacts.SelectFileSettings | main.go:142-155 | SelectFile writes option word 0 and the title "Select File" |
| MainFacts.SelectFolderSettings | main.go:222-235 | SelectFolder writes exactly FOS_PICKFOLDERS and the title "Select folder" |
| MainFacts.SelectFileTitleConverts | main.go:151-155 | the fixed title converts, so SelectFile never reports "failed to convert title" |
| MainFacts.SelectFolderTitleConverts | main.go:231-235 | the fixed title converts, so SelectFolder never reports "failed to convert title" |
| MainFacts.SelectFileVersionsAgree | main.go:121-199 | when every call succeeds, the demo's SelectFile and the library's SelectFile("Select File") return the same path |
| MainFacts.SelectFileVersionsDifferOnPath | main.go:186-195 | when only GetDisplayName fails, the library returns "" as a success and the demo returns "failed to retrieve the path" |
| MainFacts.SelectFileVersionsDifferOnTitle | main.go:157-164 | when only SetTitle fails, the library ignores it and returns the path, and the demo returns "failed to set title" |

## Left out

- The system calls themselves are replaced by the scripted backend: DLL
  loading, `SyscallN`, vtable layouts, GUIDs, COINIT flags and
  SIGDN_FILESYSPATH. Each COM call is one log entry carrying the HRESULT
  the script gives it.
- The `init` call to SetProcessDPIAware is left out. It is a side effect
  on the process with no result the pickers use.
- Show is modal and the user's choice is not modelled. The script decides
  Show's HRESULT and the chosen items. Threading and COM apartments beyond
  the CoInitializeEx/CoUninitialize pairing are not modelled either.
- Release return values (reference counts) are not modelled. The code
  discards them.
- GetOptions: when it fails, the word left in `options` is taken from the
  script. It stands for whatever the callee left there, which is 0 if the
  callee did not write it.
- GetCount reports the number of scripted slots. The `uint32` loop
  counter and a count that disagrees with the array are not modelled. A
  slot whose GetItemAt fails covers the case where the array has fewer
  items than counted.
- The library's `UTF16PtrFromString` for the title and the filter strings
  is not modelled. Its error is discarded and a nil pointer is passed
  instead. The model passes the host string to SetTitle/SetFileTypes.
- UTF-16 encoding of titles and filter strings is not modelled.
- `MainProgram.ConfigureStrictly` models the demo program's title
  conversion only by its failure condition, a NUL character in the title.
- Error values are modelled as `DialogError`, with their fixed message
  texts. The `%v` detail that the demo appends to "failed to convert
  title" is not modelled, nor its spacing (": %v" in SelectFile,
  ":%v" in SelectFolder).
- The demo's `main` function, which prints the results, is not modelled.
  Nor is the commented-out example at the end of `GO-WinFilePicker.go`.
- The demo's two pickers are one session (`MainProgram.Strict` and
  `MainProgram.PickOne`) taking the option word and title as parameters.
  The two Go functions differ only in those two values.
