/**
 * The picker library (GO-WinFilePicker.go): one dialog session
 * (`showOpenDialog`) shared by four entry points, path resolution
 * (`getPathFromItem`), the filter built from bare extensions
 * (`buildFilterSpec`) and the UTF-16 scan (`UTF16PtrToString`).
 *
 * Each method drives a scripted `Backend`. What a session does is given by
 * pure functions over the backend's script (`Session` and the phases it is
 * made of): the calls it makes and the value it returns. The methods are
 * proved to make exactly those calls and return exactly that value; the
 * lemmas of module SessionFacts state what the session guarantees.
 */
module WinFilePicker {
  import opened Utf16
  import opened Com

  /** The arguments of showOpenDialog. */
  datatype Request = Request(title: string, multiSelect: bool, pickFolders: bool, extensions: seq<string>)

  /** A stretch of a session: the calls it makes, in order, and what it yields. */
  datatype Trace<T> = Trace(calls: seq<Call>, value: T)

  // ----- UTF16PtrToString -----

  /** Length scan up to the NUL, copy of the units before it, then decoding. */
  method Utf16PtrToString(p: CStr) returns (s: string)
    ensures s == CString(p)
  {
    if p.Null? {
      return "";
    }
    var length := 0;
    while p.units[length] != 0
      invariant length <= FirstNul(p.units)
      decreases FirstNul(p.units) - length
    {
      length := length + 1;
    }
    assert length == FirstNul(p.units);
    if length == 0 {
      return "";
    }
    var buffer := new Unit[length];
    for i := 0 to length
      invariant buffer[..i] == p.units[..i]
    {
      buffer[i] := p.units[i];
    }
    assert buffer[..] == p.units[..length];
    s := Decode(buffer[..]);
  }

  // ----- option flags -----

  /**
   * The word handed to SetOptions: the dialog's current options with
   * must-exist, and pick-folders / multi-select when asked for. What the word
   * holds is stated bit by bit in the lemmas that follow.
   */
  function ComposeOptions(current: bv32, pickFolders: bool, multiSelect: bool): bv32
  {
    current | FOS_FILEMUSTEXIST
      | (if pickFolders then FOS_PICKFOLDERS else 0)
      | (if multiSelect then FOS_ALLOWMULTISELECT else 0)
  }

  /** No option the dialog already had is switched off. */
  lemma OptionsKeepCurrent(current: bv32, pickFolders: bool, multiSelect: bool)
    ensures ComposeOptions(current, pickFolders, multiSelect) & current == current
  {
  }

  /** Only existing files may be chosen, whatever the arguments. */
  lemma OptionsRequireExistingFiles(current: bv32, pickFolders: bool, multiSelect: bool)
    ensures ComposeOptions(current, pickFolders, multiSelect) & FOS_FILEMUSTEXIST != 0
  {
  }

  /** Folder picking is on exactly when asked for or already on. */
  lemma OptionsPickFolders(current: bv32, pickFolders: bool, multiSelect: bool)
    ensures ComposeOptions(current, pickFolders, multiSelect) & FOS_PICKFOLDERS != 0
        <==> pickFolders || current & FOS_PICKFOLDERS != 0
  {
  }

  /** Multiple selection is on exactly when asked for or already on. */
  lemma OptionsMultiSelect(current: bv32, pickFolders: bool, multiSelect: bool)
    ensures ComposeOptions(current, pickFolders, multiSelect) & FOS_ALLOWMULTISELECT != 0
        <==> multiSelect || current & FOS_ALLOWMULTISELECT != 0
  {
  }

  /** No bit is set beyond the current ones and the three flags. */
  lemma OptionsAddNothingElse(current: bv32, pickFolders: bool, multiSelect: bool)
    ensures ComposeOptions(current, pickFolders, multiSelect)
          & !(current | FOS_FILEMUSTEXIST | FOS_PICKFOLDERS | FOS_ALLOWMULTISELECT) == 0
  {
  }

  // ----- buildFilterSpec -----

  const SupportedFiles: string := "Supported Files"

  function Pattern(ext: string): string
  {
    "*." + ext
  }

  function Patterns(extensions: seq<string>): (patterns: seq<string>)
    ensures |patterns| == |extensions|
    ensures forall i :: 0 <= i < |extensions| ==> patterns[i] == Pattern(extensions[i])
  {
    seq(|extensions|, i requires 0 <= i < |extensions| => Pattern(extensions[i]))
  }

  /** The parts separated by ';'. */
  function Join(parts: seq<string>): string
  {
    if |parts| == 0 then ""
    else if |parts| == 1 then parts[0]
    else parts[0] + ";" + Join(parts[1..])
  }

  /** The one filter entry the library installs for a list of extensions. */
  function FilterFor(extensions: seq<string>): seq<FilterSpec>
  {
    [FilterSpec(SupportedFiles, Join(Patterns(extensions)))]
  }

  lemma {:induction false} JoinSnoc(parts: seq<string>, last: string)
    requires |parts| > 0
    ensures Join(parts + [last]) == Join(parts) + ";" + last
    decreases |parts|
  {
    if |parts| == 1 {
      assert (parts + [last])[1..] == [last];
    } else {
      assert (parts + [last])[1..] == parts[1..] + [last];
      JoinSnoc(parts[1..], last);
    }
  }

  method BuildFilterSpec(extensions: seq<string>) returns (filter: seq<FilterSpec>)
    ensures |filter| == 1 && filter[0].name == "Supported Files"
    ensures filter[0].spec == Join(Patterns(extensions))
  {
    var combinedSpec := "";
    for i := 0 to |extensions|
      invariant combinedSpec == Join(Patterns(extensions[..i]))
    {
      assert Patterns(extensions[..i + 1]) == Patterns(extensions[..i]) + [Pattern(extensions[i])];
      if i > 0 {
        JoinSnoc(Patterns(extensions[..i]), Pattern(extensions[i]));
        combinedSpec := combinedSpec + ";";
      }
      combinedSpec := combinedSpec + ("*." + extensions[i]);
    }
    assert extensions[..|extensions|] == extensions;
    filter := [FilterSpec(SupportedFiles, combinedSpec)];
  }

  // ----- getPathFromItem -----

  /** getPathFromItem's answer: "" when GetDisplayName fails, else the decoded buffer. */
  function PathOf(item: ShellItem): string
  {
    if Failed(item.nameHr) then "" else CString(item.name)
  }

  /** getPathFromItem on handle h: GetDisplayName, then the deferred CoTaskMemFree when it succeeded. */
  function Resolve(item: ShellItem, h: Resource): Trace<string>
  {
    if Failed(item.nameHr) then Trace([GetDisplayName(h, item.nameHr)], "")
    else Trace([GetDisplayName(h, item.nameHr), CoTaskMemFree(PathBuffer(h))], CString(item.name))
  }

  method GetPathFromItem(b: Backend, h: Resource) returns (path: string)
    requires IsItemOf(b.script, h)
    modifies b
    ensures b.log == old(b.log) + Resolve(ItemOf(b.script, h), h).calls
    ensures path == Resolve(ItemOf(b.script, h), h).value
  {
    ghost var before := b.log;
    var hr, pszPath := b.GetDisplayName(h);
    if Failed(hr) {
      return "";
    }
    path := Utf16PtrToString(pszPath);
    b.CoTaskMemFree(PathBuffer(h));
    AppendAssociative(before, [GetDisplayName(h, hr)], [CoTaskMemFree(PathBuffer(h))]);
  }

  // ----- showOpenDialog, phase by phase -----

  /** One turn of the multi-select loop, for slot i. */
  function ItemStep(e: ArrayEntry, i: nat): Trace<seq<string>>
  {
    if Failed(e.itemHr) then Trace([GetItemAt(i, e.itemHr)], [])
    else
      var r := Resolve(e.item, ArrayItem(i));
      Trace([GetItemAt(i, e.itemHr)] + r.calls + [Release(ArrayItem(i))],
            if r.value != "" then [r.value] else [])
  }

  /** The first n turns of the multi-select loop. */
  function Collect(items: seq<ArrayEntry>, n: nat): Trace<seq<string>>
    requires n <= |items|
  {
    if n == 0 then Trace([], [])
    else
      var done := Collect(items, n - 1);
      var step := ItemStep(items[n - 1], n - 1);
      Trace(done.calls + step.calls, done.value + step.value)
  }

  /** Results of a multi-select dialog: the array, its count, the loop, the array's release. */
  function MultiResults(s: Script): Trace<Result<seq<string>>>
  {
    if Failed(s.getResultsHr) then Trace([GetResults(s.getResultsHr)], Err(GetResultsFailed))
    else
      var inner :=
        if Failed(s.getCountHr) then Trace([GetCount(s.getCountHr)], Err(GetCountFailed))
        else
          var loop := Collect(s.items, |s.items|);
          Trace([GetCount(s.getCountHr)] + loop.calls, Ok(loop.value));
      Trace([GetResults(s.getResultsHr)] + inner.calls + [Release(ResultArray)], inner.value)
  }

  /** Result of a single-select dialog: the item, its path, the item's release. */
  function SingleResult(s: Script): Trace<Result<seq<string>>>
  {
    if Failed(s.getResultHr) then Trace([GetResult(s.getResultHr)], Err(GetResultFailed))
    else
      var r := Resolve(s.result, ResultItem);
      Trace([GetResult(s.getResultHr)] + r.calls + [Release(ResultItem)], Ok([r.value]))
  }

  /** GetOptions, whose HRESULT is ignored, and SetOptions with the composed word. */
  function OptionCalls(s: Script, q: Request): seq<Call>
  {
    [GetOptions(s.getOptionsHr), SetOptions(ComposeOptions(s.options, q.pickFolders, q.multiSelect), s.setOptionsHr)]
  }

  /** SetTitle, made only for a non-empty title; its HRESULT is ignored. */
  function TitleCalls(s: Script, q: Request): seq<Call>
  {
    if q.title != "" then [SetTitle(q.title, s.setTitleHr)] else []
  }

  /** SetFileTypes, made only for files with extensions; its HRESULT is ignored. */
  function FilterCalls(s: Script, q: Request): seq<Call>
  {
    if |q.extensions| > 0 && !q.pickFolders then [SetFileTypes(FilterFor(q.extensions), s.setFileTypesHr)] else []
  }

  /** The calls from GetOptions up to the modal Show, once SetOptions succeeded. */
  function ShownCalls(s: Script, q: Request): seq<Call>
  {
    OptionCalls(s, q) + TitleCalls(s, q) + FilterCalls(s, q) + [Show(s.showHr)]
  }

  /** What the dialog hands back after Show succeeded. */
  function Results(s: Script, q: Request): Trace<Result<seq<string>>>
  {
    if q.multiSelect then MultiResults(s) else SingleResult(s)
  }

  /** Everything done with the dialog between its creation and its release. */
  function Configure(s: Script, q: Request): Trace<Result<seq<string>>>
  {
    if Failed(s.setOptionsHr) then Trace(OptionCalls(s, q), Err(SetOptionsFailed))
    else if Failed(s.showHr) then Trace(ShownCalls(s, q), Err(Cancelled))
    else Trace(ShownCalls(s, q) + Results(s, q).calls, Results(s, q).value)
  }

  /** Creation of the dialog, its use and its deferred release. */
  function DialogSession(s: Script, q: Request): Trace<Result<seq<string>>>
  {
    if Failed(s.createHr) then Trace([CoCreateInstance(s.createHr)], Err(CreateFailed))
    else
      var inner := Configure(s, q);
      Trace([CoCreateInstance(s.createHr)] + inner.calls + [Release(Dialog)], inner.value)
  }

  /** showOpenDialog: COM initialisation, the dialog session, the deferred CoUninitialize. */
  function Session(s: Script, q: Request): Trace<Result<seq<string>>>
  {
    if Failed(s.initHr) then Trace([CoInitializeEx(s.initHr)], Err(ComInitFailed))
    else
      var inner := DialogSession(s, q);
      Trace([CoInitializeEx(s.initHr)] + inner.calls + [CoUninitialize], inner.value)
  }

  /*
   * showOpenDialog is one Go function whose cleanup runs from deferred calls.
   * It is modelled as one method per deferred scope: each acquires its
   * resource, runs the next scope, and releases on the way out, whichever way
   * the inner scope returned.
   */

  method ShowOpenDialog(b: Backend, title: string, multiSelect: bool, pickFolders: bool, extensions: seq<string>)
    returns (r: Result<seq<string>>)
    modifies b
    ensures b.log == old(b.log) + Session(b.script, Request(title, multiSelect, pickFolders, extensions)).calls
    ensures r == Session(b.script, Request(title, multiSelect, pickFolders, extensions)).value
  {
    ghost var before := b.log;
    var q := Request(title, multiSelect, pickFolders, extensions);
    var hr := b.CoInitializeEx();
    if Failed(hr) {
      return Err(ComInitFailed);
    }
    ghost var inner := DialogSession(b.script, q);
    r := RunDialog(b, q);
    AppendAssociative(before, [CoInitializeEx(hr)], inner.calls);
    b.CoUninitialize();
    AppendAssociative(before, [CoInitializeEx(hr)] + inner.calls, [CoUninitialize]);
  }

  /** CoCreateInstance of the dialog, its use, and its deferred Release. */
  method RunDialog(b: Backend, q: Request) returns (r: Result<seq<string>>)
    modifies b
    ensures b.log == old(b.log) + DialogSession(b.script, q).calls
    ensures r == DialogSession(b.script, q).value
  {
    ghost var before := b.log;
    var hr := b.CoCreateInstance();
    if Failed(hr) {
      return Err(CreateFailed);
    }
    ghost var inner := Configure(b.script, q);
    r := ConfigureAndShow(b, q);
    AppendAssociative(before, [CoCreateInstance(hr)], inner.calls);
    b.Release(Dialog);
    AppendAssociative(before, [CoCreateInstance(hr)] + inner.calls, [Release(Dialog)]);
  }

  /** The option word: read back from the dialog, flags added, written with SetOptions. */
  method SetDialogOptions(b: Backend, q: Request) returns (hr: HResult)
    modifies b
    ensures b.log == old(b.log) + OptionCalls(b.script, q)
    ensures hr == b.script.setOptionsHr
  {
    var _, options := b.GetOptions();
    ghost var current := options;
    options := options | FOS_FILEMUSTEXIST;
    if q.pickFolders {
      options := options | FOS_PICKFOLDERS;
    }
    if q.multiSelect {
      options := options | FOS_ALLOWMULTISELECT;
    }
    assert options == ComposeOptions(current, q.pickFolders, q.multiSelect);
    hr := b.SetOptions(options);
  }

  /** The title, when one is given; a failure to set it is ignored. */
  method ApplyTitle(b: Backend, q: Request)
    modifies b
    ensures b.log == old(b.log) + TitleCalls(b.script, q)
  {
    if q.title != "" {
      var _ := b.SetTitle(q.title);
    }
  }

  /** The file-type filter, for files with extensions; a failure to set it is ignored. */
  method ApplyFilter(b: Backend, q: Request)
    modifies b
    ensures b.log == old(b.log) + FilterCalls(b.script, q)
  {
    if |q.extensions| > 0 && !q.pickFolders {
      var filterSpec := BuildFilterSpec(q.extensions);
      assert filterSpec == FilterFor(q.extensions);
      if |filterSpec| > 0 {
        var _ := b.SetFileTypes(filterSpec);
      }
    }
  }

  /** Options, title and filter; then the modal Show and the results. */
  method ConfigureAndShow(b: Backend, q: Request) returns (r: Result<seq<string>>)
    modifies b
    ensures b.log == old(b.log) + Configure(b.script, q).calls
    ensures r == Configure(b.script, q).value
  {
    ghost var before := b.log;
    var hr := SetDialogOptions(b, q);
    if Failed(hr) {
      return Err(SetOptionsFailed);
    }

    ghost var configured := OptionCalls(b.script, q);
    ApplyTitle(b, q);
    AppendAssociative(before, configured, TitleCalls(b.script, q));
    ghost var titled := configured + TitleCalls(b.script, q);
    ApplyFilter(b, q);
    AppendAssociative(before, titled, FilterCalls(b.script, q));

    hr := b.Show();
    AppendAssociative(before, titled + FilterCalls(b.script, q), [Show(hr)]);
    if Failed(hr) {
      return Err(Cancelled);
    }
    ghost var results := Results(b.script, q);
    if q.multiSelect {
      assert results == MultiResults(b.script);
      r := ReadResults(b);
    } else {
      assert results == SingleResult(b.script);
      r := ReadResult(b);
    }
    AppendAssociative(before, ShownCalls(b.script, q), results.calls);
  }

  /** The multi-select branch: GetResults, GetCount, the item loop, the array's deferred Release. */
  method ReadResults(b: Backend) returns (r: Result<seq<string>>)
    modifies b
    ensures b.log == old(b.log) + MultiResults(b.script).calls
    ensures r == MultiResults(b.script).value
  {
    ghost var before := b.log;
    var hr := b.GetResults();
    if Failed(hr) {
      return Err(GetResultsFailed);
    }
    ghost var obtained := [GetResults(hr)];
    var count;
    hr, count := b.GetCount();
    AppendAssociative(before, obtained, [GetCount(hr)]);
    if Failed(hr) {
      b.Release(ResultArray);
      AppendAssociative(before, obtained + [GetCount(hr)], [Release(ResultArray)]);
      return Err(GetCountFailed);
    }
    ghost var beforeLoop := b.log;
    var results: seq<string> := [];
    for i := 0 to count
      invariant b.log == beforeLoop + Collect(b.script.items, i).calls
      invariant results == Collect(b.script.items, i).value
    {
      ghost var done := Collect(b.script.items, i);
      ghost var step := ItemStep(b.script.items[i], i);
      assert Collect(b.script.items, i + 1) == Trace(done.calls + step.calls, done.value + step.value);
      ghost var turn := b.log;
      hr := b.GetItemAt(i);
      if Failed(hr) {
        assert step == Trace([GetItemAt(i, hr)], []);
        AppendAssociative(beforeLoop, done.calls, [GetItemAt(i, hr)]);
        assert results + [] == results;
        continue;
      }
      ghost var resolved := Resolve(b.script.items[i].item, ArrayItem(i));
      assert step.calls == [GetItemAt(i, hr)] + resolved.calls + [Release(ArrayItem(i))];
      var path := GetPathFromItem(b, ArrayItem(i));
      AppendAssociative(turn, [GetItemAt(i, hr)], resolved.calls);
      b.Release(ArrayItem(i));
      AppendAssociative(turn, [GetItemAt(i, hr)] + resolved.calls, [Release(ArrayItem(i))]);
      AppendAssociative(beforeLoop, done.calls, step.calls);
      if path != "" {
        results := results + [path];
      }
    }
    ghost var loop := Collect(b.script.items, count).calls;
    ghost var counted := [GetCount(b.script.getCountHr)];
    AppendAssociative(before, obtained + counted, loop);
    AppendAssociative(obtained, counted, loop);
    b.Release(ResultArray);
    AppendAssociative(before, obtained + (counted + loop), [Release(ResultArray)]);
    r := Ok(results);
  }

  /** The single-select branch: GetResult, the item's path, the item's deferred Release. */
  method ReadResult(b: Backend) returns (r: Result<seq<string>>)
    modifies b
    ensures b.log == old(b.log) + SingleResult(b.script).calls
    ensures r == SingleResult(b.script).value
  {
    ghost var before := b.log;
    var hr := b.GetResult();
    if Failed(hr) {
      return Err(GetResultFailed);
    }
    ghost var resolved := Resolve(b.script.result, ResultItem);
    var path := GetPathFromItem(b, ResultItem);
    AppendAssociative(before, [GetResult(hr)], resolved.calls);
    b.Release(ResultItem);
    AppendAssociative(before, [GetResult(hr)] + resolved.calls, [Release(ResultItem)]);
    r := Ok([path]);
  }

  // ----- the four entry points -----

  /** What a single-result entry point makes of the session's answer. */
  function FirstPath(r: Result<seq<string>>, none: DialogError): Result<string>
  {
    match r
    case Err(e) => Err(e)
    case Ok(paths) => if |paths| > 0 then Ok(paths[0]) else Err(none)
  }

  method SelectFile(b: Backend, title: string, extensions: seq<string>) returns (r: Result<string>)
    modifies b
    ensures b.log == old(b.log) + Session(b.script, Request(title, false, false, extensions)).calls
    ensures r == FirstPath(Session(b.script, Request(title, false, false, extensions)).value, NoFileSelected)
  {
    var paths := ShowOpenDialog(b, title, false, false, extensions);
    if paths.Err? {
      return Err(paths.error);
    }
    if |paths.value| > 0 {
      return Ok(paths.value[0]);
    }
    return Err(NoFileSelected);
  }

  method SelectFiles(b: Backend, title: string, extensions: seq<string>) returns (r: Result<seq<string>>)
    modifies b
    ensures b.log == old(b.log) + Session(b.script, Request(title, true, false, extensions)).calls
    ensures r == Session(b.script, Request(title, true, false, extensions)).value
  {
    r := ShowOpenDialog(b, title, true, false, extensions);
  }

  method SelectFolder(b: Backend, title: string) returns (r: Result<string>)
    modifies b
    ensures b.log == old(b.log) + Session(b.script, Request(title, false, true, [])).calls
    ensures r == FirstPath(Session(b.script, Request(title, false, true, [])).value, NoFolderSelected)
  {
    var paths := ShowOpenDialog(b, title, false, true, []);
    if paths.Err? {
      return Err(paths.error);
    }
    if |paths.value| > 0 {
      return Ok(paths.value[0]);
    }
    return Err(NoFolderSelected);
  }

  method SelectFolders(b: Backend, title: string) returns (r: Result<seq<string>>)
    modifies b
    ensures b.log == old(b.log) + Session(b.script, Request(title, true, true, [])).calls
    ensures r == Session(b.script, Request(title, true, true, [])).value
  {
    r := ShowOpenDialog(b, title, true, true, []);
  }
}
