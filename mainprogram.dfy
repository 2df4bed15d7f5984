/**
 * The stand-alone program's two pickers, SelectFile and SelectFolder.
 *
 * They open the same dialog as the library but are stricter: the option
 * word is written outright (no GetOptions), the title is fixed, a failure
 * to convert or set the title is an error, and so is a failure to read the
 * chosen item's path. Both functions are the same sequence of calls and
 * differ only in the option word and the title, so the model runs them
 * through one session, `Strict`, parameterised by those two values.
 */
module MainProgram {
  import opened Utf16
  import opened Com

  /** A stretch of a session: the calls it makes, in order, and what it yields. */
  datatype Trace<T> = Trace(calls: seq<Call>, value: T)

  const SelectFileTitle: string := "Select File"
  const SelectFolderTitle: string := "Select folder"

  // ----- UTF16PtrToString -----

  /** Count the units up to the NUL, copy that many, decode the copy. */
  method Utf16PtrToString(p: CStr) returns (s: string)
    ensures s == CString(p)
  {
    if p.Null? {
      return "";
    }
    var n := 0;
    while p.units[n] != 0
      invariant n <= FirstNul(p.units)
      decreases FirstNul(p.units) - n
    {
      n := n + 1;
    }
    var copy := new Unit[n];
    var i := 0;
    while i < n
      invariant 0 <= i <= n == FirstNul(p.units)
      invariant copy[..i] == p.units[..i]
    {
      copy[i] := p.units[i];
      i := i + 1;
    }
    assert copy[..] == copy[..n];
    s := Decode(copy[..]);
  }

  /** syscall.UTF16PtrFromString refuses a string holding a NUL character. */
  predicate Converts(title: string)
  {
    '\0' !in title
  }

  // ----- the session, phase by phase -----

  /** GetDisplayName on the chosen item; its buffer is freed by a deferred CoTaskMemFree. */
  function StrictPath(item: ShellItem, h: Resource): Trace<Result<string>>
  {
    if Failed(item.nameHr) then Trace([GetDisplayName(h, item.nameHr)], Err(PathFailed))
    else Trace([GetDisplayName(h, item.nameHr), CoTaskMemFree(PathBuffer(h))], Ok(CString(item.name)))
  }

  /** GetResult, the path, and the item's deferred Release. */
  function StrictResult(s: Script): Trace<Result<string>>
  {
    if Failed(s.getResultHr) then Trace([GetResult(s.getResultHr)], Err(RetrieveResultsFailed))
    else
      var path := StrictPath(s.result, ResultItem);
      Trace([GetResult(s.getResultHr)] + path.calls + [Release(ResultItem)], path.value)
  }

  /** The calls up to the modal Show, once options and title were accepted. */
  function StrictShownCalls(s: Script, options: bv32, title: string): seq<Call>
  {
    [SetOptions(options, s.setOptionsHr), SetTitle(title, s.setTitleHr), Show(s.showHr)]
  }

  /** SetOptions with the given word, the title, Show, and the result. */
  function StrictConfigure(s: Script, options: bv32, title: string): Trace<Result<string>>
  {
    var written := [SetOptions(options, s.setOptionsHr)];
    if Failed(s.setOptionsHr) then Trace(written, Err(SetOptionsFailed))
    else if !Converts(title) then Trace(written, Err(TitleConversionFailed))
    else if Failed(s.setTitleHr) then Trace(written + [SetTitle(title, s.setTitleHr)], Err(SetTitleFailed))
    else if Failed(s.showHr) then Trace(StrictShownCalls(s, options, title), Err(Deselected))
    else
      var result := StrictResult(s);
      Trace(StrictShownCalls(s, options, title) + result.calls, result.value)
  }

  /** Creation of the dialog, its use and its deferred Release. */
  function StrictDialog(s: Script, options: bv32, title: string): Trace<Result<string>>
  {
    if Failed(s.createHr) then Trace([CoCreateInstance(s.createHr)], Err(CreateFailed))
    else
      var inner := StrictConfigure(s, options, title);
      Trace([CoCreateInstance(s.createHr)] + inner.calls + [Release(Dialog)], inner.value)
  }

  /** One picker call: COM initialisation, the dialog, the deferred CoUninitialize. */
  function Strict(s: Script, options: bv32, title: string): Trace<Result<string>>
  {
    if Failed(s.initHr) then Trace([CoInitializeEx(s.initHr)], Err(ComInitFailed))
    else
      var inner := StrictDialog(s, options, title);
      Trace([CoInitializeEx(s.initHr)] + inner.calls + [CoUninitialize], inner.value)
  }

  // ----- the picker, one method per deferred scope -----

  method SelectFile(b: Backend) returns (path: Result<string>)
    modifies b
    ensures b.log == old(b.log) + Strict(b.script, 0, SelectFileTitle).calls
    ensures path == Strict(b.script, 0, SelectFileTitle).value
  {
    path := PickOne(b, 0, SelectFileTitle);
  }

  method SelectFolder(b: Backend) returns (path: Result<string>)
    modifies b
    ensures b.log == old(b.log) + Strict(b.script, FOS_PICKFOLDERS, SelectFolderTitle).calls
    ensures path == Strict(b.script, FOS_PICKFOLDERS, SelectFolderTitle).value
  {
    path := PickOne(b, FOS_PICKFOLDERS, SelectFolderTitle);
  }

  /** CoInitializeEx, the dialog, and the deferred CoUninitialize. */
  method PickOne(b: Backend, options: bv32, title: string) returns (path: Result<string>)
    modifies b
    ensures b.log == old(b.log) + Strict(b.script, options, title).calls
    ensures path == Strict(b.script, options, title).value
  {
    ghost var before := b.log;
    var hr := b.CoInitializeEx();
    if Failed(hr) {
      return Err(ComInitFailed);
    }
    ghost var inner := StrictDialog(b.script, options, title);
    path := WithDialog(b, options, title);
    AppendAssociative(before, [CoInitializeEx(hr)], inner.calls);
    b.CoUninitialize();
    AppendAssociative(before, [CoInitializeEx(hr)] + inner.calls, [CoUninitialize]);
  }

  /** CoCreateInstance, the dialog's use, and its deferred Release. */
  method WithDialog(b: Backend, options: bv32, title: string) returns (path: Result<string>)
    modifies b
    ensures b.log == old(b.log) + StrictDialog(b.script, options, title).calls
    ensures path == StrictDialog(b.script, options, title).value
  {
    ghost var before := b.log;
    var hr := b.CoCreateInstance();
    if Failed(hr) {
      return Err(CreateFailed);
    }
    ghost var inner := StrictConfigure(b.script, options, title);
    path := ConfigureStrictly(b, options, title);
    AppendAssociative(before, [CoCreateInstance(hr)], inner.calls);
    b.Release(Dialog);
    AppendAssociative(before, [CoCreateInstance(hr)] + inner.calls, [Release(Dialog)]);
  }

  /** SetOptions, title conversion, SetTitle and Show, each failure ending the call. */
  method ConfigureStrictly(b: Backend, options: bv32, title: string) returns (path: Result<string>)
    modifies b
    ensures b.log == old(b.log) + StrictConfigure(b.script, options, title).calls
    ensures path == StrictConfigure(b.script, options, title).value
  {
    ghost var before := b.log;
    var hr := b.SetOptions(options);
    if Failed(hr) {
      return Err(SetOptionsFailed);
    }
    if !Converts(title) {
      return Err(TitleConversionFailed);
    }
    hr := b.SetTitle(title);
    AppendAssociative(before, [SetOptions(options, b.script.setOptionsHr)], [SetTitle(title, hr)]);
    if Failed(hr) {
      return Err(SetTitleFailed);
    }
    ghost var titled := [SetOptions(options, b.script.setOptionsHr), SetTitle(title, hr)];
    assert [SetOptions(options, b.script.setOptionsHr)] + [SetTitle(title, hr)] == titled;
    hr := b.Show();
    AppendAssociative(before, titled, [Show(hr)]);
    assert titled + [Show(hr)] == StrictShownCalls(b.script, options, title);
    if Failed(hr) {
      return Err(Deselected);
    }
    ghost var result := StrictResult(b.script);
    path := ReadStrictResult(b);
    AppendAssociative(before, StrictShownCalls(b.script, options, title), result.calls);
  }

  /** GetResult, the item's path, and the item's deferred Release. */
  method ReadStrictResult(b: Backend) returns (path: Result<string>)
    modifies b
    ensures b.log == old(b.log) + StrictResult(b.script).calls
    ensures path == StrictResult(b.script).value
  {
    ghost var before := b.log;
    var hr := b.GetResult();
    if Failed(hr) {
      return Err(RetrieveResultsFailed);
    }
    ghost var named := StrictPath(b.script.result, ResultItem);
    path := ReadPath(b, ResultItem);
    AppendAssociative(before, [GetResult(hr)], named.calls);
    b.Release(ResultItem);
    AppendAssociative(before, [GetResult(hr)] + named.calls, [Release(ResultItem)]);
  }

  /** GetDisplayName; on success the decoded path, then the deferred CoTaskMemFree. */
  method ReadPath(b: Backend, h: Resource) returns (path: Result<string>)
    requires IsItemOf(b.script, h)
    modifies b
    ensures b.log == old(b.log) + StrictPath(ItemOf(b.script, h), h).calls
    ensures path == StrictPath(ItemOf(b.script, h), h).value
  {
    ghost var before := b.log;
    var hr, pszPath := b.GetDisplayName(h);
    if Failed(hr) {
      return Err(PathFailed);
    }
    var text := Utf16PtrToString(pszPath);
    b.CoTaskMemFree(PathBuffer(h));
    AppendAssociative(before, [GetDisplayName(h, hr)], [CoTaskMemFree(PathBuffer(h))]);
    path := Ok(text);
  }
}
