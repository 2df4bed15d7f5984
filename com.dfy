/**
 * The COM surface the pickers drive, as a scripted backend.
 *
 * The operating system is replaced by a `Backend` object: its `script` fixes
 * the HRESULT every call returns and the data the calls hand back (the
 * dialog's current option word, the chosen items and their display names),
 * and its `log` records, in order, every call the binding makes together with
 * the HRESULT it got. Properties of a picker session are then properties of
 * the log it leaves behind.
 */
module Com {
  import opened Utf16

  /** The `uintptr` a syscall returns: an unsigned 64-bit word. */
  type HResult = x: int | 0 <= x < 0x1_0000_0000_0000_0000

  /**
   * Go's `int32(hr)`: the low 32 bits of the word read as a two's-complement
   * number.
   */
  function Int32(hr: HResult): int
  {
    var low := hr % 0x1_0000_0000;
    if low >= 0x8000_0000 then low - 0x1_0000_0000 else low
  }

  /** The conversion lands in int32's range and keeps the low 32 bits. */
  lemma Int32Range(hr: HResult)
    ensures -0x8000_0000 <= Int32(hr) < 0x8000_0000
    ensures Int32(hr) % 0x1_0000_0000 == hr % 0x1_0000_0000
  {
  }

  /** FAILED: the HRESULT, truncated to 32 bits, is negative. */
  predicate Failed(hr: HResult)
  {
    Int32(hr) < 0
  }

  /** The verdict is bit 31 of the word: an HRESULT fails exactly when its severity bit is set. */
  lemma FailedIsSeverityBit(hr: HResult)
    ensures Failed(hr) <==> (hr / 0x8000_0000) % 2 == 1
  {
  }

  /** The bits of the word above the low 32 never change the verdict. */
  lemma FailedReadsLowWordOnly(hr: HResult, high: nat)
    requires high < 0x1_0000_0000
    ensures Failed(hr) == Failed(high * 0x1_0000_0000 + hr % 0x1_0000_0000)
  {
  }

  const FOS_PICKFOLDERS: bv32 := 0x0000_0020
  const FOS_ALLOWMULTISELECT: bv32 := 0x0000_0200
  const FOS_FILEMUSTEXIST: bv32 := 0x0000_1000

  /** One COMDLG_FILTERSPEC entry: a display name and its wildcard patterns. */
  datatype FilterSpec = FilterSpec(name: string, spec: string)

  /**
   * What a session holds and must give back: the COM apartment, the dialog,
   * the result array, one item of that array, the single result item, and the
   * path buffer GetDisplayName allocates for an item.
   */
  datatype Resource =
    | Apartment
    | Dialog
    | ResultArray
    | ArrayItem(index: nat)
    | ResultItem
    | PathBuffer(owner: Resource)

  /** One entry of the call log. */
  datatype Call =
    | CoInitializeEx(hr: HResult)
    | CoUninitialize
    | CoCreateInstance(hr: HResult)
    | GetOptions(hr: HResult)
    | SetOptions(options: bv32, hr: HResult)
    | SetTitle(title: string, hr: HResult)
    | SetFileTypes(filter: seq<FilterSpec>, hr: HResult)
    | Show(hr: HResult)
    | GetResults(hr: HResult)
    | GetCount(hr: HResult)
    | GetItemAt(index: nat, hr: HResult)
    | GetResult(hr: HResult)
    | GetDisplayName(item: Resource, hr: HResult)
    | CoTaskMemFree(buffer: Resource)
    | Release(handle: Resource)

  /** A shell item: the HRESULT of its GetDisplayName and the buffer that call returns. */
  datatype ShellItem = ShellItem(nameHr: HResult, name: CStr)

  /** One slot of the result array: the HRESULT of GetItemAt for it, and the item. */
  datatype ArrayEntry = ArrayEntry(itemHr: HResult, item: ShellItem)

  /** Everything the scripted operating system answers during one session. */
  datatype Script = Script(
    initHr: HResult,
    createHr: HResult,
    getOptionsHr: HResult,
    options: bv32,
    setOptionsHr: HResult,
    setTitleHr: HResult,
    setFileTypesHr: HResult,
    showHr: HResult,
    getResultsHr: HResult,
    getCountHr: HResult,
    items: seq<ArrayEntry>,
    getResultHr: HResult,
    result: ShellItem)

  /** A handle whose display name the script can answer for. */
  predicate IsItemOf(s: Script, h: Resource)
  {
    h == ResultItem || (h.ArrayItem? && h.index < |s.items|)
  }

  function ItemOf(s: Script, h: Resource): ShellItem
    requires IsItemOf(s, h)
  {
    if h == ResultItem then s.result else s.items[h.index].item
  }

  /** Every error value the two bindings return. */
  datatype DialogError =
    | ComInitFailed
    | CreateFailed
    | SetOptionsFailed
    | Cancelled
    | GetResultsFailed
    | GetCountFailed
    | GetResultFailed
    | NoFileSelected
    | NoFolderSelected
    | TitleConversionFailed
    | SetTitleFailed
    | Deselected
    | RetrieveResultsFailed
    | PathFailed

  /** The text of each error. */
  function Message(e: DialogError): string
  {
    match e
    case ComInitFailed => "COM initialization failed"
    case CreateFailed => "failed to create FileOpenDialog"
    case SetOptionsFailed => "failed to set options"
    case Cancelled => "user cancelled"
    case GetResultsFailed => "failed to get results array"
    case GetCountFailed => "failed to get item count"
    case GetResultFailed => "failed to retrieve result"
    case NoFileSelected => "no file selected"
    case NoFolderSelected => "no folder selected"
    case TitleConversionFailed => "failed to convert title"
    case SetTitleFailed => "failed to set title"
    case Deselected => "user deselected"
    case RetrieveResultsFailed => "failed to retrieve results"
    case PathFailed => "failed to retrieve the path"
  }

  datatype Result<T> = Ok(value: T) | Err(error: DialogError)

  /** Regrouping appended stretches of a log. */
  lemma AppendAssociative<T>(a: seq<T>, b: seq<T>, c: seq<T>)
    ensures (a + b) + c == a + (b + c)
  {
  }

  /**
   * The operating system as the bindings see it. Each method is one COM call:
   * it answers from the script and appends itself to the log.
   */
  class Backend {
    const script: Script
    var log: seq<Call>

    constructor (script: Script)
      ensures this.script == script && log == []
    {
      this.script := script;
      log := [];
    }

    method CoInitializeEx() returns (hr: HResult)
      modifies this
      ensures hr == script.initHr && log == old(log) + [Call.CoInitializeEx(hr)]
    {
      hr := script.initHr;
      log := log + [Call.CoInitializeEx(hr)];
    }

    method CoUninitialize()
      modifies this
      ensures log == old(log) + [Call.CoUninitialize]
    {
      log := log + [Call.CoUninitialize];
    }

    method CoCreateInstance() returns (hr: HResult)
      modifies this
      ensures hr == script.createHr && log == old(log) + [Call.CoCreateInstance(hr)]
    {
      hr := script.createHr;
      log := log + [Call.CoCreateInstance(hr)];
    }

    /** IFileDialog::GetOptions: the HRESULT and the word left in the out-parameter. */
    method GetOptions() returns (hr: HResult, options: bv32)
      modifies this
      ensures hr == script.getOptionsHr && options == script.options
      ensures log == old(log) + [Call.GetOptions(hr)]
    {
      hr, options := script.getOptionsHr, script.options;
      log := log + [Call.GetOptions(hr)];
    }

    method SetOptions(options: bv32) returns (hr: HResult)
      modifies this
      ensures hr == script.setOptionsHr && log == old(log) + [Call.SetOptions(options, hr)]
    {
      hr := script.setOptionsHr;
      log := log + [Call.SetOptions(options, hr)];
    }

    method SetTitle(title: string) returns (hr: HResult)
      modifies this
      ensures hr == script.setTitleHr && log == old(log) + [Call.SetTitle(title, hr)]
    {
      hr := script.setTitleHr;
      log := log + [Call.SetTitle(title, hr)];
    }

    method SetFileTypes(filter: seq<FilterSpec>) returns (hr: HResult)
      modifies this
      ensures hr == script.setFileTypesHr && log == old(log) + [Call.SetFileTypes(filter, hr)]
    {
      hr := script.setFileTypesHr;
      log := log + [Call.SetFileTypes(filter, hr)];
    }

    method Show() returns (hr: HResult)
      modifies this
      ensures hr == script.showHr && log == old(log) + [Call.Show(hr)]
    {
      hr := script.showHr;
      log := log + [Call.Show(hr)];
    }

    method GetResults() returns (hr: HResult)
      modifies this
      ensures hr == script.getResultsHr && log == old(log) + [Call.GetResults(hr)]
    {
      hr := script.getResultsHr;
      log := log + [Call.GetResults(hr)];
    }

    /** IShellItemArray::GetCount: the array holds one slot per scripted entry. */
    method GetCount() returns (hr: HResult, count: nat)
      modifies this
      ensures hr == script.getCountHr && count == |script.items|
      ensures log == old(log) + [Call.GetCount(hr)]
    {
      hr, count := script.getCountHr, |script.items|;
      log := log + [Call.GetCount(hr)];
    }

    method GetItemAt(index: nat) returns (hr: HResult)
      requires index < |script.items|
      modifies this
      ensures hr == script.items[index].itemHr && log == old(log) + [Call.GetItemAt(index, hr)]
    {
      hr := script.items[index].itemHr;
      log := log + [Call.GetItemAt(index, hr)];
    }

    method GetResult() returns (hr: HResult)
      modifies this
      ensures hr == script.getResultHr && log == old(log) + [Call.GetResult(hr)]
    {
      hr := script.getResultHr;
      log := log + [Call.GetResult(hr)];
    }

    /** IShellItem::GetDisplayName(SIGDN_FILESYSPATH) on an item handle. */
    method GetDisplayName(item: Resource) returns (hr: HResult, name: CStr)
      requires IsItemOf(script, item)
      modifies this
      ensures hr == ItemOf(script, item).nameHr && name == ItemOf(script, item).name
      ensures log == old(log) + [Call.GetDisplayName(item, hr)]
    {
      hr, name := ItemOf(script, item).nameHr, ItemOf(script, item).name;
      log := log + [Call.GetDisplayName(item, hr)];
    }

    method CoTaskMemFree(buffer: Resource)
      modifies this
      ensures log == old(log) + [Call.CoTaskMemFree(buffer)]
    {
      log := log + [Call.CoTaskMemFree(buffer)];
    }

    method Release(handle: Resource)
      modifies this
      ensures log == old(log) + [Call.Release(handle)]
    {
      log := log + [Call.Release(handle)];
    }
  }
}
