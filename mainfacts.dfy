/**
 * What the stand-alone program's pickers guarantee, and how they differ
 * from the library's SelectFile on the same operating-system answers.
 */
module MainFacts {
  import opened Utf16
  import opened Com
  import opened Ledger
  import WinFilePicker
  import SessionFacts
  import opened MainProgram

  // ----- resource discipline -----

  lemma StrictPathClosed(item: ShellItem, h: Resource, held: seq<Resource>)
    requires h in held
    ensures Closed(StrictPath(item, h).calls, held)
  {
    var named := GetDisplayName(h, item.nameHr);
    if Failed(item.nameHr) {
      ClosedNeutral(named, held);
    } else {
      Bracket(named, [], CoTaskMemFree(PathBuffer(h)), PathBuffer(h), held);
      assert [named] + [] + [CoTaskMemFree(PathBuffer(h))] == StrictPath(item, h).calls;
    }
  }

  lemma StrictResultClosed(s: Script, held: seq<Resource>)
    requires Dialog in held
    ensures Closed(StrictResult(s).calls, held)
  {
    var get := GetResult(s.getResultHr);
    if Failed(s.getResultHr) {
      ClosedNeutral(get, held);
    } else {
      StrictPathClosed(s.result, ResultItem, held + [ResultItem]);
      Bracket(get, StrictPath(s.result, ResultItem).calls, Release(ResultItem), ResultItem, held);
    }
  }

  lemma StrictShownClosed(s: Script, options: bv32, title: string, held: seq<Resource>)
    requires Dialog in held
    ensures Closed([SetOptions(options, s.setOptionsHr)], held)
    ensures Closed([SetOptions(options, s.setOptionsHr)] + [SetTitle(title, s.setTitleHr)], held)
    ensures Closed(StrictShownCalls(s, options, title), held)
  {
    var written := SetOptions(options, s.setOptionsHr);
    var titled := SetTitle(title, s.setTitleHr);
    ClosedNeutral(written, held);
    ClosedNeutral(titled, held);
    ClosedNeutral(Show(s.showHr), held);
    ClosedAppend([written], [titled], held);
    ClosedAppend([written] + [titled], [Show(s.showHr)], held);
    assert [written] + [titled] + [Show(s.showHr)] == StrictShownCalls(s, options, title);
  }

  lemma StrictConfigureClosed(s: Script, options: bv32, title: string, held: seq<Resource>)
    requires Dialog in held
    ensures Closed(StrictConfigure(s, options, title).calls, held)
  {
    StrictShownClosed(s, options, title, held);
    if !Failed(s.setOptionsHr) && Converts(title) && !Failed(s.setTitleHr) && !Failed(s.showHr) {
      StrictResultClosed(s, held);
      ClosedAppend(StrictShownCalls(s, options, title), StrictResult(s).calls, held);
    }
  }

  lemma StrictDialogClosed(s: Script, options: bv32, title: string, held: seq<Resource>)
    requires Apartment in held
    ensures Closed(StrictDialog(s, options, title).calls, held)
  {
    var create := CoCreateInstance(s.createHr);
    if Failed(s.createHr) {
      ClosedNeutral(create, held);
    } else {
      StrictConfigureClosed(s, options, title, held + [Dialog]);
      Bracket(create, StrictConfigure(s, options, title).calls, Release(Dialog), Dialog, held);
    }
  }

  /**
   * Every handle and buffer a picker obtains is given back exactly once, in
   * reverse order, on every path out, and nothing is used after its release.
   */
  lemma StrictBalanced(s: Script, options: bv32, title: string)
    ensures Balanced(Strict(s, options, title).calls)
  {
    var nothing: seq<Resource> := [];
    var init := CoInitializeEx(s.initHr);
    if Failed(s.initHr) {
      ClosedNeutral(init, nothing);
    } else {
      StrictDialogClosed(s, options, title, [Apartment]);
      assert nothing + [Apartment] == [Apartment];
      Bracket(init, StrictDialog(s, options, title).calls, CoUninitialize, Apartment, nothing);
    }
  }

  lemma StrictReleasesWhatItAcquires(s: Script, options: bv32, title: string, r: Resource)
    ensures AcquiredCount(Strict(s, options, title).calls, r) == ReleasedCount(Strict(s, options, title).calls, r)
  {
    StrictBalanced(s, options, title);
    BalancedReleasesWhatItAcquires(Strict(s, options, title).calls, r);
  }

  // ----- the path buffer is freed once exactly when the picker succeeds -----

  lemma StrictPathAcquires(item: ShellItem)
    ensures AcquiredCount(StrictPath(item, ResultItem).calls, PathBuffer(ResultItem))
         == if StrictPath(item, ResultItem).value.Ok? then 1 else 0
  {
    var buffer := PathBuffer(ResultItem);
    var named := GetDisplayName(ResultItem, item.nameHr);
    if Failed(item.nameHr) {
      NeverAcquired([named], buffer);
    } else {
      NeverAcquired([CoTaskMemFree(buffer)], buffer);
      AcquiredCountAppend([named], [CoTaskMemFree(buffer)], buffer);
      assert [named] + [CoTaskMemFree(buffer)] == StrictPath(item, ResultItem).calls;
    }
  }

  lemma StrictResultAcquiresPath(s: Script)
    ensures AcquiredCount(StrictResult(s).calls, PathBuffer(ResultItem))
         == if StrictResult(s).value.Ok? then 1 else 0
  {
    var buffer := PathBuffer(ResultItem);
    var get := GetResult(s.getResultHr);
    NeverAcquired([get], buffer);
    if !Failed(s.getResultHr) {
      var path := StrictPath(s.result, ResultItem).calls;
      StrictPathAcquires(s.result);
      NeverAcquired([Release(ResultItem)], buffer);
      AcquiredCountAppend([get], path, buffer);
      AcquiredCountAppend([get] + path, [Release(ResultItem)], buffer);
    }
  }

  lemma StrictConfigureAcquiresPath(s: Script, options: bv32, title: string)
    ensures AcquiredCount(StrictConfigure(s, options, title).calls, PathBuffer(ResultItem))
         == if StrictConfigure(s, options, title).value.Ok? then 1 else 0
  {
    var buffer := PathBuffer(ResultItem);
    var shown := StrictShownCalls(s, options, title);
    NeverAcquired(StrictConfigure(s, options, title).calls[..1], buffer);
    if !Failed(s.setOptionsHr) && Converts(title) && !Failed(s.setTitleHr) {
      NeverAcquired(shown, buffer);
      if !Failed(s.showHr) {
        StrictResultAcquiresPath(s);
        AcquiredCountAppend(shown, StrictResult(s).calls, buffer);
      }
    }
  }

  lemma StrictAcquiresPath(s: Script, options: bv32, title: string)
    ensures AcquiredCount(Strict(s, options, title).calls, PathBuffer(ResultItem))
         == if Strict(s, options, title).value.Ok? then 1 else 0
  {
    var buffer := PathBuffer(ResultItem);
    var init := CoInitializeEx(s.initHr);
    NeverAcquired([init], buffer);
    if !Failed(s.initHr) {
      var create := CoCreateInstance(s.createHr);
      var inner := StrictDialog(s, options, title).calls;
      NeverAcquired([create], buffer);
      if !Failed(s.createHr) {
        var body := StrictConfigure(s, options, title).calls;
        StrictConfigureAcquiresPath(s, options, title);
        NeverAcquired([Release(Dialog)], buffer);
        AcquiredCountAppend([create], body, buffer);
        AcquiredCountAppend([create] + body, [Release(Dialog)], buffer);
      }
      NeverAcquired([CoUninitialize], buffer);
      AcquiredCountAppend([init], inner, buffer);
      AcquiredCountAppend([init] + inner, [CoUninitialize], buffer);
    }
  }

  /** The path buffer is freed with CoTaskMemFree once when the picker succeeds, and never otherwise. */
  lemma PathFreedOnceOnSuccess(s: Script, options: bv32, title: string)
    ensures ReleasedCount(Strict(s, options, title).calls, PathBuffer(ResultItem))
         == if Strict(s, options, title).value.Ok? then 1 else 0
  {
    StrictReleasesWhatItAcquires(s, options, title, PathBuffer(ResultItem));
    StrictAcquiresPath(s, options, title);
  }

  // ----- where a failed picker stops -----

  lemma StrictResultStop(s: Script)
    ensures StopsAtCulprit(StrictResult(s).calls, StrictResult(s).value)
  {
    var get := GetResult(s.getResultHr);
    if Failed(s.getResultHr) {
      LastWorkAtEnd([], get);
      assert [] + [get] == [get];
    } else if Failed(s.result.nameHr) {
      var named := GetDisplayName(ResultItem, s.result.nameHr);
      LastWorkAtEnd([get], named);
      LastWorkBeforeCleanup([get] + [named], Release(ResultItem));
    }
  }

  lemma StrictConfigureStop(s: Script, options: bv32, title: string)
    ensures StopsAtCulprit(StrictConfigure(s, options, title).calls, StrictConfigure(s, options, title).value)
  {
    var written := SetOptions(options, s.setOptionsHr);
    var titled := SetTitle(title, s.setTitleHr);
    LastWorkAtEnd([], written);
    assert [] + [written] == [written];
    if !Failed(s.setOptionsHr) && Converts(title) {
      LastWorkAtEnd([written], titled);
      if !Failed(s.setTitleHr) {
        LastWorkAtEnd([written] + [titled], Show(s.showHr));
        assert [written] + [titled] + [Show(s.showHr)] == StrictShownCalls(s, options, title);
        if !Failed(s.showHr) {
          StrictResultStop(s);
          LastWorkAppend(StrictShownCalls(s, options, title), StrictResult(s).calls);
        }
      }
    }
  }

  lemma StrictDialogStop(s: Script, options: bv32, title: string)
    ensures StopsAtCulprit(StrictDialog(s, options, title).calls, StrictDialog(s, options, title).value)
  {
    var create := CoCreateInstance(s.createHr);
    if Failed(s.createHr) {
      LastWorkAtEnd([], create);
      assert [] + [create] == [create];
    } else {
      var inner := StrictConfigure(s, options, title).calls;
      StrictConfigureStop(s, options, title);
      LastWorkAppend([create], inner);
      LastWorkBeforeCleanup([create] + inner, Release(Dialog));
    }
  }

  /**
   * A picker that returns an error stopped at the call the error names:
   * that call failed (or, for the title conversion, SetOptions was the last
   * call made), and every call after it is a deferred release.
   */
  lemma StrictStopsAtCulprit(s: Script, options: bv32, title: string)
    ensures StopsAtCulprit(Strict(s, options, title).calls, Strict(s, options, title).value)
  {
    var init := CoInitializeEx(s.initHr);
    if Failed(s.initHr) {
      LastWorkAtEnd([], init);
      assert [] + [init] == [init];
    } else {
      var inner := StrictDialog(s, options, title).calls;
      StrictDialogStop(s, options, title);
      LastWorkAppend([init], inner);
      LastWorkBeforeCleanup([init] + inner, CoUninitialize);
    }
  }

  // ----- what the picker writes and returns -----

  /** The only calls a picker can make. */
  predicate Expected(c: Call, s: Script, options: bv32, title: string)
  {
    c == CoInitializeEx(s.initHr) || c == CoUninitialize || c == CoCreateInstance(s.createHr) || c == Release(Dialog)
    || c == SetOptions(options, s.setOptionsHr) || c == SetTitle(title, s.setTitleHr) || c == Show(s.showHr)
    || c.GetResult? || c.GetDisplayName? || c.CoTaskMemFree? || c == Release(ResultItem)
  }

  lemma StrictConfigureExpected(s: Script, options: bv32, title: string)
    ensures forall c :: c in StrictConfigure(s, options, title).calls ==> Expected(c, s, options, title)
  {
  }

  lemma StrictExpected(s: Script, options: bv32, title: string)
    ensures forall c :: c in Strict(s, options, title).calls ==> Expected(c, s, options, title)
  {
    StrictConfigureExpected(s, options, title);
  }

  /** SetOptions is called exactly when COM came up and the dialog was created. */
  lemma StrictSetsOptionsOnce(s: Script, options: bv32, title: string)
    ensures SetOptions(options, s.setOptionsHr) in Strict(s, options, title).calls
        <==> !Failed(s.initHr) && !Failed(s.createHr)
  {
    if !Failed(s.initHr) && !Failed(s.createHr) {
      var body := StrictConfigure(s, options, title).calls;
      assert body[0] == SetOptions(options, s.setOptionsHr);
      assert body[0] in body;
    }
  }

  /**
   * The option word is written outright: SetOptions carries exactly the
   * given word, the current options are never read, no filter is installed,
   * and every SetTitle carries the given title.
   */
  lemma StrictWritesExactly(s: Script, options: bv32, title: string)
    ensures forall c :: c in Strict(s, options, title).calls ==> !c.GetOptions? && !c.SetFileTypes?
    ensures forall c :: c in Strict(s, options, title).calls && c.SetOptions? ==> c.options == options
    ensures forall c :: c in Strict(s, options, title).calls && c.SetTitle? ==> c.title == title
    ensures SetOptions(options, s.setOptionsHr) in Strict(s, options, title).calls
        <==> !Failed(s.initHr) && !Failed(s.createHr)
  {
    StrictExpected(s, options, title);
    StrictSetsOptionsOnce(s, options, title);
  }

  /**
   * The picker succeeds exactly when every call it makes succeeds and the
   * title converts; it then returns the decoded display name of the chosen
   * item.
   */
  lemma StrictSucceedsIff(s: Script, options: bv32, title: string)
    ensures Strict(s, options, title).value.Ok? <==>
      !Failed(s.initHr) && !Failed(s.createHr) && !Failed(s.setOptionsHr) && Converts(title)
      && !Failed(s.setTitleHr) && !Failed(s.showHr) && !Failed(s.getResultHr) && !Failed(s.result.nameHr)
    ensures Strict(s, options, title).value.Ok? ==> Strict(s, options, title).value.value == CString(s.result.name)
  {
  }

  /** SelectFile writes option word 0 and the title "Select File". */
  lemma SelectFileSettings(s: Script)
    ensures forall c :: c in Strict(s, 0, SelectFileTitle).calls && c.SetOptions? ==> c.options == 0
    ensures forall c :: c in Strict(s, 0, SelectFileTitle).calls && c.SetTitle? ==> c.title == "Select File"
  {
    StrictWritesExactly(s, 0, SelectFileTitle);
  }

  /** SelectFolder writes exactly FOS_PICKFOLDERS and the title "Select folder". */
  lemma SelectFolderSettings(s: Script)
    ensures forall c :: c in Strict(s, FOS_PICKFOLDERS, SelectFolderTitle).calls && c.SetOptions? ==>
      c.options == FOS_PICKFOLDERS
    ensures forall c :: c in Strict(s, FOS_PICKFOLDERS, SelectFolderTitle).calls && c.SetTitle? ==>
      c.title == "Select folder"
  {
    StrictWritesExactly(s, FOS_PICKFOLDERS, SelectFolderTitle);
  }

  /** The fixed title "Select File" converts, so SelectFile never reports a conversion failure. */
  lemma SelectFileTitleConverts(s: Script)
    ensures Strict(s, 0, SelectFileTitle).value != Err(TitleConversionFailed)
  {
    assert SelectFileTitle == ['S', 'e', 'l', 'e', 'c', 't', ' ', 'F', 'i', 'l', 'e'];
  }

  /** The fixed title "Select folder" converts, so SelectFolder never reports a conversion failure. */
  lemma SelectFolderTitleConverts(s: Script)
    ensures Strict(s, FOS_PICKFOLDERS, SelectFolderTitle).value != Err(TitleConversionFailed)
  {
    assert SelectFolderTitle == ['S', 'e', 'l', 'e', 'c', 't', ' ', 'f', 'o', 'l', 'd', 'e', 'r'];
  }

  // ----- the program's SelectFile next to the library's -----

  /** Every call the stricter picker checks succeeds. */
  predicate AllSucceed(s: Script)
  {
    !Failed(s.initHr) && !Failed(s.createHr) && !Failed(s.setOptionsHr) && !Failed(s.setTitleHr)
    && !Failed(s.showHr) && !Failed(s.getResultHr) && !Failed(s.result.nameHr)
  }

  function LibrarySelectFile(s: Script): Result<string>
  {
    WinFilePicker.FirstPath(WinFilePicker.Session(s, WinFilePicker.Request(SelectFileTitle, false, false, [])).value,
                            NoFileSelected)
  }

  /** When the operating system grants every call, both SelectFile versions return the same path. */
  lemma SelectFileVersionsAgree(s: Script)
    requires AllSucceed(s)
    ensures Strict(s, 0, SelectFileTitle).value == LibrarySelectFile(s) == Ok(CString(s.result.name))
  {
    SelectFileTitleConverts(s);
  }

  /**
   * When only GetDisplayName fails, the library reports success with an
   * empty path while the program reports the failure.
   */
  lemma SelectFileVersionsDifferOnPath(s: Script)
    requires AllSucceed(s.(result := s.result.(nameHr := 0)))
    requires Failed(s.result.nameHr)
    ensures LibrarySelectFile(s) == Ok("")
    ensures Strict(s, 0, SelectFileTitle).value == Err(PathFailed)
  {
    SelectFileTitleConverts(s);
  }

  /**
   * When only SetTitle fails, the library carries on and returns the path
   * while the program reports the failure.
   */
  lemma SelectFileVersionsDifferOnTitle(s: Script)
    requires AllSucceed(s.(setTitleHr := 0))
    requires Failed(s.setTitleHr)
    ensures LibrarySelectFile(s) == Ok(CString(s.result.name))
    ensures Strict(s, 0, SelectFileTitle).value == Err(SetTitleFailed)
  {
    SelectFileTitleConverts(s);
  }
}
