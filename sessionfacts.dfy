/**
 * What one showOpenDialog session guarantees, stated over the calls it makes
 * and the value it returns (`WinFilePicker.Session`): resource discipline,
 * where a failed session stops, which failures are ignored, the option word,
 * title and filter it installs, and the paths it hands back.
 */
module SessionFacts {
  import opened Utf16
  import opened Com
  import opened Ledger
  import opened WinFilePicker

  /** COM is up and the dialog exists. */
  predicate DialogCreated(s: Script)
  {
    !Failed(s.initHr) && !Failed(s.createHr)
  }

  /** The dialog accepted its options, so title, filter and Show follow. */
  predicate OptionsSet(s: Script)
  {
    DialogCreated(s) && !Failed(s.setOptionsHr)
  }

  // ----- resource discipline -----

  lemma ResolveClosed(item: ShellItem, h: Resource, held: seq<Resource>)
    requires h in held
    ensures Closed(Resolve(item, h).calls, held)
  {
    var named := GetDisplayName(h, item.nameHr);
    if Failed(item.nameHr) {
      ClosedNeutral(named, held);
    } else {
      Bracket(named, [], CoTaskMemFree(PathBuffer(h)), PathBuffer(h), held);
      assert [named] + [] + [CoTaskMemFree(PathBuffer(h))] == Resolve(item, h).calls;
    }
  }

  lemma ItemStepClosed(e: ArrayEntry, i: nat, held: seq<Resource>)
    requires ResultArray in held
    ensures Closed(ItemStep(e, i).calls, held)
  {
    var get := GetItemAt(i, e.itemHr);
    if Failed(e.itemHr) {
      ClosedNeutral(get, held);
    } else {
      ResolveClosed(e.item, ArrayItem(i), held + [ArrayItem(i)]);
      Bracket(get, Resolve(e.item, ArrayItem(i)).calls, Release(ArrayItem(i)), ArrayItem(i), held);
    }
  }

  lemma {:induction false} CollectClosed(items: seq<ArrayEntry>, n: nat, held: seq<Resource>)
    requires n <= |items| && ResultArray in held
    ensures Closed(Collect(items, n).calls, held)
  {
    if n > 0 {
      CollectClosed(items, n - 1, held);
      CollectClosedStep(items, n, held);
    }
  }

  lemma CollectClosedStep(items: seq<ArrayEntry>, n: nat, held: seq<Resource>)
    requires 0 < n <= |items| && ResultArray in held
    requires Closed(Collect(items, n - 1).calls, held)
    ensures Closed(Collect(items, n).calls, held)
  {
    ItemStepClosed(items[n - 1], n - 1, held);
    ClosedAppend(Collect(items, n - 1).calls, ItemStep(items[n - 1], n - 1).calls, held);
  }

  lemma MultiResultsClosed(s: Script, held: seq<Resource>)
    requires Dialog in held
    ensures Closed(MultiResults(s).calls, held)
  {
    var get := GetResults(s.getResultsHr);
    if Failed(s.getResultsHr) {
      ClosedNeutral(get, held);
    } else {
      var inside := held + [ResultArray];
      var count := GetCount(s.getCountHr);
      ClosedNeutral(count, inside);
      var body := [count];
      if !Failed(s.getCountHr) {
        CollectClosed(s.items, |s.items|, inside);
        ClosedAppend([count], Collect(s.items, |s.items|).calls, inside);
        body := [count] + Collect(s.items, |s.items|).calls;
      }
      Bracket(get, body, Release(ResultArray), ResultArray, held);
    }
  }

  lemma SingleResultClosed(s: Script, held: seq<Resource>)
    requires Dialog in held
    ensures Closed(SingleResult(s).calls, held)
  {
    var get := GetResult(s.getResultHr);
    if Failed(s.getResultHr) {
      ClosedNeutral(get, held);
    } else {
      ResolveClosed(s.result, ResultItem, held + [ResultItem]);
      Bracket(get, Resolve(s.result, ResultItem).calls, Release(ResultItem), ResultItem, held);
    }
  }

  lemma ConfigureClosed(s: Script, q: Request, held: seq<Resource>)
    requires Dialog in held
    ensures Closed(Configure(s, q).calls, held)
  {
    var options := OptionCalls(s, q);
    ClosedNeutral(options[0], held);
    ClosedNeutral(options[1], held);
    ClosedAppend([options[0]], [options[1]], held);
    assert options == [options[0]] + [options[1]];
    if !Failed(s.setOptionsHr) {
      var title := TitleCalls(s, q);
      if |title| > 0 {
        ClosedNeutral(title[0], held);
      }
      var filter := FilterCalls(s, q);
      if |filter| > 0 {
        ClosedNeutral(filter[0], held);
      }
      ClosedNeutral(Show(s.showHr), held);
      ClosedAppend(options, title, held);
      ClosedAppend(options + title, filter, held);
      ClosedAppend(options + title + filter, [Show(s.showHr)], held);
      if !Failed(s.showHr) {
        if q.multiSelect {
          MultiResultsClosed(s, held);
        } else {
          SingleResultClosed(s, held);
        }
        ClosedAppend(ShownCalls(s, q), Results(s, q).calls, held);
      }
    }
  }

  lemma DialogSessionClosed(s: Script, q: Request, held: seq<Resource>)
    requires Apartment in held
    ensures Closed(DialogSession(s, q).calls, held)
  {
    var create := CoCreateInstance(s.createHr);
    if Failed(s.createHr) {
      ClosedNeutral(create, held);
    } else {
      ConfigureClosed(s, q, held + [Dialog]);
      Bracket(create, Configure(s, q).calls, Release(Dialog), Dialog, held);
    }
  }

  /**
   * Every resource a session obtains is given back exactly once, in reverse
   * order of acquisition, and no handle is used outside the time it is held.
   */
  lemma SessionBalanced(s: Script, q: Request)
    ensures Balanced(Session(s, q).calls)
  {
    var nothing: seq<Resource> := [];
    var init := CoInitializeEx(s.initHr);
    if Failed(s.initHr) {
      ClosedNeutral(init, nothing);
    } else {
      DialogSessionClosed(s, q, nothing + [Apartment]);
      Bracket(init, DialogSession(s, q).calls, CoUninitialize, Apartment, nothing);
    }
  }

  /** Each resource is given back exactly as many times as the session obtained it. */
  lemma SessionReleasesWhatItAcquires(s: Script, q: Request, r: Resource)
    ensures AcquiredCount(Session(s, q).calls, r) == ReleasedCount(Session(s, q).calls, r)
  {
    SessionBalanced(s, q);
    BalancedReleasesWhatItAcquires(Session(s, q).calls, r);
  }

  // ----- where a failed session stops -----

  lemma MultiResultsStop(s: Script)
    ensures StopsAtCulprit(MultiResults(s).calls, MultiResults(s).value)
  {
    var get := GetResults(s.getResultsHr);
    if Failed(s.getResultsHr) {
      LastWorkAtEnd([], get);
      assert [] + [get] == [get];
    } else if Failed(s.getCountHr) {
      var count := GetCount(s.getCountHr);
      LastWorkAtEnd([get], count);
      LastWorkBeforeCleanup([get] + [count], Release(ResultArray));
    }
  }

  lemma SingleResultStop(s: Script)
    ensures StopsAtCulprit(SingleResult(s).calls, SingleResult(s).value)
  {
    var get := GetResult(s.getResultHr);
    if Failed(s.getResultHr) {
      LastWorkAtEnd([], get);
      assert [] + [get] == [get];
    }
  }

  lemma ConfigureStop(s: Script, q: Request)
    ensures StopsAtCulprit(Configure(s, q).calls, Configure(s, q).value)
  {
    var options := OptionCalls(s, q);
    var written := SetOptions(ComposeOptions(s.options, q.pickFolders, q.multiSelect), s.setOptionsHr);
    assert options == [GetOptions(s.getOptionsHr)] + [written];
    LastWorkAtEnd([GetOptions(s.getOptionsHr)], written);
    if !Failed(s.setOptionsHr) {
      var beforeShow := options + TitleCalls(s, q) + FilterCalls(s, q);
      LastWorkAtEnd(beforeShow, Show(s.showHr));
      if !Failed(s.showHr) {
        var results := Results(s, q);
        if q.multiSelect {
          MultiResultsStop(s);
        } else {
          SingleResultStop(s);
        }
        LastWorkAppend(ShownCalls(s, q), results.calls);
      }
    }
  }

  lemma DialogSessionStop(s: Script, q: Request)
    ensures StopsAtCulprit(DialogSession(s, q).calls, DialogSession(s, q).value)
  {
    var create := CoCreateInstance(s.createHr);
    if Failed(s.createHr) {
      LastWorkAtEnd([], create);
      assert [] + [create] == [create];
    } else {
      var inner := Configure(s, q);
      ConfigureStop(s, q);
      LastWorkAppend([create], inner.calls);
      LastWorkBeforeCleanup([create] + inner.calls, Release(Dialog));
    }
  }

  /**
   * A session that returns an error stopped at the call the error names:
   * that call failed, and every call after it is a deferred release.
   */
  lemma SessionStopsAtCulprit(s: Script, q: Request)
    ensures StopsAtCulprit(Session(s, q).calls, Session(s, q).value)
  {
    var init := CoInitializeEx(s.initHr);
    if Failed(s.initHr) {
      LastWorkAtEnd([], init);
      assert [] + [init] == [init];
    } else {
      var inner := DialogSession(s, q);
      DialogSessionStop(s, q);
      LastWorkAppend([init], inner.calls);
      LastWorkBeforeCleanup([init] + inner.calls, CoUninitialize);
    }
  }

  /**
   * The session succeeds exactly when every checked call succeeds: COM
   * initialisation, creation, SetOptions, Show, and then GetResults and
   * GetCount, or GetResult.
   */
  lemma SessionSucceedsIff(s: Script, q: Request)
    ensures Session(s, q).value.Ok? <==>
      OptionsSet(s) && !Failed(s.showHr) &&
      (if q.multiSelect then !Failed(s.getResultsHr) && !Failed(s.getCountHr) else !Failed(s.getResultHr))
  {
  }

  /** Failures of GetOptions, SetTitle and SetFileTypes never change what a session returns. */
  lemma IgnoredFailures(s: Script, q: Request, getOptionsHr: HResult, setTitleHr: HResult, setFileTypesHr: HResult)
    ensures Session(s.(getOptionsHr := getOptionsHr, setTitleHr := setTitleHr, setFileTypesHr := setFileTypesHr), q).value
         == Session(s, q).value
  {
  }

  // ----- what the session installs on the dialog -----

  /** The calls that read the dialog's answer, made only after Show succeeded. */
  predicate ReadsResults(c: Call)
  {
    c.GetResults? || c.GetCount? || c.GetItemAt? || c.GetResult? || c.GetDisplayName?
    || c.CoTaskMemFree? || (c.Release? && c.handle != Dialog)
  }

  lemma {:induction false} CollectReads(items: seq<ArrayEntry>, n: nat)
    requires n <= |items|
    ensures forall c :: c in Collect(items, n).calls ==> ReadsResults(c)
  {
    if n > 0 {
      CollectReads(items, n - 1);
      CollectReadsStep(items, n);
    }
  }

  lemma CollectReadsStep(items: seq<ArrayEntry>, n: nat)
    requires 0 < n <= |items|
    requires forall c :: c in Collect(items, n - 1).calls ==> ReadsResults(c)
    ensures forall c :: c in Collect(items, n).calls ==> ReadsResults(c)
  {
    assert Collect(items, n).calls == Collect(items, n - 1).calls + ItemStep(items[n - 1], n - 1).calls;
  }

  lemma ResultsRead(s: Script, q: Request)
    ensures forall c :: c in Results(s, q).calls ==> ReadsResults(c)
  {
    CollectReads(s.items, |s.items|);
  }

  /** The calls that configure the dialog before it is shown. */
  predicate IsSetting(c: Call)
  {
    c.SetOptions? || c.SetTitle? || c.SetFileTypes?
  }

  /** The configuring calls of a log, in order. */
  function Settings(calls: seq<Call>): seq<Call>
    decreases |calls|
  {
    if |calls| == 0 then []
    else (if IsSetting(calls[0]) then [calls[0]] else []) + Settings(calls[1..])
  }

  lemma {:induction false} SettingsAppend(a: seq<Call>, b: seq<Call>)
    ensures Settings(a + b) == Settings(a) + Settings(b)
    decreases |a|
  {
    if |a| == 0 {
      assert a + b == b;
    } else {
      assert (a + b)[0] == a[0];
      assert (a + b)[1..] == a[1..] + b;
      SettingsAppend(a[1..], b);
    }
  }

  lemma {:induction false} SettingsNone(calls: seq<Call>)
    requires forall c :: c in calls ==> !IsSetting(c)
    ensures Settings(calls) == []
    decreases |calls|
  {
    if |calls| > 0 {
      assert calls[0] in calls;
      assert forall c :: c in calls[1..] ==> c in calls;
      SettingsNone(calls[1..]);
    }
  }

  lemma SettingsAll(calls: seq<Call>)
    requires forall c :: c in calls ==> IsSetting(c)
    ensures Settings(calls) == calls
    decreases |calls|
  {
    if |calls| > 0 {
      assert calls == [calls[0]] + calls[1..];
      assert forall c :: c in calls[1..] ==> c in calls;
      SettingsAll(calls[1..]);
    }
  }

  /** A configuring call occurs in a log exactly when it occurs among the log's settings. */
  lemma {:induction false} SettingsKeep(calls: seq<Call>)
    ensures forall c :: IsSetting(c) ==> (c in calls <==> c in Settings(calls))
    decreases |calls|
  {
    if |calls| > 0 {
      SettingsKeep(calls[1..]);
      assert calls == [calls[0]] + calls[1..];
    }
  }

  lemma ShownSettings(s: Script, q: Request)
    ensures Settings(ShownCalls(s, q))
         == [SetOptions(ComposeOptions(s.options, q.pickFolders, q.multiSelect), s.setOptionsHr)]
            + TitleCalls(s, q) + FilterCalls(s, q)
  {
    var options := OptionCalls(s, q);
    SettingsAppend([options[0]], [options[1]]);
    assert options == [options[0]] + [options[1]];
    SettingsAll(TitleCalls(s, q));
    SettingsAll(FilterCalls(s, q));
    SettingsAppend(options, TitleCalls(s, q));
    SettingsAppend(options + TitleCalls(s, q), FilterCalls(s, q));
    SettingsAppend(options + TitleCalls(s, q) + FilterCalls(s, q), [Show(s.showHr)]);
  }

  lemma ConfigureSettings(s: Script, q: Request)
    ensures Settings(Configure(s, q).calls)
         == [SetOptions(ComposeOptions(s.options, q.pickFolders, q.multiSelect), s.setOptionsHr)]
            + (if Failed(s.setOptionsHr) then [] else TitleCalls(s, q) + FilterCalls(s, q))
  {
    var options := OptionCalls(s, q);
    if Failed(s.setOptionsHr) {
      SettingsAppend([options[0]], [options[1]]);
      assert options == [options[0]] + [options[1]];
    } else {
      ShownSettings(s, q);
      if !Failed(s.showHr) {
        ResultsRead(s, q);
        SettingsNone(Results(s, q).calls);
        SettingsAppend(ShownCalls(s, q), Results(s, q).calls);
      }
    }
  }

  lemma {:induction false} SessionSettingsFrom(s: Script, q: Request)
    requires DialogCreated(s)
    ensures Settings(Session(s, q).calls) == Settings(Configure(s, q).calls)
  {
    var body := Configure(s, q).calls;
    SettingsAppend([CoCreateInstance(s.createHr)], body);
    SettingsAppend([CoCreateInstance(s.createHr)] + body, [Release(Dialog)]);
    var inner := DialogSession(s, q).calls;
    SettingsAppend([CoInitializeEx(s.initHr)], inner);
    SettingsAppend([CoInitializeEx(s.initHr)] + inner, [CoUninitialize]);
  }

  /**
   * The configuring calls a session makes: none unless the dialog was
   * created; then SetOptions with the composed word, and only if it was
   * accepted the title (when there is one) and the filter (when files are
   * picked by extension).
   */
  function SettingsMade(s: Script, q: Request): seq<Call>
  {
    if !DialogCreated(s) then []
    else [SetOptions(ComposeOptions(s.options, q.pickFolders, q.multiSelect), s.setOptionsHr)]
         + (if Failed(s.setOptionsHr) then [] else TitleCalls(s, q) + FilterCalls(s, q))
  }

  lemma SessionSettings(s: Script, q: Request)
    ensures Settings(Session(s, q).calls) == SettingsMade(s, q)
  {
    if DialogCreated(s) {
      SessionSettingsFrom(s, q);
      ConfigureSettings(s, q);
    } else if !Failed(s.initHr) {
      SettingsNone(Session(s, q).calls);
    }
  }

  lemma OptionsInstalledIn(calls: seq<Call>, s: Script, q: Request)
    requires Settings(calls) == SettingsMade(s, q)
    ensures SetOptions(ComposeOptions(s.options, q.pickFolders, q.multiSelect), s.setOptionsHr) in calls
        <==> DialogCreated(s)
    ensures forall c :: c in calls && c.SetOptions? ==> c.options == ComposeOptions(s.options, q.pickFolders, q.multiSelect)
  {
    SettingsKeep(calls);
  }

  lemma TitleInstalledIn(calls: seq<Call>, s: Script, q: Request)
    requires Settings(calls) == SettingsMade(s, q)
    ensures SetTitle(q.title, s.setTitleHr) in calls <==> OptionsSet(s) && q.title != ""
    ensures forall c :: c in calls && c.SetTitle? ==> c == SetTitle(q.title, s.setTitleHr)
  {
    SettingsKeep(calls);
  }

  lemma FilterInstalledIn(calls: seq<Call>, s: Script, q: Request)
    requires Settings(calls) == SettingsMade(s, q)
    ensures SetFileTypes(FilterFor(q.extensions), s.setFileTypesHr) in calls
        <==> OptionsSet(s) && |q.extensions| > 0 && !q.pickFolders
    ensures forall c :: c in calls && c.SetFileTypes? ==> c == SetFileTypes(FilterFor(q.extensions), s.setFileTypesHr)
  {
    SettingsKeep(calls);
  }

  /**
   * SetOptions is called once the dialog exists, and always with the
   * dialog's current options plus the requested flags.
   */
  lemma OptionsInstalled(s: Script, q: Request)
    ensures SetOptions(ComposeOptions(s.options, q.pickFolders, q.multiSelect), s.setOptionsHr) in Session(s, q).calls
        <==> DialogCreated(s)
    ensures forall c :: c in Session(s, q).calls && c.SetOptions? ==>
      c.options == ComposeOptions(s.options, q.pickFolders, q.multiSelect)
  {
    SessionSettings(s, q);
    OptionsInstalledIn(Session(s, q).calls, s, q);
  }

  /** SetTitle is called exactly when the options were accepted and the title is not empty. */
  lemma TitleInstalled(s: Script, q: Request)
    ensures SetTitle(q.title, s.setTitleHr) in Session(s, q).calls <==> OptionsSet(s) && q.title != ""
    ensures forall c :: c in Session(s, q).calls && c.SetTitle? ==> c == SetTitle(q.title, s.setTitleHr)
  {
    SessionSettings(s, q);
    TitleInstalledIn(Session(s, q).calls, s, q);
  }

  /**
   * SetFileTypes is called exactly when the options were accepted, there are
   * extensions, and files (not folders) are picked; it installs the one
   * "Supported Files" entry.
   */
  lemma FilterInstalled(s: Script, q: Request)
    ensures SetFileTypes(FilterFor(q.extensions), s.setFileTypesHr) in Session(s, q).calls
        <==> OptionsSet(s) && |q.extensions| > 0 && !q.pickFolders
    ensures forall c :: c in Session(s, q).calls && c.SetFileTypes? ==>
      c == SetFileTypes(FilterFor(q.extensions), s.setFileTypesHr)
  {
    SessionSettings(s, q);
    FilterInstalledIn(Session(s, q).calls, s, q);
  }

  // ----- apartment and dialog are each given back once -----

  lemma ResultsAcquireNothingOwned(s: Script, q: Request, r: Resource)
    requires r == Apartment || r == Dialog
    ensures AcquiredCount(Results(s, q).calls, r) == 0
  {
    ResultsRead(s, q);
    NeverAcquired(Results(s, q).calls, r);
  }

  lemma ConfigureAcquiresNothingOwned(s: Script, q: Request, r: Resource)
    requires r == Apartment || r == Dialog
    ensures AcquiredCount(Configure(s, q).calls, r) == 0
  {
    if Failed(s.setOptionsHr) {
      NeverAcquired(OptionCalls(s, q), r);
    } else {
      NeverAcquired(ShownCalls(s, q), r);
      if !Failed(s.showHr) {
        ResultsAcquireNothingOwned(s, q, r);
        AcquiredCountAppend(ShownCalls(s, q), Results(s, q).calls, r);
      }
    }
  }

  lemma DialogSessionAcquires(s: Script, q: Request, r: Resource)
    requires r == Apartment || r == Dialog
    ensures AcquiredCount(DialogSession(s, q).calls, r) == if r == Dialog && !Failed(s.createHr) then 1 else 0
  {
    var create := CoCreateInstance(s.createHr);
    if Failed(s.createHr) {
      NeverAcquired([create], r);
    } else {
      var body := Configure(s, q).calls;
      ConfigureAcquiresNothingOwned(s, q, r);
      NeverAcquired([Release(Dialog)], r);
      AcquiredCountAppend([create], body, r);
      AcquiredCountAppend([create] + body, [Release(Dialog)], r);
    }
  }

  lemma SessionAcquires(s: Script, q: Request, r: Resource)
    requires r == Apartment || r == Dialog
    ensures AcquiredCount(Session(s, q).calls, r)
         == if r == Apartment then (if Failed(s.initHr) then 0 else 1)
            else (if DialogCreated(s) then 1 else 0)
  {
    var init := CoInitializeEx(s.initHr);
    if !Failed(s.initHr) {
      var inner := DialogSession(s, q).calls;
      DialogSessionAcquires(s, q, r);
      NeverAcquired([CoUninitialize], r);
      AcquiredCountAppend([init], inner, r);
      AcquiredCountAppend([init] + inner, [CoUninitialize], r);
    }
  }

  /** CoUninitialize runs once exactly when CoInitializeEx succeeded. */
  lemma ApartmentReleasedOnce(s: Script, q: Request)
    ensures ReleasedCount(Session(s, q).calls, Apartment) == if Failed(s.initHr) then 0 else 1
  {
    SessionReleasesWhatItAcquires(s, q, Apartment);
    SessionAcquires(s, q, Apartment);
  }

  /** The dialog is released once exactly when it was created. */
  lemma DialogReleasedOnce(s: Script, q: Request)
    ensures ReleasedCount(Session(s, q).calls, Dialog) == if DialogCreated(s) then 1 else 0
  {
    SessionReleasesWhatItAcquires(s, q, Dialog);
    SessionAcquires(s, q, Dialog);
  }

  // ----- which paths a multi-select session returns -----

  /** A slot contributes a path when GetItemAt succeeded and the path it resolves to is not empty. */
  predicate Picked(e: ArrayEntry)
  {
    !Failed(e.itemHr) && PathOf(e.item) != ""
  }

  /** The paths of the picked slots, in slot order: the reference the loop is measured against. */
  function Selected(items: seq<ArrayEntry>): seq<string>
    decreases |items|
  {
    if |items| == 0 then []
    else (if Picked(items[0]) then [PathOf(items[0].item)] else []) + Selected(items[1..])
  }

  lemma {:induction false} SelectedAppend(a: seq<ArrayEntry>, b: seq<ArrayEntry>)
    ensures Selected(a + b) == Selected(a) + Selected(b)
    decreases |a|
  {
    if |a| > 0 {
      SelectedAppend(a[1..], b);
      SelectedAppendStep(a, b);
    } else {
      assert a + b == b;
    }
  }

  lemma SelectedAppendStep(a: seq<ArrayEntry>, b: seq<ArrayEntry>)
    requires |a| > 0
    requires Selected(a[1..] + b) == Selected(a[1..]) + Selected(b)
    ensures Selected(a + b) == Selected(a) + Selected(b)
  {
    assert (a + b)[0] == a[0];
    assert (a + b)[1..] == a[1..] + b;
  }

  /** After n turns the loop has gathered exactly the selected paths of the first n slots. */
  lemma {:induction false} CollectSelects(items: seq<ArrayEntry>, n: nat)
    requires n <= |items|
    ensures Collect(items, n).value == Selected(items[..n])
  {
    if n > 0 {
      CollectSelects(items, n - 1);
      CollectSelectsStep(items, n);
    } else {
      assert items[..0] == [];
    }
  }

  lemma CollectSelectsStep(items: seq<ArrayEntry>, n: nat)
    requires 0 < n <= |items|
    requires Collect(items, n - 1).value == Selected(items[..n - 1])
    ensures Collect(items, n).value == Selected(items[..n])
  {
    var e := items[n - 1];
    assert items[..n] == items[..n - 1] + [e];
    SelectedAppend(items[..n - 1], [e]);
    assert [e][1..] == [];
  }

  /** A successful multi-select session returns the selected paths of the whole array. */
  lemma MultiSelectPaths(s: Script, q: Request)
    requires q.multiSelect
    ensures Session(s, q).value.Ok? ==> Session(s, q).value.value == Selected(s.items)
  {
    CollectSelects(s.items, |s.items|);
    assert s.items[..|s.items|] == s.items;
  }

  /**
   * The selection never has more paths than the array has slots, holds no
   * empty path, and loses no slot exactly when every slot is picked.
   */
  lemma {:induction false} SelectedBounds(items: seq<ArrayEntry>)
    ensures |Selected(items)| <= |items|
    ensures forall p :: p in Selected(items) ==> p != ""
    ensures |Selected(items)| == |items| <==> forall i :: 0 <= i < |items| ==> Picked(items[i])
    decreases |items|
  {
    if |items| > 0 {
      SelectedBounds(items[1..]);
      assert forall i :: 1 <= i < |items| ==> items[i] == items[1..][i - 1];
    }
  }

  /** Every returned path is the path of a picked slot of the array. */
  lemma {:induction false} SelectedFromPicked(items: seq<ArrayEntry>)
    ensures forall p :: p in Selected(items) ==> exists e :: e in items && Picked(e) && p == PathOf(e.item)
    decreases |items|
  {
    if |items| > 0 {
      SelectedFromPicked(items[1..]);
      assert forall e :: e in items[1..] ==> e in items;
      assert items[0] in items;
    }
  }

  /** When every slot is picked, the paths come back one per slot, in slot order. */
  lemma {:induction false} SelectedAllPicked(items: seq<ArrayEntry>)
    requires forall i :: 0 <= i < |items| ==> Picked(items[i])
    ensures |Selected(items)| == |items|
    ensures forall i :: 0 <= i < |items| ==> Selected(items)[i] == PathOf(items[i].item)
    decreases |items|
  {
    if |items| > 0 {
      SelectedAllPicked(items[1..]);
    }
  }

  // ----- single-select sessions and the entry points -----

  /** A successful single-select session returns one path: that of the result item. */
  lemma SingleSelectPath(s: Script, q: Request)
    requires !q.multiSelect
    ensures Session(s, q).value.Ok? <==> OptionsSet(s) && !Failed(s.showHr) && !Failed(s.getResultHr)
    ensures Session(s, q).value.Ok? ==> Session(s, q).value.value == [PathOf(s.result)]
  {
  }

  /** SelectFile answers the result item's path or a session error; it never reports that no file was selected. */
  lemma SelectFileAnswers(s: Script, title: string, extensions: seq<string>)
    ensures var r := FirstPath(Session(s, Request(title, false, false, extensions)).value, NoFileSelected);
      r != Err(NoFileSelected) && (r.Ok? ==> r.value == PathOf(s.result))
  {
    SingleSelectPath(s, Request(title, false, false, extensions));
  }

  /** SelectFolder answers the result item's path or a session error; it never reports that no folder was selected. */
  lemma SelectFolderAnswers(s: Script, title: string)
    ensures var r := FirstPath(Session(s, Request(title, false, true, [])).value, NoFolderSelected);
      r != Err(NoFolderSelected) && (r.Ok? ==> r.value == PathOf(s.result))
  {
    SingleSelectPath(s, Request(title, false, true, []));
  }
}
