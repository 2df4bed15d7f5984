/**
 * Reading a call log for resource discipline and for where a session stopped.
 *
 * `Replay` walks the log with the stack of resources held so far: a
 * successful acquiring call pushes its resource, a releasing call must pop
 * the resource on top, and a call that works on a handle needs that handle
 * to be held. A log is `Balanced` when the walk never gets stuck and ends
 * with nothing held: every acquisition is released exactly once, in reverse
 * order of acquisition (as Go's deferred calls run), and no handle is used
 * after it was released.
 */
module Ledger {
  import opened Com

  datatype Option<T> = None | Some(value: T)

  /** The resource a call obtains, if it succeeded. */
  function Acquires(c: Call): Option<Resource>
  {
    match c
    case CoInitializeEx(hr) => if Failed(hr) then None else Some(Apartment)
    case CoCreateInstance(hr) => if Failed(hr) then None else Some(Dialog)
    case GetResults(hr) => if Failed(hr) then None else Some(ResultArray)
    case GetItemAt(i, hr) => if Failed(hr) then None else Some(ArrayItem(i))
    case GetResult(hr) => if Failed(hr) then None else Some(ResultItem)
    case GetDisplayName(item, hr) => if Failed(hr) then None else Some(PathBuffer(item))
    case _ => None
  }

  /** The resource a call gives back. */
  function Releases(c: Call): Option<Resource>
  {
    match c
    case CoUninitialize => Some(Apartment)
    case CoTaskMemFree(buffer) => Some(buffer)
    case Release(handle) => Some(handle)
    case _ => None
  }

  /** The resource a call works on, which must still be held. */
  function Needs(c: Call): Option<Resource>
  {
    match c
    case CoCreateInstance(_) => Some(Apartment)
    case GetOptions(_) => Some(Dialog)
    case SetOptions(_, _) => Some(Dialog)
    case SetTitle(_, _) => Some(Dialog)
    case SetFileTypes(_, _) => Some(Dialog)
    case Show(_) => Some(Dialog)
    case GetResults(_) => Some(Dialog)
    case GetResult(_) => Some(Dialog)
    case GetCount(_) => Some(ResultArray)
    case GetItemAt(_, _) => Some(ResultArray)
    case GetDisplayName(item, _) => Some(item)
    case _ => None
  }

  /** One call's effect on the stack of held resources; None when the call breaks the discipline. */
  function Step(held: seq<Resource>, c: Call): Option<seq<Resource>>
  {
    if Needs(c).Some? && Needs(c).value !in held then None
    else match Acquires(c)
      case Some(r) => Some(held + [r])
      case None =>
        match Releases(c)
        case Some(r) => if |held| > 0 && held[|held| - 1] == r then Some(held[..|held| - 1]) else None
        case None => Some(held)
  }

  function Replay(log: seq<Call>, held: seq<Resource>): Option<seq<Resource>>
    decreases |log|
  {
    if |log| == 0 then Some(held)
    else match Step(held, log[0])
      case None => None
      case Some(next) => Replay(log[1..], next)
  }

  /** Starting with nothing held, the log ends with nothing held and never breaks the discipline. */
  predicate Balanced(log: seq<Call>)
  {
    Replay(log, []) == Some([])
  }

  /** A stretch of calls that leaves the held stack as it found it. */
  predicate Closed(calls: seq<Call>, held: seq<Resource>)
  {
    Replay(calls, held) == Some(held)
  }

  function Then(r: Option<seq<Resource>>, log: seq<Call>): Option<seq<Resource>>
  {
    match r
    case None => None
    case Some(held) => Replay(log, held)
  }

  lemma {:induction false} ReplayAppend(a: seq<Call>, b: seq<Call>, held: seq<Resource>)
    ensures Replay(a + b, held) == Then(Replay(a, held), b)
    decreases |a|
  {
    if |a| == 0 {
      assert a + b == b;
    } else {
      assert (a + b)[0] == a[0];
      assert (a + b)[1..] == a[1..] + b;
      match Step(held, a[0])
      case None =>
      case Some(next) => ReplayAppend(a[1..], b, next);
    }
  }

  lemma ReplaySingle(c: Call, held: seq<Resource>)
    ensures Replay([c], held) == Step(held, c)
  {
    assert [c][1..] == [];
  }

  lemma ClosedAppend(a: seq<Call>, b: seq<Call>, held: seq<Resource>)
    requires Closed(a, held) && Closed(b, held)
    ensures Closed(a + b, held)
  {
    ReplayAppend(a, b, held);
  }

  /** A call that needs a held resource, obtains nothing and gives nothing back leaves the stack alone. */
  lemma ClosedNeutral(c: Call, held: seq<Resource>)
    requires Needs(c).None? || Needs(c).value in held
    requires Acquires(c).None? && Releases(c).None?
    ensures Closed([c], held)
  {
    ReplaySingle(c, held);
  }

  /**
   * The shape of every scope in the bindings: a call that obtains r, a body
   * that leaves r on top, and the call that gives r back.
   */
  lemma Bracket(open: Call, body: seq<Call>, close: Call, r: Resource, held: seq<Resource>)
    requires Needs(open).None? || Needs(open).value in held
    requires Acquires(open) == Some(r)
    requires Closed(body, held + [r])
    requires Releases(close) == Some(r) && Needs(close).None? && Acquires(close).None?
    ensures Closed([open] + body + [close], held)
  {
    ReplaySingle(open, held);
    ReplayAppend([open], body, held);
    ReplaySingle(close, held + [r]);
    assert (held + [r])[..|held + [r]| - 1] == held;
    ReplayAppend([open] + body, [close], held);
  }

  /** How many times the log obtains r. */
  function AcquiredCount(log: seq<Call>, r: Resource): nat
    decreases |log|
  {
    if |log| == 0 then 0
    else (if Acquires(log[0]) == Some(r) then 1 else 0) + AcquiredCount(log[1..], r)
  }

  /** How many times the log gives r back. */
  function ReleasedCount(log: seq<Call>, r: Resource): nat
    decreases |log|
  {
    if |log| == 0 then 0
    else (if Releases(log[0]) == Some(r) then 1 else 0) + ReleasedCount(log[1..], r)
  }

  lemma StepAccounts(held: seq<Resource>, c: Call, next: seq<Resource>, r: Resource)
    requires Step(held, c) == Some(next)
    ensures multiset(held)[r] + (if Acquires(c) == Some(r) then 1 else 0)
         == multiset(next)[r] + (if Releases(c) == Some(r) then 1 else 0)
  {
    match Acquires(c)
    case Some(a) =>
      assert next == held + [a];
    case None =>
      match Releases(c)
      case Some(a) =>
        assert held == next + [a];
      case None =>
  }

  /** The copies of r held at the end are those held at the start, plus those obtained, minus those given back. */
  lemma {:induction false} ReplayAccounts(log: seq<Call>, held: seq<Resource>, final: seq<Resource>, r: Resource)
    requires Replay(log, held) == Some(final)
    ensures multiset(held)[r] + AcquiredCount(log, r) == multiset(final)[r] + ReleasedCount(log, r)
    decreases |log|
  {
    if |log| > 0 {
      var next := Step(held, log[0]).value;
      StepAccounts(held, log[0], next, r);
      ReplayAccounts(log[1..], next, final, r);
    }
  }

  /** In a balanced log every resource is given back exactly as often as it was obtained. */
  lemma BalancedReleasesWhatItAcquires(log: seq<Call>, r: Resource)
    requires Balanced(log)
    ensures AcquiredCount(log, r) == ReleasedCount(log, r)
  {
    var nothing: seq<Resource> := [];
    ReplayAccounts(log, nothing, nothing, r);
  }

  lemma {:induction false} AcquiredCountAppend(a: seq<Call>, b: seq<Call>, r: Resource)
    ensures AcquiredCount(a + b, r) == AcquiredCount(a, r) + AcquiredCount(b, r)
    decreases |a|
  {
    if |a| == 0 {
      assert a + b == b;
    } else {
      assert (a + b)[0] == a[0];
      assert (a + b)[1..] == a[1..] + b;
      AcquiredCountAppend(a[1..], b, r);
    }
  }

  /** A log none of whose calls obtains r never obtains it. */
  lemma {:induction false} NeverAcquired(log: seq<Call>, r: Resource)
    requires forall c :: c in log ==> Acquires(c) != Some(r)
    ensures AcquiredCount(log, r) == 0
    decreases |log|
  {
    if |log| > 0 {
      assert log[0] in log;
      assert forall c :: c in log[1..] ==> c in log;
      NeverAcquired(log[1..], r);
    }
  }

  /** Calls that only give something back: the deferred releases that run on the way out. */
  predicate IsCleanup(c: Call)
  {
    c.CoUninitialize? || c.CoTaskMemFree? || c.Release?
  }

  /** The last call in the log that is not cleanup. */
  function LastWork(log: seq<Call>): Option<Call>
    decreases |log|
  {
    if |log| == 0 then None
    else if !IsCleanup(log[|log| - 1]) then Some(log[|log| - 1])
    else LastWork(log[..|log| - 1])
  }

  lemma {:induction false} LastWorkAppend(a: seq<Call>, b: seq<Call>)
    ensures LastWork(a + b) == if LastWork(b).Some? then LastWork(b) else LastWork(a)
    decreases |b|
  {
    if |b| == 0 {
      assert a + b == a;
    } else {
      assert (a + b)[|a + b| - 1] == b[|b| - 1];
      assert (a + b)[..|a + b| - 1] == a + b[..|b| - 1];
      LastWorkAppend(a, b[..|b| - 1]);
    }
  }

  lemma LastWorkSingle(c: Call)
    ensures LastWork([c]) == if IsCleanup(c) then None else Some(c)
  {
    if IsCleanup(c) {
      assert [c][..0] == [];
    }
  }

  /** Cleanup appended after a stretch does not change its last real call. */
  lemma LastWorkBeforeCleanup(calls: seq<Call>, c: Call)
    requires IsCleanup(c)
    ensures LastWork(calls + [c]) == LastWork(calls)
  {
    LastWorkAppend(calls, [c]);
    LastWorkSingle(c);
  }

  /** A stretch ending in a real call stops at that call. */
  lemma LastWorkAtEnd(calls: seq<Call>, c: Call)
    requires !IsCleanup(c)
    ensures LastWork(calls + [c]) == Some(c)
  {
    LastWorkAppend(calls, [c]);
    LastWorkSingle(c);
  }

  /** The call that each error blames, and the fact that it is the one that failed. */
  predicate Explains(e: DialogError, c: Call)
  {
    match e
    case ComInitFailed => c.CoInitializeEx? && Failed(c.hr)
    case CreateFailed => c.CoCreateInstance? && Failed(c.hr)
    case SetOptionsFailed => c.SetOptions? && Failed(c.hr)
    case Cancelled => c.Show? && Failed(c.hr)
    case GetResultsFailed => c.GetResults? && Failed(c.hr)
    case GetCountFailed => c.GetCount? && Failed(c.hr)
    case GetResultFailed => c.GetResult? && Failed(c.hr)
    // the title is converted between SetOptions and SetTitle without calling the dialog
    case TitleConversionFailed => c.SetOptions? && !Failed(c.hr)
    case SetTitleFailed => c.SetTitle? && Failed(c.hr)
    case Deselected => c.Show? && Failed(c.hr)
    case RetrieveResultsFailed => c.GetResult? && Failed(c.hr)
    case PathFailed => c.GetDisplayName? && Failed(c.hr)
    case NoFileSelected => false
    case NoFolderSelected => false
  }

  /** A session that failed stopped at the call its error names: only cleanup follows it. */
  predicate StopsAtCulprit<T>(calls: seq<Call>, result: Result<T>)
  {
    result.Err? ==> LastWork(calls).Some? && Explains(result.error, LastWork(calls).value)
  }
}
