/**
 * The process-wide error aggregation of ruuvi_driver_error.c: a sticky
 * OR-accumulated mask of every error reported since the last clear, the
 * fatal/non-fatal classification, the optional application callback, and the
 * source-file basename handed to that callback.
 */
module DriverError {
  import opened Types
  import opened DriverStatus

  /** Identity of an application callback registered with `ErrorCbSet`. */
  datatype Callback = Callback(id: nat)

  /** One invocation of the registered callback, with the arguments it received. */
  datatype Invocation = Invocation(callback: Callback, error: Status, fatal: bool, file: string, line: int)

  /**
   * The module's static state: `mask` is m_errors, `callback` is m_cb, and
   * `invocations` records every call made to the callback, in order (it stands
   * for the callback's own effects, which are application code).
   */
  datatype Errors = Errors(mask: Status, callback: Option<Callback>, invocations: seq<Invocation>)

  /** One call of the check function: what it was given. */
  datatype Report = Report(error: Status, nonFatalMask: Status, file: string, line: int)

  /** An error is fatal when it has a bit that the caller's mask does not tolerate. */
  function IsFatal(error: Status, nonFatalMask: Status): (fatal: bool)
    ensures fatal <==> nonFatalMask & error != error
    ensures error == SUCCESS ==> !fatal
    ensures nonFatalMask == SUCCESS ==> (fatal <==> error != SUCCESS)
    ensures Has(error, ERROR_FATAL) && nonFatalMask == !ERROR_FATAL ==> fatal
  {
    (!nonFatalMask & error) != 0
  }

  /** strrchr: the index of the last occurrence of `c` in `s`, if any. */
  function LastIndexOf(s: string, c: char): (r: Option<nat>)
    ensures r.Some? ==> r.value < |s| && s[r.value] == c
    ensures r.Some? ==> forall j :: r.value < j < |s| ==> s[j] != c
    ensures r.None? ==> c !in s
    decreases |s|
  {
    if |s| == 0 then None
    else if s[|s| - 1] == c then Some(|s| - 1)
    else LastIndexOf(s[..|s| - 1], c)
  }

  /**
   * The file name passed to the callback: what follows the last '/', or when
   * there is none what follows the last '\\', or otherwise the whole path.
   */
  function Basename(file: string): (name: string)
    ensures |name| <= |file| && name == file[|file| - |name|..]
    ensures '/' in file ==> '/' !in name && file[|file| - |name| - 1] == '/'
    ensures '/' !in file && '\\' in file ==> '\\' !in name && file[|file| - |name| - 1] == '\\'
    ensures '/' !in file && '\\' !in file ==> name == file
  {
    match LastIndexOf(file, '/')
    case Some(i) => file[i + 1..]
    case None =>
      match LastIndexOf(file, '\\')
      case Some(i) => file[i + 1..]
      case None => file
  }

  /** The state after one call of `ruuvi_driver_error_check`. */
  function Check(e: Errors, r: Report): Errors
  {
    if r.error == SUCCESS then e
    else if e.callback.None? then e.(mask := Or(e.mask, r.error))
    else
      var call := Invocation(e.callback.value, r.error, IsFatal(r.error, r.nonFatalMask), Basename(r.file), r.line);
      e.(mask := Or(e.mask, r.error), invocations := e.invocations + [call])
  }

  /** The state after a series of checks, made in order. */
  function CheckAll(e: Errors, rs: seq<Report>): Errors
    decreases |rs|
  {
    if rs == [] then e else CheckAll(Check(e, rs[0]), rs[1..])
  }

  /** The OR of the errors of a series of checks. */
  function Accumulated(rs: seq<Report>): Status
    decreases |rs|
  {
    if rs == [] then SUCCESS else Or(rs[0].error, Accumulated(rs[1..]))
  }

  /** How many of a series of checks report something other than success. */
  function Failures(rs: seq<Report>): nat
    decreases |rs|
  {
    if rs == [] then 0 else (if rs[0].error != SUCCESS then 1 else 0) + Failures(rs[1..])
  }

  /** Checking SUCCESS changes nothing and calls no callback. */
  lemma CheckSuccessIsNoOp(e: Errors, mask: Status, file: string, line: int)
    ensures Check(e, Report(SUCCESS, mask, file, line)) == e
  {
  }

  /** One failing check: the mask gains exactly the error's bits; the callback stays registered. */
  lemma CheckAccumulates(e: Errors, r: Report)
    requires r.error != SUCCESS
    ensures Check(e, r).mask == Or(e.mask, r.error)
    ensures Check(e, r).callback == e.callback
  {
  }

  /**
   * One failing check calls a registered callback exactly once, with the
   * error, its fatality under the caller's mask, the basename of the file and
   * the line; without a callback nothing is called.
   */
  lemma CheckCallsBack(e: Errors, r: Report)
    requires r.error != SUCCESS
    ensures e.callback.None? ==> Check(e, r).invocations == e.invocations
    ensures e.callback.Some? ==>
              Check(e, r).invocations ==
              e.invocations + [Invocation(e.callback.value, r.error, IsFatal(r.error, r.nonFatalMask), Basename(r.file), r.line)]
  {
  }

  /**
   * Sticky accumulation over any series of checks: the final mask is the old
   * mask OR every reported error, and the callback, when registered, was
   * called once per non-success report.
   */
  lemma {:induction false} CheckAllAccumulates(e: Errors, rs: seq<Report>)
    ensures CheckAll(e, rs).mask == Or(e.mask, Accumulated(rs))
    ensures CheckAll(e, rs).callback == e.callback
    ensures |CheckAll(e, rs).invocations| == |e.invocations| + (if e.callback.Some? then Failures(rs) else 0)
    ensures e.invocations <= CheckAll(e, rs).invocations
    decreases |rs|
  {
    if rs == [] {
      OrKeepsBits(e.mask, SUCCESS);
    } else {
      var e1 := Check(e, rs[0]);
      CheckAllAccumulates(e1, rs[1..]);
      if rs[0].error == SUCCESS {
        OrKeepsBits(e.mask, SUCCESS);
      } else {
        CheckAccumulates(e, rs[0]);
        CheckCallsBack(e, rs[0]);
      }
      assert e1.mask == Or(e.mask, rs[0].error);
      assert e.invocations <= e1.invocations;
      OrAssociates(e.mask, rs[0].error, Accumulated(rs[1..]));
    }
  }

  /** The module's statics: m_errors, m_cb, and the callback's record of calls. */
  class ErrorState {
    var mask: Status
    var callback: Option<Callback>
    var invocations: seq<Invocation>

    ghost function View(): Errors
      reads this
    {
      Errors(mask, callback, invocations)
    }

    /** Zero-initialised statics: no error seen, no callback registered. */
    constructor ()
      ensures View() == Errors(SUCCESS, None, [])
    {
      mask, callback, invocations := SUCCESS, None, [];
    }

    /** ruuvi_driver_error_check: accumulate, classify, and call back. */
    method ErrorCheck(error: Status, nonFatalMask: Status, file: string, line: int)
      modifies this
      ensures View() == Check(old(View()), Report(error, nonFatalMask, file, line))
    {
      if error == SUCCESS {
        return;
      }
      ghost var before := View();
      mask := Or(mask, error);
      var fatal := IsFatal(error, nonFatalMask);
      var filename := Basename(file);
      // The FATAL / WARNING log line is formatted and emitted here; logging is not modelled.
      if callback.Some? {
        invocations := invocations + [Invocation(callback.value, error, fatal, filename, line)];
      }
      ghost var r := Report(error, nonFatalMask, file, line);
      CheckAccumulates(before, r);
      CheckCallsBack(before, r);
      ghost var after := Check(before, r);
      assert mask == after.mask && callback == after.callback && invocations == after.invocations;
    }

    /** ruuvi_driver_errors_clear: return the accumulated mask and reset it. */
    method ErrorsClear() returns (errors: Status)
      modifies this
      ensures errors == old(mask)
      ensures View() == old(View()).(mask := SUCCESS)
    {
      errors := mask;
      mask := SUCCESS;
    }

    /** ruuvi_driver_error_cb_set: register (or, with None, remove) the callback. */
    method ErrorCbSet(cb: Option<Callback>)
      modifies this
      ensures View() == old(View()).(callback := cb)
    {
      callback := cb;
    }
  }

  /** Two clears in a row: the first drains the mask, the second returns SUCCESS. */
  method ClearTwice(state: ErrorState) returns (first: Status, second: Status)
    modifies state
    ensures first == old(state.mask)
    ensures second == SUCCESS
    ensures state.mask == SUCCESS
  {
    first := state.ErrorsClear();
    second := state.ErrorsClear();
  }
}
