/** The quality report shown beside the editor and the bookkeeping that
    keeps it current: a reducer over report actions, and two generation
    counters that let only the latest global and per-square analyses
    reach the report. Timestamps are passed in as `now`. */
module ImageQuality {
  import opened Types
  import opened QualityAnalysis

  /** The report: the global analysis, one analysis per square id, whether
      an analysis is running, and when results last arrived. */
  datatype Report = Report(
    global: Option<Analysis>,
    bySquareId: map<Id, Analysis>,
    isAnalyzing: bool,
    updatedAt: Option<int>)

  const INITIAL_REPORT: Report := Report(None, map[], false, None)

  datatype Action =
    | Reset
    | GlobalStart
    | GlobalSuccess(global: Option<Analysis>)
    | GlobalError
    | SquaresStart
    | SquaresSuccess(bySquareId: map<Id, Analysis>)
    | SquaresClear
    | SquaresError

  /** Actions that start an analysis. */
  predicate IsStart(action: Action)
  {
    action.GlobalStart? || action.SquaresStart?
  }

  /** Actions that end one: a result, a failure or a clear. */
  predicate IsFinish(action: Action)
  {
    action.GlobalSuccess? || action.GlobalError? || action.SquaresSuccess? || action.SquaresClear? || action.SquaresError?
  }

  /** `qualityReducer`. */
  function Reduce(state: Report, action: Action, now: int): (r: Report)
    ensures action.Reset? ==> r == INITIAL_REPORT
    ensures IsStart(action) ==> r.isAnalyzing
    ensures !IsStart(action) ==> !r.isAnalyzing
    ensures IsFinish(action) ==> r.updatedAt == Some(now)
    ensures action.GlobalStart? ==> r.global == None && r.bySquareId == map[] && r.updatedAt == None
    ensures action.GlobalSuccess? ==> r.global == action.global
    ensures action.GlobalError? ==> r.global == None
    ensures action.SquaresSuccess? ==> r.bySquareId == action.bySquareId
    ensures action.SquaresClear? ==> r.bySquareId == map[]
    // Only global actions and reset touch the global result, only square
    // actions, global-start and reset touch the per-square results.
    ensures r.global != state.global ==> action.Reset? || action.GlobalStart? || action.GlobalSuccess? || action.GlobalError?
    ensures r.bySquareId != state.bySquareId ==> action.Reset? || action.GlobalStart? || action.SquaresSuccess? || action.SquaresClear?
    ensures action.SquaresStart? ==> r.updatedAt == state.updatedAt
  {
    match action
    case Reset => INITIAL_REPORT
    case GlobalStart => state.(global := None, bySquareId := map[], isAnalyzing := true, updatedAt := None)
    case GlobalSuccess(payload) => state.(global := payload, isAnalyzing := false, updatedAt := Some(now))
    case GlobalError => state.(global := None, isAnalyzing := false, updatedAt := Some(now))
    case SquaresStart => state.(isAnalyzing := true)
    case SquaresSuccess(payload) => state.(bySquareId := payload, isAnalyzing := false, updatedAt := Some(now))
    case SquaresClear => state.(bySquareId := map[], isAnalyzing := false, updatedAt := Some(now))
    case SquaresError => state.(isAnalyzing := false, updatedAt := Some(now))
  }

  /** A report without a timestamp holds no results. */
  predicate Stamped(r: Report)
  {
    r.updatedAt == None ==> r.global == None && r.bySquareId == map[]
  }

  /** Every action keeps reports stamped. */
  lemma ReducePreservesStamped(state: Report, action: Action, now: int)
    requires Stamped(state)
    ensures Stamped(Reduce(state, action, now))
  {
  }

  /** Any run of actions from the initial report keeps it stamped. */
  function ReduceAll(state: Report, actions: seq<Action>, now: int): Report
    decreases |actions|
  {
    if actions == [] then state else ReduceAll(Reduce(state, actions[0], now), actions[1..], now)
  }

  lemma {:induction false} ReduceAllStamped(state: Report, actions: seq<Action>, now: int)
    requires Stamped(state)
    ensures Stamped(ReduceAll(state, actions, now))
    decreases |actions|
  {
    if actions != [] {
      ReducePreservesStamped(state, actions[0], now);
      ReduceAllStamped(Reduce(state, actions[0], now), actions[1..], now);
    }
  }

  /** Whether the square at `i` is the last one with its id. */
  predicate LastWithId(squares: seq<Square>, i: int)
    requires 0 <= i < |squares|
  {
    forall j :: i < j < |squares| ==> squares[j].id != squares[i].id
  }

  /** `Object.fromEntries` over the analysed squares, entry by entry. */
  function FromEntries(squares: seq<Square>, analyses: seq<Analysis>): map<Id, Analysis>
    requires |squares| == |analyses|
  {
    if squares == [] then map[]
    else
      var n := |squares| - 1;
      FromEntries(squares[..n], analyses[..n])[squares[n].id := analyses[n]]
  }

  /** One entry per square id and no other key. */
  lemma {:induction false} FromEntriesKeys(squares: seq<Square>, analyses: seq<Analysis>)
    requires |squares| == |analyses|
    ensures forall i :: 0 <= i < |squares| ==> squares[i].id in FromEntries(squares, analyses)
    ensures forall id :: id in FromEntries(squares, analyses) ==> exists i :: 0 <= i < |squares| && squares[i].id == id
  {
    if squares != [] {
      var n := |squares| - 1;
      var ps, pa := squares[..n], analyses[..n];
      FromEntriesKeys(ps, pa);
      var r := FromEntries(squares, analyses);
      forall id | id in r
        ensures exists i :: 0 <= i < |squares| && squares[i].id == id
      {
        if id != squares[n].id {
          var i :| 0 <= i < n && ps[i].id == id;
          assert squares[i].id == id;
        } else {
          assert squares[n].id == id;
        }
      }
      forall i | 0 <= i < n
        ensures squares[i].id in r
      {
        assert ps[i] == squares[i];
      }
    }
  }

  /** Where ids repeat, the later square's analysis wins. */
  lemma {:induction false} FromEntriesLastWins(squares: seq<Square>, analyses: seq<Analysis>)
    requires |squares| == |analyses|
    ensures forall i :: 0 <= i < |squares| && LastWithId(squares, i) ==>
      squares[i].id in FromEntries(squares, analyses) && FromEntries(squares, analyses)[squares[i].id] == analyses[i]
  {
    if squares != [] {
      var n := |squares| - 1;
      var ps, pa := squares[..n], analyses[..n];
      FromEntriesLastWins(ps, pa);
      var r := FromEntries(squares, analyses);
      forall i | 0 <= i < n && LastWithId(squares, i)
        ensures squares[i].id in r && r[squares[i].id] == analyses[i]
      {
        assert squares[n].id != squares[i].id;
        assert LastWithId(ps, i) by {
          forall j | i < j < n
            ensures ps[j].id != ps[i].id
          {
            assert ps[j] == squares[j];
          }
        }
        assert ps[i] == squares[i] && pa[i] == analyses[i];
      }
    }
  }

  /** The orchestration of `useImageQuality`: the report and the two
      generation counters. */
  class QualityOrchestrator {
    var report: Report
    var globalToken: nat
    var squaresToken: nat

    constructor()
      ensures report == INITIAL_REPORT && globalToken == 0 && squaresToken == 0
    {
      report := INITIAL_REPORT;
      globalToken := 0;
      squaresToken := 0;
    }

    method Dispatch(action: Action, now: int)
      modifies this
      ensures report == Reduce(old(report), action, now)
      ensures globalToken == old(globalToken) && squaresToken == old(squaresToken)
    {
      report := Reduce(report, action, now);
    }

    /** The image effect without an image: both counters move on, so no
        pending analysis can land, and the report is reset. */
    method ClearImage()
      modifies this
      ensures globalToken == old(globalToken) + 1 && squaresToken == old(squaresToken) + 1
      ensures report == INITIAL_REPORT
    {
      globalToken := globalToken + 1;
      squaresToken := squaresToken + 1;
      Dispatch(Reset, 0);
    }

    /** The image effect with an image: a new global generation and a
        global-start; the caller analyses and reports back with `token`. */
    method StartGlobal() returns (token: nat)
      modifies this
      ensures token == globalToken == old(globalToken) + 1
      ensures squaresToken == old(squaresToken)
      ensures report == Reduce(old(report), GlobalStart, 0)
    {
      globalToken := globalToken + 1;
      token := globalToken;
      Dispatch(GlobalStart, 0);
    }

    /** A global analysis finished: applied only if it is the latest. */
    method CompleteGlobal(token: nat, global: Option<Analysis>, now: int)
      modifies this
      ensures globalToken == old(globalToken) && squaresToken == old(squaresToken)
      ensures token == globalToken ==> report == Reduce(old(report), GlobalSuccess(global), now)
      ensures token != globalToken ==> report == old(report)
    {
      if token != globalToken {
        return;
      }
      Dispatch(GlobalSuccess(global), now);
    }

    /** A global analysis failed: applied only if it is the latest. */
    method FailGlobal(token: nat, now: int)
      modifies this
      ensures globalToken == old(globalToken) && squaresToken == old(squaresToken)
      ensures token == globalToken ==> report == Reduce(old(report), GlobalError, now)
      ensures token != globalToken ==> report == old(report)
    {
      if token != globalToken {
        return;
      }
      Dispatch(GlobalError, now);
    }

    /** The squares effect. Without an image it does nothing; an empty
        list moves the counter on and clears the per-square results at
        once; otherwise a squares-start and a new generation whose token
        the caller reports back with. */
    method SquaresChanged(hasImage: bool, count: nat, now: int) returns (token: Option<nat>)
      modifies this
      ensures globalToken == old(globalToken)
      ensures !hasImage ==> token == None && squaresToken == old(squaresToken) && report == old(report)
      ensures hasImage && count == 0 ==>
        token == None && squaresToken == old(squaresToken) + 1 && report == Reduce(old(report), SquaresClear, now)
      ensures hasImage && count > 0 ==>
        token == Some(squaresToken) && squaresToken == old(squaresToken) + 1
        && report == Reduce(old(report), SquaresStart, now)
    {
      if !hasImage {
        return None;
      }
      if count == 0 {
        squaresToken := squaresToken + 1;
        Dispatch(SquaresClear, now);
        return None;
      }
      Dispatch(SquaresStart, now);
      squaresToken := squaresToken + 1;
      token := Some(squaresToken);
    }

    /** The per-square analyses finished, one per square in list order:
        keyed by square id and applied only if they are the latest. */
    method CompleteSquares(token: nat, squares: seq<Square>, analyses: seq<Analysis>, now: int)
      requires |squares| == |analyses|
      modifies this
      ensures globalToken == old(globalToken) && squaresToken == old(squaresToken)
      ensures token == squaresToken ==> report == Reduce(old(report), SquaresSuccess(FromEntries(squares, analyses)), now)
      ensures token != squaresToken ==> report == old(report)
    {
      if token != squaresToken {
        return;
      }
      var bySquareId := FromEntries(squares, analyses);
      Dispatch(SquaresSuccess(bySquareId), now);
    }

    /** The per-square analyses failed: applied only if they are the latest. */
    method FailSquares(token: nat, now: int)
      modifies this
      ensures globalToken == old(globalToken) && squaresToken == old(squaresToken)
      ensures token == squaresToken ==> report == Reduce(old(report), SquaresError, now)
      ensures token != squaresToken ==> report == old(report)
    {
      if token != squaresToken {
        return;
      }
      Dispatch(SquaresError, now);
    }
  }

  /** A global result that arrives after a newer request was started is
      dropped: the report stays as the newer start left it. */
  method SupersededGlobalDropped(o: QualityOrchestrator, global: Option<Analysis>, now: int)
    modifies o
    ensures o.report == Reduce(Reduce(old(o.report), GlobalStart, 0), GlobalStart, 0)
  {
    var first := o.StartGlobal();
    var second := o.StartGlobal();
    o.CompleteGlobal(first, global, now);
    o.FailGlobal(first, now);
  }

  /** Per-square results that arrive after the list changed again are
      dropped, and so are results that arrive after the image was removed. */
  method SupersededSquaresDropped(o: QualityOrchestrator, squares: seq<Square>, analyses: seq<Analysis>, count: nat, now: int)
    requires |squares| == |analyses|
    modifies o
    ensures o.report == INITIAL_REPORT
  {
    var first := o.SquaresChanged(true, 1, now);
    var second := o.SquaresChanged(true, count, now);
    o.CompleteSquares(first.value, squares, analyses, now);
    o.ClearImage();
    if second.Some? {
      o.CompleteSquares(second.value, squares, analyses, now);
      o.FailSquares(second.value, now);
    }
  }

  /** Whatever it carries, a global result whose token is below the
      current counter leaves the report and both counters as they were. */
  method StaleGlobalDropped(o: QualityOrchestrator, token: nat, global: Option<Analysis>, now: int)
    requires token < o.globalToken
    modifies o
    ensures o.report == old(o.report)
    ensures o.globalToken == old(o.globalToken) && o.squaresToken == old(o.squaresToken)
  {
    o.CompleteGlobal(token, global, now);
    o.FailGlobal(token, now);
  }

  /** Whatever they carry, per-square results whose token is below the
      current counter leave the report and both counters as they were. */
  method StaleSquaresDropped(o: QualityOrchestrator, token: nat, squares: seq<Square>, analyses: seq<Analysis>, now: int)
    requires token < o.squaresToken && |squares| == |analyses|
    modifies o
    ensures o.report == old(o.report)
    ensures o.globalToken == old(o.globalToken) && o.squaresToken == old(o.squaresToken)
  {
    o.CompleteSquares(token, squares, analyses, now);
    o.FailSquares(token, now);
  }
}
