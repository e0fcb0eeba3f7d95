/** The two board actions a controller widget calls when it commits a value, recorded in
    call order, and the ordering guarantee the commits give: every refresh of the widgets
    that depend on a filter comes straight after persisting that same widget. */
module Board {
  import opened Widgets

  datatype BoardCall =
    | UpdateCall(widget: Widget)   // widgetUpdate(widget): persist the widget record
    | RefreshCall(widget: Widget)  // refreshWidgetsByFilter(widget): refresh its dependents

  /** The board action context; `calls` is the log of the actions invoked on it so far. */
  class BoardActions {
    var calls: seq<BoardCall>

    constructor ()
      ensures calls == []
    {
      calls := [];
    }

    method WidgetUpdate(w: Widget)
      modifies this
      ensures calls == old(calls) + [UpdateCall(w)]
    {
      calls := calls + [UpdateCall(w)];
    }

    method RefreshWidgetsByFilter(w: Widget)
      modifies this
      ensures calls == old(calls) + [RefreshCall(w)]
    {
      calls := calls + [RefreshCall(w)];
    }
  }

  /** The calls one commit of `next` makes. */
  function CommitCalls(next: Widget): seq<BoardCall> {
    [UpdateCall(next), RefreshCall(next)]
  }

  /** Every refresh is immediately preceded by persisting the same widget. */
  predicate PersistedBeforeRefresh(log: seq<BoardCall>) {
    forall j :: 0 <= j < |log| && log[j].RefreshCall? ==> 0 < j && log[j - 1] == UpdateCall(log[j].widget)
  }

  /** The log of a run of commits, one per widget in `committed`. */
  function CommitLog(committed: seq<Widget>): seq<BoardCall> {
    if committed == [] then [] else CommitLog(committed[..|committed| - 1]) + CommitCalls(committed[|committed| - 1])
  }

  /** A run of commits calls `widgetUpdate` exactly once per commit, each time followed by
      `refreshWidgetsByFilter` on the same widget, and nothing else. */
  lemma {:induction false} CommitLogShape(committed: seq<Widget>)
    ensures |CommitLog(committed)| == 2 * |committed|
    ensures forall i :: 0 <= i < |committed| ==>
              CommitLog(committed)[2 * i] == UpdateCall(committed[i]) &&
              CommitLog(committed)[2 * i + 1] == RefreshCall(committed[i])
  {
    if committed != [] {
      var init := committed[..|committed| - 1];
      CommitLogShape(init);
      forall i | 0 <= i < |committed|
        ensures CommitLog(committed)[2 * i] == UpdateCall(committed[i])
        ensures CommitLog(committed)[2 * i + 1] == RefreshCall(committed[i])
      {
        if i < |init| {
          assert committed[i] == init[i];
        }
      }
    }
  }

  /** A commit keeps the ordering guarantee of the log it extends. */
  lemma CommitPreservesOrder(log: seq<BoardCall>, next: Widget)
    requires PersistedBeforeRefresh(log)
    ensures PersistedBeforeRefresh(log + CommitCalls(next))
  { }

  /** Any run of commits persists before it refreshes. */
  lemma {:induction false} CommitLogOrdered(committed: seq<Widget>)
    ensures PersistedBeforeRefresh(CommitLog(committed))
  {
    if committed != [] {
      CommitLogOrdered(committed[..|committed| - 1]);
      CommitPreservesOrder(CommitLog(committed[..|committed| - 1]), committed[|committed| - 1]);
    }
  }
}
