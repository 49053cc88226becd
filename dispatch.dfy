/**
 * The transition dispatcher: from the visibility before and after a
 * recompute, which callbacks fire and in what order.
 */
module Dispatch {
  import opened Wrappers
  import opened Geometry

  datatype Hook = OnEnter | OnLeave | OnVisible

  /** Which of the three callback settings hold functions; the others are skipped. */
  datatype Callbacks = Callbacks(onEnter: bool, onLeave: bool, onVisible: bool)

  /** What every callback receives: `percent` and `progress` are left out
    * (None) when their settings are off. */
  datatype Payload = Payload(position: Position, visible: bool, percent: Option<Pair>, progress: Option<Pair>)

  /** One invocation of a callback. */
  datatype Call = Call(hook: Hook, payload: Payload)

  /** 1 for true, 0 for false. */
  function Indicator(b: bool): int {
    if b then 1 else 0
  }

  /**
   * The callbacks one tick fires. A change of visibility fires onEnter (now
   * visible) or onLeave (now hidden), never both; onVisible fires on every
   * visible tick and comes last. No callback fires twice: the
   * length is the number of distinct hooks present.
   */
  function Fired(wasVisible: bool, isVisible: bool, cb: Callbacks): (r: seq<Hook>)
    ensures OnEnter in r <==> wasVisible != isVisible && isVisible && cb.onEnter
    ensures OnLeave in r <==> wasVisible != isVisible && !isVisible && cb.onLeave
    ensures OnVisible in r <==> isVisible && cb.onVisible
    ensures |r| == Indicator(OnEnter in r) + Indicator(OnLeave in r) + Indicator(OnVisible in r)
    ensures OnVisible in r ==> r[|r| - 1] == OnVisible
  {
    (if wasVisible != isVisible then
       if isVisible && cb.onEnter then [OnEnter]
       else if !isVisible && cb.onLeave then [OnLeave]
       else []
     else [])
    + (if isVisible && cb.onVisible then [OnVisible] else [])
  }

  /** The callbacks fired over a series of ticks, starting from `wasVisible`.
    * Each tick contributes what Fired gives for the visibility before and
    * after it, as every run of the plugin's event does (see RunAppend). */
  function Run(wasVisible: bool, ticks: seq<bool>, cb: Callbacks): seq<Hook>
    decreases |ticks|
  {
    if ticks == [] then [] else Fired(wasVisible, ticks[0], cb) + Run(ticks[0], ticks[1..], cb)
  }

  /**
   * Extending a series by one tick appends what Fired gives for the last
   * visibility and the new one: the hooks of successive events, each of which
   * appends Fired of the visibility before and after it, are those of Run.
   */
  lemma {:induction false} RunAppend(wasVisible: bool, ticks: seq<bool>, isVisible: bool, cb: Callbacks)
    ensures Run(wasVisible, ticks + [isVisible], cb)
         == Run(wasVisible, ticks, cb) + Fired(Final(wasVisible, ticks), isVisible, cb)
    decreases |ticks|
  {
    var longer := ticks + [isVisible];
    if ticks == [] {
      assert longer == [isVisible];
    } else {
      assert longer[0] == ticks[0] && longer[1..] == ticks[1..] + [isVisible];
      RunAppend(ticks[0], ticks[1..], isVisible, cb);
      ConcatAssociative(Fired(wasVisible, ticks[0], cb), Run(ticks[0], ticks[1..], cb),
                        Fired(Final(wasVisible, ticks), isVisible, cb));
    }
  }

  lemma ConcatAssociative(a: seq<Hook>, b: seq<Hook>, c: seq<Hook>)
    ensures a + (b + c) == (a + b) + c
  {
  }

  function Count(hooks: seq<Hook>, h: Hook): nat
    decreases |hooks|
  {
    if hooks == [] then 0 else (if hooks[0] == h then 1 else 0) + Count(hooks[1..], h)
  }

  /** Number of ticks whose visibility differs from the tick before. */
  function Changes(wasVisible: bool, ticks: seq<bool>): nat
    decreases |ticks|
  {
    if ticks == [] then 0
    else (if ticks[0] != wasVisible then 1 else 0) + Changes(ticks[0], ticks[1..])
  }

  function Final(wasVisible: bool, ticks: seq<bool>): bool {
    if ticks == [] then wasVisible else ticks[|ticks| - 1]
  }

  lemma {:induction false} CountAppend(a: seq<Hook>, b: seq<Hook>, h: Hook)
    ensures Count(a + b, h) == Count(a, h) + Count(b, h)
    decreases |a|
  {
    if a == [] {
      assert a + b == b;
    } else {
      assert (a + b)[0] == a[0];
      assert (a + b)[1..] == a[1..] + b;
      CountAppend(a[1..], b, h);
    }
  }

  /** What one tick contributes to the counts of enters and leaves. */
  lemma FiredTransitionCounts(wasVisible: bool, isVisible: bool, cb: Callbacks)
    requires cb.onEnter && cb.onLeave
    ensures Count(Fired(wasVisible, isVisible, cb), OnEnter) == Indicator(wasVisible != isVisible && isVisible)
    ensures Count(Fired(wasVisible, isVisible, cb), OnLeave) == Indicator(wasVisible != isVisible && !isVisible)
  {
    var r := Fired(wasVisible, isVisible, cb);
    var tick := if isVisible && cb.onVisible then [OnVisible] else [];
    assert Count(tick, OnEnter) == 0 && Count(tick, OnLeave) == 0;
    if wasVisible == isVisible {
      assert r == tick;
    } else if isVisible {
      assert r == [OnEnter] + tick;
      CountAppend([OnEnter], tick, OnEnter);
      CountAppend([OnEnter], tick, OnLeave);
    } else {
      assert r == [OnLeave];
    }
  }

  /**
   * With onEnter and onLeave both set, every change of visibility fires
   * exactly one of them, and the two alternate: the enters outnumber the
   * leaves by the change from the first state to the last.
   */
  lemma {:induction false} RunTransitions(wasVisible: bool, ticks: seq<bool>, cb: Callbacks)
    requires cb.onEnter && cb.onLeave
    ensures Count(Run(wasVisible, ticks, cb), OnEnter) + Count(Run(wasVisible, ticks, cb), OnLeave)
         == Changes(wasVisible, ticks)
    ensures Count(Run(wasVisible, ticks, cb), OnEnter) - Count(Run(wasVisible, ticks, cb), OnLeave)
         == Indicator(Final(wasVisible, ticks)) - Indicator(wasVisible)
    decreases |ticks|
  {
    if ticks != [] {
      var head := Fired(wasVisible, ticks[0], cb);
      var tail := Run(ticks[0], ticks[1..], cb);
      assert Run(wasVisible, ticks, cb) == head + tail;
      CountAppend(head, tail, OnEnter);
      CountAppend(head, tail, OnLeave);
      FiredTransitionCounts(wasVisible, ticks[0], cb);
      RunTransitions(ticks[0], ticks[1..], cb);
      assert Changes(wasVisible, ticks)
          == Indicator(ticks[0] != wasVisible) + Changes(ticks[0], ticks[1..]);
      assert Final(ticks[0], ticks[1..]) == Final(wasVisible, ticks);
    }
  }

  /** Number of visible ticks. */
  function VisibleTicks(ticks: seq<bool>): nat
    decreases |ticks|
  {
    if ticks == [] then 0 else Indicator(ticks[0]) + VisibleTicks(ticks[1..])
  }

  /** With onVisible set, it fires once per visible tick, whatever came before. */
  lemma {:induction false} RunVisibleTicks(wasVisible: bool, ticks: seq<bool>, cb: Callbacks)
    requires cb.onVisible
    ensures Count(Run(wasVisible, ticks, cb), OnVisible) == VisibleTicks(ticks)
    decreases |ticks|
  {
    if ticks != [] {
      var head := Fired(wasVisible, ticks[0], cb);
      var tail := Run(ticks[0], ticks[1..], cb);
      assert Run(wasVisible, ticks, cb) == head + tail;
      CountAppend(head, tail, OnVisible);
      assert Count(head, OnVisible) == Indicator(ticks[0]) by {
        if |head| > 0 {
          assert head[1..] == [] || head[1..] == [OnVisible];
        }
      }
      RunVisibleTicks(ticks[0], ticks[1..], cb);
    }
  }
}
