/** Properties of whole sequences of events, each handled as Step handles it. */
module RunProperties {
  import opened Geometry
  import opened Windows
  import opened VisibilityState
  import opened VisibilityRules
  import opened VisibilityProperties

  /** One event together with what the window system and the view report when it arrives. */
  datatype Occurrence = Occurrence(ws: WindowSystem, view: View, input: Input)

  /** Every event of the session is accepted in the state it arrives in. */
  ghost predicate AllAccepted(e: Engine, occs: seq<Occurrence>)
    requires Inv(e)
    decreases |occs|
  {
    |occs| == 0 ||
    var o := occs[0];
    && Accepted(e, o.input)
    && (StepPreservesInv(e, o.ws, o.view, o.input);
        AllAccepted(Step(e, o.ws, o.view, o.input), occs[1..]))
  }

  /** The engine after handling the events in order. */
  function Run(e: Engine, occs: seq<Occurrence>): (r: Engine)
    requires Inv(e) && AllAccepted(e, occs)
    decreases |occs|
  {
    if |occs| == 0 then e
    else
      var o := occs[0];
      StepPreservesInv(e, o.ws, o.view, o.input);
      Run(Step(e, o.ws, o.view, o.input), occs[1..])
  }

  /** The invariant holds after any sequence of events. */
  lemma {:induction false} RunPreservesInv(e: Engine, occs: seq<Occurrence>)
    requires Inv(e) && AllAccepted(e, occs)
    ensures Inv(Run(e, occs))
    decreases |occs|
  {
    if |occs| > 0 {
      var o := occs[0];
      StepPreservesInv(e, o.ws, o.view, o.input);
      RunPreservesInv(Step(e, o.ws, o.view, o.input), occs[1..]);
    }
  }

  /** The blockHiding override over a whole session (lines 225-246, 279-280): as long as nobody
      unblocks hiding, the engine stays blocked, the dock stays shown and no event ever makes it
      request a show or a hide. */
  lemma {:induction false} BlockedRunEmitsNoIntents(e: Engine, occs: seq<Occurrence>)
    requires Inv(e) && e.flags.blockHiding && AllAccepted(e, occs)
    requires forall i :: 0 <= i < |occs| ==> occs[i].input != OnCall(CallSetBlockHiding(false))
    ensures var r := Run(e, occs);
      r.flags.blockHiding && !r.flags.isHidden && e.log <= r.log && NoIntents(r.log[|e.log|..])
    decreases |occs|
  {
    if |occs| > 0 {
      var o := occs[0];
      StepPreservesInv(e, o.ws, o.view, o.input);
      BlockedEmitsNoIntents(e, o.ws, o.view, o.input);
      var e1 := Step(e, o.ws, o.view, o.input);
      BlockedRunEmitsNoIntents(e1, occs[1..]);
      var r := Run(e1, occs[1..]);
      NoIntentsChain(e.log, e1.log, r.log, []);
      assert r.log + [] == r.log;
    }
  }
}
