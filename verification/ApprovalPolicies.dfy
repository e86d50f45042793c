/** Layered approval policies of agentos_workflow/approvals.py. */
module ApprovalPolicies {
  import opened Support

  datatype PolicyLayer = BuiltIn | Project | Gate | Run
  datatype Channel = Cli | Telegram
  datatype TimeoutAction = AutoApprove | Pause | Fail | Cancel | Escalate

  /** One configuration layer; an absent field defers to the layer below. */
  datatype Overlay = Overlay(
    required: Option<bool>, timeoutSeconds: Option<int>, timeoutAction: Option<TimeoutAction>,
    channels: Option<seq<Channel>>, approvers: Option<seq<string>>, escalateTo: Option<seq<string>>,
    extensionSeconds: Option<int>, fallbackAction: Option<TimeoutAction>)

  datatype RawPolicy = Policy(
    required: bool, timeoutSeconds: Option<int>, timeoutAction: TimeoutAction,
    channels: seq<Channel>, approvers: seq<string>, escalateTo: seq<string>,
    extensionSeconds: Option<int>, fallbackAction: TimeoutAction,
    actionSource: PolicyLayer, fallbackSource: PolicyLayer)

  predicate PositiveOrAbsent(seconds: Option<int>) {
    seconds.Some? ==> seconds.value > 0
  }

  /** The model validator: in particular an escalation may not fall back on escalating. */
  predicate WellFormed(p: RawPolicy) {
    && PositiveOrAbsent(p.timeoutSeconds)
    && PositiveOrAbsent(p.extensionSeconds)
    && p.channels != []
    && p.fallbackAction != Escalate
    && (p.timeoutAction == Escalate ==> p.escalateTo != [])
  }

  const BUILT_IN_DEFAULTS := Overlay(
    Some(true), None, Some(Pause), Some([Cli]), Some([]), Some([]), None, Some(Pause))

  type ApprovalPolicy = p: RawPolicy | WellFormed(p)
    witness Policy(true, None, Pause, [Cli], [], [], None, Pause, BuiltIn, BuiltIn)

  datatype PolicyError = NotOptedIn | Inconsistent

  type Layered<T> = seq<(PolicyLayer, T)>

  /** The value of the last layer that sets one, with that layer. */
  function Highest<T>(layers: Layered<Option<T>>): (Option<T>, PolicyLayer) {
    if layers == [] then (None, BuiltIn)
    else
      var last := layers[|layers| - 1];
      if last.1.Some? then (last.1, last.0) else Highest(layers[..|layers| - 1])
  }

  /** The last layer that sets the value decides. */
  lemma {:induction false} HighestIsLast<T>(layers: Layered<Option<T>>, i: nat)
    requires i < |layers| && layers[i].1.Some? && forall j :: i < j < |layers| ==> layers[j].1.None?
    ensures Highest(layers) == (layers[i].1, layers[i].0)
  {
    if i < |layers| - 1 {
      HighestIsLast(layers[..|layers| - 1], i);
    }
  }

  lemma {:induction false} NothingSet<T>(layers: Layered<Option<T>>)
    requires forall j :: 0 <= j < |layers| ==> layers[j].1.None?
    ensures Highest(layers).0.None?
  {
    if layers != [] {
      NothingSet(layers[..|layers| - 1]);
    }
  }

  method ResolveField<T>(layers: Layered<Option<T>>) returns (value: Option<T>, source: PolicyLayer)
    ensures (value, source) == Highest(layers)
  {
    value, source := None, BuiltIn;
    var i := 0;
    while i < |layers|
      invariant 0 <= i <= |layers| && (value, source) == Highest(layers[..i])
    {
      assert layers[..i + 1][..i] == layers[..i];
      if layers[i].1.Some? {
        value, source := layers[i].1, layers[i].0;
      }
      i := i + 1;
    }
    assert layers[..|layers|] == layers;
  }

  function Layer(layer: PolicyLayer, overlay: Option<Overlay>): Layered<Overlay> {
    if overlay.Some? then [(layer, overlay.value)] else []
  }

  function Layers(project: Option<Overlay>, gate: Option<Overlay>, run: Option<Overlay>): Layered<Overlay> {
    [(BuiltIn, BUILT_IN_DEFAULTS)] + Layer(Project, project) + Layer(Gate, gate) + Layer(Run, run)
  }

  function Field<T>(layers: Layered<Overlay>, get: Overlay -> Option<T>): Layered<Option<T>> {
    seq(|layers|, i requires 0 <= i < |layers| => (layers[i].0, get(layers[i].1)))
  }

  function ValueOr<T>(o: Option<T>, default: T): T {
    if o.Some? then o.value else default
  }

  predicate OptedIn(action: TimeoutAction, source: PolicyLayer) {
    action == AutoApprove ==> source in {Gate, Run}
  }

  method ResolveApprovalPolicy(project: Option<Overlay>, gate: Option<Overlay>, run: Option<Overlay>)
    returns (r: Result<ApprovalPolicy, PolicyError>)
    ensures r == Resolved(project, gate, run)
  {
    var layers := Layers(project, gate, run);
    var action, actionSource := ResolveField(Field(layers, (o: Overlay) => o.timeoutAction));
    var fallback, fallbackSource := ResolveField(Field(layers, (o: Overlay) => o.fallbackAction));
    if !OptedIn(ValueOr(action, Pause), actionSource) {
      return Err(NotOptedIn);
    }
    if !OptedIn(ValueOr(fallback, Pause), fallbackSource) {
      return Err(NotOptedIn);
    }
    var required, _ := ResolveField(Field(layers, (o: Overlay) => o.required));
    var timeout, _ := ResolveField(Field(layers, (o: Overlay) => o.timeoutSeconds));
    var channels, _ := ResolveField(Field(layers, (o: Overlay) => o.channels));
    var approvers, _ := ResolveField(Field(layers, (o: Overlay) => o.approvers));
    var escalateTo, _ := ResolveField(Field(layers, (o: Overlay) => o.escalateTo));
    var extension, _ := ResolveField(Field(layers, (o: Overlay) => o.extensionSeconds));
    var policy := Policy(
      ValueOr(required, true), timeout, ValueOr(action, Pause), ValueOr(channels, []),
      ValueOr(approvers, []), ValueOr(escalateTo, []), extension, ValueOr(fallback, Pause),
      actionSource, fallbackSource);
    r := if WellFormed(policy) then Ok(policy) else Err(Inconsistent);
  }

  /** Every field from the highest layer that sets it. */
  function Collected(layers: Layered<Overlay>): RawPolicy {
    var action := Highest(Field(layers, (o: Overlay) => o.timeoutAction));
    var fallback := Highest(Field(layers, (o: Overlay) => o.fallbackAction));
    Policy(
      ValueOr(Highest(Field(layers, (o: Overlay) => o.required)).0, true),
      Highest(Field(layers, (o: Overlay) => o.timeoutSeconds)).0,
      ValueOr(action.0, Pause),
      ValueOr(Highest(Field(layers, (o: Overlay) => o.channels)).0, []),
      ValueOr(Highest(Field(layers, (o: Overlay) => o.approvers)).0, []),
      ValueOr(Highest(Field(layers, (o: Overlay) => o.escalateTo)).0, []),
      Highest(Field(layers, (o: Overlay) => o.extensionSeconds)).0,
      ValueOr(fallback.0, Pause), action.1, fallback.1)
  }

  function Resolved(project: Option<Overlay>, gate: Option<Overlay>, run: Option<Overlay>):
    Result<ApprovalPolicy, PolicyError>
  {
    var policy := Collected(Layers(project, gate, run));
    if !OptedIn(policy.timeoutAction, policy.actionSource) || !OptedIn(policy.fallbackAction, policy.fallbackSource)
    then Err(NotOptedIn)
    else if WellFormed(policy) then Ok(policy)
    else Err(Inconsistent)
  }

  /** Field by field, the highest layer that is present and sets the field wins. */
  lemma HighestLayerWins<T>(
    project: Option<Overlay>, gate: Option<Overlay>, run: Option<Overlay>, get: Overlay -> Option<T>)
    ensures var r := Highest(Field(Layers(project, gate, run), get));
      if run.Some? && get(run.value).Some? then r == (get(run.value), Run)
      else if gate.Some? && get(gate.value).Some? then r == (get(gate.value), Gate)
      else if project.Some? && get(project.value).Some? then r == (get(project.value), Project)
      else r == (get(BUILT_IN_DEFAULTS), BuiltIn)
  {
    var layers := Field(Layers(project, gate, run), get);
    var base := [(BuiltIn, get(BUILT_IN_DEFAULTS))];
    var p := if project.Some? then [(Project, get(project.value))] else [];
    var g := if gate.Some? then [(Gate, get(gate.value))] else [];
    var r := if run.Some? then [(Run, get(run.value))] else [];
    assert layers == base + p + g + r;
    DropUnset(base + p + g, r);
    DropUnset(base + p, g);
    DropUnset(base, p);
  }

  /** A layer that sets nothing makes no difference; one that sets a value decides. */
  lemma DropUnset<T>(below: Layered<Option<T>>, top: Layered<Option<T>>)
    requires |top| <= 1
    ensures top == [] || top[0].1.None? ==> Highest(below + top) == Highest(below)
    ensures top != [] && top[0].1.Some? ==> Highest(below + top) == (top[0].1, top[0].0)
  {
    if top == [] {
      assert below + top == below;
    } else {
      assert (below + top)[..|below|] == below;
    }
  }

  /** Automatic approval is never acquired by inheritance. */
  lemma AutoApproveIsOptedInto(project: Option<Overlay>, gate: Option<Overlay>, run: Option<Overlay>)
    requires Resolved(project, gate, run).Ok?
    ensures var p := Resolved(project, gate, run).value;
      && (p.timeoutAction == AutoApprove ==>
            || (p.actionSource == Run && run.Some? && run.value.timeoutAction == Some(AutoApprove))
            || (p.actionSource == Gate && gate.Some? && gate.value.timeoutAction == Some(AutoApprove)))
      && (p.fallbackAction == AutoApprove ==>
            || (p.fallbackSource == Run && run.Some? && run.value.fallbackAction == Some(AutoApprove))
            || (p.fallbackSource == Gate && gate.Some? && gate.value.fallbackAction == Some(AutoApprove)))
  {
    HighestLayerWins(project, gate, run, (o: Overlay) => o.timeoutAction);
    HighestLayerWins(project, gate, run, (o: Overlay) => o.fallbackAction);
  }

  // ---- Field by field ----

  const SILENT := Overlay(None, None, None, None, None, None, None, None)

  /** What an overlay that is absent sets: nothing. */
  function Said(overlay: Option<Overlay>): Overlay {
    if overlay.Some? then overlay.value else SILENT
  }

  /** The run over the gate over the project over the default. */
  function Chosen<T>(run: Option<T>, gate: Option<T>, project: Option<T>, default: T): T {
    if run.Some? then run.value else if gate.Some? then gate.value else if project.Some? then project.value else default
  }

  /** The same for the durations, which have no default. */
  function ChosenOrNone<T>(run: Option<T>, gate: Option<T>, project: Option<T>): Option<T> {
    if run.Some? then run else if gate.Some? then gate else project
  }

  function Chooser<T>(run: Option<T>, gate: Option<T>, project: Option<T>): PolicyLayer {
    if run.Some? then Run else if gate.Some? then Gate else if project.Some? then Project else BuiltIn
  }

  lemma HighestIsChosen<T>(
    project: Option<Overlay>, gate: Option<Overlay>, run: Option<Overlay>, get: Overlay -> Option<T>,
    r: Option<T>, g: Option<T>, p: Option<T>)
    requires get(SILENT) == None && r == get(Said(run)) && g == get(Said(gate)) && p == get(Said(project))
    ensures var found := Highest(Field(Layers(project, gate, run), get));
      && found.1 == Chooser(r, g, p)
      && found.0 == (if ChosenOrNone(r, g, p).Some? then ChosenOrNone(r, g, p) else get(BUILT_IN_DEFAULTS))
  {
    HighestLayerWins(project, gate, run, get);
  }

  /** Automatic approval is all that stands, and neither the gate nor the run has said so. */
  predicate Inherited(run: Option<TimeoutAction>, gate: Option<TimeoutAction>, project: Option<TimeoutAction>) {
    run == None && gate == None && project == Some(AutoApprove)
  }

  lemma CollectedByField(project: Option<Overlay>, gate: Option<Overlay>, run: Option<Overlay>)
    ensures
      var (r, g, p) := (Said(run), Said(gate), Said(project));
      Collected(Layers(project, gate, run)) == Policy(
        Chosen(r.required, g.required, p.required, true),
        ChosenOrNone(r.timeoutSeconds, g.timeoutSeconds, p.timeoutSeconds),
        Chosen(r.timeoutAction, g.timeoutAction, p.timeoutAction, Pause),
        Chosen(r.channels, g.channels, p.channels, [Cli]),
        Chosen(r.approvers, g.approvers, p.approvers, []),
        Chosen(r.escalateTo, g.escalateTo, p.escalateTo, []),
        ChosenOrNone(r.extensionSeconds, g.extensionSeconds, p.extensionSeconds),
        Chosen(r.fallbackAction, g.fallbackAction, p.fallbackAction, Pause),
        Chooser(r.timeoutAction, g.timeoutAction, p.timeoutAction),
        Chooser(r.fallbackAction, g.fallbackAction, p.fallbackAction))
  {
    var (r, g, p) := (Said(run), Said(gate), Said(project));
    var c := Collected(Layers(project, gate, run));
    assert c.required == Chosen(r.required, g.required, p.required, true) by {
      HighestIsChosen(project, gate, run, (o: Overlay) => o.required, r.required, g.required, p.required);
    }
    assert c.timeoutSeconds == ChosenOrNone(r.timeoutSeconds, g.timeoutSeconds, p.timeoutSeconds) by {
      HighestIsChosen(
        project, gate, run, (o: Overlay) => o.timeoutSeconds, r.timeoutSeconds, g.timeoutSeconds, p.timeoutSeconds);
    }
    assert && c.timeoutAction == Chosen(r.timeoutAction, g.timeoutAction, p.timeoutAction, Pause)
           && c.actionSource == Chooser(r.timeoutAction, g.timeoutAction, p.timeoutAction) by {
      HighestIsChosen(
        project, gate, run, (o: Overlay) => o.timeoutAction, r.timeoutAction, g.timeoutAction, p.timeoutAction);
    }
    assert c.channels == Chosen(r.channels, g.channels, p.channels, [Cli]) by {
      HighestIsChosen(project, gate, run, (o: Overlay) => o.channels, r.channels, g.channels, p.channels);
    }
    assert c.approvers == Chosen(r.approvers, g.approvers, p.approvers, []) by {
      HighestIsChosen(project, gate, run, (o: Overlay) => o.approvers, r.approvers, g.approvers, p.approvers);
    }
    assert c.escalateTo == Chosen(r.escalateTo, g.escalateTo, p.escalateTo, []) by {
      HighestIsChosen(project, gate, run, (o: Overlay) => o.escalateTo, r.escalateTo, g.escalateTo, p.escalateTo);
    }
    assert c.extensionSeconds == ChosenOrNone(r.extensionSeconds, g.extensionSeconds, p.extensionSeconds) by {
      HighestIsChosen(
        project, gate, run, (o: Overlay) => o.extensionSeconds,
        r.extensionSeconds, g.extensionSeconds, p.extensionSeconds);
    }
    assert && c.fallbackAction == Chosen(r.fallbackAction, g.fallbackAction, p.fallbackAction, Pause)
           && c.fallbackSource == Chooser(r.fallbackAction, g.fallbackAction, p.fallbackAction) by {
      HighestIsChosen(
        project, gate, run, (o: Overlay) => o.fallbackAction, r.fallbackAction, g.fallbackAction, p.fallbackAction);
    }
  }

  /** What each field of the policy is, and which of the two errors there is instead of a policy. */
  lemma ResolvedByField(project: Option<Overlay>, gate: Option<Overlay>, run: Option<Overlay>)
    ensures
      var (r, g, p) := (Said(run), Said(gate), Said(project));
      var resolved := Resolved(project, gate, run);
      var timeout := ChosenOrNone(r.timeoutSeconds, g.timeoutSeconds, p.timeoutSeconds);
      var extension := ChosenOrNone(r.extensionSeconds, g.extensionSeconds, p.extensionSeconds);
      var action := Chosen(r.timeoutAction, g.timeoutAction, p.timeoutAction, Pause);
      var fallback := Chosen(r.fallbackAction, g.fallbackAction, p.fallbackAction, Pause);
      var channels := Chosen(r.channels, g.channels, p.channels, [Cli]);
      var escalateTo := Chosen(r.escalateTo, g.escalateTo, p.escalateTo, []);
      && (resolved == Err(NotOptedIn) <==>
            || Inherited(r.timeoutAction, g.timeoutAction, p.timeoutAction)
            || Inherited(r.fallbackAction, g.fallbackAction, p.fallbackAction))
      && (resolved == Err(Inconsistent) <==>
            && !Inherited(r.timeoutAction, g.timeoutAction, p.timeoutAction)
            && !Inherited(r.fallbackAction, g.fallbackAction, p.fallbackAction)
            && (|| (timeout.Some? && timeout.value <= 0) || (extension.Some? && extension.value <= 0)
                || channels == [] || fallback == Escalate || (action == Escalate && escalateTo == [])))
      && (resolved.Ok? ==>
            && resolved.value.required == Chosen(r.required, g.required, p.required, true)
            && resolved.value.timeoutSeconds == timeout && resolved.value.extensionSeconds == extension
            && resolved.value.timeoutAction == action && resolved.value.fallbackAction == fallback
            && resolved.value.channels == channels && resolved.value.escalateTo == escalateTo
            && resolved.value.approvers == Chosen(r.approvers, g.approvers, p.approvers, [])
            && resolved.value.actionSource == Chooser(r.timeoutAction, g.timeoutAction, p.timeoutAction)
            && resolved.value.fallbackSource == Chooser(r.fallbackAction, g.fallbackAction, p.fallbackAction))
  {
    CollectedByField(project, gate, run);
  }
}
