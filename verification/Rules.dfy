/** The band-shift rules engine: a condition tree, stacking modifiers, the Highest gates, routing. */
module Rules {
  import opened Wrappers

  // ---------------------------------------------------------------- values and operators

  /** A signal or a literal of the rules file. */
  datatype Value = Absent | Num(n: real) | Flag(b: bool) | Text(s: string) | List(vs: seq<Value>)

  /** `str()` and `re.search` on arbitrary values are taken as given. */
  datatype Library = Library(show: Value -> string, search: (string, string) -> bool)

  datatype Operator = Eq | Ne | Gt | Ge | Lt | Le | In | NotIn | Contains | NotContains | Exists | NotExists | Matches

  /** A truth value counts as 0 or 1. */
  function AsNumber(v: Value): Option<real> {
    match v
    case Num(n) => Some(n)
    case Flag(b) => Some(if b then 1.0 else 0.0)
    case _ => None
  }

  predicate Same(a: Value, b: Value)
    decreases a
  {
    if AsNumber(a).Some? && AsNumber(b).Some? then AsNumber(a) == AsNumber(b)
    else if a.List? && b.List? then |a.vs| == |b.vs| && forall i :: 0 <= i < |a.vs| ==> Same(a.vs[i], b.vs[i])
    else a == b
  }

  function CompareText(a: string, b: string): int {
    if a == "" then (if b == "" then 0 else -1)
    else if b == "" then 1
    else if a[0] < b[0] then -1
    else if a[0] > b[0] then 1
    else CompareText(a[1..], b[1..])
  }

  /** Negative, zero or positive; None where the comparison raises. */
  function Compare(a: Value, b: Value): Option<int> {
    if AsNumber(a).Some? && AsNumber(b).Some? then
      var x, y := AsNumber(a).value, AsNumber(b).value;
      Some(if x < y then -1 else if x > y then 1 else 0)
    else if a.Text? && b.Text? then Some(CompareText(a.s, b.s))
    else if a.List? && b.List? then CompareLists(a.vs, b.vs)
    else None
  }

  function CompareLists(a: seq<Value>, b: seq<Value>): Option<int> {
    if a == [] then Some(if b == [] then 0 else -1)
    else if b == [] then Some(1)
    else if Same(a[0], b[0]) then CompareLists(a[1..], b[1..])
    else Compare(a[0], b[0])
  }

  predicate Substring(needle: string, s: string) {
    needle <= s || (s != "" && Substring(needle, s[1..]))
  }

  predicate IsIn(signal: Value, value: Value) {
    match value
    case List(vs) => exists i :: 0 <= i < |vs| && Same(signal, vs[i])
    case Text(s) => signal.Text? && Substring(signal.s, s)
    case _ => false
  }

  predicate DoesContain(lib: Library, signal: Value, value: Value) {
    match signal
    case List(vs) => exists i :: 0 <= i < |vs| && (Same(value, vs[i]) || Substring(lib.show(value), lib.show(vs[i])))
    case Text(s) => value.Text? && Substring(value.s, s)
    case _ => false
  }

  /** The operator registry. A missing signal never raises. */
  predicate Holds(lib: Library, op: Operator, signal: Value, value: Value) {
    match op
    case Eq => Same(signal, value)
    case Ne => !Same(signal, value)
    case Gt => !signal.Absent? && !value.Absent? && Compare(signal, value).GetOr(0) > 0
    case Ge => !signal.Absent? && !value.Absent? && Compare(signal, value).GetOr(-1) >= 0
    case Lt => !signal.Absent? && !value.Absent? && Compare(signal, value).GetOr(0) < 0
    case Le => !signal.Absent? && !value.Absent? && Compare(signal, value).GetOr(1) <= 0
    case In => IsIn(signal, value)
    case NotIn => !IsIn(signal, value)
    case Contains => DoesContain(lib, signal, value)
    case NotContains => !DoesContain(lib, signal, value)
    case Exists => !signal.Absent?
    case NotExists => signal.Absent?
    case Matches => !signal.Absent? && lib.search(lib.show(value), lib.show(signal))
  }

  // ---------------------------------------------------------------- conditions

  /** A composite form: absent, or its children. */
  datatype Branch = Unset | Of(children: seq<Condition>)

  /** A node as it is written: every form is an optional field. */
  datatype Condition = Condition(
    signal: Option<string>,
    op: Option<Operator>,
    value: Value,
    all_: Branch,
    any_: Branch,
    not_: Option<Condition>)

  const QDS := "qds"

  /** The flat signal mapping, with the score kept apart. */
  datatype Context = Context(qds: Option<int>, others: map<string, Value>)
  {
    function Get(signal: string): Value {
      if signal == QDS then (if qds.Some? then Num(qds.value as real) else Absent)
      else if signal in others then others[signal] else Absent
    }
  }

  predicate Eval(lib: Library, c: Condition, ctx: Context) {
    if c.all_.Of? then forall i :: 0 <= i < |c.all_.children| ==> Eval(lib, c.all_.children[i], ctx)
    else if c.any_.Of? then exists i :: 0 <= i < |c.any_.children| && Eval(lib, c.any_.children[i], ctx)
    else if c.not_.Some? then !Eval(lib, c.not_.value, ctx)
    else if c.signal.None? || c.op.None? then false
    else Holds(lib, c.op.value, ctx.Get(c.signal.value), c.value)
  }

  /** Some leaf of the tree asks for `signal`. */
  predicate Mentions(c: Condition, signal: string) {
    || c.signal == Some(signal)
    || (c.all_.Of? && exists i :: 0 <= i < |c.all_.children| && Mentions(c.all_.children[i], signal))
    || (c.any_.Of? && exists i :: 0 <= i < |c.any_.children| && Mentions(c.any_.children[i], signal))
    || (c.not_.Some? && Mentions(c.not_.value, signal))
  }

  // ---------------------------------------------------------------- configuration and results

  datatype Bands = Bands(highest: int, high: int, medium: int)

  datatype Modifier = Modifier(name: string, when: Condition, shift: int, tag: Option<string>,
                               capsAtHigh: bool, bypassesHighestGate: bool)

  datatype Route = Route(when: Condition, project: Option<string>, component: Option<string>,
                         issueType: Option<string>, labels: seq<string>)

  datatype Priority = Low | Medium | High | Highest

  datatype Prioritization = Prioritization(
    bands: Bands,
    modifiers: seq<Modifier>,
    skipWhen: Option<Condition>,
    highestRequiresHighBase: bool,
    materializeMinBand: Priority,
    routing: seq<Route>,
    project: string,
    issueType: string,
    managedLabel: string)

  /** The auditable account of a decision. */
  datatype Explanation =
    | Noise
    | Maths(qds: Option<int>, base: int, fired: seq<(string, int)>, capped: bool, level: int)

  datatype Verdict = Verdict(create: bool, explanation: Explanation, priority: Option<Priority>,
                             project: Option<string>, issueType: Option<string>, component: Option<string>,
                             labels: seq<string>)

  const MAX_LEVEL := 4
  const HIGH_LEVEL := 3

  function Clamp(level: int): int {
    if level < 0 then 0 else if level > MAX_LEVEL then MAX_LEVEL else level
  }

  function LevelOf(p: Priority): int {
    match p case Low => 1 case Medium => 2 case High => 3 case Highest => 4
  }

  function PriorityOf(level: int): Priority {
    if level <= 1 then Low else if level == 2 then Medium else if level == 3 then High else Highest
  }

  function BaseLevel(b: Bands, qds: Option<int>): int {
    match qds
    case None => 0
    case Some(q) => if q >= b.highest then 4 else if q >= b.high then 3 else if q >= b.medium then 2 else 0
  }

  // ---------------------------------------------------------------- stacking

  /** What a pass over the modifiers has gathered. */
  datatype Stacked = Stacked(shift: int, uncapped: int, bypass: bool, fired: seq<(string, int)>, tags: seq<string>)

  const NOTHING := Stacked(0, 0, false, [], [])

  function StackOne(lib: Library, st: Stacked, m: Modifier, ctx: Context): Stacked {
    if !Eval(lib, m.when, ctx) then st
    else Stacked(
      st.shift + m.shift,
      st.uncapped + (if m.capsAtHigh then 0 else m.shift),
      st.bypass || m.bypassesHighestGate,
      st.fired + [(m.name, m.shift)],
      st.tags + if m.tag.Some? && m.tag.value != "" then [m.tag.value] else [])
  }

  function Stack(lib: Library, ms: seq<Modifier>, ctx: Context): Stacked {
    if ms == [] then NOTHING
    else StackOne(lib, Stack(lib, ms[..|ms| - 1], ctx), ms[|ms| - 1], ctx)
  }

  lemma StackAdds(lib: Library, ms: seq<Modifier>, m: Modifier, ctx: Context)
    ensures Stack(lib, ms + [m], ctx) == StackOne(lib, Stack(lib, ms, ctx), m, ctx)
  {
    assert (ms + [m])[..|ms|] == ms;
  }

  /** The sum of the shifts of the modifiers that fire. */
  function FiredShift(lib: Library, ms: seq<Modifier>, ctx: Context): int {
    if ms == [] then 0
    else (if Eval(lib, ms[0].when, ctx) then ms[0].shift else 0) + FiredShift(lib, ms[1..], ctx)
  }

  /** The modifiers that do not cap at High. */
  function Uncapped(ms: seq<Modifier>): seq<Modifier> {
    if ms == [] then []
    else if ms[0].capsAtHigh then Uncapped(ms[1..])
    else [ms[0]] + Uncapped(ms[1..])
  }

  /** A modifier fires that waives the gates. */
  predicate Bypass(lib: Library, ms: seq<Modifier>, ctx: Context) {
    exists i :: 0 <= i < |ms| && ms[i].bypassesHighestGate && Eval(lib, ms[i].when, ctx)
  }

  lemma {:induction false} FiredShiftAdds(lib: Library, ms: seq<Modifier>, m: Modifier, ctx: Context)
    ensures FiredShift(lib, ms + [m], ctx) == FiredShift(lib, ms, ctx) + if Eval(lib, m.when, ctx) then m.shift else 0
    decreases |ms|
  {
    if ms == [] {
      assert ms + [m] == [m];
    } else {
      assert (ms + [m])[1..] == ms[1..] + [m];
      FiredShiftAdds(lib, ms[1..], m, ctx);
    }
  }

  lemma {:induction false} UncappedAdds(ms: seq<Modifier>, m: Modifier)
    ensures Uncapped(ms + [m]) == Uncapped(ms) + if m.capsAtHigh then [] else [m]
    decreases |ms|
  {
    if ms == [] {
      assert ms + [m] == [m];
    } else {
      assert (ms + [m])[1..] == ms[1..] + [m];
      UncappedAdds(ms[1..], m);
    }
  }

  lemma BypassAdds(lib: Library, ms: seq<Modifier>, m: Modifier, ctx: Context)
    ensures Bypass(lib, ms + [m], ctx) == (Bypass(lib, ms, ctx) || (m.bypassesHighestGate && Eval(lib, m.when, ctx)))
  {
    var all := ms + [m];
    assert all[|ms|] == m;
    if Bypass(lib, ms, ctx) {
      var i :| 0 <= i < |ms| && ms[i].bypassesHighestGate && Eval(lib, ms[i].when, ctx);
      assert all[i] == ms[i];
    }
  }

  /** What the pass gathers, said without a pass. */
  lemma {:induction false} StackMeans(lib: Library, ms: seq<Modifier>, ctx: Context)
    ensures Stack(lib, ms, ctx).shift == FiredShift(lib, ms, ctx)
    ensures Stack(lib, ms, ctx).uncapped == FiredShift(lib, Uncapped(ms), ctx)
    ensures Stack(lib, ms, ctx).bypass == Bypass(lib, ms, ctx)
    decreases |ms|
  {
    if ms != [] {
      var n := |ms| - 1;
      var m := ms[n];
      assert ms == ms[..n] + [m];
      StackMeans(lib, ms[..n], ctx);
      FiredShiftAdds(lib, ms[..n], m, ctx);
      UncappedAdds(ms[..n], m);
      FiredShiftAdds(lib, Uncapped(ms[..n]), m, ctx);
      assert Uncapped(ms[..n]) + [] == Uncapped(ms[..n]);
      BypassAdds(lib, ms[..n], m, ctx);
    }
  }

  /** Highest survives only from a High base and without exposure modifiers, unless bypassed. */
  predicate Gated(p: Prioritization, base: int, uncapped: int, bypass: bool) {
    !bypass && !((base >= HIGH_LEVEL || !p.highestRequiresHighBase) && Clamp(base + uncapped) == MAX_LEVEL)
  }

  function Level(lib: Library, p: Prioritization, ctx: Context): int {
    var base, st := BaseLevel(p.bands, ctx.qds), Stack(lib, p.modifiers, ctx);
    var level := Clamp(base + st.shift);
    if level == MAX_LEVEL && Gated(p, base, st.uncapped, st.bypass) then HIGH_LEVEL else level
  }

  predicate IsNoise(lib: Library, p: Prioritization, ctx: Context) {
    p.skipWhen.Some? && Eval(lib, p.skipWhen.value, ctx)
  }

  function FirstRoute(lib: Library, rs: seq<Route>, ctx: Context): Option<Route> {
    if rs == [] then None
    else if Eval(lib, rs[0].when, ctx) then Some(rs[0])
    else FirstRoute(lib, rs[1..], ctx)
  }

  function Explain(lib: Library, p: Prioritization, ctx: Context): Explanation {
    if IsNoise(lib, p, ctx) then Noise
    else
      var base, st, level := BaseLevel(p.bands, ctx.qds), Stack(lib, p.modifiers, ctx), Level(lib, p, ctx);
      Maths(ctx.qds, base, st.fired, level != Clamp(base + st.shift), level)
  }

  function Decision(lib: Library, p: Prioritization, ctx: Context): Verdict {
    var explanation := Explain(lib, p, ctx);
    if IsNoise(lib, p, ctx) || Level(lib, p, ctx) == 0 then Verdict(false, explanation, None, None, None, None, [])
    else
      var level, route := Level(lib, p, ctx), FirstRoute(lib, p.routing, ctx);
      Verdict(
        level >= LevelOf(p.materializeMinBand), explanation, Some(PriorityOf(level)),
        Some(if route.Some? then Or(route.value.project, p.project) else p.project),
        Some(if route.Some? then Or(route.value.issueType, p.issueType) else p.issueType),
        if route.Some? then route.value.component else None,
        [p.managedLabel] + Stack(lib, p.modifiers, ctx).tags + if route.Some? then route.value.labels else [])
  }

  // ---------------------------------------------------------------- the engine

  /** The pass over the modifiers. */
  method StackModifiers(lib: Library, ms: seq<Modifier>, ctx: Context)
    returns (shift: int, shiftUncapped: int, bypassGate: bool, fired: seq<(string, int)>, tags: seq<string>)
    ensures Stacked(shift, shiftUncapped, bypassGate, fired, tags) == Stack(lib, ms, ctx)
  {
    shift, shiftUncapped, bypassGate, fired, tags := 0, 0, false, [], [];
    for i := 0 to |ms|
      invariant Stacked(shift, shiftUncapped, bypassGate, fired, tags) == Stack(lib, ms[..i], ctx)
    {
      var m := ms[i];
      StackAdds(lib, ms[..i], m, ctx);
      assert ms[..i + 1] == ms[..i] + [m];
      if Eval(lib, m.when, ctx) {
        shift := shift + m.shift;
        if !m.capsAtHigh {
          shiftUncapped := shiftUncapped + m.shift;
        }
        if m.bypassesHighestGate {
          bypassGate := true;
        }
        fired := fired + [(m.name, m.shift)];
        if m.tag.Some? && m.tag.value != "" {
          tags := tags + [m.tag.value];
        }
      }
    }
    assert ms[..|ms|] == ms;
  }

  /** The pass over the routes: one that matches, and no earlier one does; none iff none matches. */
  method PickRoute(lib: Library, rs: seq<Route>, ctx: Context) returns (route: Option<Route>)
    ensures route.Some? <==> exists i :: 0 <= i < |rs| && Eval(lib, rs[i].when, ctx)
    ensures route.Some? ==> exists i :: 0 <= i < |rs| && route.value == rs[i] && Eval(lib, rs[i].when, ctx) &&
                                      forall j :: 0 <= j < i ==> !Eval(lib, rs[j].when, ctx)
    ensures route == FirstRoute(lib, rs, ctx)
  {
    var j := 0;
    while j < |rs|
      invariant 0 <= j <= |rs|
      invariant forall i :: 0 <= i < j ==> !Eval(lib, rs[i].when, ctx)
      invariant FirstRoute(lib, rs[j..], ctx) == FirstRoute(lib, rs, ctx)
    {
      assert rs[j..][1..] == rs[j + 1..];
      if Eval(lib, rs[j].when, ctx) {
        return Some(rs[j]);
      }
      j := j + 1;
    }
    return None;
  }

  method Evaluate(lib: Library, p: Prioritization, ctx: Context) returns (v: Verdict)
    ensures v == Decision(lib, p, ctx)
  {
    if p.skipWhen.Some? && Eval(lib, p.skipWhen.value, ctx) {
      return Verdict(false, Noise, None, None, None, None, []);
    }
    var base := BaseLevel(p.bands, ctx.qds);
    var shift, shiftUncapped, bypassGate, fired, tags := StackModifiers(lib, p.modifiers, ctx);
    var level := Clamp(base + shift);
    var capped := false;
    if level == MAX_LEVEL && !bypassGate {
      var baseOk := base >= HIGH_LEVEL || !p.highestRequiresHighBase;
      var uncappedOk := Clamp(base + shiftUncapped) == MAX_LEVEL;
      if !(baseOk && uncappedOk) {
        level, capped := HIGH_LEVEL, true;
      }
    }
    var explanation := Maths(ctx.qds, base, fired, capped, level);
    if level == 0 {
      return Verdict(false, explanation, None, None, None, None, []);
    }
    var project, issueType, component, routeLabels := p.project, p.issueType, None, [];
    var route := PickRoute(lib, p.routing, ctx);
    if route.Some? {
      project := Or(route.value.project, project);
      issueType := Or(route.value.issueType, issueType);
      component := route.value.component;
      routeLabels := route.value.labels;
    }
    return Verdict(level >= LevelOf(p.materializeMinBand), explanation, Some(PriorityOf(level)), Some(project),
                   Some(issueType), component, [p.managedLabel] + tags + routeLabels);
  }

  // ---------------------------------------------------------------- monotonicity in QDS

  /** A condition that does not mention QDS does not notice it. */
  lemma {:induction false} Frame(lib: Library, c: Condition, ctx: Context, qds: Option<int>)
    requires !Mentions(c, QDS)
    ensures Eval(lib, c, ctx) == Eval(lib, c, ctx.(qds := qds))
    decreases c
  {
    if c.all_.Of? {
      forall i | 0 <= i < |c.all_.children|
        ensures Eval(lib, c.all_.children[i], ctx) == Eval(lib, c.all_.children[i], ctx.(qds := qds))
      {
        Frame(lib, c.all_.children[i], ctx, qds);
      }
    } else if c.any_.Of? {
      forall i | 0 <= i < |c.any_.children|
        ensures Eval(lib, c.any_.children[i], ctx) == Eval(lib, c.any_.children[i], ctx.(qds := qds))
      {
        Frame(lib, c.any_.children[i], ctx, qds);
      }
    } else if c.not_.Some? {
      Frame(lib, c.not_.value, ctx, qds);
    }
  }

  /** Neither the noise filter nor any modifier asks for QDS. Routing may. */
  predicate BlindToQds(p: Prioritization) {
    && (p.skipWhen.Some? ==> !Mentions(p.skipWhen.value, QDS))
    && forall i :: 0 <= i < |p.modifiers| ==> !Mentions(p.modifiers[i].when, QDS)
  }

  lemma {:induction false} FrameStack(lib: Library, ms: seq<Modifier>, ctx: Context, qds: Option<int>)
    requires forall i :: 0 <= i < |ms| ==> !Mentions(ms[i].when, QDS)
    ensures Stack(lib, ms, ctx) == Stack(lib, ms, ctx.(qds := qds))
    decreases |ms|
  {
    if ms != [] {
      var n := |ms| - 1;
      FrameStack(lib, ms[..n], ctx, qds);
      Frame(lib, ms[n].when, ctx, qds);
    }
  }

  predicate AtMost(a: Option<int>, b: Option<int>) {
    a.None? || (b.Some? && a.value <= b.value)
  }

  /** Raising QDS, or learning it, never lowers the level and never turns a create into a skip. */
  lemma QdsMonotone(lib: Library, p: Prioritization, ctx: Context, qds: Option<int>)
    requires BlindToQds(p) && AtMost(ctx.qds, qds)
    ensures var ctx' := ctx.(qds := qds);
            && (!IsNoise(lib, p, ctx) ==> Level(lib, p, ctx) <= Level(lib, p, ctx'))
            && IsNoise(lib, p, ctx) == IsNoise(lib, p, ctx')
            && (Decision(lib, p, ctx).create ==> Decision(lib, p, ctx').create)
  {
    var ctx' := ctx.(qds := qds);
    if p.skipWhen.Some? {
      Frame(lib, p.skipWhen.value, ctx, qds);
    }
    FrameStack(lib, p.modifiers, ctx, qds);
    assert BaseLevel(p.bands, ctx.qds) <= BaseLevel(p.bands, ctx'.qds);
    SamePriorityScale(Level(lib, p, ctx), Level(lib, p, ctx'));
  }

  lemma SamePriorityScale(a: int, b: int)
    requires 0 <= a <= b <= MAX_LEVEL
    ensures a >= 1 ==> LevelOf(PriorityOf(a)) == a && LevelOf(PriorityOf(a)) <= LevelOf(PriorityOf(b))
  {
  }

  // ---------------------------------------------------------------- Highest hygiene

  predicate BandsOk(b: Bands) {
    b.highest >= b.high >= b.medium
  }

  /** Without a bypass, Highest needs four levels without exposure, and the High band where that gate is on. */
  lemma HighestIsEarned(lib: Library, p: Prioritization, ctx: Context)
    requires BandsOk(p.bands) && !Bypass(lib, p.modifiers, ctx) && Level(lib, p, ctx) == MAX_LEVEL
    ensures BaseLevel(p.bands, ctx.qds) + FiredShift(lib, Uncapped(p.modifiers), ctx) >= MAX_LEVEL
    ensures p.highestRequiresHighBase ==> ctx.qds.Some? && ctx.qds.value >= p.bands.high
  {
    StackMeans(lib, p.modifiers, ctx);
  }

  lemma {:induction false} UncappedTwice(ms: seq<Modifier>)
    ensures Uncapped(Uncapped(ms)) == Uncapped(ms)
    decreases |ms|
  {
    if ms != [] {
      UncappedTwice(ms[1..]);
      assert !ms[0].capsAtHigh ==> Uncapped(ms)[1..] == Uncapped(ms[1..]);
    }
  }

  function Max(a: int, b: int): int {
    if a > b then a else b
  }

  /** Highest without the capping modifiers: the levels reach, and the gates are waived or met. */
  predicate HighestWithoutExposure(lib: Library, p: Prioritization, ctx: Context) {
    var base, bare := BaseLevel(p.bands, ctx.qds), Uncapped(p.modifiers);
    && base + FiredShift(lib, bare, ctx) >= MAX_LEVEL
    && (Bypass(lib, bare, ctx) || base >= HIGH_LEVEL || !p.highestRequiresHighBase)
  }

  /** A bypass fires, and only with the capping modifiers do the levels reach Highest and the gates open. */
  predicate ExposureCounts(lib: Library, p: Prioritization, ctx: Context) {
    && Bypass(lib, p.modifiers, ctx)
    && BaseLevel(p.bands, ctx.qds) + FiredShift(lib, p.modifiers, ctx) >= MAX_LEVEL
    && !HighestWithoutExposure(lib, p, ctx)
  }

  /**
    Capping modifiers lift to High at most, compared with the same rules without them, exactly unless a bypass lets
    them count.
   */
  lemma ExposureCapsAtHighExactlyUnless(lib: Library, p: Prioritization, ctx: Context)
    ensures var bare := p.(modifiers := Uncapped(p.modifiers));
            Level(lib, p, ctx) <= Max(HIGH_LEVEL, Level(lib, bare, ctx)) <==>
            !ExposureCounts(lib, p, ctx)
  {
    UncappedTwice(p.modifiers);
    StackMeans(lib, p.modifiers, ctx);
    StackMeans(lib, Uncapped(p.modifiers), ctx);
  }

  /** In particular without a bypass. */
  lemma ExposureCapsAtHigh(lib: Library, p: Prioritization, ctx: Context)
    requires !Bypass(lib, p.modifiers, ctx)
    ensures var bare := p.(modifiers := Uncapped(p.modifiers));
            Level(lib, p, ctx) <= Max(HIGH_LEVEL, Level(lib, bare, ctx))
  {
    ExposureCapsAtHighExactlyUnless(lib, p, ctx);
  }

  lemma StackOfTwo(lib: Library, a: Modifier, b: Modifier, ctx: Context)
    ensures Stack(lib, [b], ctx) == StackOne(lib, NOTHING, b, ctx)
    ensures Stack(lib, [a, b], ctx) == StackOne(lib, StackOne(lib, NOTHING, a, ctx), b, ctx)
    ensures a.capsAtHigh && !b.capsAtHigh ==> Uncapped([a, b]) == [b]
  {
    StackAdds(lib, [], a, ctx);
    StackAdds(lib, [], b, ctx);
    StackAdds(lib, [a], b, ctx);
    assert [] + [a] == [a] && [] + [b] == [b] && [a] + [b] == [a, b];
    UncappedAdds([], a);
    UncappedAdds([a], b);
  }

  /** A bypass lifts that limit: exposure then counts towards Highest like anything else. */
  lemma BypassLetsExposureReachHighest(lib: Library)
    ensures exists p: Prioritization, ctx: Context :: BandsOk(p.bands) && Level(lib, p, ctx) == MAX_LEVEL &&
                             Level(lib, p.(modifiers := Uncapped(p.modifiers)), ctx) < HIGH_LEVEL
  {
    var always := Condition(None, None, Absent, Of([]), Unset, None);
    var exposed := Modifier("exposed", always, 3, None, true, false);
    var attacked := Modifier("attacked", always, 1, None, false, true);
    var p := Prioritization(Bands(90, 70, 50), [exposed, attacked], None, true, Medium, [], "", "", "");
    var ctx := Context(None, map[]);
    assert Eval(lib, always, ctx);
    StackOfTwo(lib, exposed, attacked, ctx);
    assert BandsOk(p.bands) && Level(lib, p, ctx) == MAX_LEVEL;
    assert Level(lib, p.(modifiers := Uncapped(p.modifiers)), ctx) < HIGH_LEVEL;
  }

  // ---------------------------------------------------------------- order and routing

  /** What a pass gathers, order aside. */
  datatype Gathered = Gathered(shift: int, uncapped: int, bypass: bool, tags: multiset<string>)

  ghost function Gather(st: Stacked): Gathered {
    Gathered(st.shift, st.uncapped, st.bypass, multiset(st.tags))
  }

  ghost function GatherOne(lib: Library, g: Gathered, m: Modifier, ctx: Context): Gathered {
    if !Eval(lib, m.when, ctx) then g
    else Gathered(g.shift + m.shift, g.uncapped + (if m.capsAtHigh then 0 else m.shift),
                  g.bypass || m.bypassesHighestGate,
                  g.tags + if m.tag.Some? && m.tag.value != "" then multiset{m.tag.value} else multiset{})
  }

  lemma GatherAdds(lib: Library, ms: seq<Modifier>, m: Modifier, ctx: Context)
    ensures Gather(Stack(lib, ms + [m], ctx)) == GatherOne(lib, Gather(Stack(lib, ms, ctx)), m, ctx)
  {
    StackAdds(lib, ms, m, ctx);
  }

  lemma GatherCommutes(lib: Library, g: Gathered, a: Modifier, b: Modifier, ctx: Context)
    ensures GatherOne(lib, GatherOne(lib, g, a, ctx), b, ctx) == GatherOne(lib, GatherOne(lib, g, b, ctx), a, ctx)
  {
  }

  lemma Without(ms: seq<Modifier>, j: nat)
    requires j < |ms|
    ensures j < |ms| - 1 ==>
              var most := ms[..|ms| - 1];
              ms[..j] + ms[j + 1..] == most[..j] + most[j + 1..] + [ms[|ms| - 1]]
    ensures j == |ms| - 1 ==> ms[..j] + ms[j + 1..] == ms[..j]
    ensures ms == ms[..|ms| - 1] + [ms[|ms| - 1]]
  {
  }

  /** The modifier at `j` may as well have come last. */
  lemma {:induction false} GatherMoves(lib: Library, ms: seq<Modifier>, j: nat, ctx: Context)
    requires j < |ms|
    ensures Gather(Stack(lib, ms, ctx)) == GatherOne(lib, Gather(Stack(lib, ms[..j] + ms[j + 1..], ctx)), ms[j], ctx)
    decreases |ms|
  {
    var most, last := ms[..|ms| - 1], ms[|ms| - 1];
    Without(ms, j);
    GatherAdds(lib, most, last, ctx);
    if j < |ms| - 1 {
      GatherMoves(lib, most, j, ctx);
      var rest := most[..j] + most[j + 1..];
      GatherAdds(lib, rest, last, ctx);
      GatherCommutes(lib, Gather(Stack(lib, rest, ctx)), ms[j], last, ctx);
    }
  }

  lemma TakenFrom(ms: seq<Modifier>, j: nat)
    requires j < |ms|
    ensures multiset(ms[..j] + ms[j + 1..]) == multiset(ms) - multiset{ms[j]}
  {
    assert ms == ms[..j] + [ms[j]] + ms[j + 1..];
  }

  lemma SameLength(ms: seq<Modifier>, ms': seq<Modifier>)
    requires multiset(ms) == multiset(ms')
    ensures |ms| == |ms'|
  {
    assert |multiset(ms)| == |ms| && |multiset(ms')| == |ms'|;
  }

  lemma {:induction false} GatherIgnoresOrder(lib: Library, ms: seq<Modifier>, ms': seq<Modifier>, ctx: Context)
    requires multiset(ms) == multiset(ms')
    ensures Gather(Stack(lib, ms, ctx)) == Gather(Stack(lib, ms', ctx))
    decreases |ms|
  {
    SameLength(ms, ms');
    if ms != [] {
      var n := |ms| - 1;
      assert ms[n] in multiset(ms');
      var j :| 0 <= j < |ms'| && ms'[j] == ms[n];
      var rest' := ms'[..j] + ms'[j + 1..];
      TakenFrom(ms, n);
      TakenFrom(ms', j);
      assert ms[..n] + ms[n + 1..] == ms[..n];
      GatherIgnoresOrder(lib, ms[..n], rest', ctx);
      GatherMoves(lib, ms, n, ctx);
      GatherMoves(lib, ms', j, ctx);
    }
  }

  /** Any order of the modifiers gives the same action, priority and destination, and the same labels up to order. */
  lemma ModifierOrderIsIrrelevant(lib: Library, p: Prioritization, ms: seq<Modifier>, ctx: Context)
    requires multiset(ms) == multiset(p.modifiers)
    ensures var v, v' := Decision(lib, p, ctx), Decision(lib, p.(modifiers := ms), ctx);
            && v.create == v'.create && v.priority == v'.priority
            && v.project == v'.project && v.issueType == v'.issueType && v.component == v'.component
            && multiset(v.labels) == multiset(v'.labels)
  {
    GatherIgnoresOrder(lib, p.modifiers, ms, ctx);
    var st, st' := Stack(lib, p.modifiers, ctx), Stack(lib, ms, ctx);
    assert Gather(st).shift == st.shift && Gather(st').tags == multiset(st'.tags);
    assert Level(lib, p, ctx) == Level(lib, p.(modifiers := ms), ctx);
  }

  /** Routing decides where an issue goes, never whether there is one, how urgent it is, or why. */
  lemma RoutingIsOrthogonal(lib: Library, p: Prioritization, rs: seq<Route>, ctx: Context)
    ensures var v, v' := Decision(lib, p, ctx), Decision(lib, p.(routing := rs), ctx);
            && v.create == v'.create && v.priority == v'.priority && v.explanation == v'.explanation
            && (v.priority.Some? ==>
                  var own := [p.managedLabel] + Stack(lib, p.modifiers, ctx).tags;
                  own <= v.labels && own <= v'.labels)
  {
    assert Level(lib, p, ctx) == Level(lib, p.(routing := rs), ctx);
    assert Explain(lib, p, ctx) == Explain(lib, p.(routing := rs), ctx);
  }
}
