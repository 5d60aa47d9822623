/** What the rules engine decides, from thresholds, firing modifiers and first matches; what conditions mean. */
module RuleLaws {
  import opened Wrappers
  import opened Rules

  // ---------------------------------------------------------------- the verdict

  /** `base` is the band the score falls in: 4, 3 or 2, or 0 below all of them or without a score. */
  predicate StandsAt(b: Bands, qds: Option<int>, base: int) {
    match qds
    case None => base == 0
    case Some(q) =>
      && (q >= b.highest ==> base == 4)
      && (b.high <= q < b.highest ==> base == 3)
      && (b.medium <= q < b.high && q < b.highest ==> base == 2)
      && (q < b.medium && q < b.high && q < b.highest ==> base == 0)
  }

  /** Band `a` is `least` or above it. */
  predicate AtLeast(a: Priority, least: Priority) {
    match least
    case Low => true
    case Medium => a != Low
    case High => a == High || a == Highest
    case Highest => a == Highest
  }

  /** Highest is open: it is bypassed, or reached without the capping modifiers and from a base that will do. */
  predicate Open(lib: Library, p: Prioritization, ctx: Context, base: int) {
    || Bypass(lib, p.modifiers, ctx)
    || (base + FiredShift(lib, Uncapped(p.modifiers), ctx) >= 4 && (base >= 3 || !p.highestRequiresHighBase))
  }

  lemma LevelMeans(lib: Library, p: Prioritization, ctx: Context, base: int)
    requires StandsAt(p.bands, ctx.qds, base)
    ensures BaseLevel(p.bands, ctx.qds) == base
    ensures var total := base + FiredShift(lib, p.modifiers, ctx);
            && Clamp(base + Stack(lib, p.modifiers, ctx).shift) ==
               (if total < 0 then 0 else if total > 4 then 4 else total)
            && Level(lib, p, ctx) == (if total < 0 then 0 else if total < 4 then total
                                      else if Open(lib, p, ctx, base) then 4 else 3)
  {
    StackMeans(lib, p.modifiers, ctx);
  }

  /** The band plus the firing shifts is the priority; Highest where it is open; the least band gates creation. */
  lemma VerdictMeans(lib: Library, p: Prioritization, ctx: Context, base: int)
    requires p.skipWhen.Some? ==> !Eval(lib, p.skipWhen.value, ctx)
    requires StandsAt(p.bands, ctx.qds, base)
    ensures var v := Decision(lib, p, ctx);
            var total := base + FiredShift(lib, p.modifiers, ctx);
            && v.priority == (if total <= 0 then None
                              else if total == 1 then Some(Low)
                              else if total == 2 then Some(Medium)
                              else if total == 3 || !Open(lib, p, ctx, base) then Some(High)
                              else Some(Highest))
            && (v.create <==> v.priority.Some? && AtLeast(v.priority.value, p.materializeMinBand))
  {
    LevelMeans(lib, p, ctx, base);
  }

  /** And the account given of it: the score, its band, what fired, whether Highest was held back, and the level. */
  lemma ExplanationMeans(lib: Library, p: Prioritization, ctx: Context, base: int)
    requires p.skipWhen.Some? ==> !Eval(lib, p.skipWhen.value, ctx)
    requires StandsAt(p.bands, ctx.qds, base)
    ensures var total := base + FiredShift(lib, p.modifiers, ctx);
            var shut := total >= 4 && !Open(lib, p, ctx, base);
            Decision(lib, p, ctx).explanation ==
            Maths(ctx.qds, base, Stack(lib, p.modifiers, ctx).fired, shut,
                  if total < 0 then 0 else if shut then 3 else if total > 4 then 4 else total)
  {
    LevelMeans(lib, p, ctx, base);
  }

  /** What the noise filter matches is skipped whatever its score. */
  lemma NoiseIsSkipped(lib: Library, p: Prioritization, ctx: Context)
    ensures (p.skipWhen.Some? && Eval(lib, p.skipWhen.value, ctx)) <==>
              Decision(lib, p, ctx) == Verdict(false, Noise, None, None, None, None, [])
  {
  }

  lemma {:induction false} NothingFires(lib: Library, ms: seq<Modifier>, ctx: Context)
    requires forall i :: 0 <= i < |ms| ==> !Eval(lib, ms[i].when, ctx)
    ensures FiredShift(lib, ms, ctx) == 0 == FiredShift(lib, Uncapped(ms), ctx)
    decreases |ms|
  {
    if ms != [] {
      NothingFires(lib, ms[1..], ctx);
      assert !ms[0].capsAtHigh ==> Uncapped(ms)[1..] == Uncapped(ms[1..]);
    }
  }

  /** Where nothing is noise and no modifier fires, the band of the score alone decides. */
  lemma BandsAlone(lib: Library, p: Prioritization, ctx: Context)
    requires BandsOk(p.bands) && (p.skipWhen.Some? ==> !Eval(lib, p.skipWhen.value, ctx))
    requires forall i :: 0 <= i < |p.modifiers| ==> !Eval(lib, p.modifiers[i].when, ctx)
    ensures var v := Decision(lib, p, ctx);
            && (ctx.qds.None? || ctx.qds.value < p.bands.medium <==> v.priority == None)
            && (ctx.qds.Some? && p.bands.medium <= ctx.qds.value < p.bands.high <==> v.priority == Some(Medium))
            && (ctx.qds.Some? && p.bands.high <= ctx.qds.value < p.bands.highest <==> v.priority == Some(High))
            && (ctx.qds.Some? && p.bands.highest <= ctx.qds.value <==> v.priority == Some(Highest))
            && (v.create <==> v.priority.Some? && AtLeast(v.priority.value, p.materializeMinBand))
  {
    NothingFires(lib, p.modifiers, ctx);
    var base :=
      if ctx.qds.None? || ctx.qds.value < p.bands.medium then 0
      else if ctx.qds.value < p.bands.high then 2
      else if ctx.qds.value < p.bands.highest then 3
      else 4;
    VerdictMeans(lib, p, ctx, base);
  }

  // ---------------------------------------------------------------- what a pass over the modifiers gathers

  /** One modifier adds its shift, name and label if it fires, and nothing if it does not. */
  lemma StackOfOne(lib: Library, m: Modifier, ctx: Context)
    ensures Stack(lib, [m], ctx) ==
            if !Eval(lib, m.when, ctx) then Stacked(0, 0, false, [], [])
            else Stacked(m.shift, if m.capsAtHigh then 0 else m.shift, m.bypassesHighestGate, [(m.name, m.shift)],
                         if m.tag == None || m.tag == Some("") then [] else [m.tag.value])
  {
    assert [m][..0] == [];
  }

  function Joined(x: Stacked, y: Stacked): Stacked {
    Stacked(x.shift + y.shift, x.uncapped + y.uncapped, x.bypass || y.bypass, x.fired + y.fired, x.tags + y.tags)
  }

  lemma JoinedOne(lib: Library, x: Stacked, y: Stacked, m: Modifier, ctx: Context)
    ensures StackOne(lib, Joined(x, y), m, ctx) == Joined(x, StackOne(lib, y, m, ctx))
  {
  }

  lemma OneMore(lib: Library, a: seq<Modifier>, b: seq<Modifier>, m: Modifier, ctx: Context)
    requires Stack(lib, a + b, ctx) == Joined(Stack(lib, a, ctx), Stack(lib, b, ctx))
    ensures Stack(lib, (a + b) + [m], ctx) == Joined(Stack(lib, a, ctx), Stack(lib, b + [m], ctx))
  {
    StackAdds(lib, a + b, m, ctx);
    StackAdds(lib, b, m, ctx);
    JoinedOne(lib, Stack(lib, a, ctx), Stack(lib, b, ctx), m, ctx);
  }

  lemma NothingJoined(x: Stacked)
    ensures Joined(x, NOTHING) == x
  {
  }

  /** Two lists of modifiers gather what each gathers, in order. */
  lemma {:induction false} StackJoins(lib: Library, a: seq<Modifier>, b: seq<Modifier>, ctx: Context)
    ensures Stack(lib, a + b, ctx) == Joined(Stack(lib, a, ctx), Stack(lib, b, ctx))
    decreases |b|
  {
    if b == [] {
      assert a + b == a;
      NothingJoined(Stack(lib, a, ctx));
    } else {
      var most, m := b[..|b| - 1], b[|b| - 1];
      assert b == most + [m] && a + b == (a + most) + [m];
      StackJoins(lib, a, most, ctx);
      OneMore(lib, a, most, m, ctx);
    }
  }

  // ---------------------------------------------------------------- the destination

  /** `i` is the first route that matches, or one past the last if none does. */
  predicate FirstMatch(lib: Library, rs: seq<Route>, ctx: Context, i: nat) {
    && i <= |rs|
    && (i < |rs| ==> Eval(lib, rs[i].when, ctx))
    && forall j :: 0 <= j < i ==> !Eval(lib, rs[j].when, ctx)
  }

  lemma {:induction false} FirstRouteIs(lib: Library, rs: seq<Route>, ctx: Context, i: nat)
    requires FirstMatch(lib, rs, ctx, i)
    ensures FirstRoute(lib, rs, ctx) == if i < |rs| then Some(rs[i]) else None
    decreases |rs|
  {
    if i > 0 {
      FirstRouteIs(lib, rs[1..], ctx, i - 1);
    }
  }

  /** The first matching route names the destination, the site's own where it names none, and adds its labels. */
  lemma Destination(lib: Library, p: Prioritization, ctx: Context, i: nat)
    requires FirstMatch(lib, p.routing, ctx, i) && Decision(lib, p, ctx).priority.Some?
    ensures var v, own := Decision(lib, p, ctx), [p.managedLabel] + Stack(lib, p.modifiers, ctx).tags;
            if i == |p.routing| then
              && v.project == Some(p.project) && v.issueType == Some(p.issueType) && v.component == None
              && v.labels == own
            else
              var r := p.routing[i];
              && v.project == Some(if r.project == None || r.project == Some("") then p.project else r.project.value)
              && v.issueType ==
                 Some(if r.issueType == None || r.issueType == Some("") then p.issueType else r.issueType.value)
              && v.component == r.component && v.labels == own + r.labels
  {
    FirstRouteIs(lib, p.routing, ctx, i);
    var own := [p.managedLabel] + Stack(lib, p.modifiers, ctx).tags;
    assert own + [] == own;
  }

  // ---------------------------------------------------------------- conditions

  const BLANK := Condition(None, None, Absent, Unset, Unset, None)

  function All(cs: seq<Condition>): Condition {
    BLANK.(all_ := Of(cs))
  }

  function Any(cs: seq<Condition>): Condition {
    BLANK.(any_ := Of(cs))
  }

  function Not(c: Condition): Condition {
    BLANK.(not_ := Some(c))
  }

  /** `all` of a list is a conjunction, true of the empty list. */
  lemma AllLaws(lib: Library, a: seq<Condition>, b: seq<Condition>, c: Condition, ctx: Context)
    ensures Eval(lib, All([]), ctx)
    ensures Eval(lib, All([c]), ctx) <==> Eval(lib, c, ctx)
    ensures Eval(lib, All(a + b), ctx) <==> Eval(lib, All(a), ctx) && Eval(lib, All(b), ctx)
  {
    assert [c][0] == c;
    forall i | 0 <= i < |a + b|
      ensures (a + b)[i] == if i < |a| then a[i] else b[i - |a|]
    {
    }
    forall i | 0 <= i < |b|
      ensures (a + b)[|a| + i] == b[i]
    {
    }
  }

  /** `any` of a list is a disjunction, false of the empty list. */
  lemma AnyLaws(lib: Library, a: seq<Condition>, b: seq<Condition>, c: Condition, ctx: Context)
    ensures !Eval(lib, Any([]), ctx)
    ensures Eval(lib, Any([c]), ctx) <==> Eval(lib, c, ctx)
    ensures Eval(lib, Any(a + b), ctx) <==> Eval(lib, Any(a), ctx) || Eval(lib, Any(b), ctx)
  {
    assert [c][0] == c;
    forall i | 0 <= i < |a + b|
      ensures (a + b)[i] == if i < |a| then a[i] else b[i - |a|]
    {
    }
    forall i | 0 <= i < |b|
      ensures (a + b)[|a| + i] == b[i]
    {
    }
  }

  /** Negation exchanges them. */
  lemma Dual(lib: Library, cs: seq<Condition>, ctx: Context)
    ensures Eval(lib, Not(Any(cs)), ctx) <==> Eval(lib, All(seq(|cs|, i requires 0 <= i < |cs| => Not(cs[i]))), ctx)
    ensures Eval(lib, Not(All(cs)), ctx) <==> Eval(lib, Any(seq(|cs|, i requires 0 <= i < |cs| => Not(cs[i]))), ctx)
  {
    var ns := seq(|cs|, i requires 0 <= i < |cs| => Not(cs[i]));
    forall i | 0 <= i < |cs|
      ensures Eval(lib, ns[i], ctx) <==> !Eval(lib, cs[i], ctx)
    {
    }
  }

  /** Where several forms are written, `all` comes before `any`, `any` before `not`, and `not` before a leaf. */
  lemma Precedence(lib: Library, c: Condition, ctx: Context)
    ensures c.all_.Of? ==> (Eval(lib, c, ctx) <==> Eval(lib, All(c.all_.children), ctx))
    ensures c.all_.Unset? && c.any_.Of? ==> (Eval(lib, c, ctx) <==> Eval(lib, Any(c.any_.children), ctx))
    ensures c.all_.Unset? && c.any_.Unset? && c.not_.Some? ==> (Eval(lib, c, ctx) <==> !Eval(lib, c.not_.value, ctx))
    ensures c.all_.Unset? && c.any_.Unset? && c.not_ == None && (c.signal == None || c.op == None) ==>
              !Eval(lib, c, ctx)
  {
  }

  /** A leaf compares the signal of its name with its value; "qds" is the score. */
  lemma LeafReads(lib: Library, signal: string, op: Operator, value: Value, ctx: Context)
    ensures var leaf := BLANK.(signal := Some(signal), op := Some(op), value := value);
            Eval(lib, leaf, ctx) <==>
            Holds(lib, op,
                  if signal == "qds" then (if ctx.qds == None then Absent else Num(ctx.qds.value as real))
                  else if signal in ctx.others then ctx.others[signal] else Absent, value)
  {
  }

  // ---------------------------------------------------------------- text and lists

  /** `needle` stands somewhere in `s`. */
  ghost predicate Occurs(needle: string, s: string) {
    exists i :: OccursAt(needle, s, i)
  }

  predicate OccursAt(needle: string, s: string, i: int) {
    0 <= i && i + |needle| <= |s| && s[i..i + |needle|] == needle
  }

  lemma OccursLater(needle: string, s: string, i: int)
    requires s != "" && i > 0
    ensures OccursAt(needle, s, i) <==> OccursAt(needle, s[1..], i - 1)
  {
    if i + |needle| <= |s| {
      assert s[1..][i - 1..i - 1 + |needle|] == s[i..i + |needle|];
    }
  }

  lemma OccursFirst(needle: string, s: string)
    ensures needle <= s <==> OccursAt(needle, s, 0)
    ensures needle <= "" <==> needle == ""
  {
  }

  lemma {:induction false} SubstringMeans(needle: string, s: string)
    ensures Substring(needle, s) <==> Occurs(needle, s)
    decreases |s|
  {
    OccursFirst(needle, s);
    if s != "" {
      SubstringMeans(needle, s[1..]);
      if Occurs(needle, s) {
        var i :| OccursAt(needle, s, i);
        if i > 0 {
          OccursLater(needle, s, i);
        }
      }
      if Occurs(needle, s[1..]) {
        var i :| OccursAt(needle, s[1..], i);
        OccursLater(needle, s, i + 1);
      }
    }
  }

  /** `a` and `b` agree up to `k`, where `a` ends first or has the smaller character. */
  predicate DiffersAt(a: string, b: string, k: nat) {
    k <= |a| && k < |b| && a[..k] == b[..k] && (k == |a| || a[k] < b[k])
  }

  ghost predicate Precedes(a: string, b: string) {
    exists k :: DiffersAt(a, b, k)
  }

  lemma DiffersLater(a: string, b: string, k: nat)
    requires a != "" && b != "" && a[0] == b[0]
    ensures DiffersAt(a, b, k + 1) <==> DiffersAt(a[1..], b[1..], k)
    ensures !DiffersAt(a, b, 0)
  {
    if k + 1 <= |a| && k + 1 < |b| {
      assert a[..k + 1] == [a[0]] + a[1..][..k];
      assert b[..k + 1] == [b[0]] + b[1..][..k];
    }
  }

  lemma PrecedesLater(a: string, b: string)
    requires a != "" && b != "" && a[0] == b[0]
    ensures Precedes(a, b) <==> Precedes(a[1..], b[1..])
  {
    if Precedes(a, b) {
      var k: nat :| DiffersAt(a, b, k);
      DiffersLater(a, b, 0);
      DiffersLater(a, b, k - 1);
    }
    if Precedes(a[1..], b[1..]) {
      var k: nat :| DiffersAt(a[1..], b[1..], k);
      DiffersLater(a, b, k);
    }
  }

  /** Texts are compared at the first difference. */
  lemma {:induction false} CompareTextMeans(a: string, b: string)
    ensures CompareText(a, b) < 0 <==> Precedes(a, b)
    ensures CompareText(a, b) > 0 <==> Precedes(b, a)
    ensures CompareText(a, b) == 0 <==> a == b
    decreases |a|
  {
    if a == "" || b == "" {
      assert b != "" && a == "" ==> DiffersAt(a, b, 0);
      assert a != "" && b == "" ==> DiffersAt(b, a, 0);
    } else if a[0] == b[0] {
      CompareTextMeans(a[1..], b[1..]);
      PrecedesLater(a, b);
      PrecedesLater(b, a);
      assert a == [a[0]] + a[1..] && b == [b[0]] + b[1..];
    } else {
      assert a[0] < b[0] ==> DiffersAt(a, b, 0);
      assert b[0] < a[0] ==> DiffersAt(b, a, 0);
      forall k: nat | k > 0
        ensures !DiffersAt(a, b, k) && !DiffersAt(b, a, k)
      {
        if k <= |a| && k <= |b| {
          assert a[..k][0] == a[0] && b[..k][0] == b[0];
        }
      }
    }
  }

  /** Lists are compared at the first elements that are not the same; which need not be comparable. */
  lemma {:induction false} CompareListsAt(a: seq<Value>, b: seq<Value>, k: nat)
    requires k <= |a| && k <= |b| && forall i :: 0 <= i < k ==> Same(a[i], b[i])
    requires k < |a| && k < |b| ==> !Same(a[k], b[k])
    ensures CompareLists(a, b) ==
            if k < |a| && k < |b| then Compare(a[k], b[k])
            else if k < |b| then Some(-1) else if k < |a| then Some(1) else Some(0)
    decreases k
  {
    if k > 0 {
      CompareListsAt(a[1..], b[1..], k - 1);
    }
  }

  // ---------------------------------------------------------------- operators

  /** Numbers are compared by size, texts by the first difference. */
  lemma ComparisonsMean(lib: Library, a: Value, b: Value)
    ensures Holds(lib, Ne, a, b) <==> !Holds(lib, Eq, a, b)
    ensures a.Num? && b.Num? ==>
              && (Holds(lib, Eq, a, b) <==> a.n == b.n)
              && (Holds(lib, Gt, a, b) <==> a.n > b.n) && (Holds(lib, Ge, a, b) <==> a.n >= b.n)
              && (Holds(lib, Lt, a, b) <==> a.n < b.n) && (Holds(lib, Le, a, b) <==> a.n <= b.n)
    ensures a.Text? && b.Text? ==>
              && (Holds(lib, Eq, a, b) <==> a.s == b.s)
              && (Holds(lib, Gt, a, b) <==> Precedes(b.s, a.s))
              && (Holds(lib, Ge, a, b) <==> a.s == b.s || Precedes(b.s, a.s))
              && (Holds(lib, Lt, a, b) <==> Precedes(a.s, b.s))
              && (Holds(lib, Le, a, b) <==> a.s == b.s || Precedes(a.s, b.s))
  {
    if a.Text? && b.Text? {
      CompareTextMeans(a.s, b.s);
    }
  }

  function Numeral(v: Value): Value {
    match v
    case Flag(b) => Num(if b then 1.0 else 0.0)
    case _ => v
  }

  /** A truth value compares like 0 or 1. */
  lemma FlagsAreNumbers(lib: Library, op: Operator, a: Value, b: Value)
    requires op.Eq? || op.Ne? || op.Gt? || op.Ge? || op.Lt? || op.Le?
    ensures Holds(lib, op, a, b) <==> Holds(lib, op, Numeral(a), Numeral(b))
  {
  }

  /** Values of different kinds are unequal and in no order; an absent one is only equal to an absent one. */
  lemma UnlikeValues(lib: Library, a: Value, b: Value)
    requires var x, y := Numeral(a), Numeral(b);
             !(x.Num? && y.Num?) && !(x.Text? && y.Text?) && !(x.List? && y.List?)
    ensures Holds(lib, Eq, a, b) <==> a.Absent? && b.Absent?
    ensures !Holds(lib, Gt, a, b) && !Holds(lib, Ge, a, b) && !Holds(lib, Lt, a, b) && !Holds(lib, Le, a, b)
  {
  }

  /** Lists are equal element by element, and ordered by their first difference, if that can be ordered. */
  lemma ListsCompare(lib: Library, a: seq<Value>, b: seq<Value>, k: nat)
    requires k <= |a| && k <= |b| && forall i :: 0 <= i < k ==> Holds(lib, Eq, a[i], b[i])
    requires k < |a| && k < |b| ==> Holds(lib, Ne, a[k], b[k])
    ensures Holds(lib, Eq, List(a), List(b)) <==> k == |a| == |b|
    ensures var differ := k < |a| && k < |b|;
            && (Holds(lib, Gt, List(a), List(b)) <==>
                  if differ then Compare(a[k], b[k]).Some? && Compare(a[k], b[k]).value > 0 else k < |a|)
            && (Holds(lib, Ge, List(a), List(b)) <==>
                  if differ then Compare(a[k], b[k]).Some? && Compare(a[k], b[k]).value >= 0 else k == |b|)
            && (Holds(lib, Lt, List(a), List(b)) <==>
                  if differ then Compare(a[k], b[k]).Some? && Compare(a[k], b[k]).value < 0 else k < |b|)
            && (Holds(lib, Le, List(a), List(b)) <==>
                  if differ then Compare(a[k], b[k]).Some? && Compare(a[k], b[k]).value <= 0 else k == |a|)
  {
    CompareListsAt(a, b, k);
  }

  /** Membership is in a list by equality, in a text by occurrence; containment turns it round, for lists loosely. */
  lemma MembershipMeans(lib: Library, signal: Value, value: Value)
    ensures Holds(lib, NotIn, signal, value) <==> !Holds(lib, In, signal, value)
    ensures Holds(lib, NotContains, signal, value) <==> !Holds(lib, Contains, signal, value)
    ensures value.List? ==>
              (Holds(lib, In, signal, value) <==>
               exists i :: 0 <= i < |value.vs| && Holds(lib, Eq, signal, value.vs[i]))
    ensures value.Text? ==> (Holds(lib, In, signal, value) <==> signal.Text? && Occurs(signal.s, value.s))
    ensures !value.List? && !value.Text? ==> !Holds(lib, In, signal, value)
    ensures signal.List? ==>
              (Holds(lib, Contains, signal, value) <==>
               exists i :: 0 <= i < |signal.vs| &&
                 (Holds(lib, Eq, value, signal.vs[i]) || Occurs(lib.show(value), lib.show(signal.vs[i]))))
    ensures signal.Text? ==> (Holds(lib, Contains, signal, value) <==> value.Text? && Occurs(value.s, signal.s))
    ensures !signal.List? && !signal.Text? ==> !Holds(lib, Contains, signal, value)
  {
    if value.Text? && signal.Text? {
      SubstringMeans(signal.s, value.s);
      SubstringMeans(value.s, signal.s);
    }
    if signal.List? {
      forall i | 0 <= i < |signal.vs|
        ensures Substring(lib.show(value), lib.show(signal.vs[i])) <==> Occurs(lib.show(value), lib.show(signal.vs[i]))
      {
        SubstringMeans(lib.show(value), lib.show(signal.vs[i]));
      }
    }
    if value.List? {
      assert Holds(lib, In, signal, value) <==> IsIn(signal, value);
      forall i | 0 <= i < |value.vs|
        ensures Same(signal, value.vs[i]) <==> Holds(lib, Eq, signal, value.vs[i])
      {
      }
    }
  }

  /** A missing signal is in no order, contains nothing, matches nothing, and is only in a list that has a blank. */
  lemma MissingSignal(lib: Library, value: Value)
    ensures !Holds(lib, Exists, Absent, value) && Holds(lib, NotExists, Absent, value)
    ensures !Holds(lib, Gt, Absent, value) && !Holds(lib, Ge, Absent, value)
    ensures !Holds(lib, Lt, Absent, value) && !Holds(lib, Le, Absent, value)
    ensures !Holds(lib, Contains, Absent, value) && !Holds(lib, Matches, Absent, value)
    ensures Holds(lib, In, Absent, value) <==> value.List? && Absent in value.vs
  {
  }

  lemma PresentSignal(lib: Library, signal: Value, value: Value)
    requires signal != Absent
    ensures Holds(lib, Exists, signal, value) && !Holds(lib, NotExists, signal, value)
    ensures Holds(lib, Matches, signal, value) <==> lib.search(lib.show(value), lib.show(signal))
  {
  }
}
