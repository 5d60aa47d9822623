/** The primary key of a detection: host, QID and port, and the unique vulnerability id on request. */
module Identity {
  import opened Wrappers
  import opened Text

  /** A component, given as an integer or as a string. */
  datatype Part = Number(n: int) | Label(s: string) {
    function Str(): string {
      match this
      case Number(n) => Decimal(n)
      case Label(s) => s
    }
  }

  const MISSING_UVID := "none"

  /** A component that may be absent or blank. */
  function Normalised(part: Option<Part>, missing: string): string {
    if part.Some? && Strip(part.value.Str()) != "" then Strip(part.value.Str()) else missing
  }

  function PrimaryKey(host: Part, qid: Part, port: Option<Part>, sentinel: string, uvid: Option<Part>,
      includeUvid: bool): string {
    var key := host.Str() + ":" + qid.Str() + ":" + Normalised(port, sentinel);
    if includeUvid then key + ":" + Normalised(uvid, MISSING_UVID) else key
  }

  /** `t` is `s` without the whitespace around it. */
  ghost predicate Trims(s: string, t: string) {
    && (t == "" || (!IsSpace(t[0]) && !IsSpace(t[|t| - 1])))
    && exists i, j :: 0 <= i <= j <= |s| && t == s[i..j] && Blank(s[..i]) && Blank(s[j..])
  }

  /** A part that is absent or blank reads as the default, another one without the whitespace around it. */
  ghost predicate ReadsAs(part: Option<Part>, missing: string, t: string) {
    if part.None? || Blank(part.value.Str()) then t == missing else t != "" && Trims(part.value.Str(), t)
  }

  lemma NormalisedReads(part: Option<Part>, missing: string)
    ensures ReadsAs(part, missing, Normalised(part, missing))
  {
    if part.Some? {
      var s := part.value.Str();
      var i, j := StripCuts(s);
      StripKeeps(s);
      BlankIsInvisible(s);
    }
  }

  /** The key is the host, the QID, the port, and on request the unique id, in this order, between colons. */
  lemma KeyReads(host: Part, qid: Part, port: Option<Part>, sentinel: string, uvid: Option<Part>, includeUvid: bool)
    returns (p: string, u: string)
    ensures ReadsAs(port, sentinel, p) && ReadsAs(uvid, "none", u)
    ensures PrimaryKey(host, qid, port, sentinel, uvid, includeUvid) ==
            host.Str() + ":" + qid.Str() + ":" + p + if includeUvid then ":" + u else ""
  {
    p, u := Normalised(port, sentinel), Normalised(uvid, MISSING_UVID);
    NormalisedReads(port, sentinel);
    NormalisedReads(uvid, MISSING_UVID);
    var key := host.Str() + ":" + qid.Str() + ":" + p;
    assert key + ":" + u == key + (":" + u) && key + "" == key;
  }

  // ---------------------------------------------------------------- splitting at a colon

  lemma NoColonBefore(s: string, k: nat, i: nat)
    requires k <= |s| && ':' !in s[..k] && i < |s| && s[i] == ':'
    ensures k <= i
  {
  }

  lemma NoColonFrom(s: string, k: nat, i: nat)
    requires k <= |s| && ':' !in s[k..] && i < |s| && s[i] == ':'
    ensures i < k
  {
  }

  lemma FirstColon(a: string, b: string, x: string, y: string)
    requires ':' !in a && ':' !in b
    requires a + ":" + x == b + ":" + y
    ensures a == b && x == y
  {
    var s := a + ":" + x;
    assert s == b + ":" + y;
    assert a == s[..|a|] && b == s[..|b|];
    assert x == s[|a| + 1..] && y == s[|b| + 1..];
    NoColonBefore(s, |a|, |b|);
    NoColonBefore(s, |b|, |a|);
  }

  lemma LastColon(a: string, b: string, x: string, y: string)
    requires ':' !in x && ':' !in y
    requires a + ":" + x == b + ":" + y
    ensures a == b && x == y
  {
    var s := a + ":" + x;
    assert s == b + ":" + y;
    assert a == s[..|a|] && b == s[..|b|];
    assert x == s[|a| + 1..] && y == s[|b| + 1..];
    NoColonFrom(s, |a| + 1, |b|);
    NoColonFrom(s, |b| + 1, |a|);
  }

  lemma Regroup(a: string, b: string, x: string)
    ensures a + ":" + b + ":" + x == a + ":" + (b + ":" + x)
  {
  }

  lemma ThreeParts(a: string, b: string, x: string, c: string, d: string, y: string)
    requires ':' !in a && ':' !in b && ':' !in c && ':' !in d
    requires a + ":" + b + ":" + x == c + ":" + d + ":" + y
    ensures a == c && b == d && x == y
  {
    Regroup(a, b, x);
    Regroup(c, d, y);
    FirstColon(a, c, b + ":" + x, d + ":" + y);
    FirstColon(b, d, x, y);
  }

  lemma NotSpace(c: char)
    requires IsDigit(c) || c == '-'
    ensures !IsSpace(c)
  {
  }

  lemma NumbersArePlain(n: int)
    ensures ':' !in Decimal(n) && Strip(Decimal(n)) == Decimal(n) != ""
    ensures Decimal(n) != MISSING_UVID
  {
    DecimalIsNumeral(n);
    var s := Decimal(n);
    var digits := Digits(if n < 0 then -n else n);
    assert s == (if n < 0 then "-" else "") + digits;
    assert IsDigit(digits[0]) && IsDigit(digits[|digits| - 1]);
    assert s[|s| - 1] == digits[|digits| - 1];
    assert s[0] == if n < 0 then '-' else digits[0];
    NotSpace(s[0]);
    NotSpace(s[|s| - 1]);
    StripOfTight(s);
  }

  // ---------------------------------------------------------------- injectivity

  /** A detection named by numbers, as Qualys names it. */
  datatype Id = Id(host: int, qid: int, port: Option<int>, uvid: Option<int>)

  function AsPart(n: Option<int>): Option<Part> {
    match n
    case None => None
    case Some(v) => Some(Number(v))
  }

  function KeyOf(id: Id, sentinel: string, includeUvid: bool): string {
    PrimaryKey(Number(id.host), Number(id.qid), AsPart(id.port), sentinel, AsPart(id.uvid), includeUvid)
  }

  predicate SameDetection(a: Id, b: Id, includeUvid: bool) {
    a.host == b.host && a.qid == b.qid && a.port == b.port && (includeUvid ==> a.uvid == b.uvid)
  }

  lemma NormalisedNumber(n: Option<int>, missing: string)
    ensures Normalised(AsPart(n), missing) == if n.Some? then Decimal(n.value) else missing
  {
    if n.Some? {
      NumbersArePlain(n.value);
    }
  }

  lemma SameUvid(a: Option<int>, b: Option<int>)
    requires Normalised(AsPart(a), MISSING_UVID) == Normalised(AsPart(b), MISSING_UVID)
    ensures a == b
  {
    NormalisedNumber(a, MISSING_UVID);
    NormalisedNumber(b, MISSING_UVID);
    if a.Some? {
      NumbersArePlain(a.value);
    }
    if b.Some? {
      NumbersArePlain(b.value);
    }
    if a.Some? && b.Some? {
      DecimalsDiffer(a.value, b.value);
    }
  }

  lemma SamePort(a: Option<int>, b: Option<int>, sentinel: string)
    requires !IsNumeral(sentinel)
    requires Normalised(AsPart(a), sentinel) == Normalised(AsPart(b), sentinel)
    ensures a == b
  {
    NormalisedNumber(a, sentinel);
    NormalisedNumber(b, sentinel);
    if a.Some? {
      DecimalIsNumeral(a.value);
    }
    if b.Some? {
      DecimalIsNumeral(b.value);
    }
    if a.Some? && b.Some? {
      DecimalsDiffer(a.value, b.value);
    }
  }

  /** Without the unique id part. */
  lemma SameStem(a: Id, b: Id, sentinel: string)
    requires !IsNumeral(sentinel) && KeyOf(a, sentinel, false) == KeyOf(b, sentinel, false)
    ensures a.host == b.host && a.qid == b.qid && a.port == b.port
  {
    NumbersArePlain(a.host);
    NumbersArePlain(b.host);
    NumbersArePlain(a.qid);
    NumbersArePlain(b.qid);
    var x, y := Normalised(AsPart(a.port), sentinel), Normalised(AsPart(b.port), sentinel);
    ThreeParts(Decimal(a.host), Decimal(a.qid), x, Decimal(b.host), Decimal(b.qid), y);
    DecimalsDiffer(a.host, b.host);
    DecimalsDiffer(a.qid, b.qid);
    SamePort(a.port, b.port, sentinel);
  }

  /** Equal keys name the same detection, whatever the sentinel is, unless it is a numeral. */
  lemma KeysIdentify(a: Id, b: Id, sentinel: string, includeUvid: bool)
    requires !IsNumeral(sentinel) && KeyOf(a, sentinel, includeUvid) == KeyOf(b, sentinel, includeUvid)
    ensures SameDetection(a, b, includeUvid)
  {
    if includeUvid {
      NormalisedNumber(a.uvid, MISSING_UVID);
      NormalisedNumber(b.uvid, MISSING_UVID);
      if a.uvid.Some? {
        NumbersArePlain(a.uvid.value);
      }
      if b.uvid.Some? {
        NumbersArePlain(b.uvid.value);
      }
      LastColon(KeyOf(a, sentinel, false), KeyOf(b, sentinel, false),
        Normalised(AsPart(a.uvid), MISSING_UVID), Normalised(AsPart(b.uvid), MISSING_UVID));
      SameUvid(a.uvid, b.uvid);
    }
    SameStem(a, b, sentinel);
  }

  ghost predicate Identifies(sentinel: string, includeUvid: bool) {
    forall a: Id, b: Id :: KeyOf(a, sentinel, includeUvid) == KeyOf(b, sentinel, includeUvid) ==>
        SameDetection(a, b, includeUvid)
  }

  /** One key per detection exactly when the configured sentinel cannot be taken for a port. */
  lemma KeysIdentifyExactlyWhen(sentinel: string, includeUvid: bool)
    ensures Identifies(sentinel, includeUvid) <==> !IsNumeral(sentinel)
  {
    if IsNumeral(sentinel) {
      NumeralsAreDecimals(sentinel);
      var n :| Decimal(n) == sentinel;
      var a, b := Id(1, 2, None, None), Id(1, 2, Some(n), None);
      NormalisedNumber(a.port, sentinel);
      NormalisedNumber(b.port, sentinel);
      assert KeyOf(a, sentinel, includeUvid) == KeyOf(b, sentinel, includeUvid);
      assert !SameDetection(a, b, includeUvid);
    } else {
      forall a: Id, b: Id | KeyOf(a, sentinel, includeUvid) == KeyOf(b, sentinel, includeUvid)
        ensures SameDetection(a, b, includeUvid)
      {
        KeysIdentify(a, b, sentinel, includeUvid);
      }
    }
  }

  /** A port written as a padded string keys as the number does, and a blank one keys as no port at all. */
  lemma SpellingOfThePort(host: Part, qid: Part, s: string, n: int, sentinel: string, uvid: Option<Part>,
      includeUvid: bool)
    ensures Strip(s) == Decimal(n) ==>
      PrimaryKey(host, qid, Some(Label(s)), sentinel, uvid, includeUvid) ==
          PrimaryKey(host, qid, Some(Number(n)), sentinel, uvid, includeUvid)
    ensures Visible(s) == "" ==>
      PrimaryKey(host, qid, Some(Label(s)), sentinel, uvid, includeUvid) ==
          PrimaryKey(host, qid, None, sentinel, uvid, includeUvid)
  {
    NumbersArePlain(n);
    StripKeeps(s);
  }
}
