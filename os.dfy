/**
 * Operating-system detection and API-availability comparison.
 *
 * An `AppleVersion` is compared against an `(AppleOS, major, minor)` triple.
 * The comparison is a partial order: versions of different operating systems
 * are incomparable, so every `<`, `<=`, `>`, `>=` across systems is false.
 * Availability gates in the conversion layer are disjunctions of such
 * comparisons, one clause per system.
 */
module AppleOs {
  import opened Wrappers

  newtype u16 = x: int | 0 <= x < 0x1_0000

  /** The operating systems; `OtherOS` is the `None` variant built only for other targets. */
  datatype AppleOS = MacOS | MacCatalyst | TvOS | WatchOS | VisionOS | IOS | OtherOS

  datatype AppleVersion = AppleVersion(os: AppleOS, major: u16, minor: u16)

  datatype Ordering = Less | Equal | Greater

  /** The compilation target chosen by the `cfg` flags. */
  datatype Target = MacOSTarget | IOSTarget | CatalystTarget | WatchOSTarget | TvOSTarget | OtherTarget

  /**
   * The lazily initialised `APPLE_VERSION`: the target's system with the
   * process's major and minor version numbers cast (truncating) to `u16`, or
   * `(None, 0, 0)` on every target that is not watchOS, iOS, macOS or Catalyst.
   */
  function AppleVersionFor(target: Target, osMajor: int, osMinor: int): (v: AppleVersion)
    ensures v.os == OtherOS <==> target == TvOSTarget || target == OtherTarget
    ensures v.os == OtherOS ==> v.major == 0 && v.minor == 0
    ensures target == MacOSTarget ==> v.os == MacOS
    ensures target == IOSTarget ==> v.os == IOS
    ensures target == CatalystTarget ==> v.os == MacCatalyst
    ensures target == WatchOSTarget ==> v.os == WatchOS
    ensures v.os != OtherOS && 0 <= osMajor < 0x1_0000 && 0 <= osMinor < 0x1_0000 ==>
              v.major as int == osMajor && v.minor as int == osMinor
  {
    var major := (osMajor % 0x1_0000) as u16;
    var minor := (osMinor % 0x1_0000) as u16;
    match target
    case WatchOSTarget => AppleVersion(WatchOS, major, minor)
    case MacOSTarget => AppleVersion(MacOS, major, minor)
    case CatalystTarget => AppleVersion(MacCatalyst, major, minor)
    case IOSTarget => AppleVersion(IOS, major, minor)
    case _ => AppleVersion(OtherOS, 0, 0)
  }

  /** The position of `major.minor` on one system's version line. */
  function Rank(major: u16, minor: u16): int {
    major as int * 0x1_0000 + minor as int
  }

  /** `PartialOrd<(AppleOS, u16, u16)>::partial_cmp` */
  function PartialCmp(v: AppleVersion, other: (AppleOS, u16, u16)): (r: Option<Ordering>)
    // incomparable exactly across systems: the trailing `None` branch is dead
    ensures r == None <==> v.os != other.0
    ensures r == Some(Equal) <==> v.os == other.0 && Rank(v.major, v.minor) == Rank(other.1, other.2)
    ensures r == Some(Greater) <==> v.os == other.0 && Rank(v.major, v.minor) > Rank(other.1, other.2)
    ensures r == Some(Less) <==> v.os == other.0 && Rank(v.major, v.minor) < Rank(other.1, other.2)
  {
    if v.os != other.0 then None
    else if v.major == other.1 && v.minor == other.2 then Some(Equal)
    else if v.major > other.1 || (v.major == other.1 && v.minor > other.2) then Some(Greater)
    else if v.major < other.1 || (v.major == other.1 && v.minor < other.2) then Some(Less)
    else None
  }

  /** `<`, `<=`, `>`, `>=` as Rust derives them from `partial_cmp`. */
  predicate Lt(v: AppleVersion, other: (AppleOS, u16, u16)) {
    PartialCmp(v, other) == Some(Less)
  }

  predicate Le(v: AppleVersion, other: (AppleOS, u16, u16)) {
    PartialCmp(v, other) == Some(Less) || PartialCmp(v, other) == Some(Equal)
  }

  predicate Gt(v: AppleVersion, other: (AppleOS, u16, u16)) {
    PartialCmp(v, other) == Some(Greater)
  }

  predicate Ge(v: AppleVersion, other: (AppleOS, u16, u16)) {
    PartialCmp(v, other) == Some(Greater) || PartialCmp(v, other) == Some(Equal)
  }

  /** `PartialEq<(AppleOS, u16, u16)>::eq` */
  predicate EqVersion(v: AppleVersion, other: (AppleOS, u16, u16)) {
    v.os == other.0 && v.major == other.1 && v.minor == other.2
  }

  /**
   * `PartialEq<AppleOS>::eq`: the numbers play no part, so it holds exactly
   * when the version is comparable with some version of `os`.
   */
  predicate EqOs(v: AppleVersion, os: AppleOS): (r: bool)
    ensures r <==> PartialCmp(v, (os, 0, 0)).Some?
    ensures r <==> EqVersion(v, (os, v.major, v.minor))
  {
    v.os == os
  }

  lemma CrossOsIncomparable(v: AppleVersion, other: (AppleOS, u16, u16))
    requires v.os != other.0
    ensures !Lt(v, other) && !Le(v, other) && !Gt(v, other) && !Ge(v, other) && !EqVersion(v, other)
  {
  }

  lemma EqVersionAgreesWithCmp(v: AppleVersion, other: (AppleOS, u16, u16))
    ensures EqVersion(v, other) <==> PartialCmp(v, other) == Some(Equal)
  {
  }

  /** Within one system the order is the lexicographic order on (major, minor). */
  lemma SameOsLexicographic(v: AppleVersion, other: (AppleOS, u16, u16))
    requires v.os == other.0
    ensures Gt(v, other) <==> v.major > other.1 || (v.major == other.1 && v.minor > other.2)
    ensures Lt(v, other) <==> v.major < other.1 || (v.major == other.1 && v.minor < other.2)
    ensures Lt(v, other) || EqVersion(v, other) || Gt(v, other)
  {
  }

  /** A `>=` requirement stays met when the required version is lowered. */
  lemma GeDownwardClosed(v: AppleVersion, os: AppleOS, major: u16, minor: u16, major': u16, minor': u16)
    requires Ge(v, (os, major, minor))
    requires Rank(major', minor') <= Rank(major, minor)
    ensures Ge(v, (os, major', minor'))
  {
  }

  /** One disjunct of an availability gate. */
  datatype Clause =
    | AtLeast(os: AppleOS, major: u16, minor: u16)
    | Between(os: AppleOS, major: u16, minor: u16, maxMajor: u16, maxMinor: u16)

  predicate ClauseHolds(v: AppleVersion, c: Clause) {
    match c
    case AtLeast(os, a, b) => Ge(v, (os, a, b))
    case Between(os, a, b, x, y) => Ge(v, (os, a, b)) && Le(v, (os, x, y))
  }

  /** A gate `c0 || c1 || ...`, its clauses evaluated left to right. */
  predicate GateHolds(v: AppleVersion, gate: seq<Clause>) {
    |gate| > 0 && (ClauseHolds(v, gate[0]) || GateHolds(v, gate[1..]))
  }

  /** The first clause of a gate that names `os`. */
  function ClauseFor(gate: seq<Clause>, os: AppleOS): (r: Option<Clause>)
    ensures r.Some? ==> r.value in gate && r.value.os == os
    ensures r.None? ==> forall c :: c in gate ==> c.os != os
  {
    if |gate| == 0 then None
    else if gate[0].os == os then Some(gate[0])
    else ClauseFor(gate[1..], os)
  }

  predicate DistinctOses(gate: seq<Clause>) {
    forall i, j :: 0 <= i < j < |gate| ==> gate[i].os != gate[j].os
  }

  lemma ClauseNamesRunningOs(v: AppleVersion, c: Clause)
    requires ClauseHolds(v, c)
    ensures c.os == v.os
  {
  }

  /**
   * Because cross-system comparisons are false, a gate whose clauses name
   * distinct systems reduces to the one clause for the running system.
   */
  lemma {:induction false} GateReducesToRunningOs(v: AppleVersion, gate: seq<Clause>)
    requires DistinctOses(gate)
    ensures GateHolds(v, gate) <==> ClauseFor(gate, v.os).Some? && ClauseHolds(v, ClauseFor(gate, v.os).value)
  {
    if |gate| > 0 {
      assert DistinctOses(gate[1..]) by {
        forall i, j | 0 <= i < j < |gate[1..]| ensures gate[1..][i].os != gate[1..][j].os {
          assert gate[1..][i] == gate[i + 1] && gate[1..][j] == gate[j + 1];
        }
      }
      GateReducesToRunningOs(v, gate[1..]);
      if gate[0].os != v.os {
        if ClauseHolds(v, gate[0]) { ClauseNamesRunningOs(v, gate[0]); }
      }
    }
  }

  /** On a target whose version is `None`, no gate naming real systems ever holds. */
  lemma {:induction false} NoGateHoldsWithoutOs(v: AppleVersion, gate: seq<Clause>)
    requires v.os == OtherOS
    requires forall c :: c in gate ==> c.os != OtherOS
    ensures !GateHolds(v, gate)
  {
    if |gate| > 0 {
      assert gate[0] in gate;
      if ClauseHolds(v, gate[0]) { ClauseNamesRunningOs(v, gate[0]); }
      assert forall c :: c in gate[1..] ==> c in gate;
      NoGateHoldsWithoutOs(v, gate[1..]);
    }
  }
}
