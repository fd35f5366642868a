/**
 * The version arithmetic of the public header: the current and previous
 * stable versions derived from the library's own major and minor version,
 * the defaults of DM_VERSION_MIN_REQUIRED and DM_VERSION_MAX_ALLOWED, and
 * the header's two sanity checks. The preprocessor evaluates these in
 * signed 64-bit arithmetic; every value here stays far inside that range.
 */
module Macros {
  import opened Wrappers

  /** A minor version number small enough that minor + 1 still fits G_ENCODE_VERSION's 8-bit field. */
  type Minor = m: nat | m < 255

  /** DM_MAJOR_VERSION and DM_MINOR_VERSION. */
  datatype Version = Version(major: nat, minor: Minor)

  /**
   * G_ENCODE_VERSION (major, minor): (major << 16) | (minor << 8). With a
   * minor in [0, 256) the two fields do not overlap and the OR is a sum.
   * A negative minor (only DM_VERSION_PREV_STABLE's minor - 2 gives one)
   * shifts to a two's-complement value whose bits from 16 up are all set,
   * so the OR leaves it as it is and the major part is lost.
   */
  function Encode(major: nat, minor: int): int
    requires -256 <= minor < 256
  {
    if minor >= 0 then major * 0x1_0000 + minor * 0x100 else minor * 0x100
  }

  /** DM_VERSION_0_0. */
  const Version00 := Encode(0, 0)

  /** DM_VERSION_CUR_STABLE: the stable version a development cycle leads to. */
  function CurStable(v: Version): int {
    if v.minor == 99 then Encode(v.major + 1, 0)
    else if v.minor % 2 == 1 then Encode(v.major, v.minor + 1)
    else Encode(v.major, v.minor)
  }

  /** DM_VERSION_PREV_STABLE. */
  function PrevStable(v: Version): int {
    if v.minor == 99 then Encode(v.major + 1, 0)
    else if v.minor % 2 == 1 then Encode(v.major, v.minor - 1)
    else Encode(v.major, v.minor - 2)
  }

  /** The two symbols a user may define before including the header; `None` when left undefined. */
  datatype Config = Config(minRequired: Option<int>, maxAllowed: Option<int>)

  /** DM_VERSION_MIN_REQUIRED: the user's value, else the current stable version. */
  function MinRequired(v: Version, c: Config): int {
    if c.minRequired.Some? then c.minRequired.value else CurStable(v)
  }

  /**
   * DM_VERSION_MAX_ALLOWED: the user's value; else the minimum required
   * when that is newer than the previous stable version, else the current
   * stable version.
   */
  function MaxAllowed(v: Version, c: Config): int {
    if c.maxAllowed.Some? then c.maxAllowed.value
    else if MinRequired(v, c) > PrevStable(v) then MinRequired(v, c)
    else CurStable(v)
  }

  /** The header's two #error directives. */
  datatype SanityError = MaxBelowMin | MinBelowFirst

  /** The sanity errors a configuration raises. */
  function SanityErrors(v: Version, c: Config): set<SanityError> {
    (if MaxAllowed(v, c) < MinRequired(v, c) then {MaxBelowMin} else {})
    + (if MinRequired(v, c) < Version00 then {MinBelowFirst} else {})
  }

  /** Encoded versions of well-formed numbers compare as (major, minor) pairs do. */
  lemma EncodeOrder(a: nat, b: nat, c: nat, d: nat)
    requires b < 256 && d < 256
    ensures Encode(a, b) < Encode(c, d) <==> a < c || (a == c && b < d)
    ensures Encode(a, b) == Encode(c, d) <==> a == c && b == d
  {
    if a < c {
      assert a * 0x1_0000 + 0x1_0000 <= c * 0x1_0000;
    } else if c < a {
      assert c * 0x1_0000 + 0x1_0000 <= a * 0x1_0000;
    }
  }

  /**
   * The current stable version is a stable one (an even minor, or the next
   * major's .0 after a 99 pre-release), and it is never older than the
   * version itself.
   */
  lemma CurStableIsStable(v: Version)
    ensures exists M: nat, m: nat | m < 256 && m % 2 == 0 :: CurStable(v) == Encode(M, m)
    ensures CurStable(v) >= Encode(v.major, v.minor)
  {
    if v.minor == 99 {
      assert CurStable(v) == Encode(v.major + 1, 0);
      EncodeOrder(v.major, v.minor, v.major + 1, 0);
    } else if v.minor % 2 == 1 {
      assert CurStable(v) == Encode(v.major, v.minor + 1);
    } else {
      assert CurStable(v) == Encode(v.major, v.minor);
    }
  }

  /**
   * The previous stable version never comes after the current one; they
   * coincide exactly for a 99 pre-release, and otherwise lie two minor
   * versions apart, except after an x.0 release, where the previous
   * stable version comes out below DM_VERSION_0_0.
   */
  lemma PrevBeforeCur(v: Version)
    ensures PrevStable(v) <= CurStable(v)
    ensures PrevStable(v) == CurStable(v) <==> v.minor == 99
    ensures v.minor != 99 && v.minor != 0 ==> CurStable(v) - PrevStable(v) == 2 * 0x100
    ensures v.minor == 0 ==> PrevStable(v) < Version00
  {
  }

  /** Left to its default, DM_VERSION_MAX_ALLOWED is never below DM_VERSION_MIN_REQUIRED. */
  lemma DefaultMaxNeverBelowMin(v: Version, c: Config)
    requires c.maxAllowed.None?
    ensures MaxAllowed(v, c) >= MinRequired(v, c)
    ensures MaxBelowMin !in SanityErrors(v, c)
  {
    PrevBeforeCur(v);
  }

  /**
   * With neither symbol defined, the header raises no error: the minimum
   * is the current stable version, which is not below DM_VERSION_0_0.
   */
  lemma DefaultsAreSane(v: Version)
    ensures MinRequired(v, Config(None, None)) == CurStable(v)
    ensures SanityErrors(v, Config(None, None)) == {}
  {
    DefaultMaxNeverBelowMin(v, Config(None, None));
    CurStableIsStable(v);
  }

  /** A minimum below DM_VERSION_0_0 is rejected, whatever the maximum. */
  lemma NegativeMinRejected(v: Version, c: Config)
    ensures MinBelowFirst in SanityErrors(v, c) <==> MinRequired(v, c) < 0
  {
  }

  /**
   * A minimum newer than the previous stable version becomes the default
   * maximum itself; an older one gives the current stable version.
   */
  lemma DefaultMaxChoice(v: Version, m: int)
    ensures MaxAllowed(v, Config(Some(m), None)) == (if m > PrevStable(v) then m else CurStable(v))
    ensures MaxAllowed(v, Config(Some(m), None)) >= m
  {
    PrevBeforeCur(v);
  }
}
