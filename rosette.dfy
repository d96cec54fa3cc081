/** The Rosette interface: the closed set of pattern styles and the default
    parameters of a rosette. */
module Rosette {

  /** Rosette.Styles, in declaration (ordinal) order. */
  datatype Style =
    | NONE
    | NSIDE
    | FLOWER
    | SINE
    | HEART
    | LOTUS
    | BIGSMALL
    | BIGSMALL_
    | TRIANGLE
    | TUDOR
    | INDEX

  /** The number of styles, Styles.values().length. */
  const StyleCount: nat := 11

  /** Styles.ordinal(). */
  function Ordinal(s: Style): (k: nat)
    ensures k < StyleCount
    ensures s == NONE <==> k == 0
  {
    match s
    case NONE => 0
    case NSIDE => 1
    case FLOWER => 2
    case SINE => 3
    case HEART => 4
    case LOTUS => 5
    case BIGSMALL => 6
    case BIGSMALL_ => 7
    case TRIANGLE => 8
    case TUDOR => 9
    case INDEX => 10
  }

  /** Styles.values()[k], the style with integer code k. */
  function StyleAt(k: nat): (s: Style)
    requires k < StyleCount
  {
    [NONE, NSIDE, FLOWER, SINE, HEART, LOTUS, BIGSMALL, BIGSMALL_, TRIANGLE, TUDOR, INDEX][k]
  }

  /** Integer style codes and styles are in one-to-one correspondence. */
  lemma OrdinalRoundTrip(s: Style, k: nat)
    requires k < StyleCount
    ensures StyleAt(Ordinal(s)) == s
    ensures Ordinal(StyleAt(k)) == k
  {
    var all := [NONE, NSIDE, FLOWER, SINE, HEART, LOTUS, BIGSMALL, BIGSMALL_, TRIANGLE, TUDOR, INDEX];
    assert StyleAt(k) == all[k];
  }

  const DefaultStyle: Style := NSIDE
  const DefaultRepeat: int := 4
  /** Default peak-to-peak amplitude. */
  const DefaultPToP: real := 0.1
  /** Default phase, in degrees of one repeat. */
  const DefaultPhase: real := 0.0
}
