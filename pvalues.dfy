/** Turning a p-value into text: the p-value column and the significance stars of
    the exported model table, and the significance label used by the contrast
    helpers. Python's `None` behaves exactly like NaN in the two table helpers, so
    it is represented by `NaN` here. */
module PValues {
  import opened Floats

  /** Which rendering `p_fmt` chooses; the digits themselves (`.2e`, `.3f`) are
      float formatting and are not modelled. */
  datatype PFormat = Blank | Scientific(p: real) | ThreeDecimals(p: real)

  /** `p_fmt`: empty for a missing or non-finite p, scientific notation exactly
      when p <= 0.001, three decimals otherwise. */
  function PFmt(p: Float): (r: PFormat)
    ensures r.Blank? <==> !p.Finite?
    ensures r.Scientific? <==> p.Finite? && p.v <= 0.001
    ensures r.ThreeDecimals? <==> p.Finite? && p.v > 0.001
    ensures !r.Blank? ==> r.p == p.v
  {
    match p
    case Finite(x) => if x <= 0.001 then Scientific(x) else ThreeDecimals(x)
    case _ => Blank
  }

  /** `p_stars`: three stars below 0.001, two below 0.01, one below 0.05, and the
      empty string for larger, missing or non-finite p. */
  function PStars(p: Float): (r: string)
    ensures r == "***" <==> p.Finite? && p.v < 0.001
    ensures r == "**" <==> p.Finite? && 0.001 <= p.v < 0.01
    ensures r == "*" <==> p.Finite? && 0.01 <= p.v < 0.05
    ensures r == "" <==> !p.Finite? || p.v >= 0.05
  {
    match p
    case Finite(x) =>
      if x < 0.001 then "***" else if x < 0.01 then "**" else if x < 0.05 then "*" else ""
    case _ => ""
  }

  /** `p_to_signif`: the same ladder, with "n.s." as the last rung. Every comparison
      with NaN is false, so NaN (and +inf) is "n.s."; -inf is below every threshold. */
  function PToSignif(p: Float): (r: string)
    ensures r == "***" <==> LessThan(p, 0.001)
    ensures r == "**" <==> !LessThan(p, 0.001) && LessThan(p, 0.01)
    ensures r == "*" <==> !LessThan(p, 0.01) && LessThan(p, 0.05)
    ensures r == "n.s." <==> !LessThan(p, 0.05)
  {
    if LessThan(p, 0.001) then "***"
    else if LessThan(p, 0.01) then "**"
    else if LessThan(p, 0.05) then "*"
    else "n.s."
  }

  /** The two star ladders agree on every finite p: p_to_signif says "n.s." exactly
      where p_stars gives no star, and otherwise they give the same stars. */
  lemma StarsAgreeWithSignif(p: Float)
    requires p.Finite?
    ensures PStars(p) == (if PToSignif(p) == "n.s." then "" else PToSignif(p))
  {
  }

  /** A smaller p never earns fewer stars. */
  lemma StarsMonotone(p: real, q: real)
    requires p <= q
    ensures |PStars(Finite(q))| <= |PStars(Finite(p))|
  {
  }

  /** Every p that earns three stars is printed in scientific notation, and every p
      printed with three decimals earns at most two stars. */
  lemma ThreeStarsAreScientific(p: Float)
    ensures PStars(p) == "***" ==> PFmt(p).Scientific?
    ensures PFmt(p).ThreeDecimals? ==> |PStars(p)| <= 2
  {
  }

  /** The worked examples: 0.0009 gives "***", 0.005 "**", 0.03 "*", 0.5 nothing;
      0.0004 is scientific, 0.02 has three decimals, NaN is blank. */
  lemma Examples()
    ensures PStars(Finite(0.0009)) == "***" && PStars(Finite(0.005)) == "**"
    ensures PStars(Finite(0.03)) == "*" && PStars(Finite(0.5)) == ""
    ensures PFmt(Finite(0.0004)) == Scientific(0.0004)
    ensures PFmt(Finite(0.02)) == ThreeDecimals(0.02) && PFmt(NaN) == Blank
  {
  }
}
