/** The derivative-path filters the regulator calls into. Their implementation
    (coefficients, history buffer, recursion) is not part of this model: a
    filter is an object whose update accepts one raw sample, may change the
    filter's own state, and returns a sample about which nothing is known. */
module SignalFiltering {

  /** The two filter types the regulator accepts: finite and infinite impulse response. */
  datatype FilterKind = Fir | Iir

  class RealTimeFilter {
    const kind: FilterKind

    /** The raw samples given to Update so far, oldest first. */
    ghost var fed: seq<real>

    /** The filtered samples Update has returned so far, oldest first. */
    ghost var returned: seq<real>

    constructor (kind: FilterKind)
      ensures this.kind == kind && fed == [] && returned == []
    {
      this.kind := kind;
      fed := [];
      returned := [];
    }

    /** Feed one raw sample and get the filtered one back. */
    method Update(sample: real) returns (filtered: real)
      modifies this
      ensures fed == old(fed) + [sample]
      ensures returned == old(returned) + [filtered]
    {
      fed := fed + [sample];
      filtered :| true;
      returned := returned + [filtered];
    }
  }
}
