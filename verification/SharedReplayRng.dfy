/** Random draws that replay a recorded prefix, then continue from a fallback generator. */
module SharedReplayRng {
  import opened Traces

  /** A generator: from its state and a rate, a new state and a sample. */
  type Source<!F> = (F, nat) -> (F, nat)

  /** The draws still to be replayed, the fallback generator's state, and the shared trace. */
  datatype Chain<F> = Chain(draws: seq<RandomDraw>, fallback: F, trace: seq<TraceEvent>)

  datatype Sampled = Got(value: nat) | SiteMismatch(expected: nat, found: nat)

  function NextDraw<F>(c: Chain<F>, source: Source<F>, site: nat, rate: nat): (Chain<F>, Sampled) {
    if c.draws != [] then
      var next, rest := c.draws[0], c.draws[1..];
      if next.site != site then (c.(draws := rest), SiteMismatch(site, next.site))
      else (c.(draws := rest, trace := c.trace + [Drawn(RandomDraw(site, next.value))]), Got(next.value))
    else
      var (f, v) := source(c.fallback, rate);
      (c.(fallback := f, trace := c.trace + [Drawn(RandomDraw(site, v))]), Got(v))
  }

  /** A seeded generator as its state and its next sample at a given rate. */
  class SharedChainedRandomProvider<F> {
    var draws: seq<RandomDraw>
    var fallback: F
    const source: Source<F>
    const recorder: TraceRecorder

    ghost function Now(): Chain<F>
      reads this, recorder
    {
      Chain(draws, fallback, recorder.trace)
    }

    constructor (prefix: seq<TraceEvent>, seeded: F, source: Source<F>, recorder: TraceRecorder)
      ensures this.source == source && this.recorder == recorder
      ensures Now() == Chain(Draws(prefix), seeded, recorder.trace)
    {
      draws, fallback, this.source, this.recorder := Draws(prefix), seeded, source, recorder;
    }

    /** A mismatch of sites is a panic. */
    method SampleExpSeconds(site: nat, rate: nat) returns (r: Sampled)
      modifies this, recorder
      ensures (Now(), r) == NextDraw(old(Now()), source, site, rate)
      ensures old(draws) != [] ==> draws == old(draws)[1..] && fallback == old(fallback)
      ensures old(draws) != [] && old(draws)[0].site == site ==>
              r == Got(old(draws)[0].value) && recorder.trace == old(recorder.trace) + [Drawn(old(draws)[0])]
      ensures old(draws) != [] && old(draws)[0].site != site ==>
              r == SiteMismatch(site, old(draws)[0].site) && recorder.trace == old(recorder.trace)
      ensures old(draws) == [] ==>
              var (f, v) := source(old(fallback), rate);
              && draws == [] && fallback == f && r == Got(v)
              && recorder.trace == old(recorder.trace) + [Drawn(RandomDraw(site, v))]
    {
      var value;
      if draws != [] {
        var next := draws[0];
        draws := draws[1..];
        if next.site != site {
          return SiteMismatch(site, next.site);
        }
        value := next.value;
      } else {
        var (f, v) := source(fallback, rate);
        fallback, value := f, v;
      }
      recorder.Record(Drawn(RandomDraw(site, value)));
      r := Got(value);
    }
  }
}
