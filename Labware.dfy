/** Container types (`src/labware.py`, repeated in
    `src/protocol/experiment.py`): the volume each well holds, the dead
    volume that cannot be drawn, and the catalogue of known types. Volumes
    are reals in a unit with exact factors. */
module Labware {
  import Requirement

  type Volume = Requirement.LiquidVolume

  /** `LabwareType`: one maximum volume per well, and a dead volume. */
  datatype LabwareType = LabwareType(name: string, maxVolume: seq<Volume>, deadVolume: Volume)

  function Ml(v: real): Volume {
    Requirement.LiquidVolume(v, Requirement.Ml)
  }

  /** The dead volume's default, `0 ml`. */
  const NoDeadVolume: Volume := Ml(0.0)

  const Tube50ml := LabwareType("tube50ml", [Ml(50.0)], Ml(3.0))
  const Tube1_5ml := LabwareType("tube1.5ml", [Ml(1.5)], Ml(0.2))
  const Plate6well := LabwareType("plate6well", seq(6, _ => Ml(10.0)), NoDeadVolume)
  const Plate96well := LabwareType("plate96well", seq(96, _ => Ml(0.3)), NoDeadVolume)

  /** Python's `sum` of floats, added from the left. */
  function Total(s: seq<real>): real {
    if s == [] then 0.0 else Total(s[..|s| - 1]) + s[|s| - 1]
  }

  lemma {:induction false} TotalConcat(a: seq<real>, b: seq<real>)
    ensures Total(a + b) == Total(a) + Total(b)
    decreases |b|
  {
    if b == [] {
      assert a + b == a;
    } else {
      var init := b[..|b| - 1];
      assert (a + b)[..|a + b| - 1] == a + init;
      TotalConcat(a, init);
    }
  }

  lemma {:induction false} TotalNonNegative(s: seq<real>)
    requires forall i | 0 <= i < |s| :: s[i] >= 0.0
    ensures Total(s) >= 0.0
  {
    if s != [] {
      var init := s[..|s| - 1];
      assert forall i | 0 <= i < |init| :: init[i] == s[i];
      TotalNonNegative(init);
    }
  }

  /** Each tube is a single well whose dead volume is below its capacity;
      the plates have six and ninety-six wells and no dead volume. */
  lemma Catalogue()
    ensures |Tube50ml.maxVolume| == 1 && Requirement.ToMl(Tube50ml.deadVolume) < Requirement.ToMl(Tube50ml.maxVolume[0])
    ensures |Tube1_5ml.maxVolume| == 1 && Requirement.ToMl(Tube1_5ml.deadVolume) < Requirement.ToMl(Tube1_5ml.maxVolume[0])
    ensures |Plate6well.maxVolume| == 6 && |Plate96well.maxVolume| == 96
  {
  }

  /** `n` times `d`, added up one at a time. */
  function Times(n: nat, d: real): real {
    if n == 0 then 0.0 else Times(n - 1, d) + d
  }

  lemma {:induction false} TimesIsProduct(n: nat, d: real)
    ensures Times(n, d) == d * n as real
  {
    if n > 0 {
      TimesIsProduct(n - 1, d);
      assert d * n as real == d * (n - 1) as real + d;
    }
  }

}
