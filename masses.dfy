/** A point mass (src/mass.ts).
  *
  * A `Mass` does not copy the vectors it is built from: its `pos` and `vel`
  * are the very objects of its configuration, so whoever else holds them
  * sees every change made through the mass, and the other way round.
  */
module Masses {
  import opened Vectors

  /** The configuration a mass is built from: a weight and two vector objects. */
  datatype MassConfig = MassConfig(kg: real, pos: Vec2, vel: Vec2)

  class Mass {
    var config: MassConfig
    var pos: Vec2
    var vel: Vec2
    /** The acceleration; it is built as a plain pair of zeros. */
    var acc: V2
    var kg: real

    /** Keeps `config`, aliases its two vectors, copies its weight and
      * starts at zero acceleration; no vector object changes. */
    constructor (config: MassConfig)
      ensures this.config == config
      ensures pos == config.pos && vel == config.vel
      ensures kg == config.kg
      ensures acc == Zero
      ensures unchanged(config.pos, config.vel)
    {
      this.config := config;
      pos := config.pos;
      kg := config.kg;
      vel := config.vel;
      acc := Zero;
    }
  }
}
