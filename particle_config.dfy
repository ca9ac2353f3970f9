/**
 * particle-system/config/index.ts: the tunable parameters of the simulation. Each numeric
 * parameter carries its current value and the range and step the controls allow. The object
 * is mutable at run time (the orchestrator randomizes it), so the model passes the current
 * settings to the operations that read them.
 */
module ParticleConfig {

  /** A tunable number: its value and the range and step the controls offer. */
  datatype Range = Range(value: real, min: real, max: real, step: real)

  datatype NoiseType = Noise2D | Noise3D

  datatype Settings = Settings(
    particleSpeed: Range,
    attractionStrength: Range,
    particleOpacity: Range,
    particleSize: Range,
    particleCount: Range,
    edgeThreshold: Range,
    noiseType: NoiseType,
    flowFieldScale: Range,
    selectedPalette: string,
    backgroundColor: string,
    particleColor: string,
    isPlaying: bool
  )

  /** PARTICLE_CONFIG as the module initializes it. */
  const PARTICLE_CONFIG: Settings := Settings(
    Range(12.0, 2.0, 80.0, 0.5),
    Range(85.0, 1.0, 200.0, 1.0),
    Range(0.2, 0.05, 1.0, 0.05),
    Range(0.8, 0.3, 1.5, 0.1),
    Range(300000.0, 200000.0, 600000.0, 1000.0),
    Range(0.4, 0.1, 1.5, 0.05),
    Noise2D,
    Range(4.0, 1.0, 10.0, 1.0),
    "galaxy",
    "#0f0d2e",
    "#dda290",
    true
  )

  /** The value sent as the `use3DNoise` uniform: 1 for 3D noise, 0 for 2D. */
  function Use3DNoise(noise: NoiseType): (flag: real)
    ensures flag == 1.0 <==> noise == Noise3D
    ensures flag == 0.0 || flag == 1.0
  {
    if noise == Noise3D then 1.0 else 0.0
  }

  /** A range whose step is positive and whose value lies inside it. */
  predicate WellFormed(r: Range) {
    0.0 < r.step && r.min <= r.value <= r.max
  }
}
