/**
  Both source files draw normally distributed values with a Marsaglia polar
  sampler (`normalRandom(mean, std)`). The sampler itself is random; the model
  takes the standard-normal draw `z` it would have produced as a parameter.
*/
module Gaussian {

  /** The value `normalRandom(mean, std)` returns when its standard-normal draw is `z`. */
  function NormalRandom(mean: real, std: real, z: real): real {
    mean + z * std
  }
}
