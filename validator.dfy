/** Range checks for DMX512 channel numbers (1-512) and channel values
    (0-255); every other component validates through these. */
module Validator {

  /** Selects channel-number validation. */
  const NumValidation: int := 20001
  /** Selects channel-value validation. */
  const ValValidation: int := 20002

  /** Number of channels in a universe. */
  const Channels: int := 512
  /** Number of distinct channel values. */
  const Levels: int := 256

  /** A channel number must lie between 1 and 512 inclusive. */
  function ValidateChannelNumber(validationValue: int): (valid: bool)
    ensures valid <==> 1 <= validationValue <= Channels
  {
    !(validationValue < 1 || validationValue > 512)
  }

  /** A channel value must lie between 0 and 255 inclusive. */
  function ValidateChannelValue(validationValue: int): (valid: bool)
    ensures valid <==> 0 <= validationValue < Levels
  {
    !(validationValue < 0 || validationValue > 255)
  }

  /** Runs the validation that `validationType` selects; any other kind of
      validation rejects the value. */
  function Validate(value: int, validationType: int): (valid: bool)
    ensures validationType == NumValidation ==> (valid <==> 1 <= value <= 512)
    ensures validationType == ValValidation ==> (valid <==> 0 <= value <= 255)
    ensures validationType != NumValidation && validationType != ValValidation ==> !valid
  {
    if validationType == NumValidation then ValidateChannelNumber(value)
    else if validationType == ValValidation then ValidateChannelValue(value)
    else false
  }

  /** The ranges the two checks accept, read as index ranges: a valid
      channel number n stands for index n - 1 of a 512-slot store, and a
      valid channel value is an index of a 256-slot table. */
  lemma ValidIndices(n: int, v: int)
    ensures Validate(n, NumValidation) ==> 0 <= n - 1 < Channels
    ensures Validate(v, ValValidation) ==> 0 <= v < Levels
  {
  }
}
