/** Shared vocabulary: optional values and the C# notion of a string that may be null. */
module Common {

  datatype Option<+T> = None | Some(value: T)

  /** A C# `string` reference: `None` stands for `null`. */
  type NullableString = Option<string>

  /** `string.IsNullOrEmpty`. */
  predicate IsNullOrEmpty(s: NullableString)
  {
    s.None? || s.value == ""
  }

  /** A UTC instant, in ticks; the clock itself is left to the caller. */
  type DateTime = int
}
