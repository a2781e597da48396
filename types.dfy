/** The record shapes shared by the countdown tracker (types.ts), plus the
    Option wrapper used for optional fields and absent storage slots. */
module Types {

  datatype Option<+T> = None | Some(value: T)

  /** A deadline the user tracks. `time` is kept as the text the user or the
      prompt expander supplied; turning it into an instant is done by the
      browser's date parser, which is not part of this model. */
  datatype CountdownEvent = CountdownEvent(
    id: string,
    title: string,
    time: string,
    description: Option<string>)

  /** The breakdown of a remaining duration into fixed-ratio units. */
  datatype TimeRemaining = TimeRemaining(
    days: int,
    hours: int,
    minutes: int,
    seconds: int,
    totalMs: int)
}
