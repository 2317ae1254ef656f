/** Types shared by every persona bot: channel ids, positive sizes, results and effects. */
module Common {

  /** A Discord channel id (a snowflake integer). */
  type ChannelId = int

  /** A strictly positive size: history caps, lookbacks, window maxima. */
  type Pos = n: int | n > 0 witness 1

  /** A value or the text of the exception raised instead of it. */
  datatype Result<T> = Ok(value: T) | Err(error: string)

  /** What a handler does to the outside world, in order:
      a call to the text-generation backend with a prompt, or a message sent to a channel. */
  datatype Effect = Request(prompt: string) | Send(channel: ChannelId, text: string)
}
