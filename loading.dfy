/** What the two screens' load cycles share. */
module Loading {
  import opened Wrappers

  /**
   * A launched coroutine: queued, running (its opening state update done,
   * the remote call pending), or finished.
   */
  datatype Phase = Launched | Running | Finished

  const DefaultErrorMessage: string := "An error occurred"

  /** The text shown for a failure: its message, or the fallback when it has none. */
  function ErrorText(message: Option<string>): (text: string)
    ensures message.Some? ==> text == message.value
    ensures message.None? ==> text == "An error occurred"
  {
    message.GetOr(DefaultErrorMessage)
  }
}
