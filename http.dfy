/** The one piece of HTTP behaviour the bot depends on: which replies `requests` turns into exceptions. */
module Http {

  /** The outcome of one `requests` call: no reply at all (the call itself raised), or a status and a body. */
  datatype Reply<T> = NoReply | Reply(status: int, body: T)

  /** `Response.raise_for_status()` raises for the client and server error codes, 400 to 599. */
  predicate IsErrorStatus(status: int)
  {
    400 <= status < 600
  }

  /** The call raised, or its reply makes `raise_for_status()` raise. */
  predicate Raises<T>(r: Reply<T>)
  {
    r.NoReply? || IsErrorStatus(r.status)
  }
}
