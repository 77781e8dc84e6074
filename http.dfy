/** The outcome of an HTTP request, as the components observe it. The requests
    themselves are not modelled: a handler receives the outcome as a parameter. */
module Http {

  /** What an `axios` call ends with: a response status, or a transport failure. */
  datatype AxiosOutcome = Received(status: int) | NetworkError

  /** `axios` rejects its promise, and so throws at the `await`, on a transport
      failure and on every status outside 200-299. */
  predicate Rejected(o: AxiosOutcome)
  {
    o.NetworkError? || !(200 <= o.status < 300)
  }
}
