/** The kinds of endpoint a host exposes. */
module EndpointKinds {
  datatype Kind = Receive | Send | StreamReceive | StreamSend | Topic
}
