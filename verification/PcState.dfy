/** The atomic that a producer and a consumer of one result meet on. */
module ProducerConsumer {

  // The values of m_pc_state.
  datatype PcState = Idle | ConsumerSet | ConsumerWaiting | ConsumerDone | ProducerDone
}
