// Connection limits (src/config.rs): the checks that admit a configuration and
// the arithmetic that the byte budgets and the write buffer rely on.
module Config {
  import opened Errors

  // 64-bit usize.
  const USIZE_MAX := 0xFFFF_FFFF_FFFF_FFFF
  const U32_MAX := 0xFFFF_FFFF

  type usize = x: int | 0 <= x <= USIZE_MAX

  // Semaphore::MAX_PERMITS on a 64-bit platform, three bits short of usize.
  const MAX_QUEUE_CAPACITY := 0x1FFF_FFFF_FFFF_FFFF
  const MAX_CONTROL_PAYLOAD_BYTES := 125
  const MAX_FRAME_HEADER_BYTES := 14
  const READ_BUFFER_BYTES := 16_384
  const WRITE_BUFFER_BYTES := 0

  datatype ConnectionConfig = ConnectionConfig(
    closeTimeout: nat,
    maxBufferedBytes: usize,
    maxMessageSize: usize,
    maxQueue: usize)

  datatype WebSocketConfig = WebSocketConfig(
    readBufferSize: usize,
    writeBufferSize: usize,
    maxWriteBufferSize: usize,
    maxMessageSize: usize,
    maxFrameSize: usize)

  datatype Parsed = Accepted(config: ConnectionConfig) | Rejected(error: DriverError)

  const DEFAULT := ConnectionConfig(10, 1_048_576, 1_048_576, 16)

  // What every accepted configuration guarantees to the driver.
  predicate Limits(c: ConnectionConfig) {
    && 0 < c.maxQueue <= MAX_QUEUE_CAPACITY
    && 0 < c.maxMessageSize <= c.maxBufferedBytes <= U32_MAX
    && 0 < c.closeTimeout
  }

  // closeTimeout is None when the requested number of seconds is not a
  // representable duration (negative, not finite or too large).
  function New(maxQueue: usize, maxMessageSize: usize, maxBufferedBytes: usize, closeTimeout: Option<nat>): (r: Parsed)
    ensures r.Accepted? <==>
      && closeTimeout.Some?
      && Limits(ConnectionConfig(closeTimeout.value, maxBufferedBytes, maxMessageSize, maxQueue))
    ensures r.Rejected? ==> r.error.ResourceLimit?
    ensures r.Accepted? ==> r.config.maxQueue == maxQueue && r.config.maxMessageSize == maxMessageSize
    ensures r.Accepted? ==> r.config.maxBufferedBytes == maxBufferedBytes && Some(r.config.closeTimeout) == closeTimeout
  {
    if maxQueue == 0 then
      Rejected(ResourceLimit("max_queue must be greater than zero"))
    else if maxQueue > MAX_QUEUE_CAPACITY then
      Rejected(ResourceLimit("max_queue must not exceed the channel capacity"))
    else if maxMessageSize == 0 then
      Rejected(ResourceLimit("max_message_size must be greater than zero"))
    else if maxBufferedBytes < maxMessageSize then
      Rejected(ResourceLimit("max_buffered_bytes must be at least max_message_size"))
    else if maxBufferedBytes > U32_MAX then
      Rejected(ResourceLimit("max_buffered_bytes must not exceed u32::MAX"))
    else if closeTimeout.None? || closeTimeout.value == 0 then
      Rejected(ResourceLimit("close_timeout must be a finite number greater than zero"))
    else
      Accepted(ConnectionConfig(closeTimeout.value, maxBufferedBytes, maxMessageSize, maxQueue))
  }

  function Max(a: int, b: int): int { if a < b then b else a }

  // The addition is done in usize; Limits keeps it from wrapping.
  function ToWebSocketConfig(c: ConnectionConfig): (w: WebSocketConfig)
    requires Limits(c)
    ensures w.maxMessageSize == c.maxMessageSize && w.maxFrameSize == c.maxMessageSize
    ensures w.readBufferSize == 16_384 && w.writeBufferSize == 0
  {
    WebSocketConfig(
      READ_BUFFER_BYTES,
      WRITE_BUFFER_BYTES,
      Max(c.maxBufferedBytes, MAX_CONTROL_PAYLOAD_BYTES) + MAX_FRAME_HEADER_BYTES,
      c.maxMessageSize,
      c.maxMessageSize)
  }

  // Header length of one frame, section 5.2 of RFC 6455: two bytes, an extended
  // payload length of 0, 2 or 8 bytes, and a 4-byte masking key when masked.
  function HeaderBytes(payload: nat, masked: bool): nat {
    2 + (if payload <= 125 then 0 else if payload <= 0xFFFF then 2 else 8) + (if masked then 4 else 0)
  }

  function FrameBytes(payload: nat, masked: bool): nat {
    HeaderBytes(payload, masked) + payload
  }

  // From the accepted arguments to the wire: the u32 permit conversion never
  // fails, every admissible data frame and every control frame fits the write
  // buffer with its whole header, and the WebSocket library accepts a message or
  // frame of just the sizes the caller allowed.
  lemma AcceptedConfigFitsEveryFrame(
    maxQueue: usize, maxMessageSize: usize, maxBufferedBytes: usize, closeTimeout: Option<nat>,
    payload: nat, masked: bool)
    requires New(maxQueue, maxMessageSize, maxBufferedBytes, closeTimeout).Accepted?
    ensures var c := New(maxQueue, maxMessageSize, maxBufferedBytes, closeTimeout).config;
            var w := ToWebSocketConfig(c);
            && (payload <= c.maxMessageSize ==>
                  payload <= U32_MAX && payload <= c.maxBufferedBytes
                  && FrameBytes(payload, masked) <= w.maxWriteBufferSize)
            && (payload <= MAX_CONTROL_PAYLOAD_BYTES ==> FrameBytes(payload, masked) <= w.maxWriteBufferSize)
            && w.maxWriteBufferSize <= USIZE_MAX
            && (payload <= w.maxMessageSize <==> payload <= maxMessageSize)
            && (payload <= w.maxFrameSize <==> payload <= maxMessageSize)
  {
  }

  // The header allowance is exact: for every configuration whose messages can
  // need an 8-byte length, one byte less would not hold a masked frame that
  // fills the budget.
  lemma HeaderAllowanceIsTight(c: ConnectionConfig)
    requires Limits(c) && c.maxMessageSize == c.maxBufferedBytes
    ensures FrameBytes(c.maxMessageSize, true) == ToWebSocketConfig(c).maxWriteBufferSize <==> c.maxMessageSize > 0xFFFF
  {
  }
}
