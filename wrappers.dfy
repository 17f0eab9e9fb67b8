/** Option and Result, the failure-carrying datatypes used throughout the model.
    Option.None stands for Python's `None` where a field may be absent;
    Result.Err stands for an exception that propagates out of an operation. */
module Wrappers {

  datatype Option<+T> = None | Some(value: T)

  datatype Result<+T, +E> = Ok(value: T) | Err(error: E)

  /** The exceptions the modelled code raises or lets propagate. */
  datatype Error =
    | ValueError(msg: string)        // raise ValueError(...)
    | TypeError(msg: string)         // raise TypeError(...)
    | AssertionError(msg: string)    // a failed `assert` in the driver
    | AttributeError(msg: string)    // attribute read on None, or an attribute never set
    | ChannelWrongState              // the driver refuses an operation on a closed channel
    | BrokerError(msg: string)       // any other driver exception, propagated unchanged
    | ChannelClosedByBroker(replyCode: int) // the broker refused an operation and closed the channel
    | SerializationError(msg: string)// the serializer raised
    | HandlerError(msg: string)      // a user callback raised
    | RetriesExhausted               // the bounded model of connect's unbounded retry ran out
}
