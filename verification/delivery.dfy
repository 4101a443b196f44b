/**
 * The push-delivery transport as the handlers see it: what is handed to it,
 * and what it reports back. The transport itself is not modelled.
 */
module Delivery {
  import opened Base
  import opened Messages

  datatype Priority = High | Normal

  /** Delivery options handed to the transport; None is an option left unset. */
  datatype SendOptions = SendOptions(priority: Option<Priority>, timeToLive: Option<nat>)

  /** Twenty-four hours, in seconds. */
  const OneDay: nat := 60 * 60 * 24

  const CreatedOptions: SendOptions := SendOptions(Some(High), Some(OneDay))
  const LowStockOptions: SendOptions := SendOptions(Some(High), None)
  const NoOptions: SendOptions := SendOptions(None, None)

  /** Per-call delivery counts reported by the transport. */
  datatype DispatchResult = DispatchResult(successCount: nat, failureCount: nat)

  /** A send either resolves with counts or throws an error carrying a message. */
  datatype SendOutcome = Ok(response: DispatchResult) | Err(message: string)

  /** Where a message goes: to a list of device tokens or to a topic. */
  datatype Target = Devices(tokens: seq<string>) | Topic(name: string)

  /** One call to the transport. */
  datatype Dispatch = Dispatch(target: Target, message: Message, options: SendOptions)
}
