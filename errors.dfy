/**
 * Shared result types of the SDK model.  Go returns `(value, error)` pairs and
 * `nil` results; the model uses `Result` for the first and `Option` for the second.
 */
module Errors {

  datatype Option<+T> = None | Some(value: T)

  datatype Result<+T> = Ok(value: T) | Err(error: Error)

  /** How a customer-service send failed (message.IsBreakError / IsCMsgCommonError). */
  datatype SendErrorKind = BreakKind | CommonKind | OtherKind

  /**
   * The error values the core produces or passes through.  Messages that the
   * Go code formats with `fmt.Errorf` keep their distinguishing arguments.
   */
  datatype Error =
    | StoreFault(key: string)              // the key-value backend failed on this key
    | DecodeFault(key: string)             // the bytes under this key do not decode into the record
    | AppStoreFault(appid: string)         // the app-info store failed
    | RemoteFault(code: int, msg: string)  // the remote platform or its transport failed
    | TicketEmpty(component: string)       // "component %s: verify ticket is empty"
    | Unauthorized(appid: string)          // "%s unauthorized or access token missing"
    | AlreadyResponded                     // "cannot respone: ... already response: ..."
    | ReplyFault(msg: string)              // serialising, encrypting or writing a reply failed
    | ParseFault(msg: string)              // MarshalEvent / MarshalTextMessage failed
    | SendFault(kind: SendErrorKind, msg: string)  // one customer-service send failed
    | PublisherFault(text: string)         // BaseResp.IsError message
    | NilDereference(field: string)        // Go dereferences this nil field and panics
}
