/** Option and Result values, and the kinds of .NET exceptions the gateway can raise. */
module Wrappers {

  /** A nullable value (a C# reference or `Nullable<T>`). */
  datatype Option<+T> = None | Some(value: T)

  /** The .NET exception kinds that the modelled code throws or lets through. */
  datatype Exception =
    | HttpRequest          // a non-success upstream response read with GetFromJsonAsync
    | Json                 // a body that System.Text.Json cannot bind
    | KeyNotFound          // Dictionary indexer or JsonElement.GetProperty on a missing key
    | DuplicateKey         // Dictionary.Add / ToDictionary on a key already present
    | NullReference        // a member access on null
    | InvalidOperation     // Queue.Dequeue on an empty queue, GetInt32 on a non-number
    | Argument             // ArgumentException (blank configuration value, cache already namespaced)
    | ArgumentOutOfRange   // a List index past its end, an undefined enum value
    | NotImplemented       // BaseApplianceConverter.Write
    | Format               // int.Parse / DateTime.ParseExact on a malformed string
    | Overflow             // int.Parse outside the 32-bit range
    | Failure(message: string) // a plain `throw new Exception(message)`

  /** The outcome of an operation that either returns a value or throws. */
  datatype Result<+T> = Ok(value: T) | Err(error: Exception)
}
