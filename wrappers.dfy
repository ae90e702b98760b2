/** Option and Result, used for the host's "maybe absent" values and thrown errors. */
module Wrappers {
  datatype Option<+T> = None | Some(value: T)

  datatype Result<+R, +E> = Success(value: R) | Failure(error: E) {
    function ToOption(): (o: Option<R>)
      ensures o.Some? <==> this.Success?
      ensures o.Some? ==> o.value == this.value
    {
      match this
      case Success(v) => Some(v)
      case Failure(_) => None
    }
  }
}
