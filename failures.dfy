/**
 * The Java exceptions that the supervisor and the worker factory catch, throw
 * or wrap, cut down to what the catch clauses distinguish.
 */
module Failures {

  datatype Option<+T> = None | Some(value: T)

  /** Which class of the java.rmi.RemoteException family an exception is. */
  datatype RemoteKind =
    | PlainRemote      // java.rmi.RemoteException itself
    | ConnectFailure   // java.rmi.ConnectException
    | ConnectIOFailure // java.rmi.ConnectIOException

  /** A java.lang.Throwable: an Exception, or an Error (which no catch clause here handles). */
  datatype Throwable = Raised(exception: Exception) | JavaError(message: string)

  datatype Exception =
    | RemoteException(kind: RemoteKind, message: string, cause: Option<Throwable>)
    | NotBoundException(name: string)
    | AlreadyBoundException(name: string)
    | InterruptedException
    | RuntimeException(message: string)
    | NoCreateException(message: string)
    | PlainException(message: string)   // java.lang.Exception, IOException and other checked ones

  /** The failures that `catch (ConnectException | ConnectIOException e)` catches. */
  predicate IsConnectionFailure(e: Exception): (b: bool)
    ensures b ==> e.RemoteException?
    ensures e.RemoteException? && e.kind == PlainRemote ==> !b
  {
    e.RemoteException? && e.kind != PlainRemote
  }

  /** How a void Java method ends: normally, or by throwing. */
  datatype Outcome = Normal | Thrown(error: Exception)

  /** How a value-returning Java method ends. */
  datatype Result<+T> = Returned(value: T) | Threw(error: Exception)
}
