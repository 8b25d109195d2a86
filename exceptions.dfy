/**
 * The exception hierarchy of the scraper (all subclasses of
 * BrowserScraperException) as a kind tag, plus the Option and Result
 * wrappers every other module uses for Python's None and raised errors.
 */
module Exceptions {

  /** The concrete exception classes raised by the core, and the Python
      built-in errors the core lets escape. */
  datatype ErrorKind =
    | BrowserStartup
    | Navigation
    | ElementNotFound
    | Scraping
    | Configuration
    | Output
    | Timeout
    | Authentication
    | ValueError        // Python's ValueError
    | FileNotFound      // Python's FileNotFoundError
    | OsError           // any other OSError, such as IsADirectoryError
    | NoSuchElement     // Selenium's NoSuchElementException
    | DriverError       // any Selenium error that is not NoSuchElementException
    | LookupError       // Python's IndexError / KeyError / AttributeError / TypeError

  /** A raised exception: its class and its str(). */
  datatype Error = Error(kind: ErrorKind, message: string)

  datatype Option<+T> = None | Some(value: T)

  datatype Result<+T> = Ok(value: T) | Err(error: Error) {
    predicate IsFailure() { Err? }

    function PropagateFailure<U>(): Result<U>
      requires Err?
    {
      Err(error)
    }

    function Extract(): T
      requires Ok?
    {
      value
    }
  }

  /** `raise Kind(f"{prefix}{str(cause)}")`: wraps a caught error under a
      new class, keeping the cause's message as the tail of the new one. */
  function Wrap(kind: ErrorKind, prefix: string, cause: Error): (e: Error)
    ensures e.kind == kind
    ensures |e.message| >= |prefix| && e.message[|prefix|..] == cause.message
    ensures e.message[..|prefix|] == prefix
  {
    Error(kind, prefix + cause.message)
  }
}
