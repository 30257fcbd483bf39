/** The exceptions the modelled code can raise: the library's own classes
    (src/aiowaqi/exceptions.py) and the Python built-in ones that an unexpected
    payload shape provokes inside the builders and the classifier. */
module Exceptions {

  datatype Exception =
    // Python built-ins
    | KeyError(key: string)           // a dict lookup `d[key]` whose key is missing
    | IndexError                      // `seq[i]` past the end
    | TypeError                       // subscripting, iterating or converting a value of the wrong type
    | AttributeError                  // `.get` or `.strip` on a value that has no such method
    | ValueError(message: string)     // the converters' range checks, and `int()` on a non-numeric string
    // src/aiowaqi/exceptions.py
    | WAQIError(message: string, contentType: string, response: string)
    | WAQIUnknownCityError(message: string)
    | WAQIAuthenticationError
    | WAQIUnknownStationError(message: string)
  {
    /** `isinstance(e, WAQIError)`: the generic class and its subclasses. */
    predicate IsWAQIError()
    {
      WAQIError? || WAQIUnknownCityError? || WAQIAuthenticationError? || WAQIUnknownStationError?
    }
  }
}
