/** Optional values, the coordinator's error taxonomy, and step outcomes. */
module Outcomes {

  datatype Option<+T> = None | Some(value: T)

  /** Every way an operator action or a bus callback stops early. In the Python
      code each is an exception (or a 404 abort) raised at a definite point of the
      handler; whatever the handler changed before that point stays changed. */
  datatype Error =
    | NotFound                                  // get_or_404 / form validation: no such stored circuit
    | CountMismatch                             // create_route: sentries and cards differ in number
    | NotAnObject                               // payload.values() on a payload that is not a dict
    | WrongValueCount(expected: nat, got: nat)  // positional unpacking of payload.values()
    | NotANumber                                // datetime.fromtimestamp on a non-number
    | NotAString                                // .upper() on a value that is not a str
    | NotAList                                  // ALARMS.append when ALARMS is not a list

  /** How one operation ended. */
  datatype Outcome = Ok | Failed(error: Error)

  datatype Result<+T> = Success(value: T) | Failure(error: Error)
}
