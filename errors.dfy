/** The ways an operation of the service ends with an exception. */
module Errors {

  datatype Error =
    | ManagerExists(name: string)       // register: the name is already in `managers`
    | NoConnectionConfig(name: string)  // register: no (or an empty) connection configuration
    | ManagerNotFound(name: string)     // Connection(name): the name is not in `managers`
    | NullReceiver                      // a method called on a current field that is null
    | Transport                         // a call into the AMQP library threw
    | QueueNameNotString                // queue_declare gave no name for the declared `string` return type
    | ManagersNotArray                  // getManagers: the property is null for the declared `array` return type
    | NoInstance                        // `new $connection["instance"]` threw

  datatype Result<+T> = Ok(value: T) | Err(error: Error)
}
