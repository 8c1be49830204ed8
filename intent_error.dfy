/** The errors the task intents throw (Swift `IntentError`). */
module IntentError {

  datatype IntentError = AppNotReady | TaskNotFound | OperationFailed
}
