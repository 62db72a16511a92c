/** `showStatusMessage(message, isError)` (script.js:126-137): the handlers'
    observable result on the status line is the message and whether it is shown
    as an error (red) or as normal text. */
module Status {
  datatype Message = Message(text: string, isError: bool)
}
