/** The structured answer the pipeline asks the language model for (`TicketResponse` in config.py). */
module Config {

  /** `action_required` is a free string here, exactly as the record declares it; nothing
    * restricts it to the action list the prompt advertises. */
  datatype TicketResponse = TicketResponse(answer: string, references: seq<string>, actionRequired: string)

  /** The record's field names, in declaration order. */
  const TicketResponseFields: seq<string> := ["answer", "references", "action_required"]
}
