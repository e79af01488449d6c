/** The chat message the target adapter forwards (targets/openai_compat.go).
    The HTTP call itself is a collaborator of the dialogue engine and is not
    modelled here. */
module Targets {

  /** Go spells the two roles "user" and "assistant". */
  datatype Role = User | Assistant

  datatype Message = Message(role: Role, content: string)
}
