/** Chat messages as the debate controller builds them. Prompt wording is not
    modelled: each fixed instruction text is a constructor, and the JSON
    serialisation of the transcript is the constructor `HistorySnapshot`,
    a deterministic and injective function of the entries it is given. */
module Prompts {
  import DebateHistory

  datatype Role = System | User | Assistant

  datatype PromptText =
    | ParticipantInstructions(date: string)
    | HistorySnapshot(entries: seq<DebateHistory.DebateEntry>)
    | Question(text: string)
    | ArbiterInstructions(date: string)
    | ConsensusRequest(entries: seq<DebateHistory.DebateEntry>)

  datatype CoreMessage = CoreMessage(role: Role, content: PromptText)
}
