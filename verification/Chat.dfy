/** Chat messages as the compactor sees them (src/domain/gateway/models.py, lines 11-43). */
module Chat {
  import opened Texts

  datatype Role = System | User | Assistant | Tool | SkillProposal | Note

  /** `argText` is str(arguments), of which only the length is ever used. */
  datatype ToolCall = ToolCall(id: string, name: string, argText: string)

  datatype Message = Message(
    role: Role, content: string, toolCalls: seq<ToolCall>, toolCallId: Option<string>, name: string)

  function RoleValue(r: Role): string {
    match r
    case System => "system"
    case User => "user"
    case Assistant => "assistant"
    case Tool => "tool"
    case SkillProposal => "skill_proposal"
    case Note => "note"
  }

  function RoleLabel(r: Role): string {
    match r
    case System => "System"
    case User => "User"
    case Assistant => "Assistant"
    case Tool => "Tool"
    case SkillProposal => "Skill_proposal"
    case Note => "Note"
  }

  function Plain(role: Role, content: string): Message {
    Message(role, content, [], None, "")
  }
}
