/** The earlier transcript class (session.py at the repository root). */
module LegacySessions {
  import opened Common
  import opened Sessions

  /** `load_messages`, which has no `try`: no messages when the file is absent, its lines
      when every one parses, and the exception otherwise. */
  function LoadMessages(filePath: string, file: SessionFile): (r: Result<seq<SessionMessage>>)
    ensures r.Err? <==> file.Unreadable?
    ensures r.Err? ==> r.failure == SessionLoadError(filePath)
    ensures r.Ok? ==> r.value == if file.Lines? then file.messages else []
  {
    match file
    case Absent => Ok([])
    case Lines(messages) => Ok(messages)
    case Unreadable => Err(SessionLoadError(filePath))
  }

  /** The file the legacy session reads and writes, in the working directory. */
  function SessionFileOf(agentType: string): string {
    agentType + ".json"
  }

  class LegacySession {
    const agentId: string
    const filePath: string
    var messages: seq<SessionMessage>

    /** `__init__` once `load_messages` has returned `loaded`: the path is `<type>.json`. A
        load that raises never reaches here; `LoadMessages` states when that happens. */
    constructor (agentType: string, loaded: seq<SessionMessage>)
      ensures agentId == agentType && filePath == SessionFileOf(agentType)
      ensures messages == loaded
    {
      agentId := agentType;
      filePath := SessionFileOf(agentType);
      messages := loaded;
    }

    method AddMessage(message: string, sender: string)
      modifies this
      ensures messages == old(messages) + [SessionMessage(message, sender)]
    {
      messages := messages + [SessionMessage(message, sender)];
    }

    method UpdateAndReplaceMessages(replacement: seq<SessionMessage>)
      modifies this
      ensures messages == replacement
    {
      messages := replacement;
    }

    /** `self.messages[-n:]`: the last `min(n, len)` messages for `n >= 1`, the whole list for
        `n == 0`. */
    function GetLastNMessages(n: int): (r: seq<SessionMessage>)
      reads this
      ensures |r| <= |messages| && r == messages[|messages| - |r|..]
      ensures n >= 1 ==> |r| == if n <= |messages| then n else |messages|
      ensures n == 0 ==> r == messages
    {
      LastN(messages, n)
    }
  }
}
