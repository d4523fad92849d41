/** The transcript of one agent (mahilo/session.py), kept in memory. */
module Sessions {
  import opened Common

  /** One `{"content": ..., "role": ...}` entry. */
  datatype SessionMessage = SessionMessage(content: string, role: string)

  /** What loading the session file found: no file, its parsed lines, or a file that could
      not be read or parsed. */
  datatype SessionFile = Absent | Lines(messages: seq<SessionMessage>) | Unreadable

  /** `self.messages[-n:]`. */
  function LastN(messages: seq<SessionMessage>, n: int): (r: seq<SessionMessage>)
    ensures |r| <= |messages| && r == messages[|messages| - |r|..]
    ensures n >= 1 ==> |r| == if n <= |messages| then n else |messages|
    ensures n == 0 ==> r == messages
  {
    messages[SliceStart(|messages|, -n)..]
  }

  /** `get_last_n_messages`: the last `n`, widened to the last `n + 1` when that slice has an
      odd length above one. */
  function LastNPaired(messages: seq<SessionMessage>, n: int): (r: seq<SessionMessage>)
    ensures |r| <= |messages| && r == messages[|messages| - |r|..]
  {
    var m := LastN(messages, n);
    if |m| > 1 && |m| % 2 != 0 then LastN(messages, n + 1) else m
  }

  /** For `n >= 1` the result has `min(n, len)` entries, or `min(n + 1, len)` when the
      first is odd and above one; with more than `n` messages and `n >= 2` that count is
      even. */
  lemma LastNPairedLength(messages: seq<SessionMessage>, n: int)
    requires n >= 1
    ensures var m := if n <= |messages| then n else |messages|;
      |LastNPaired(messages, n)| == if m > 1 && m % 2 != 0 then (if n + 1 <= |messages| then n + 1 else |messages|) else m
    ensures 2 <= n < |messages| ==> |LastNPaired(messages, n)| % 2 == 0
  {
  }

  /** `n = 0` slices from index 0: the whole list, except that an odd list longer than one
      falls back to `[-1:]`, its last message alone. */
  lemma LastNPairedZero(messages: seq<SessionMessage>)
    ensures |messages| <= 1 || |messages| % 2 == 0 ==> LastNPaired(messages, 0) == messages
    ensures |messages| > 1 && |messages| % 2 != 0 ==> LastNPaired(messages, 0) == [messages[|messages| - 1]]
  {
  }

  /** A POSIX path starting at the root. */
  predicate IsAbsolute(p: string) {
    |p| > 0 && p[0] == '/'
  }

  /** `os.path.join(a, b)` on POSIX paths: an absolute `b` discards `a`; otherwise a separator
      is inserted unless `a` is empty or already ends with one. */
  function PathJoin(a: string, b: string): (path: string)
    ensures IsAbsolute(b) ==> path == b
    ensures |b| <= |path|
    ensures !IsAbsolute(b) ==> StartsWith(path, a) && path[|path| - |b|..] == b
    ensures !IsAbsolute(b) && a != [] ==> |b| < |path| && path[|path| - |b| - 1] == '/'
  {
    if IsAbsolute(b) then b
    else
      var sep := if a == [] || a[|a| - 1] == '/' then "" else "/";
      var path := a + sep + b;
      assert path[..|a|] == a && path[|a| + |sep|..] == b;
      assert a != [] ==> path[|a| + |sep| - 1] == '/' by {
        if a != [] && sep == "" { assert path[|a| - 1] == a[|a| - 1]; }
      }
      path
  }

  /** The directory the session files of a server live in: `sessions/<server_id>`, or
      `sessions` when no (or an empty) server id is given. */
  function SessionDir(serverId: Option<string>): (dir: string)
    ensures |dir| >= 8 && dir[..8] == "sessions"
  {
    if serverId.Some? && serverId.value != "" then "sessions/" + serverId.value else "sessions"
  }

  /** `f"{agent_name}.json"`, absolute exactly when the agent name is. */
  function SessionFileName(agentName: string): (f: string)
    ensures |f| == |agentName| + 5
    ensures IsAbsolute(f) <==> IsAbsolute(agentName)
  {
    agentName + ".json"
  }

  /** The session file of an agent: `<agent_name>.json` inside the server's directory, unless
      the agent name is an absolute path, which `os.path.join` keeps on its own. */
  function SessionPath(agentName: string, serverId: Option<string>): (path: string)
    ensures IsAbsolute(agentName) ==> path == SessionFileName(agentName)
    ensures !IsAbsolute(agentName) ==> StartsWith(path, "sessions") && StartsWith(path, SessionDir(serverId))
    ensures !IsAbsolute(agentName) ==>
      |agentName| + 6 <= |path| && path[|path| - |agentName| - 6..] == "/" + SessionFileName(agentName)
  {
    var dir, file := SessionDir(serverId), SessionFileName(agentName);
    var path := PathJoin(dir, file);
    assert !IsAbsolute(file) ==> StartsWith(path, "sessions") && path[|path| - |file| - 1..] == "/" + file by {
      if !IsAbsolute(file) {
        RelativeJoin(dir, file, path);
      }
    }
    path
  }

  /** Joining a relative file name onto a directory under `sessions` keeps the `sessions`
      prefix and puts a separator right before the file name. */
  lemma RelativeJoin(dir: string, file: string, path: string)
    requires |dir| >= 8 && dir[..8] == "sessions"
    requires StartsWith(path, dir) && |file| < |path|
    requires path[|path| - |file|..] == file && path[|path| - |file| - 1] == '/'
    ensures StartsWith(path, "sessions")
    ensures path[|path| - |file| - 1..] == "/" + file
  {
    assert path[..8] == path[..|dir|][..8];
    assert path[|path| - |file| - 1..] == [path[|path| - |file| - 1]] + path[|path| - |file|..];
  }

  /** A plain name lands in the server's directory. */
  lemma PlainNameInServerDir()
    ensures SessionPath("planner", Some("s1")) == "sessions/s1/planner.json"
  {
    assert SessionDir(Some("s1")) == "sessions/s1";
    assert PathJoin("sessions/s1", "planner.json") == "sessions/s1/planner.json";
  }

  /** An absolute agent name escapes the sessions directory. */
  lemma AbsoluteNameEscapes()
    ensures SessionPath("/tmp/a", Some("s1")) == "/tmp/a.json"
  {
    assert IsAbsolute("/tmp/a");
    assert SessionFileName("/tmp/a") == "/tmp/a.json";
  }

  class Session {
    const agentName: string
    const filePath: string
    var messages: seq<SessionMessage>

    /** `__init__` followed by `load_messages`: the file's messages when it parses, an empty
        list when it is absent or fails to load. */
    constructor (agentName: string, serverId: Option<string>, file: SessionFile)
      ensures this.agentName == agentName && filePath == SessionPath(agentName, serverId)
      ensures messages == if file.Lines? then file.messages else []
    {
      this.agentName := agentName;
      filePath := SessionPath(agentName, serverId);
      messages := if file.Lines? then file.messages else [];
    }

    /** `add_message`: appends one entry at the end. */
    method AddMessage(message: string, sender: string)
      modifies this
      ensures messages == old(messages) + [SessionMessage(message, sender)]
      ensures messages[..|old(messages)|] == old(messages)
    {
      messages := messages + [SessionMessage(message, sender)];
    }

    /** `update_and_replace_messages`. */
    method UpdateAndReplaceMessages(replacement: seq<SessionMessage>)
      modifies this
      ensures messages == replacement
    {
      messages := replacement;
    }

    /** `get_last_n_messages`: a suffix of the transcript. */
    function GetLastNMessages(n: int): (r: seq<SessionMessage>)
      reads this
      ensures |r| <= |messages| && r == messages[|messages| - |r|..]
      ensures n >= 1 && n <= |messages| ==> |r| == n || |r| == n + 1
    {
      LastNPairedLength(messages, if n >= 1 then n else 1);
      LastNPaired(messages, n)
    }
  }
}
